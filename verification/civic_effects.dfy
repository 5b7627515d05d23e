/** What a commit does, told without the samples. Each operation is an atomic guarded step on the current
    database whose guards are only those parts of the operation's checks that outlive a stale read. */
module CivicEffects {
  import opened Outcomes
  import opened CivicDomain
  import opened CivicTables
  import opened CivicProtocol
  import opened CivicEvolution
  import opened Durations

  ghost predicate CampaignCreated(q: Request, now: Time, cur: World, db: Db)
    requires q.CreateCampaign?
  {
    var c := Campaign(q.id, Trim(q.code), Trim(q.title), Trim(q.theme), CampaignDraft, q.opensAt, q.closesAt, 1, now,
                      now);
    Trim(c.code) != "" && Trim(c.title) != "" && q.opensAt < q.closesAt && DoInsertCampaign(cur.db, c) == Ok(db)
  }

  ghost predicate PointAdded(q: Request, now: Time, cur: World, db: Db)
    requires q.AddCollectionPoint?
  {
    var p := CollectionPoint(q.id, q.campaignId, Trim(q.district), Trim(q.name), Trim(q.address), Trim(q.topic),
                             q.dailyQuota, PointPreparing, 1, None, now, now);
    q.campaignId != "" && p.district != "" && p.name != "" && q.dailyQuota > 0 && DoInsertPoint(cur.db, p) == Ok(db)
  }

  ghost predicate PointActivated(q: Request, now: Time, cur: World, db: Db)
    requires q.ActivateCollectionPoint?
  {
    var id := q.pointId;
    id in cur.db.points
    && var p := cur.db.points[id];
       (p.status == PointPreparing || p.status == PointPaused)
       && p.campaignId in cur.db.campaigns
       && db == cur.db.(points := cur.db.points[id := p.(status := PointActive, activatedAt := Some(now),
                                                         updatedAt := now, version := p.version + 1)])
  }

  ghost predicate CampaignMoved(q: Request, now: Time, cur: World, db: Db)
    requires q.TransitionCampaign?
  {
    var id, to := q.campaignId, q.toCampaign;
    id in cur.db.campaigns
    && var c := cur.db.campaigns[id];
       (to == CampaignOpen ==> c.status == CampaignDraft) && (to == CampaignReview ==> c.status == CampaignOpen)
       && (to == CampaignClosed ==> c.status == CampaignReview) && to != CampaignDraft
       && (to == CampaignOpen || to == CampaignReview ==> HasActivePoint(cur.db, id))
       && db == cur.db.(campaigns := cur.db.campaigns[id := c.(status := to, version := c.version + 1,
                                                               updatedAt := now)])
  }

  ghost predicate AdvisorEnrolled(q: Request, now: Time, cur: World, db: Db)
    requires q.EnrollAdvisor?
  {
    var a := Advisor(q.id, q.campaignId, q.userId, q.displayName, q.expertise, q.districts, q.reviewQuota, true, 1,
                     now);
    q.campaignId != "" && q.userId != "" && q.displayName != "" && q.reviewQuota > 0 && |q.expertise| > 0
    && DoInsertAdvisor(cur.db, a) == Ok(db)
  }

  /** The campaign had opened and its window contains the acceptance time; by now it may have closed. */
  ghost predicate IntakeLinked(q: Request, now: Time, cur: World, db: Db)
    requires q.IntakeSuggestion?
  {
    q.campaignId in cur.db.campaigns && q.pointId in cur.db.points
    && var c, p := cur.db.campaigns[q.campaignId], cur.db.points[q.pointId];
       c.status != CampaignDraft && c.opensAt <= now < c.closesAt
       && p.campaignId == q.campaignId && p.status == PointActive
       && DoInsertIntake(cur.db, Intake(q.id, q.suggestionId, q.campaignId, q.pointId, q.key, q.source, now)) == Ok(db)
  }

  ghost predicate ReviewAssigned(q: Request, now: Time, cur: World, db: Db)
    requires q.AssignReview?
  {
    q.advisorId in cur.db.advisors && cur.db.advisors[q.advisorId].active
    && DoInsertReview(cur.db, Review(q.id, q.suggestionId, q.advisorId, q.panelKey, ReviewPending, "", 1, now, None))
        == Ok(db)
  }

  ghost predicate ReviewDecided(q: Request, now: Time, cur: World, db: Db)
    requires q.DecideReview?
  {
    var id := q.reviewId;
    id in cur.db.reviews
    && var r := cur.db.reviews[id];
       r.verdict == ReviewPending && q.verdict != ReviewPending && Trim(q.notes) != ""
       && db == cur.db.(reviews := cur.db.reviews[id := r.(verdict := q.verdict, notes := q.notes,
                                                           reviewedAt := Some(now), version := r.version + 1)])
  }

  ghost predicate PlanCreated(q: Request, now: Time, cur: World, db: Db)
    requires q.CreateHandlingPlan?
  {
    q.reviewId in cur.db.reviews
    && cur.db.reviews[q.reviewId].suggestionId == q.suggestionId
    && cur.db.reviews[q.reviewId].verdict == ReviewAccepted
    && DoInsertPlan(cur.db, HandlingPlan(q.id, q.suggestionId, q.reviewId, q.department, q.commitment,
                                         HandlingProposed, q.key, q.dueAt, 1, now, now)) == Ok(db)
  }

  ghost predicate PlanMoved(q: Request, now: Time, cur: World, db: Db)
    requires q.TransitionHandlingPlan?
  {
    var id := q.planId;
    id in cur.db.plans
    && var p := cur.db.plans[id];
       (q.toPlan == HandlingAccepted ==> p.status == HandlingProposed)
       && (q.toPlan == HandlingImplementing ==> p.status == HandlingAccepted)
       && (q.toPlan == HandlingCompleted ==> p.status == HandlingImplementing)
       && (q.toPlan == HandlingCancelled ==> p.status != HandlingCompleted && p.status != HandlingCancelled)
       && q.toPlan != HandlingProposed
       && db == cur.db.(plans := cur.db.plans[id := p.(status := q.toPlan, version := p.version + 1, updatedAt := now)])
  }

  ghost predicate ConversionProposedFor(q: Request, now: Time, cur: World, db: Db)
    requires q.ProposeConversion?
  {
    q.planId in cur.db.plans
    && cur.db.plans[q.planId].suggestionId == q.suggestionId
    && cur.db.plans[q.planId].status == HandlingCompleted
    && DoInsertConversion(cur.db, Conversion(q.id, q.suggestionId, q.planId, ConversionProposed, q.benefitScope,
                                             q.evidenceRef, "", 1, now, None, None)) == Ok(db)
  }

  ghost predicate ConversionMoved(q: Request, now: Time, cur: World, db: Db)
    requires q.VerifyConversion?
  {
    exists id :: id in cur.db.conversions
      && var o := cur.db.conversions[id];
         o.suggestionId == q.suggestionId
         && (o.status == ConversionProposed || o.status == ConversionVerified)
         && db == cur.db.(conversions := cur.db.conversions[id := o.(
              status := if q.publish then ConversionPublished else ConversionVerified,
              reviewer := if o.status == ConversionProposed then q.reviewer else o.reviewer,
              verifiedAt := if o.status == ConversionProposed then Some(now) else o.verifiedAt,
              publishedAt := if q.publish then Some(now) else o.publishedAt, version := o.version + 1)])
  }

  ghost predicate FeedbackQueuedFor(q: Request, now: Time, cur: World, db: Db)
    requires q.QueueFeedback?
  {
    (exists id :: id in cur.db.conversions && cur.db.conversions[id].suggestionId == q.suggestionId
                  && cur.db.conversions[id].status == ConversionPublished)
    && now <= cur.clock
    && var r := Receipt(q.id, q.suggestionId, q.citizenHash, q.channel, FeedbackQueued, 0, now, None, "", 1, now, now);
       var e := OutboxEvent(q.eventId, q.suggestionId, OutboxPending, 0, 1, now, None, FeedbackKey(q.id), now, now);
       MayInsertReceipt(cur.db, r) && MayInsertEvent(cur.db, e)
       && db == cur.db.(receipts := cur.db.receipts[r.id := r], outbox := cur.db.outbox[e.id := e])
  }

  ghost predicate FeedbackClaimed(q: Request, now: Time, cur: World, db: Db)
    requires q.ClaimFeedback?
  {
    var id := q.receiptId;
    id in cur.db.receipts && now <= cur.clock
    && var r := cur.db.receipts[id];
       r.status == FeedbackQueued && r.nextAttemptAt <= now
       && (r.leaseUntil.Some? ==> r.leaseUntil.value < now)
       && db == cur.db.(receipts := cur.db.receipts[id := r.(status := FeedbackDelivering,
            leaseUntil := Some(now + q.lease), version := r.version + 1, updatedAt := now)])
  }

  ghost predicate FeedbackCompleted(q: Request, now: Time, cur: World, db: Db)
    requires q.CompleteFeedback?
  {
    var id := q.receiptId;
    id in cur.db.receipts && now <= cur.clock
    && var r := cur.db.receipts[id];
       r.status == FeedbackDelivering && r.updatedAt <= now
       && var failed, again := q.deliveryError.Some?, r.attempt + 1 < q.maxAttempts;
          db == cur.db.(receipts := cur.db.receipts[id := r.(
            status := if !failed then FeedbackDelivered else if again then FeedbackQueued else FeedbackPermanentFailed,
            attempt := if failed then r.attempt + 1 else r.attempt,
            nextAttemptAt := if failed && again then now + Delay(q.baseBackoff, r.attempt + 1, 8) else r.nextAttemptAt,
            leaseUntil := None, lastError := if failed then q.deliveryError.value else "", version := r.version + 1,
            updatedAt := now)])
  }

  ghost predicate OutboxClaimed(q: Request, now: Time, cur: World, db: Db)
    requires q.ClaimOutbox?
  {
    var id := q.eventId;
    id in cur.db.outbox && now <= cur.clock
    && var e := cur.db.outbox[id];
       (e.status == OutboxPending || e.status == OutboxFailed) && e.availableAt <= now
       && (e.leaseUntil.Some? ==> e.leaseUntil.value < now)
       && db == cur.db.(outbox := cur.db.outbox[id := e.(status := OutboxProcessing,
            leaseUntil := Some(now + q.lease), updatedAt := now, version := e.version + 1)])
  }

  ghost predicate OutboxCompleted(q: Request, now: Time, cur: World, db: Db)
    requires q.CompleteOutbox?
  {
    var id := q.eventId;
    id in cur.db.outbox && now <= cur.clock
    && var e := cur.db.outbox[id];
       e.status == OutboxProcessing && e.updatedAt <= now
       && var wait := if e.attempt + 1 < q.maxAttempts then Delay(q.backoff, e.attempt + 1, 8)
                      else 24 * 3_600_000_000_000;
          db == cur.db.(outbox := cur.db.outbox[id := e.(
            status := if q.publishFailed then OutboxFailed else OutboxPublished,
            attempt := if q.publishFailed then e.attempt + 1 else e.attempt,
            availableAt := if q.publishFailed then now + wait else e.availableAt,
            leaseUntil := None, version := e.version + 1, updatedAt := now)])
  }

  ghost predicate Effect(q: Request, now: Time, cur: World, db: Db) {
    if q.CreateCampaign? then CampaignCreated(q, now, cur, db)
    else if q.AddCollectionPoint? then PointAdded(q, now, cur, db)
    else if q.ActivateCollectionPoint? then PointActivated(q, now, cur, db)
    else if q.TransitionCampaign? then CampaignMoved(q, now, cur, db)
    else if q.EnrollAdvisor? then AdvisorEnrolled(q, now, cur, db)
    else if q.IntakeSuggestion? then IntakeLinked(q, now, cur, db)
    else if q.AssignReview? then ReviewAssigned(q, now, cur, db)
    else if q.DecideReview? then ReviewDecided(q, now, cur, db)
    else if q.CreateHandlingPlan? then PlanCreated(q, now, cur, db)
    else if q.TransitionHandlingPlan? then PlanMoved(q, now, cur, db)
    else if q.ProposeConversion? then ConversionProposedFor(q, now, cur, db)
    else if q.VerifyConversion? then ConversionMoved(q, now, cur, db)
    else if q.QueueFeedback? then FeedbackQueuedFor(q, now, cur, db)
    else if q.ClaimFeedback? then FeedbackClaimed(q, now, cur, db)
    else if q.CompleteFeedback? then FeedbackCompleted(q, now, cur, db)
    else if q.ClaimOutbox? then OutboxClaimed(q, now, cur, db)
    else OutboxCompleted(q, now, cur, db)
  }

  /** The clock reading that an operation writes into its row. */
  function Now(q: Request, s: Samples): Time {
    match q
    case ClaimFeedback(_, _) => s[0].clock
    case ClaimOutbox(_, _) => s[0].clock
    case ActivateCollectionPoint(_) => s[2].clock
    case TransitionCampaign(_, _) => s[2].clock
    case QueueFeedback(_, _, _, _, _) => s[2].clock
    case CreateHandlingPlan(_, _, _, _, _, _, _) => s[3].clock
    case ProposeConversion(_, _, _, _, _) => s[3].clock
    case IntakeSuggestion(_, _, _, _, _, _, _, _) => s[4].clock
    case AssignReview(_, _, _, _) => s[4].clock
    case _ => s[1].clock
  }

  lemma ActivatePointRefines(q: Request, s: Samples, cur: World, db: Db)
    requires q.ActivateCollectionPoint? && Stale(s, cur)
    requires Decide(q, s).Commit? && Apply(cur.db, Decide(q, s).w) == Ok(db)
    ensures PointActivated(q, s[2].clock, cur, db)
  {
    PastPoint(s, 0, cur, q.pointId);
    PastCampaign(s, 1, cur, s[0].db.points[q.pointId].campaignId);
  }

  lemma TransitionCampaignRefines(q: Request, s: Samples, cur: World, db: Db)
    requires q.TransitionCampaign? && Stale(s, cur)
    requires Decide(q, s).Commit? && Apply(cur.db, Decide(q, s).w) == Ok(db)
    ensures CampaignMoved(q, s[2].clock, cur, db)
  {
    PastCampaign(s, 0, cur, q.campaignId);
    if q.toCampaign == CampaignOpen || q.toCampaign == CampaignReview {
      PastActivePoint(s, 1, cur, q.campaignId);
    }
  }

  lemma IntakeRefines(q: Request, s: Samples, cur: World, db: Db)
    requires q.IntakeSuggestion? && Stale(s, cur)
    requires Decide(q, s).Commit? && Apply(cur.db, Decide(q, s).w) == Ok(db)
    ensures IntakeLinked(q, s[4].clock, cur, db)
  {
    PastCampaign(s, 3, cur, q.campaignId);
    PastPoint(s, 5, cur, q.pointId);
  }

  lemma AssignReviewRefines(q: Request, s: Samples, cur: World, db: Db)
    requires q.AssignReview? && Stale(s, cur)
    requires Decide(q, s).Commit? && Apply(cur.db, Decide(q, s).w) == Ok(db)
    ensures ReviewAssigned(q, s[4].clock, cur, db)
  {
    PastAdvisor(s, 1, cur, q.advisorId);
  }

  lemma DecideReviewRefines(q: Request, s: Samples, cur: World, db: Db)
    requires q.DecideReview? && Stale(s, cur)
    requires Decide(q, s).Commit? && Apply(cur.db, Decide(q, s).w) == Ok(db)
    ensures ReviewDecided(q, s[1].clock, cur, db)
  {
    PastReview(s, 0, cur, q.reviewId);
  }

  lemma CreatePlanRefines(q: Request, s: Samples, cur: World, db: Db)
    requires q.CreateHandlingPlan? && Stale(s, cur)
    requires Decide(q, s).Commit? && Apply(cur.db, Decide(q, s).w) == Ok(db)
    ensures PlanCreated(q, s[3].clock, cur, db)
  {
    PastReview(s, 1, cur, q.reviewId);
  }

  lemma TransitionPlanRefines(q: Request, s: Samples, cur: World, db: Db)
    requires q.TransitionHandlingPlan? && Stale(s, cur)
    requires Decide(q, s).Commit? && Apply(cur.db, Decide(q, s).w) == Ok(db)
    ensures PlanMoved(q, s[1].clock, cur, db)
  {
    PastPlan(s, 0, cur, q.planId);
  }

  lemma ProposeConversionRefines(q: Request, s: Samples, cur: World, db: Db)
    requires q.ProposeConversion? && Stale(s, cur)
    requires Decide(q, s).Commit? && Apply(cur.db, Decide(q, s).w) == Ok(db)
    ensures ConversionProposedFor(q, s[3].clock, cur, db)
  {
    PastPlan(s, 2, cur, q.planId);
  }

  lemma VerifyConversionWrites(q: Request, s: Samples) returns (id: Id)
    requires q.VerifyConversion? && Decide(q, s).Commit?
    ensures id in s[0].db.conversions && s[0].db.conversions[id].suggestionId == q.suggestionId
    ensures s[0].db.conversions[id].status == ConversionProposed || s[0].db.conversions[id].status == ConversionVerified
    ensures var o := s[0].db.conversions[id];
            Decide(q, s).w == UpdateConversion(Verified(o, q.reviewer, q.publish, s[1].clock), o.version)
  {
    id := ConversionOf(s[0].db, q.suggestionId).value;
  }

  lemma VerifyConversionRefines(q: Request, s: Samples, cur: World, db: Db)
    requires q.VerifyConversion? && Stale(s, cur)
    requires Decide(q, s).Commit? && Apply(cur.db, Decide(q, s).w) == Ok(db)
    ensures ConversionMoved(q, s[1].clock, cur, db)
  {
    var id := VerifyConversionWrites(q, s);
    hide Stale, Decide, ConversionOf, ConversionMoved;
    PastConversion(s, 0, cur, id);
    VerifiedIsMoved(q, s[1].clock, cur, id);
  }

  lemma VerifiedIsMoved(q: Request, now: Time, cur: World, id: Id)
    requires q.VerifyConversion? && id in cur.db.conversions && cur.db.conversions[id].suggestionId == q.suggestionId
    requires cur.db.conversions[id].status in {ConversionProposed, ConversionVerified}
    ensures var row := Verified(cur.db.conversions[id], q.reviewer, q.publish, now);
            ConversionMoved(q, now, cur, cur.db.(conversions := cur.db.conversions[id := row]))
  {
  }

  lemma QueueFeedbackRefines(q: Request, s: Samples, cur: World, db: Db)
    requires q.QueueFeedback? && Stale(s, cur)
    requires Decide(q, s).Commit? && Apply(cur.db, Decide(q, s).w) == Ok(db)
    ensures FeedbackQueuedFor(q, s[2].clock, cur, db)
  {
    PastConversion(s, 1, cur, ConversionOf(s[1].db, q.suggestionId).value);
    PastClock(s, 2, cur);
    var e := Decide(q, s).w.event;
    assert HasEventKey(cur.db.(receipts := db.receipts), e.key) == HasEventKey(cur.db, e.key);
  }

  lemma ClaimFeedbackWrites(q: Request, s: Samples)
    requires q.ClaimFeedback? && Decide(q, s).Commit?
    ensures q.receiptId in s[1].db.receipts && FeedbackReady(s[1].db.receipts[q.receiptId], s[0].clock)
    ensures var r := s[1].db.receipts[q.receiptId];
            Decide(q, s).w
            == UpdateReceipt(r.(status := FeedbackDelivering, leaseUntil := Some(s[0].clock + q.lease),
                                version := r.version + 1, updatedAt := s[0].clock), r.version)
  {
  }

  lemma ClaimFeedbackRefines(q: Request, s: Samples, cur: World, db: Db)
    requires q.ClaimFeedback? && Stale(s, cur)
    requires Decide(q, s).Commit? && Apply(cur.db, Decide(q, s).w) == Ok(db)
    ensures FeedbackClaimed(q, s[0].clock, cur, db)
  {
    hide Stale, Decide;
    ClaimFeedbackWrites(q, s);
    PastReceipt(s, 1, cur, q.receiptId);
    PastClock(s, 0, cur);
  }

  lemma CompleteFeedbackWrites(q: Request, s: Samples)
    requires q.CompleteFeedback? && Decide(q, s).Commit?
    ensures q.receiptId in s[0].db.receipts && s[0].db.receipts[q.receiptId].status == FeedbackDelivering
    ensures var r := s[0].db.receipts[q.receiptId];
            Decide(q, s).w
            == UpdateReceipt(Delivered(r, q.deliveryError, q.maxAttempts, q.baseBackoff, s[1].clock), r.version)
  {
  }

  lemma CompleteFeedbackRefines(q: Request, s: Samples, cur: World, db: Db)
    requires q.CompleteFeedback? && Stale(s, cur)
    requires Decide(q, s).Commit? && Apply(cur.db, Decide(q, s).w) == Ok(db)
    ensures FeedbackCompleted(q, s[1].clock, cur, db)
  {
    assert s[0].clock <= s[1].clock;
    CompleteFeedbackWrites(q, s);
    hide Stale, Decide, Delay;
    PastReceipt(s, 0, cur, q.receiptId);
    PastClock(s, 1, cur);
  }

  lemma ClaimOutboxWrites(q: Request, s: Samples)
    requires q.ClaimOutbox? && Decide(q, s).Commit?
    ensures q.eventId in s[1].db.outbox && OutboxReady(s[1].db.outbox[q.eventId], s[0].clock)
    ensures var e := s[1].db.outbox[q.eventId];
            Decide(q, s).w
            == UpdateEvent(e.(status := OutboxProcessing, leaseUntil := Some(s[0].clock + q.lease),
                              updatedAt := s[0].clock, version := e.version + 1), e.version)
  {
  }

  lemma ClaimOutboxRefines(q: Request, s: Samples, cur: World, db: Db)
    requires q.ClaimOutbox? && Stale(s, cur)
    requires Decide(q, s).Commit? && Apply(cur.db, Decide(q, s).w) == Ok(db)
    ensures OutboxClaimed(q, s[0].clock, cur, db)
  {
    hide Stale, Decide;
    ClaimOutboxWrites(q, s);
    PastEvent(s, 1, cur, q.eventId);
    PastClock(s, 0, cur);
  }

  lemma CompleteOutboxWrites(q: Request, s: Samples)
    requires q.CompleteOutbox? && Decide(q, s).Commit?
    ensures q.eventId in s[0].db.outbox && s[0].db.outbox[q.eventId].status == OutboxProcessing
    ensures var e := s[0].db.outbox[q.eventId];
            Decide(q, s).w
            == UpdateEvent(Published(e, q.publishFailed, q.maxAttempts, q.backoff, s[1].clock), e.version)
  {
  }

  lemma CompleteOutboxRefines(q: Request, s: Samples, cur: World, db: Db)
    requires q.CompleteOutbox? && Stale(s, cur)
    requires Decide(q, s).Commit? && Apply(cur.db, Decide(q, s).w) == Ok(db)
    ensures OutboxCompleted(q, s[1].clock, cur, db)
  {
    assert s[0].clock <= s[1].clock;
    CompleteOutboxWrites(q, s);
    hide Stale, Decide, Delay;
    PastEvent(s, 0, cur, q.eventId);
    PastClock(s, 1, cur);
  }

  /** The refinement at the bottom of every safety proof: whatever the interleaving and however old the
      samples, a successful commit is the operation's atomic effect on the database it meets. */
  lemma CommitRefinesEffect(q: Request, s: Samples, cur: World, db: Db)
    requires Stale(s, cur)
    requires Decide(q, s).Commit? && Apply(cur.db, Decide(q, s).w) == Ok(db)
    ensures Effect(q, Now(q, s), cur, db)
  {
    if q.ActivateCollectionPoint? { ActivatePointRefines(q, s, cur, db); }
    else if q.TransitionCampaign? { TransitionCampaignRefines(q, s, cur, db); }
    else if q.IntakeSuggestion? { IntakeRefines(q, s, cur, db); }
    else if q.AssignReview? { AssignReviewRefines(q, s, cur, db); }
    else if q.DecideReview? { DecideReviewRefines(q, s, cur, db); }
    else if q.CreateHandlingPlan? { CreatePlanRefines(q, s, cur, db); }
    else if q.TransitionHandlingPlan? { TransitionPlanRefines(q, s, cur, db); }
    else if q.ProposeConversion? { ProposeConversionRefines(q, s, cur, db); }
    else if q.VerifyConversion? { VerifyConversionRefines(q, s, cur, db); }
    else if q.QueueFeedback? { QueueFeedbackRefines(q, s, cur, db); }
    else if q.ClaimFeedback? { ClaimFeedbackRefines(q, s, cur, db); }
    else if q.CompleteFeedback? { CompleteFeedbackRefines(q, s, cur, db); }
    else if q.ClaimOutbox? { ClaimOutboxRefines(q, s, cur, db); }
    else if q.CompleteOutbox? { CompleteOutboxRefines(q, s, cur, db); }
  }

  /******* The operations by the tables they write *******/

  predicate WritesCampaigns(q: Request) {
    q.CreateCampaign? || q.TransitionCampaign?
  }

  predicate WritesPoints(q: Request) {
    q.AddCollectionPoint? || q.ActivateCollectionPoint?
  }

  predicate WritesReviews(q: Request) {
    q.AssignReview? || q.DecideReview?
  }

  predicate WritesPlans(q: Request) {
    q.CreateHandlingPlan? || q.TransitionHandlingPlan?
  }

  predicate WritesConversions(q: Request) {
    q.ProposeConversion? || q.VerifyConversion?
  }

  predicate WritesReceipts(q: Request) {
    q.QueueFeedback? || q.ClaimFeedback? || q.CompleteFeedback?
  }

  predicate WritesOutbox(q: Request) {
    q.QueueFeedback? || q.ClaimOutbox? || q.CompleteOutbox?
  }

  /** A table changes only when one of its writers runs. */
  predicate Framed(q: Request, a: Db, b: Db) {
    && b.items == a.items
    && (!WritesCampaigns(q) ==> b.campaigns == a.campaigns)
    && (!WritesPoints(q) ==> b.points == a.points)
    && (!q.EnrollAdvisor? ==> b.advisors == a.advisors)
    && (!q.IntakeSuggestion? ==> b.intakes == a.intakes)
    && (!WritesReviews(q) ==> b.reviews == a.reviews)
    && (!WritesPlans(q) ==> b.plans == a.plans)
    && (!WritesConversions(q) ==> b.conversions == a.conversions)
    && (!WritesReceipts(q) ==> b.receipts == a.receipts)
    && (!WritesOutbox(q) ==> b.outbox == a.outbox)
  }

  lemma CampaignFrame(q: Request, now: Time, cur: World, db: Db)
    requires WritesCampaigns(q) && Effect(q, now, cur, db)
    ensures Framed(q, cur.db, db)
  {
  }

  lemma PointFrame(q: Request, now: Time, cur: World, db: Db)
    requires WritesPoints(q) && Effect(q, now, cur, db)
    ensures Framed(q, cur.db, db)
  {
  }

  lemma CollectionFrame(q: Request, now: Time, cur: World, db: Db)
    requires (q.EnrollAdvisor? || q.IntakeSuggestion?) && Effect(q, now, cur, db)
    ensures Framed(q, cur.db, db)
  {
  }

  lemma ReviewFrame(q: Request, now: Time, cur: World, db: Db)
    requires WritesReviews(q) && Effect(q, now, cur, db)
    ensures Framed(q, cur.db, db)
  {
  }

  lemma PlanFrame(q: Request, now: Time, cur: World, db: Db)
    requires WritesPlans(q) && Effect(q, now, cur, db)
    ensures Framed(q, cur.db, db)
  {
  }

  lemma ConversionFrame(q: Request, now: Time, cur: World, db: Db)
    requires WritesConversions(q) && Effect(q, now, cur, db)
    ensures Framed(q, cur.db, db)
  {
  }

  lemma DeliveryFrame(q: Request, now: Time, cur: World, db: Db)
    requires (WritesReceipts(q) || WritesOutbox(q)) && Effect(q, now, cur, db)
    ensures Framed(q, cur.db, db)
  {
  }

  lemma EffectIsFramed(q: Request, now: Time, cur: World, db: Db)
    requires Effect(q, now, cur, db)
    ensures Framed(q, cur.db, db)
  {
    hide Effect, Framed;
    if WritesCampaigns(q) { CampaignFrame(q, now, cur, db); }
    else if WritesPoints(q) { PointFrame(q, now, cur, db); }
    else if q.EnrollAdvisor? || q.IntakeSuggestion? { CollectionFrame(q, now, cur, db); }
    else if WritesReviews(q) { ReviewFrame(q, now, cur, db); }
    else if WritesPlans(q) { PlanFrame(q, now, cur, db); }
    else if WritesConversions(q) { ConversionFrame(q, now, cur, db); }
    else { DeliveryFrame(q, now, cur, db); }
  }
}
