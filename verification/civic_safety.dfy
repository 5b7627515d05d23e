/** What holds of the civic tables in every world of every run. */
module CivicSafety {
  import opened Durations
  import opened CivicDomain
  import opened CivicTables
  import opened CivicProtocol
  import opened CivicEvolution
  import opened CivicEffects

  /** The version of a campaign counts its transitions, and it never leaves draft without coverage. */
  ghost predicate CampaignsSound(db: Db) {
    forall i :: i in db.campaigns ==>
      db.campaigns[i].version == 1 + Rank(db.campaigns[i].status)
      && (db.campaigns[i].status != CampaignDraft ==> HasActivePoint(db, i))
  }

  /** Codes are stored without surrounding white space, so a code that is taken cannot be taken again. */
  ghost predicate CodesTrimmed(db: Db) {
    forall i :: i in db.campaigns ==> Trim(db.campaigns[i].code) == db.campaigns[i].code
  }

  lemma {:induction false} TrimIsTrimmed(s: string)
    ensures Trim(Trim(s)) == Trim(s)
  {
    if |s| > 0 && IsSpace(s[0]) {
      TrimIsTrimmed(s[1..]);
    } else if |s| > 0 && IsSpace(s[|s| - 1]) {
      TrimIsTrimmed(s[..|s| - 1]);
    }
  }

  /** An intake belongs to an opened campaign, inside its public window, at one of its own active points. */
  ghost predicate IntakeSound(db: Db, n: Intake) {
    n.campaignId in db.campaigns && n.pointId in db.points
    && db.campaigns[n.campaignId].status != CampaignDraft
    && db.campaigns[n.campaignId].opensAt <= n.acceptedAt < db.campaigns[n.campaignId].closesAt
    && db.points[n.pointId].campaignId == n.campaignId && db.points[n.pointId].status == PointActive
  }

  ghost predicate IntakesSound(db: Db) {
    forall i :: i in db.intakes ==> IntakeSound(db, db.intakes[i])
  }

  /** No point takes more suggestions on one (trigger) day than its quota. */
  ghost predicate DailyQuotasHold(db: Db) {
    forall p, day :: p in db.points ==> |IntakesOn(db, p, day)| <= db.points[p].dailyQuota
  }

  /** No advisor has more pending reviews than their quota; no advisor is ever deactivated. */
  ghost predicate ReviewQuotasHold(db: Db) {
    forall a :: a in db.advisors ==>
      db.advisors[a].active && |PendingReviews(db, a)| <= db.advisors[a].reviewQuota
  }

  /** A plan rests on an accepted review of the same suggestion. */
  ghost predicate PlanFounded(db: Db, p: HandlingPlan) {
    p.reviewId in db.reviews && db.reviews[p.reviewId].suggestionId == p.suggestionId
    && db.reviews[p.reviewId].verdict == ReviewAccepted
  }

  /** A conversion rests on a completed plan of the same suggestion. */
  ghost predicate ConversionFounded(db: Db, o: Conversion) {
    o.planId in db.plans && db.plans[o.planId].suggestionId == o.suggestionId
    && db.plans[o.planId].status == HandlingCompleted
  }

  /** A receipt rests on a published conversion of the same suggestion. */
  ghost predicate ReceiptFounded(db: Db, r: Receipt) {
    exists i :: i in db.conversions && db.conversions[i].suggestionId == r.suggestionId
                && db.conversions[i].status == ConversionPublished
  }

  ghost predicate Founded(db: Db) {
    && (forall i :: i in db.plans ==> PlanFounded(db, db.plans[i]))
    && (forall i :: i in db.conversions ==> ConversionFounded(db, db.conversions[i]))
    && (forall i :: i in db.receipts ==> ReceiptFounded(db, db.receipts[i]))
  }

  ghost predicate ConversionsUnique(db: Db) {
    forall i, j :: i in db.conversions && j in db.conversions ==>
      db.conversions[i].suggestionId == db.conversions[j].suggestionId ==> i == j
  }

  ghost predicate ReceiptsHaveEvents(db: Db) {
    forall i :: i in db.receipts ==> HasEventKey(db, FeedbackKey(i))
  }

  ghost predicate EventHasReceipt(db: Db, e: OutboxEvent) {
    exists i :: i in db.receipts && e.key == FeedbackKey(i) && e.aggregateId == db.receipts[i].suggestionId
  }

  ghost predicate EventKeysUnique(db: Db) {
    forall e, f :: e in db.outbox && f in db.outbox ==> db.outbox[e].key == db.outbox[f].key ==> e == f
  }

  /** Receipts and outbox events correspond one to one through the idempotency key. */
  ghost predicate Paired(db: Db) {
    ReceiptsHaveEvents(db) && (forall e :: e in db.outbox ==> EventHasReceipt(db, db.outbox[e])) && EventKeysUnique(db)
  }

  /** A lease is set exactly while somebody holds the row. */
  ghost predicate LeasesSound(db: Db) {
    && (forall i :: i in db.receipts ==>
          (db.receipts[i].leaseUntil.Some? <==> db.receipts[i].status == FeedbackDelivering))
    && (forall i :: i in db.outbox ==>
          (db.outbox[i].leaseUntil.Some? <==> db.outbox[i].status == OutboxProcessing))
  }

  ghost predicate Safe(w: World) {
    && Keyed(w.db) && Timely(w)
    && CampaignsSound(w.db) && CodesTrimmed(w.db) && IntakesSound(w.db) && DailyQuotasHold(w.db)
    && ReviewQuotasHold(w.db)
    && ReviewersExist(w.db) && Founded(w.db) && ConversionsUnique(w.db) && Paired(w.db) && LeasesSound(w.db)
  }

  /******* What the writers of a table do to it *******/

  lemma CampaignsWritten(q: Request, now: Time, cur: World, db: Db)
    requires Keyed(cur.db) && WritesCampaigns(q) && Effect(q, now, cur, db)
    ensures Grows(cur.db.campaigns, db.campaigns, CampaignStep)
    ensures StoredUnder(db.campaigns, (r: Campaign) => r.id)
  {
  }

  lemma CampaignWritten(q: Request, now: Time, cur: World, db: Db, i: Id)
    requires CampaignsSound(cur.db) && CodesTrimmed(cur.db) && WritesCampaigns(q) && Effect(q, now, cur, db)
    requires i in db.campaigns
    ensures db.campaigns[i].version == 1 + Rank(db.campaigns[i].status)
    ensures db.campaigns[i].status != CampaignDraft ==> HasActivePoint(cur.db, i)
    ensures Trim(db.campaigns[i].code) == db.campaigns[i].code
  {
    if q.CreateCampaign? {
      TrimIsTrimmed(q.code);
    }
  }

  lemma PointsWritten(q: Request, now: Time, cur: World, db: Db)
    requires Keyed(cur.db) && WritesPoints(q) && Effect(q, now, cur, db)
    ensures Grows(cur.db.points, db.points, PointStep)
    ensures StoredUnder(db.points, (r: CollectionPoint) => r.id)
    ensures forall i :: i in db.points ==> db.points[i].dailyQuota > 0 || i in cur.db.points
  {
  }

  lemma PeopleWritten(q: Request, now: Time, cur: World, db: Db)
    requires Keyed(cur.db) && Effect(q, now, cur, db)
    ensures q.EnrollAdvisor? ==> Grows(cur.db.advisors, db.advisors, AdvisorStep)
    ensures q.EnrollAdvisor? ==> StoredUnder(db.advisors, (r: Advisor) => r.id)
    ensures q.IntakeSuggestion? ==> Grows(cur.db.intakes, db.intakes, IntakeStep)
  {
    EffectIsFramed(q, now, cur, db);
    if !q.EnrollAdvisor? && !q.IntakeSuggestion? {
      hide Effect;
    }
  }

  lemma ReviewsWritten(q: Request, now: Time, cur: World, db: Db)
    requires Keyed(cur.db) && WritesReviews(q) && Effect(q, now, cur, db)
    ensures Grows(cur.db.reviews, db.reviews, ReviewStep)
    ensures StoredUnder(db.reviews, (r: Review) => r.id)
  {
  }

  lemma PlansWritten(q: Request, now: Time, cur: World, db: Db)
    requires Keyed(cur.db) && WritesPlans(q) && Effect(q, now, cur, db)
    ensures Grows(cur.db.plans, db.plans, PlanStep)
    ensures StoredUnder(db.plans, (r: HandlingPlan) => r.id)
  {
  }

  lemma ConversionsWritten(q: Request, now: Time, cur: World, db: Db)
    requires Keyed(cur.db) && WritesConversions(q) && Effect(q, now, cur, db)
    ensures Grows(cur.db.conversions, db.conversions, ConversionStep)
    ensures StoredUnder(db.conversions, (r: Conversion) => r.id)
  {
  }

  lemma ReceiptRowWritten(q: Request, now: Time, cur: World, db: Db, i: Id)
    requires WritesReceipts(q) && Effect(q, now, cur, db)
    ensures i in cur.db.receipts ==> i in db.receipts && ReceiptStep(cur.db.receipts[i], db.receipts[i])
    ensures i in db.receipts && (i in cur.db.receipts ==> cur.db.receipts[i].id == i) ==> db.receipts[i].id == i
  {
  }

  lemma ReceiptsWritten(q: Request, now: Time, cur: World, db: Db)
    requires Keyed(cur.db) && WritesReceipts(q) && Effect(q, now, cur, db)
    ensures Grows(cur.db.receipts, db.receipts, ReceiptStep)
    ensures StoredUnder(db.receipts, (r: Receipt) => r.id)
  {
    hide Effect, ReceiptStep;
    forall i
      ensures i in cur.db.receipts ==> i in db.receipts && ReceiptStep(cur.db.receipts[i], db.receipts[i])
      ensures i in db.receipts ==> db.receipts[i].id == i
    {
      ReceiptRowWritten(q, now, cur, db, i);
    }
  }

  lemma EventRowWritten(q: Request, now: Time, cur: World, db: Db, i: Id)
    requires WritesOutbox(q) && Effect(q, now, cur, db)
    ensures i in cur.db.outbox ==> i in db.outbox && OutboxStep(cur.db.outbox[i], db.outbox[i])
    ensures i in db.outbox && (i in cur.db.outbox ==> cur.db.outbox[i].id == i) ==> db.outbox[i].id == i
  {
  }

  lemma OutboxWritten(q: Request, now: Time, cur: World, db: Db)
    requires Keyed(cur.db) && WritesOutbox(q) && Effect(q, now, cur, db)
    ensures Grows(cur.db.outbox, db.outbox, OutboxStep)
    ensures StoredUnder(db.outbox, (r: OutboxEvent) => r.id)
  {
    hide Effect, OutboxStep;
    forall i
      ensures i in cur.db.outbox ==> i in db.outbox && OutboxStep(cur.db.outbox[i], db.outbox[i])
      ensures i in db.outbox ==> db.outbox[i].id == i
    {
      EventRowWritten(q, now, cur, db, i);
    }
  }

  /******* Every effect keeps each invariant: only the writers of its tables matter *******/

  lemma CollectionStep(q: Request, now: Time, cur: World, db: Db)
    requires Keyed(cur.db) && Effect(q, now, cur, db)
    ensures Grows(cur.db.items, db.items, ItemStep)
    ensures Grows(cur.db.campaigns, db.campaigns, CampaignStep) && StoredUnder(db.campaigns, (r: Campaign) => r.id)
    ensures Grows(cur.db.points, db.points, PointStep) && StoredUnder(db.points, (r: CollectionPoint) => r.id)
    ensures Grows(cur.db.advisors, db.advisors, AdvisorStep) && StoredUnder(db.advisors, (r: Advisor) => r.id)
    ensures Grows(cur.db.intakes, db.intakes, IntakeStep)
  {
    hide Effect;
    EffectIsFramed(q, now, cur, db);
    PeopleWritten(q, now, cur, db);
    if WritesCampaigns(q) {
      CampaignsWritten(q, now, cur, db);
    } else if WritesPoints(q) {
      PointsWritten(q, now, cur, db);
    }
  }

  lemma HandlingStep(q: Request, now: Time, cur: World, db: Db)
    requires Keyed(cur.db) && Effect(q, now, cur, db)
    ensures Grows(cur.db.reviews, db.reviews, ReviewStep) && StoredUnder(db.reviews, (r: Review) => r.id)
    ensures Grows(cur.db.plans, db.plans, PlanStep) && StoredUnder(db.plans, (r: HandlingPlan) => r.id)
    ensures Grows(cur.db.conversions, db.conversions, ConversionStep)
            && StoredUnder(db.conversions, (r: Conversion) => r.id)
  {
    hide Effect;
    EffectIsFramed(q, now, cur, db);
    if WritesReviews(q) {
      ReviewsWritten(q, now, cur, db);
    } else if WritesPlans(q) {
      PlansWritten(q, now, cur, db);
    } else if WritesConversions(q) {
      ConversionsWritten(q, now, cur, db);
    }
  }

  lemma DeliveryStep(q: Request, now: Time, cur: World, db: Db)
    requires Keyed(cur.db) && Effect(q, now, cur, db)
    ensures Grows(cur.db.receipts, db.receipts, ReceiptStep) && StoredUnder(db.receipts, (r: Receipt) => r.id)
    ensures Grows(cur.db.outbox, db.outbox, OutboxStep) && StoredUnder(db.outbox, (r: OutboxEvent) => r.id)
  {
    hide Effect;
    EffectIsFramed(q, now, cur, db);
    if WritesReceipts(q) {
      ReceiptsWritten(q, now, cur, db);
    }
    if WritesOutbox(q) {
      OutboxWritten(q, now, cur, db);
    }
  }

  lemma EffectEvolves(q: Request, now: Time, cur: World, db: Db)
    requires Keyed(cur.db) && Effect(q, now, cur, db)
    ensures Evolves(cur.db, db) && Keyed(db)
  {
    hide Effect, Grows, StoredUnder;
    CollectionStep(q, now, cur, db);
    HandlingStep(q, now, cur, db);
    DeliveryStep(q, now, cur, db);
  }

  lemma DeliveryIsTimely(q: Request, now: Time, cur: World, db: Db)
    requires Timely(cur) && (WritesReceipts(q) || WritesOutbox(q)) && Effect(q, now, cur, db)
    ensures Timely(cur.(db := db))
  {
  }

  lemma EffectKeepsTime(q: Request, now: Time, cur: World, db: Db)
    requires Timely(cur) && Effect(q, now, cur, db)
    ensures Timely(cur.(db := db))
  {
    hide Effect;
    EffectIsFramed(q, now, cur, db);
    if WritesReceipts(q) || WritesOutbox(q) {
      DeliveryIsTimely(q, now, cur, db);
    }
  }

  lemma ActivePointStays(a: Db, b: Db, campaignId: Id)
    requires Evolves(a, b) && HasActivePoint(a, campaignId)
    ensures HasActivePoint(b, campaignId)
  {
    var i :| i in a.points && a.points[i].campaignId == campaignId && a.points[i].status == PointActive;
    assert PointStep(a.points[i], b.points[i]);
  }

  lemma EffectKeepsCampaigns(q: Request, now: Time, cur: World, db: Db)
    requires CampaignsSound(cur.db) && CodesTrimmed(cur.db) && Effect(q, now, cur, db) && Evolves(cur.db, db)
    ensures CampaignsSound(db) && CodesTrimmed(db)
  {
    hide Effect, Trim;
    EffectIsFramed(q, now, cur, db);
    forall i | i in db.campaigns
      ensures db.campaigns[i].version == 1 + Rank(db.campaigns[i].status)
      ensures db.campaigns[i].status != CampaignDraft ==> HasActivePoint(db, i)
      ensures Trim(db.campaigns[i].code) == db.campaigns[i].code
    {
      if WritesCampaigns(q) {
        CampaignWritten(q, now, cur, db, i);
      }
      if db.campaigns[i].status != CampaignDraft {
        ActivePointStays(cur.db, db, i);
      }
    }
  }

  lemma IntakeStaysSound(a: Db, b: Db, n: Intake)
    requires Evolves(a, b) && IntakeSound(a, n)
    ensures IntakeSound(b, n)
  {
    assert CampaignStep(a.campaigns[n.campaignId], b.campaigns[n.campaignId]);
    assert PointStep(a.points[n.pointId], b.points[n.pointId]);
  }

  /** The only new intake is sound when it is linked. */
  lemma IntakeLinkedIsSound(q: Request, now: Time, cur: World, db: Db, i: Id)
    requires q.IntakeSuggestion? && IntakeLinked(q, now, cur, db) && i in db.intakes
    ensures (i in cur.db.intakes && db.intakes[i] == cur.db.intakes[i]) || IntakeSound(cur.db, db.intakes[i])
  {
  }

  lemma EffectKeepsIntakes(q: Request, now: Time, cur: World, db: Db)
    requires IntakesSound(cur.db) && Effect(q, now, cur, db) && Evolves(cur.db, db)
    ensures IntakesSound(db)
  {
    hide IntakeLinked, IntakeSound, Evolves;
    EffectIsFramed(q, now, cur, db);
    forall i | i in db.intakes
      ensures IntakeSound(db, db.intakes[i])
    {
      if q.IntakeSuggestion? {
        IntakeLinkedIsSound(q, now, cur, db, i);
      }
      IntakeStaysSound(cur.db, db, db.intakes[i]);
    }
  }

  lemma ReceiptStaysFounded(a: Db, b: Db, r: Receipt)
    requires Evolves(a, b) && ReceiptFounded(a, r)
    ensures ReceiptFounded(b, r)
  {
    var i :| i in a.conversions && a.conversions[i].suggestionId == r.suggestionId
        && a.conversions[i].status == ConversionPublished;
    assert ConversionStep(a.conversions[i], b.conversions[i]);
  }

  lemma PlanStaysFounded(a: Db, b: Db, p: HandlingPlan)
    requires Evolves(a, b) && PlanFounded(a, p)
    ensures PlanFounded(b, p)
  {
    assert ReviewStep(a.reviews[p.reviewId], b.reviews[p.reviewId]);
  }

  lemma PlanWritten(q: Request, now: Time, cur: World, db: Db, i: Id)
    requires WritesPlans(q) && Effect(q, now, cur, db) && i in db.plans
    requires forall j :: j in cur.db.plans ==> PlanFounded(cur.db, cur.db.plans[j])
    ensures PlanFounded(cur.db, db.plans[i])
  {
  }

  lemma EffectKeepsPlansFounded(q: Request, now: Time, cur: World, db: Db)
    requires forall i :: i in cur.db.plans ==> PlanFounded(cur.db, cur.db.plans[i])
    requires Effect(q, now, cur, db) && Evolves(cur.db, db)
    ensures forall i :: i in db.plans ==> PlanFounded(db, db.plans[i])
  {
    hide Effect, PlanFounded, Evolves;
    EffectIsFramed(q, now, cur, db);
    forall i | i in db.plans
      ensures PlanFounded(db, db.plans[i])
    {
      if WritesPlans(q) {
        PlanWritten(q, now, cur, db, i);
      }
      PlanStaysFounded(cur.db, db, db.plans[i]);
    }
  }

  lemma ConversionStaysFounded(a: Db, b: Db, o: Conversion)
    requires Evolves(a, b) && ConversionFounded(a, o)
    ensures ConversionFounded(b, o)
  {
    assert PlanStep(a.plans[o.planId], b.plans[o.planId]);
  }

  lemma ConversionWritten(q: Request, now: Time, cur: World, db: Db, i: Id)
    requires WritesConversions(q) && Effect(q, now, cur, db) && i in db.conversions
    requires forall j :: j in cur.db.conversions ==> ConversionFounded(cur.db, cur.db.conversions[j])
    ensures ConversionFounded(cur.db, db.conversions[i])
  {
  }

  lemma EffectKeepsConversionsFounded(q: Request, now: Time, cur: World, db: Db)
    requires forall i :: i in cur.db.conversions ==> ConversionFounded(cur.db, cur.db.conversions[i])
    requires Effect(q, now, cur, db) && Evolves(cur.db, db)
    ensures forall i :: i in db.conversions ==> ConversionFounded(db, db.conversions[i])
  {
    hide Effect, ConversionFounded, Evolves;
    EffectIsFramed(q, now, cur, db);
    forall i | i in db.conversions
      ensures ConversionFounded(db, db.conversions[i])
    {
      if WritesConversions(q) {
        ConversionWritten(q, now, cur, db, i);
      }
      ConversionStaysFounded(cur.db, db, db.conversions[i]);
    }
  }

  lemma ReceiptKeepsSuggestion(q: Request, now: Time, cur: World, db: Db, i: Id)
    requires WritesReceipts(q) && !q.QueueFeedback? && Effect(q, now, cur, db) && i in db.receipts
    ensures i in cur.db.receipts && db.receipts[i].suggestionId == cur.db.receipts[i].suggestionId
  {
  }

  lemma QueuedIsFounded(q: Request, now: Time, cur: World, db: Db, i: Id)
    requires q.QueueFeedback? && Effect(q, now, cur, db) && i in db.receipts
    ensures i !in cur.db.receipts ==> ReceiptFounded(cur.db, db.receipts[i])
    ensures i in cur.db.receipts ==> db.receipts[i] == cur.db.receipts[i]
  {
  }

  /** A receipt of the new database keeps the suggestion of the old one, or has just been queued. */
  lemma ReceiptWritten(q: Request, now: Time, cur: World, db: Db, i: Id)
    requires WritesReceipts(q) && Effect(q, now, cur, db) && i in db.receipts
    requires i in cur.db.receipts ==> ReceiptFounded(cur.db, cur.db.receipts[i])
    ensures ReceiptFounded(cur.db, db.receipts[i])
  {
    hide Effect;
    if q.QueueFeedback? {
      QueuedIsFounded(q, now, cur, db, i);
    } else {
      ReceiptKeepsSuggestion(q, now, cur, db, i);
    }
  }

  lemma EffectKeepsReceiptsFounded(q: Request, now: Time, cur: World, db: Db)
    requires forall i :: i in cur.db.receipts ==> ReceiptFounded(cur.db, cur.db.receipts[i])
    requires Effect(q, now, cur, db) && Evolves(cur.db, db)
    ensures forall i :: i in db.receipts ==> ReceiptFounded(db, db.receipts[i])
  {
    hide Effect, ReceiptFounded, Evolves;
    EffectIsFramed(q, now, cur, db);
    forall i | i in db.receipts
      ensures ReceiptFounded(db, db.receipts[i])
    {
      if WritesReceipts(q) {
        ReceiptWritten(q, now, cur, db, i);
      }
      ReceiptStaysFounded(cur.db, db, db.receipts[i]);
    }
  }

  lemma ConversionsStayUnique(q: Request, now: Time, cur: World, db: Db)
    requires ConversionsUnique(cur.db) && WritesConversions(q) && Effect(q, now, cur, db)
    ensures ConversionsUnique(db)
  {
  }

  lemma EffectKeepsConversionsUnique(q: Request, now: Time, cur: World, db: Db)
    requires ConversionsUnique(cur.db) && Effect(q, now, cur, db)
    ensures ConversionsUnique(db)
  {
    hide Effect;
    EffectIsFramed(q, now, cur, db);
    if WritesConversions(q) {
      ConversionsStayUnique(q, now, cur, db);
    }
  }

  lemma FeedbackKeyInjective(i: Id, j: Id)
    ensures FeedbackKey(i) == FeedbackKey(j) <==> i == j
  {
    assert FeedbackKey(i)[9..] == i && FeedbackKey(j)[9..] == j;
  }

  lemma EventKeyStays(a: Db, b: Db, key: string)
    requires Grows(a.outbox, b.outbox, OutboxStep) && HasEventKey(a, key)
    ensures HasEventKey(b, key)
  {
    var e :| e in a.outbox && a.outbox[e].key == key;
    assert OutboxStep(a.outbox[e], b.outbox[e]);
  }

  lemma EventStaysPaired(a: Db, b: Db, e: OutboxEvent, f: OutboxEvent)
    requires Grows(a.receipts, b.receipts, ReceiptStep) && EventHasReceipt(a, e) && OutboxStep(e, f)
    ensures EventHasReceipt(b, f)
  {
    var i :| i in a.receipts && e.key == FeedbackKey(i) && e.aggregateId == a.receipts[i].suggestionId;
    assert ReceiptStep(a.receipts[i], b.receipts[i]);
  }

  lemma PairWritten(q: Request, now: Time, cur: World, db: Db)
    requires q.QueueFeedback? && Effect(q, now, cur, db)
    ensures db.receipts.Keys == cur.db.receipts.Keys + {q.id} && db.outbox.Keys == cur.db.outbox.Keys + {q.eventId}
    ensures q.id !in cur.db.receipts && q.eventId !in cur.db.outbox
    ensures !HasEventKey(cur.db, FeedbackKey(q.id)) && db.outbox[q.eventId].key == FeedbackKey(q.id)
    ensures db.outbox[q.eventId].aggregateId == db.receipts[q.id].suggestionId
  {
  }

  lemma PairsWritten(q: Request, now: Time, cur: World, db: Db)
    requires (WritesReceipts(q) || WritesOutbox(q)) && Effect(q, now, cur, db)
    ensures !q.QueueFeedback? ==> db.receipts.Keys == cur.db.receipts.Keys && db.outbox.Keys == cur.db.outbox.Keys
    ensures q.QueueFeedback? ==>
              db.receipts.Keys == cur.db.receipts.Keys + {q.id} && db.outbox.Keys == cur.db.outbox.Keys + {q.eventId}
    ensures q.QueueFeedback? ==> q.id !in cur.db.receipts && q.eventId !in cur.db.outbox
    ensures q.QueueFeedback? ==>
              !HasEventKey(cur.db, FeedbackKey(q.id)) && db.outbox[q.eventId].key == FeedbackKey(q.id)
    ensures q.QueueFeedback? ==> db.outbox[q.eventId].aggregateId == db.receipts[q.id].suggestionId
  {
    if q.QueueFeedback? {
      hide Effect;
      PairWritten(q, now, cur, db);
    }
  }

  /** Rows come in pairs: the queueing of feedback adds one receipt and its event, nothing else adds either. */
  lemma RowsComeInPairs(q: Request, now: Time, cur: World, db: Db)
    requires Effect(q, now, cur, db)
    ensures !q.QueueFeedback? ==> db.receipts.Keys == cur.db.receipts.Keys && db.outbox.Keys == cur.db.outbox.Keys
    ensures q.QueueFeedback? ==>
              db.receipts.Keys == cur.db.receipts.Keys + {q.id} && db.outbox.Keys == cur.db.outbox.Keys + {q.eventId}
    ensures q.QueueFeedback? ==> q.id !in cur.db.receipts && q.eventId !in cur.db.outbox
    ensures q.QueueFeedback? ==>
              !HasEventKey(cur.db, FeedbackKey(q.id)) && db.outbox[q.eventId].key == FeedbackKey(q.id)
    ensures q.QueueFeedback? ==> db.outbox[q.eventId].aggregateId == db.receipts[q.id].suggestionId
  {
    hide Effect;
    EffectIsFramed(q, now, cur, db);
    if WritesReceipts(q) || WritesOutbox(q) {
      PairsWritten(q, now, cur, db);
    }
  }

  /** At most one receipt and its own event are new. */
  ghost predicate NewPairOnly(a: Db, b: Db, r: Id, e: Id) {
    && (forall i :: i in b.receipts && i !in a.receipts ==>
          i == r && e in b.outbox && b.outbox[e].key == FeedbackKey(r))
    && (forall f :: f in b.outbox && f !in a.outbox ==>
          f == e && !HasEventKey(a, b.outbox[e].key) && EventHasReceipt(b, b.outbox[e]))
  }

  lemma PairsKept(a: Db, b: Db, r: Id, e: Id)
    requires Paired(a) && NewPairOnly(a, b, r, e)
    requires Grows(a.outbox, b.outbox, OutboxStep) && Grows(a.receipts, b.receipts, ReceiptStep)
    ensures ReceiptsHaveEvents(b)
    ensures forall f :: f in b.outbox ==> EventHasReceipt(b, b.outbox[f])
  {
    forall i | i in b.receipts
      ensures HasEventKey(b, FeedbackKey(i))
    {
      if i in a.receipts {
        EventKeyStays(a, b, FeedbackKey(i));
      }
    }
    forall f | f in b.outbox
      ensures EventHasReceipt(b, b.outbox[f])
    {
      if f in a.outbox {
        EventStaysPaired(a, b, a.outbox[f], b.outbox[f]);
      }
    }
  }

  lemma EventKeysStayUnique(a: Db, b: Db, r: Id, e: Id)
    requires EventKeysUnique(a) && NewPairOnly(a, b, r, e) && Grows(a.outbox, b.outbox, OutboxStep)
    ensures EventKeysUnique(b)
  {
    forall f, g | f in b.outbox && g in b.outbox && b.outbox[f].key == b.outbox[g].key
      ensures f == g
    {
      assert f in a.outbox ==> OutboxStep(a.outbox[f], b.outbox[f]);
      assert g in a.outbox ==> OutboxStep(a.outbox[g], b.outbox[g]);
    }
  }

  lemma EffectKeepsPairs(q: Request, now: Time, cur: World, db: Db)
    requires Paired(cur.db) && Effect(q, now, cur, db)
    requires Grows(cur.db.outbox, db.outbox, OutboxStep) && Grows(cur.db.receipts, db.receipts, ReceiptStep)
    ensures Paired(db)
  {
    hide Effect, Grows, EventKeysUnique, ReceiptsHaveEvents;
    RowsComeInPairs(q, now, cur, db);
    var r, e := if q.QueueFeedback? then q.id else "", if q.QueueFeedback? then q.eventId else "";
    assert q.QueueFeedback? ==> r in db.receipts && EventHasReceipt(db, db.outbox[e]);
    PairsKept(cur.db, db, r, e);
    EventKeysStayUnique(cur.db, db, r, e);
  }

  lemma LeasesWritten(q: Request, now: Time, cur: World, db: Db, i: Id)
    requires LeasesSound(cur.db) && (WritesReceipts(q) || WritesOutbox(q)) && Effect(q, now, cur, db)
    ensures i in db.receipts ==> (db.receipts[i].leaseUntil.Some? <==> db.receipts[i].status == FeedbackDelivering)
    ensures i in db.outbox ==> (db.outbox[i].leaseUntil.Some? <==> db.outbox[i].status == OutboxProcessing)
  {
  }

  lemma EffectKeepsLeases(q: Request, now: Time, cur: World, db: Db)
    requires LeasesSound(cur.db) && Effect(q, now, cur, db)
    ensures LeasesSound(db)
  {
    hide Effect;
    EffectIsFramed(q, now, cur, db);
    if WritesReceipts(q) || WritesOutbox(q) {
      forall i
        ensures i in db.receipts ==> (db.receipts[i].leaseUntil.Some? <==> db.receipts[i].status == FeedbackDelivering)
        ensures i in db.outbox ==> (db.outbox[i].leaseUntil.Some? <==> db.outbox[i].status == OutboxProcessing)
      {
        LeasesWritten(q, now, cur, db, i);
      }
    }
  }

  /******* Quotas *******/

  /** An accepted intake uses exactly one unit, of one point, on one day. */
  lemma IntakeUsesOneUnit(db: Db, n: Intake, p: Id, day: int)
    requires n.id !in db.intakes
    ensures IntakesOn(db.(intakes := db.intakes[n.id := n]), p, day)
            == if n.pointId == p && DayOf(n.acceptedAt) == day then IntakesOn(db, p, day) + {n.id}
                else IntakesOn(db, p, day)
  {
  }

  lemma IntakeStaysInQuota(q: Request, now: Time, cur: World, db: Db, p: Id, day: int)
    requires DailyQuotasHold(cur.db) && q.IntakeSuggestion? && IntakeLinked(q, now, cur, db) && p in db.points
    ensures |IntakesOn(db, p, day)| <= db.points[p].dailyQuota
  {
    IntakeUsesOneUnit(cur.db, db.intakes[q.id], p, day);
  }

  lemma NewPointHasQuota(q: Request, now: Time, cur: World, db: Db, p: Id)
    requires Effect(q, now, cur, db) && p in db.points && p !in cur.db.points
    ensures db.points[p].dailyQuota > 0
  {
    EffectIsFramed(q, now, cur, db);
    if !WritesPoints(q) {
      hide Effect;
    }
  }

  lemma DailyQuotaStays(q: Request, now: Time, cur: World, db: Db, p: Id, day: int)
    requires DailyQuotasHold(cur.db) && IntakesSound(cur.db) && Effect(q, now, cur, db)
    requires p in db.points && (p in cur.db.points ==> PointStep(cur.db.points[p], db.points[p]))
    ensures |IntakesOn(db, p, day)| <= db.points[p].dailyQuota
  {
    hide IntakeLinked;
    if q.IntakeSuggestion? {
      IntakeStaysInQuota(q, now, cur, db, p, day);
    } else {
      hide Effect;
      EffectIsFramed(q, now, cur, db);
      assert IntakesOn(db, p, day) == IntakesOn(cur.db, p, day);
      if p !in cur.db.points {
        NewPointHasQuota(q, now, cur, db, p);
        assert IntakesOn(cur.db, p, day) == {};
      }
    }
  }

  lemma EffectKeepsDailyQuotas(q: Request, now: Time, cur: World, db: Db)
    requires DailyQuotasHold(cur.db) && IntakesSound(cur.db) && Effect(q, now, cur, db) && Evolves(cur.db, db)
    ensures DailyQuotasHold(db)
  {
    hide Effect;
    forall p, day | p in db.points
      ensures |IntakesOn(db, p, day)| <= db.points[p].dailyQuota
    {
      assert p in cur.db.points ==> PointStep(cur.db.points[p], db.points[p]);
      DailyQuotaStays(q, now, cur, db, p, day);
    }
  }

  /** A new pending review uses exactly one unit of its advisor's quota. */
  lemma AssignmentUsesOneUnit(db: Db, r: Review, a: Id)
    requires r.id !in db.reviews && r.verdict == ReviewPending
    ensures PendingReviews(db.(reviews := db.reviews[r.id := r]), a)
            == if r.advisorId == a then PendingReviews(db, a) + {r.id} else PendingReviews(db, a)
  {
  }

  /** A decision frees exactly one unit of the advisor's quota, and no other advisor's. */
  lemma DecisionFreesOneUnit(q: Request, now: Time, cur: World, db: Db, a: Id)
    requires q.DecideReview? && ReviewDecided(q, now, cur, db)
    ensures q.reviewId in PendingReviews(cur.db, cur.db.reviews[q.reviewId].advisorId)
    ensures PendingReviews(db, a)
            == if cur.db.reviews[q.reviewId].advisorId == a then PendingReviews(cur.db, a) - {q.reviewId}
                else PendingReviews(cur.db, a)
    ensures |PendingReviews(db, a)|
            == |PendingReviews(cur.db, a)| - if cur.db.reviews[q.reviewId].advisorId == a then 1 else 0
  {
    assert PendingReviews(db, a)
            == if cur.db.reviews[q.reviewId].advisorId == a then PendingReviews(cur.db, a) - {q.reviewId}
                else PendingReviews(cur.db, a);
  }

  ghost predicate ReviewersExist(db: Db) {
    forall i :: i in db.reviews ==> db.reviews[i].advisorId in db.advisors
  }

  lemma AssignmentStaysInQuota(q: Request, now: Time, cur: World, db: Db, a: Id)
    requires ReviewQuotasHold(cur.db) && q.AssignReview? && ReviewAssigned(q, now, cur, db) && a in db.advisors
    ensures db.advisors[a].active && |PendingReviews(db, a)| <= db.advisors[a].reviewQuota
  {
    AssignmentUsesOneUnit(cur.db, db.reviews[q.id], a);
  }

  lemma NewAdvisorHasQuota(q: Request, now: Time, cur: World, db: Db, a: Id)
    requires Effect(q, now, cur, db) && a in db.advisors
             && (a !in cur.db.advisors || db.advisors[a] != cur.db.advisors[a])
    ensures a !in cur.db.advisors && db.advisors[a].active && db.advisors[a].reviewQuota > 0
  {
    EffectIsFramed(q, now, cur, db);
    if !q.EnrollAdvisor? {
      hide Effect;
    }
  }

  lemma DecisionStaysInQuota(q: Request, now: Time, cur: World, db: Db, a: Id)
    requires ReviewQuotasHold(cur.db) && q.DecideReview? && ReviewDecided(q, now, cur, db) && a in db.advisors
    ensures db.advisors[a].active && |PendingReviews(db, a)| <= db.advisors[a].reviewQuota
  {
    DecisionFreesOneUnit(q, now, cur, db, a);
  }

  lemma OthersStayInQuota(q: Request, now: Time, cur: World, db: Db, a: Id)
    requires ReviewQuotasHold(cur.db) && ReviewersExist(cur.db) && Effect(q, now, cur, db) && a in db.advisors
    requires !WritesReviews(q)
    ensures db.advisors[a].active && |PendingReviews(db, a)| <= db.advisors[a].reviewQuota
  {
    hide Effect;
    EffectIsFramed(q, now, cur, db);
    assert PendingReviews(db, a) == PendingReviews(cur.db, a);
    if a !in cur.db.advisors || db.advisors[a] != cur.db.advisors[a] {
      NewAdvisorHasQuota(q, now, cur, db, a);
      assert PendingReviews(cur.db, a) == {};
    }
  }

  lemma ReviewQuotaStays(q: Request, now: Time, cur: World, db: Db, a: Id)
    requires ReviewQuotasHold(cur.db) && ReviewersExist(cur.db) && Effect(q, now, cur, db) && a in db.advisors
    ensures db.advisors[a].active && |PendingReviews(db, a)| <= db.advisors[a].reviewQuota
  {
    hide ReviewAssigned, ReviewDecided, ReviewQuotasHold, ReviewersExist, PendingReviews;
    if q.AssignReview? {
      AssignmentStaysInQuota(q, now, cur, db, a);
    } else if q.DecideReview? {
      DecisionStaysInQuota(q, now, cur, db, a);
    } else {
      OthersStayInQuota(q, now, cur, db, a);
    }
  }

  lemma EffectKeepsReviewQuotas(q: Request, now: Time, cur: World, db: Db)
    requires ReviewQuotasHold(cur.db) && ReviewersExist(cur.db) && Effect(q, now, cur, db)
    ensures ReviewQuotasHold(db)
  {
    hide Effect;
    forall a | a in db.advisors
      ensures db.advisors[a].active && |PendingReviews(db, a)| <= db.advisors[a].reviewQuota
    {
      ReviewQuotaStays(q, now, cur, db, a);
    }
  }

  /******* Every world of every run *******/

  lemma ReviewWritten(q: Request, now: Time, cur: World, db: Db)
    requires ReviewersExist(cur.db) && WritesReviews(q) && Effect(q, now, cur, db)
    ensures ReviewersExist(db)
  {
  }

  lemma EffectKeepsReviewers(q: Request, now: Time, cur: World, db: Db)
    requires ReviewersExist(cur.db) && Effect(q, now, cur, db) && Evolves(cur.db, db)
    ensures ReviewersExist(db)
  {
    hide Effect;
    EffectIsFramed(q, now, cur, db);
    if WritesReviews(q) {
      ReviewWritten(q, now, cur, db);
    } else {
      assert Grows(cur.db.advisors, db.advisors, AdvisorStep);
    }
  }

  lemma EffectKeepsSafe(q: Request, now: Time, cur: World, db: Db)
    requires Safe(cur) && Effect(q, now, cur, db)
    ensures Safe(cur.(db := db)) && Evolves(cur.db, db)
  {
    hide Effect;
    EffectEvolves(q, now, cur, db);
    EffectKeepsTime(q, now, cur, db);
    EffectKeepsCampaigns(q, now, cur, db);
    EffectKeepsIntakes(q, now, cur, db);
    EffectKeepsDailyQuotas(q, now, cur, db);
    EffectKeepsReviewers(q, now, cur, db);
    EffectKeepsReviewQuotas(q, now, cur, db);
    EffectKeepsPlansFounded(q, now, cur, db);
    EffectKeepsConversionsFounded(q, now, cur, db);
    EffectKeepsReceiptsFounded(q, now, cur, db);
    EffectKeepsConversionsUnique(q, now, cur, db);
    EffectKeepsPairs(q, now, cur, db);
    EffectKeepsLeases(q, now, cur, db);
  }

  /** All worlds up to n are safe, and each is an evolution of every earlier one. */
  ghost predicate SafeUpTo(worlds: seq<World>, n: nat)
    requires n < |worlds|
  {
    && (forall k {:trigger Safe(worlds[k])} :: 0 <= k <= n ==> Safe(worlds[k]))
    && (forall i, k {:trigger Evolves(worlds[i].db, worlds[k].db)} :: 0 <= i <= k <= n ==>
          Evolves(worlds[i].db, worlds[k].db) && worlds[i].clock <= worlds[k].clock)
  }

  lemma WorldIsPast(worlds: seq<World>, j: nat, k: nat)
    requires j <= k < |worlds| && SafeUpTo(worlds, k)
    ensures Past(worlds[j], worlds[k])
  {
    hide Evolves, Keyed, Timely;
    assert Safe(worlds[j]) && Evolves(worlds[j].db, worlds[k].db);
  }

  lemma SamplesAreStale(worlds: seq<World>, k: nat, at: seq<nat>)
    requires k < |worlds| && SafeUpTo(worlds, k) && Sampling(at, k)
    ensures Stale(Sample(worlds, at), worlds[k])
  {
    hide Safe, Past, Evolves;
    var s := Sample(worlds, at);
    forall j | 0 <= j < SLOTS
      ensures Past(s[j], worlds[k])
    {
      WorldIsPast(worlds, at[j], k);
    }
    forall i, j | 0 <= i <= j < SLOTS
      ensures s[i].clock <= s[j].clock
    {
      assert at[i] <= at[j];
      assert Evolves(worlds[at[i]].db, worlds[at[j]].db);
    }
  }

  lemma NextKeepsSafe(run: Run, k: nat)
    requires ValidRun(run) && k < |run.events| && SafeUpTo(run.worlds, k)
    ensures Safe(run.worlds[k + 1]) && Evolves(run.worlds[k].db, run.worlds[k + 1].db)
    ensures run.worlds[k].clock <= run.worlds[k + 1].clock
  {
    var w, w', ev := run.worlds[k], run.worlds[k + 1], run.events[k];
    assert Next(run.worlds, k, ev);
    assert Safe(w) && Evolves(w.db, w.db);
    if ev.Committed? {
      var s := Sample(run.worlds, ev.at);
      SamplesAreStale(run.worlds, k, ev.at);
      CommitRefinesEffect(ev.request, s, w, w'.db);
      EffectKeepsSafe(ev.request, Now(ev.request, s), w, w'.db);
      assert w' == w.(db := w'.db);
    } else if ev.ItemSaved? {
      SavingItemKeepsSafe(w, w');
    }
  }

  lemma SavingItemKeepsSafe(w: World, w': World)
    requires Safe(w) && w' == w.(db := w.db.(items := w'.db.items)) && w.db.items.Keys <= w'.db.items.Keys
    ensures Safe(w') && Evolves(w.db, w'.db)
  {
    hide DailyQuotasHold, ReviewQuotasHold, Paired, Founded, IntakesSound, CampaignsSound, CodesTrimmed, Evolves;
    SavingItemKeepsQuotas(w.db, w'.db);
    SavingItemKeepsRows(w.db, w'.db);
    SavingItemKeepsPairs(w.db, w'.db);
    SavingItemEvolves(w.db, w'.db);
  }

  lemma SavingItemEvolves(a: Db, b: Db)
    requires b == a.(items := b.items) && a.items.Keys <= b.items.Keys
    ensures Evolves(a, b)
  {
  }

  lemma SavingItemKeepsRows(a: Db, b: Db)
    requires b == a.(items := b.items)
    ensures CampaignsSound(a) ==> CampaignsSound(b)
    ensures CodesTrimmed(a) ==> CodesTrimmed(b)
    ensures IntakesSound(a) ==> IntakesSound(b)
    ensures Founded(a) ==> Founded(b)
  {
    assert forall i :: HasActivePoint(a, i) ==> HasActivePoint(b, i);
  }

  lemma SavingItemKeepsPairs(a: Db, b: Db)
    requires b == a.(items := b.items) && Paired(a)
    ensures Paired(b)
  {
    forall i | i in b.receipts
      ensures HasEventKey(b, FeedbackKey(i))
    {
      assert HasEventKey(a, FeedbackKey(i));
    }
    forall e | e in b.outbox
      ensures EventHasReceipt(b, b.outbox[e])
    {
      assert EventHasReceipt(a, a.outbox[e]);
    }
  }

  lemma SavingItemKeepsQuotas(a: Db, b: Db)
    requires DailyQuotasHold(a) && ReviewQuotasHold(a) && b == a.(items := b.items)
    ensures DailyQuotasHold(b) && ReviewQuotasHold(b)
  {
    assert forall p, day :: IntakesOn(b, p, day) == IntakesOn(a, p, day);
    assert forall a' :: PendingReviews(b, a') == PendingReviews(a, a');
  }

  lemma EvolvesReflexive(db: Db)
    ensures Evolves(db, db)
  {
  }

  lemma HistoryExtends(worlds: seq<World>, n: nat)
    requires n + 1 < |worlds| && SafeUpTo(worlds, n)
    requires Safe(worlds[n + 1]) && Evolves(worlds[n].db, worlds[n + 1].db) && worlds[n].clock <= worlds[n + 1].clock
    ensures SafeUpTo(worlds, n + 1)
  {
    hide Safe, Evolves;
    forall i, k | 0 <= i <= k <= n + 1
      ensures Evolves(worlds[i].db, worlds[k].db) && worlds[i].clock <= worlds[k].clock
    {
      if k <= n {
        assert Evolves(worlds[i].db, worlds[k].db);
      } else if i <= n {
        assert Evolves(worlds[i].db, worlds[n].db);
        EvolvesTransitive(worlds[i].db, worlds[n].db, worlds[k].db);
      } else {
        EvolvesReflexive(worlds[k].db);
      }
    }
    forall k | 0 <= k <= n + 1
      ensures Safe(worlds[k])
    {
    }
  }

  lemma EmptySafe(w: World)
    requires w.db == EMPTY_DB
    ensures Safe(w) && Evolves(w.db, w.db)
  {
    assert forall p, day :: IntakesOn(w.db, p, day) == {};
  }

  lemma {:induction false} RunSafeUpTo(run: Run, n: nat)
    requires ValidRun(run) && n < |run.worlds|
    ensures SafeUpTo(run.worlds, n)
  {
    hide Safe, Evolves, Next;
    if n == 0 {
      EmptySafe(run.worlds[0]);
    } else {
      RunSafeUpTo(run, n - 1);
      NextKeepsSafe(run, n - 1);
      HistoryExtends(run.worlds, n - 1);
    }
  }

  /** Where a feedback receipt comes from, whatever the interleaving: a published conversion of its
      suggestion, carried by a completed plan, itself based on an accepted review of that suggestion. */
  lemma ReceiptProvenance(run: Run, k: nat, r: Id) returns (conversion: Id, plan: Id, review: Id)
    requires ValidRun(run) && k < |run.worlds| && r in run.worlds[k].db.receipts
    ensures var db := run.worlds[k].db; var suggestion := db.receipts[r].suggestionId;
            && conversion in db.conversions && db.conversions[conversion].suggestionId == suggestion
            && db.conversions[conversion].status == ConversionPublished
            && db.conversions[conversion].planId == plan
            && plan in db.plans && db.plans[plan].suggestionId == suggestion
            && db.plans[plan].status == HandlingCompleted
            && db.plans[plan].reviewId == review
            && review in db.reviews && db.reviews[review].suggestionId == suggestion
            && db.reviews[review].verdict == ReviewAccepted
            && (forall c :: c in db.conversions && db.conversions[c].suggestionId == suggestion ==> c == conversion)
  {
    RunSafeUpTo(run, k);
    var db := run.worlds[k].db;
    assert Safe(run.worlds[k]) && ReceiptFounded(db, db.receipts[r]);
    conversion :| conversion in db.conversions && db.conversions[conversion].suggestionId == db.receipts[r].suggestionId
      && db.conversions[conversion].status == ConversionPublished;
    plan := db.conversions[conversion].planId;
    assert ConversionFounded(db, db.conversions[conversion]) && PlanFounded(db, db.plans[plan]);
    review := db.plans[plan].reviewId;
  }

  /** Quotas hold in every world, although the services count on stale data. */
  lemma QuotasHold(run: Run, k: nat, point: Id, day: int, advisor: Id)
    requires ValidRun(run) && k < |run.worlds|
    ensures var db := run.worlds[k].db;
            && (point in db.points ==> |IntakesOn(db, point, day)| <= db.points[point].dailyQuota)
            && (advisor in db.advisors ==> |PendingReviews(db, advisor)| <= db.advisors[advisor].reviewQuota)
  {
    RunSafeUpTo(run, k);
    assert Safe(run.worlds[k]);
  }

  /** Campaigns and intakes stay consistent, although campaign and point are checked on stale reads. */
  lemma CollectionSafety(run: Run, k: nat, c: Id, n: Id)
    requires ValidRun(run) && k < |run.worlds|
    ensures var db := run.worlds[k].db;
            && (c in db.campaigns ==>
                  db.campaigns[c].version == 1 + Rank(db.campaigns[c].status)
                  && (db.campaigns[c].status != CampaignDraft ==> HasActivePoint(db, c)))
            && (n in db.intakes ==> IntakeSound(db, db.intakes[n]))
  {
    RunSafeUpTo(run, k);
    assert Safe(run.worlds[k]);
  }

  /** Each receipt has one outbox event, each event one receipt, and nobody else's. */
  lemma FeedbackPaired(run: Run, k: nat, r: Id) returns (e: Id)
    requires ValidRun(run) && k < |run.worlds| && r in run.worlds[k].db.receipts
    ensures var db := run.worlds[k].db;
            && e in db.outbox && db.outbox[e].key == FeedbackKey(r)
            && db.outbox[e].aggregateId == db.receipts[r].suggestionId
            && (forall f :: f in db.outbox && db.outbox[f].key == FeedbackKey(r) ==> f == e)
            && (forall s :: s in db.receipts && db.outbox[e].key == FeedbackKey(s) ==> s == r)
  {
    hide Next, Evolves;
    RunSafeUpTo(run, k);
    var db := run.worlds[k].db;
    assert Safe(run.worlds[k]) && HasEventKey(db, FeedbackKey(r));
    e :| e in db.outbox && db.outbox[e].key == FeedbackKey(r);
    assert EventHasReceipt(db, db.outbox[e]);
    forall s | s in db.receipts && db.outbox[e].key == FeedbackKey(s)
      ensures s == r
    {
      FeedbackKeyInjective(s, r);
    }
    var i :| i in db.receipts && db.outbox[e].key == FeedbackKey(i)
        && db.outbox[e].aggregateId == db.receipts[i].suggestionId;
  }

  /** The converse: each outbox event belongs to exactly one receipt. */
  lemma EventPaired(run: Run, k: nat, e: Id) returns (r: Id)
    requires ValidRun(run) && k < |run.worlds| && e in run.worlds[k].db.outbox
    ensures var db := run.worlds[k].db;
            && r in db.receipts && db.outbox[e].key == FeedbackKey(r)
            && (forall s :: s in db.receipts && db.outbox[e].key == FeedbackKey(s) ==> s == r)
  {
    RunSafeUpTo(run, k);
    var db := run.worlds[k].db;
    assert Safe(run.worlds[k]) && EventHasReceipt(db, db.outbox[e]);
    r :| r in db.receipts && db.outbox[e].key == FeedbackKey(r)
        && db.outbox[e].aggregateId == db.receipts[r].suggestionId;
    forall s | s in db.receipts && db.outbox[e].key == FeedbackKey(s)
      ensures s == r
    {
      FeedbackKeyInjective(s, r);
    }
  }

  lemma LeasesAgree(db: Db, now: Time, r: Id, e: Id)
    requires LeasesSound(db)
    ensures
            && (r in db.receipts ==>
                  (db.receipts[r].leaseUntil.Some? <==> db.receipts[r].status == FeedbackDelivering)
                  && (FeedbackReady(db.receipts[r], now)
                   <==> db.receipts[r].status == FeedbackQueued && db.receipts[r].nextAttemptAt <= now))
            && (e in db.outbox ==>
                  (db.outbox[e].leaseUntil.Some? <==> db.outbox[e].status == OutboxProcessing)
                  && (OutboxReady(db.outbox[e], now)
                   <==> db.outbox[e].status in {OutboxPending, OutboxFailed} && db.outbox[e].availableAt <= now))
  {
  }

  /** A lease is set exactly while somebody holds the row, so it never hides a row from the ready queries:
      a row with a listed status carries none. */
  lemma ReadyQueriesIgnoreLeases(run: Run, k: nat, now: Time, r: Id, e: Id)
    requires ValidRun(run) && k < |run.worlds|
    ensures var db := run.worlds[k].db;
            && (r in db.receipts ==>
                  (db.receipts[r].leaseUntil.Some? <==> db.receipts[r].status == FeedbackDelivering)
                  && (FeedbackReady(db.receipts[r], now)
                   <==> db.receipts[r].status == FeedbackQueued && db.receipts[r].nextAttemptAt <= now))
            && (e in db.outbox ==>
                  (db.outbox[e].leaseUntil.Some? <==> db.outbox[e].status == OutboxProcessing)
                  && (OutboxReady(db.outbox[e], now)
                   <==> db.outbox[e].status in {OutboxPending, OutboxFailed} && db.outbox[e].availableAt <= now))
  {
    hide LeasesSound, FeedbackReady, OutboxReady, Next;
    RunSafeUpTo(run, k);
    assert Safe(run.worlds[k]);
    LeasesAgree(run.worlds[k].db, now, r, e);
  }
}
