/** The civic workflow as a concurrent protocol, internal/service/civic_service.go.

    Every operation first runs a handful of queries, each outside any transaction, then decides, then
    commits its decision in one transaction. Nothing holds the database still in between, so each query
    may have seen a different, older database than the one the commit meets. A run is the history of all
    worlds (database and clock) that ever existed; a commit may be decided on samples of any of them, as
    long as one operation's samples are in the order its code takes them. */
module CivicProtocol {
  import opened Outcomes
  import opened SuggestionStatus
  import opened Durations
  import opened CivicDomain
  import opened CivicTables

  datatype World = World(db: Db, clock: Time)

  /** A call of a CivicService method. `id`, `eventId` are the fresh identifiers it draws. */
  datatype Request =
    | CreateCampaign(id: Id, code: string, title: string, theme: string, opensAt: Time, closesAt: Time, actor: string)
    | AddCollectionPoint(id: Id, campaignId: Id, district: string, name: string, address: string, topic: string,
                         dailyQuota: int)
    | ActivateCollectionPoint(pointId: Id)
    | TransitionCampaign(campaignId: Id, toCampaign: CampaignStatus)
    | EnrollAdvisor(id: Id, campaignId: Id, userId: Id, displayName: string, expertise: seq<string>,
                    districts: seq<string>, reviewQuota: int)
    | IntakeSuggestion(id: Id, suggestionId: Id, campaignId: Id, pointId: Id, key: string, source: Source,
                       dayStart: Time, dayEnd: Time)
    | AssignReview(id: Id, suggestionId: Id, advisorId: Id, panelKey: string)
    | DecideReview(reviewId: Id, verdict: Verdict, notes: string)
    | CreateHandlingPlan(id: Id, suggestionId: Id, reviewId: Id, department: string, commitment: string, key: string,
                         dueAt: Time)
    | TransitionHandlingPlan(planId: Id, toPlan: HandlingStatus)
    | ProposeConversion(id: Id, suggestionId: Id, planId: Id, benefitScope: string, evidenceRef: string)
    | VerifyConversion(suggestionId: Id, reviewer: string, publish: bool)
    | QueueFeedback(id: Id, eventId: Id, suggestionId: Id, citizenHash: string, channel: string)
    | ClaimFeedback(receiptId: Id, lease: int)
    | CompleteFeedback(receiptId: Id, deliveryError: Option<string>, maxAttempts: int, baseBackoff: int)
    | ClaimOutbox(eventId: Id, lease: int)
    | CompleteOutbox(eventId: Id, publishFailed: bool, maxAttempts: int, backoff: int)

  /** What an operation does after its queries: try a transaction, return an existing row, or fail. */
  datatype Decision = Commit(w: Write) | Existing | Rejected(error: Error)

  const BACKOFF_CAP: nat := 8
  const DAY: int := NANOS_PER_DAY

  /** Queries and clock readings of one operation, in program order. Unused slots are ignored. */
  const SLOTS: nat := 7

  type Samples = s: seq<World> | |s| == SLOTS witness seq(SLOTS, _ => World(EMPTY_DB, 0))

  /** GetConversionBySuggestion: UNIQUE(suggestion_id) leaves at most one row to return. */
  ghost function ConversionOf(db: Db, suggestionId: Id): (found: Option<Id>)
    ensures found.Some? ==> found.value in db.conversions && db.conversions[found.value].suggestionId == suggestionId
    ensures found.None? ==> !HasConversion(db, suggestionId)
  {
    if HasConversion(db, suggestionId) then
      var i :| i in db.conversions && db.conversions[i].suggestionId == suggestionId;
      Some(i)
    else None
  }

  predicate PlansCompleted(db: Db, suggestionId: Id) {
    forall i :: i in db.plans && db.plans[i].suggestionId == suggestionId ==> db.plans[i].status == HandlingCompleted
  }

  /** The tests of ListReadyFeedback. */
  predicate FeedbackReady(r: Receipt, now: Time) {
    r.status == FeedbackQueued && r.nextAttemptAt <= now && (r.leaseUntil.None? || r.leaseUntil.value < now)
  }

  /** The tests of ListReadyOutbox. */
  predicate OutboxReady(e: OutboxEvent, now: Time) {
    (e.status == OutboxPending || e.status == OutboxFailed) && e.availableAt <= now
    && (e.leaseUntil.None? || e.leaseUntil.value < now)
  }

  /** The receipt after a delivery attempt that ended at `now`. */
  function Delivered(r: Receipt, deliveryError: Option<string>, maxAttempts: int, base: int, now: Time): Receipt {
    var done := r.(version := r.version + 1, updatedAt := now, leaseUntil := None);
    if deliveryError.None? then done.(status := FeedbackDelivered, lastError := "")
    else
      var failed := done.(attempt := r.attempt + 1, lastError := deliveryError.value);
      if r.attempt + 1 >= maxAttempts then failed.(status := FeedbackPermanentFailed)
      else failed.(status := FeedbackQueued, nextAttemptAt := now + Delay(base, r.attempt + 1, BACKOFF_CAP))
  }

  /** The outbox event after a publication attempt that ended at `now`: it never fails for good. */
  function Published(e: OutboxEvent, publishFailed: bool, maxAttempts: int, backoff: int, now: Time): OutboxEvent {
    var done := e.(version := e.version + 1, updatedAt := now, leaseUntil := None);
    if !publishFailed then done.(status := OutboxPublished)
    else
      var wait := if e.attempt + 1 >= maxAttempts then DAY else Delay(backoff, e.attempt + 1, BACKOFF_CAP);
      done.(attempt := e.attempt + 1, status := OutboxFailed, availableAt := now + wait)
  }

  /******* Decisions, one function per operation, of what its queries (dbK) and clock readings saw *******/

  ghost function DecideCreateCampaign(q: Request, db0: Db, now: Time): Decision
    requires q.CreateCampaign?
  {
    if q.actor == "" then Rejected(Validation)
    else if HasCode(db0, q.code) then Existing
    else
      var c := Campaign(q.id, Trim(q.code), Trim(q.title), Trim(q.theme), CampaignDraft, q.opensAt, q.closesAt, 1, now,
                        now);
      if c.Valid() then Commit(InsertCampaign(c)) else Rejected(Validation)
  }

  ghost function DecideAddPoint(q: Request, db0: Db, now: Time): Decision
    requires q.AddCollectionPoint?
  {
    if q.campaignId !in db0.campaigns then Rejected(NotFound)
    else if db0.campaigns[q.campaignId].status != CampaignDraft then Rejected(InvalidTransition)
    else
      var p := CollectionPoint(q.id, q.campaignId, Trim(q.district), Trim(q.name), Trim(q.address), Trim(q.topic),
                               q.dailyQuota, PointPreparing, 1, None, now, now);
      if p.Valid() then Commit(InsertPoint(p)) else Rejected(Validation)
  }

  ghost function DecideActivatePoint(q: Request, db0: Db, db1: Db, now: Time): Decision
    requires q.ActivateCollectionPoint?
  {
    if q.pointId !in db0.points then Rejected(NotFound)
    else
      var p := db0.points[q.pointId];
      if p.campaignId !in db1.campaigns then Rejected(NotFound)
      else
        var status := db1.campaigns[p.campaignId].status;
        if status != CampaignDraft && status != CampaignOpen then Rejected(InvalidTransition)
        else if p.status == PointActive then Existing
        else if p.status != PointPreparing && p.status != PointPaused then Rejected(InvalidTransition)
        else
          Commit(UpdatePoint(p.(status := PointActive, activatedAt := Some(now), updatedAt := now,
                                version := p.version + 1), p.version))
  }

  ghost function DecideTransitionCampaign(q: Request, db0: Db, db1: Db, now: Time): Decision
    requires q.TransitionCampaign?
  {
    if q.campaignId !in db0.campaigns then Rejected(NotFound)
    else if (q.toCampaign == CampaignOpen || q.toCampaign == CampaignReview) && !HasActivePoint(db1, q.campaignId)
    then Rejected(Validation)
    else
      var c := db0.campaigns[q.campaignId];
      match c.Transition(q.toCampaign)
      case Err(e) => Rejected(e)
      case Ok(d) => Commit(UpdateCampaign(d.(version := c.version + 1, updatedAt := now), c.version))
  }

  ghost function DecideEnrollAdvisor(q: Request, db0: Db, now: Time): Decision
    requires q.EnrollAdvisor?
  {
    if q.campaignId !in db0.campaigns then Rejected(NotFound)
    else if db0.campaigns[q.campaignId].status == CampaignClosed then Rejected(InvalidTransition)
    else
      var a := Advisor(q.id, q.campaignId, q.userId, q.displayName, q.expertise, q.districts, q.reviewQuota, true, 1,
                       now);
      if a.Valid() then Commit(InsertAdvisor(a)) else Rejected(Validation)
  }

  ghost function DecideIntake(q: Request, db0: Db, db1: Db, db2: Db, db3: Db, now: Time, db5: Db, db6: Db): Decision
    requires q.IntakeSuggestion?
  {
    if q.key == "" then Rejected(Validation)
    else if HasIntakeKey(db0, q.campaignId, q.key) then Existing
    else if q.suggestionId !in db1.items then Rejected(NotFound)
    else if HasIntakeOf(db2, q.suggestionId) then Rejected(Duplicate)
    else if q.campaignId !in db3.campaigns then Rejected(NotFound)
    else
      var c := db3.campaigns[q.campaignId];
      if c.status != CampaignOpen || now < c.opensAt || !(now < c.closesAt) then Rejected(InvalidTransition)
      else if q.pointId !in db5.points then Rejected(NotFound)
      else
        var p := db5.points[q.pointId];
        if p.campaignId != c.id || p.status != PointActive then Rejected(Validation)
        else if |IntakesBetween(db6, p.id, q.dayStart, q.dayEnd)| >= p.dailyQuota then Rejected(ConcurrentConflict)
        else Commit(InsertIntake(Intake(q.id, q.suggestionId, c.id, p.id, q.key, q.source, now)))
  }

  ghost function DecideAssignReview(q: Request, db0: Db, db1: Db, db2: Db, db3: Db, now: Time): Decision
    requires q.AssignReview?
  {
    if q.suggestionId !in db0.items then Rejected(NotFound)
    else if db0.items[q.suggestionId].IsTerminal() then Rejected(InvalidTransition)
    else if q.advisorId !in db1.advisors then Rejected(NotFound)
    else
      var a := db1.advisors[q.advisorId];
      if !a.active then Rejected(Validation)
      else if a.campaignId !in db2.campaigns then Rejected(NotFound)
      else if db2.campaigns[a.campaignId].status !in {CampaignOpen, CampaignReview} then Rejected(InvalidTransition)
      else if |PendingReviews(db3, a.id)| >= a.reviewQuota then Rejected(ConcurrentConflict)
      else if Trim(q.panelKey) == "" then Rejected(Validation)
      else Commit(InsertReview(Review(q.id, q.suggestionId, a.id, q.panelKey, ReviewPending, "", 1, now, None)))
  }

  ghost function DecideDecideReview(q: Request, db0: Db, now: Time): Decision
    requires q.DecideReview?
  {
    if q.reviewId !in db0.reviews then Rejected(NotFound)
    else
      var r := db0.reviews[q.reviewId];
      match r.Decide(q.verdict, q.notes, now)
      case Err(e) => Rejected(e)
      case Ok(d) => Commit(UpdateReview(d.(version := r.version + 1), r.version))
  }

  ghost function DecideCreatePlan(q: Request, db0: Db, db1: Db, now2: Time, now3: Time): Decision
    requires q.CreateHandlingPlan?
  {
    if q.key == "" then Rejected(Validation)
    else if HasPlanKey(db0, q.suggestionId, q.key) then Existing
    else if q.reviewId !in db1.reviews then Rejected(NotFound)
    else
      var r := db1.reviews[q.reviewId];
      if r.suggestionId != q.suggestionId || r.verdict != ReviewAccepted then Rejected(Validation)
      else if q.department == "" || q.commitment == "" || !(now2 < q.dueAt) then Rejected(Validation)
      else
        Commit(InsertPlan(HandlingPlan(q.id, q.suggestionId, q.reviewId, q.department, q.commitment,
                                       HandlingProposed, q.key, q.dueAt, 1, now3, now3)))
  }

  ghost function DecideTransitionPlan(q: Request, db0: Db, now: Time): Decision
    requires q.TransitionHandlingPlan?
  {
    if q.planId !in db0.plans then Rejected(NotFound)
    else
      var p := db0.plans[q.planId];
      match p.Transition(q.toPlan)
      case Err(e) => Rejected(e)
      case Ok(d) => Commit(UpdatePlan(d.(version := p.version + 1, updatedAt := now), p.version))
  }

  ghost function DecideProposeConversion(q: Request, db0: Db, db1: Db, db2: Db, now: Time): Decision
    requires q.ProposeConversion?
  {
    if HasConversion(db0, q.suggestionId) then Existing
    else if q.suggestionId !in db1.items then Rejected(NotFound)
    else if db1.items[q.suggestionId] != StatusCompleted then Rejected(InvalidTransition)
    else if !PlansCompleted(db2, q.suggestionId) then Rejected(InvalidTransition)
    else if !(q.planId in db2.plans && db2.plans[q.planId].suggestionId == q.suggestionId) then Rejected(Validation)
    else if q.benefitScope == "" || q.evidenceRef == "" then Rejected(Validation)
    else Commit(InsertConversion(Conversion(q.id, q.suggestionId, q.planId, ConversionProposed, q.benefitScope,
                                            q.evidenceRef, "", 1, now, None, None)))
  }

  ghost function DecideVerifyConversion(q: Request, db0: Db, now: Time): Decision
    requires q.VerifyConversion?
  {
    match ConversionOf(db0, q.suggestionId)
    case None => Rejected(NotFound)
    case Some(id) =>
      var o := db0.conversions[id];
      if o.status != ConversionProposed && o.status != ConversionVerified then Rejected(InvalidTransition)
      else Commit(UpdateConversion(Verified(o, q.reviewer, q.publish, now), o.version))
  }

  /** A proposed or verified conversion, verified and perhaps published at `now`. */
  function Verified(o: Conversion, reviewer: string, publish: bool, now: Time): Conversion {
    var v := if o.status == ConversionProposed
             then o.(status := ConversionVerified, reviewer := reviewer, verifiedAt := Some(now)) else o;
    var p := if publish then v.(status := ConversionPublished, publishedAt := Some(now)) else v;
    p.(version := o.version + 1)
  }

  ghost function DecideQueueFeedback(q: Request, db0: Db, db1: Db, now: Time): Decision
    requires q.QueueFeedback?
  {
    if q.citizenHash == "" || q.channel == "" then Rejected(Validation)
    else if HasIdentity(db0, q.suggestionId, q.citizenHash, q.channel) then Existing
    else
      match ConversionOf(db1, q.suggestionId)
      case None => Rejected(NotFound)
      case Some(id) =>
        if db1.conversions[id].status != ConversionPublished then Rejected(InvalidTransition)
        else
          Commit(InsertReceiptAndEvent(
            Receipt(q.id, q.suggestionId, q.citizenHash, q.channel, FeedbackQueued, 0, now, None, "", 1, now, now),
            OutboxEvent(q.eventId, q.suggestionId, OutboxPending, 0, 1, now, None, FeedbackKey(q.id), now, now)))
  }

  ghost function DecideClaimFeedback(q: Request, now: Time, db1: Db): Decision
    requires q.ClaimFeedback?
  {
    if !(q.receiptId in db1.receipts && FeedbackReady(db1.receipts[q.receiptId], now)) then Rejected(NotFound)
    else
      var r := db1.receipts[q.receiptId];
      Commit(UpdateReceipt(r.(status := FeedbackDelivering, leaseUntil := Some(now + q.lease),
                              version := r.version + 1, updatedAt := now), r.version))
  }

  ghost function DecideCompleteFeedback(q: Request, db0: Db, now: Time): Decision
    requires q.CompleteFeedback?
  {
    if q.receiptId !in db0.receipts then Rejected(NotFound)
    else
      var r := db0.receipts[q.receiptId];
      if r.status != FeedbackDelivering then Rejected(InvalidTransition)
      else Commit(UpdateReceipt(Delivered(r, q.deliveryError, q.maxAttempts, q.baseBackoff, now), r.version))
  }

  ghost function DecideClaimOutbox(q: Request, now: Time, db1: Db): Decision
    requires q.ClaimOutbox?
  {
    if !(q.eventId in db1.outbox && OutboxReady(db1.outbox[q.eventId], now)) then Rejected(NotFound)
    else
      var e := db1.outbox[q.eventId];
      Commit(UpdateEvent(e.(status := OutboxProcessing, leaseUntil := Some(now + q.lease),
                            updatedAt := now, version := e.version + 1), e.version))
  }

  ghost function DecideCompleteOutbox(q: Request, db0: Db, now: Time): Decision
    requires q.CompleteOutbox?
  {
    if q.eventId !in db0.outbox then Rejected(NotFound)
    else
      var e := db0.outbox[q.eventId];
      if e.status != OutboxProcessing then Rejected(InvalidTransition)
      else Commit(UpdateEvent(Published(e, q.publishFailed, q.maxAttempts, q.backoff, now), e.version))
  }

  ghost function Decide(q: Request, s: Samples): Decision {
    if q.CreateCampaign? then DecideCreateCampaign(q, s[0].db, s[1].clock)
    else if q.AddCollectionPoint? then DecideAddPoint(q, s[0].db, s[1].clock)
    else if q.ActivateCollectionPoint? then DecideActivatePoint(q, s[0].db, s[1].db, s[2].clock)
    else if q.TransitionCampaign? then DecideTransitionCampaign(q, s[0].db, s[1].db, s[2].clock)
    else if q.EnrollAdvisor? then DecideEnrollAdvisor(q, s[0].db, s[1].clock)
    else if q.IntakeSuggestion? then DecideIntake(q, s[0].db, s[1].db, s[2].db, s[3].db, s[4].clock, s[5].db, s[6].db)
    else if q.AssignReview? then DecideAssignReview(q, s[0].db, s[1].db, s[2].db, s[3].db, s[4].clock)
    else if q.DecideReview? then DecideDecideReview(q, s[0].db, s[1].clock)
    else if q.CreateHandlingPlan? then DecideCreatePlan(q, s[0].db, s[1].db, s[2].clock, s[3].clock)
    else if q.TransitionHandlingPlan? then DecideTransitionPlan(q, s[0].db, s[1].clock)
    else if q.ProposeConversion? then DecideProposeConversion(q, s[0].db, s[1].db, s[2].db, s[3].clock)
    else if q.VerifyConversion? then DecideVerifyConversion(q, s[0].db, s[1].clock)
    else if q.QueueFeedback? then DecideQueueFeedback(q, s[0].db, s[1].db, s[2].clock)
    else if q.ClaimFeedback? then DecideClaimFeedback(q, s[0].clock, s[1].db)
    else if q.CompleteFeedback? then DecideCompleteFeedback(q, s[0].db, s[1].clock)
    else if q.ClaimOutbox? then DecideClaimOutbox(q, s[0].clock, s[1].db)
    else DecideCompleteOutbox(q, s[0].db, s[1].clock)
  }

  /******* Runs *******/

  /** Time passes, the suggestion services save an item, or a client's decision commits. `at` lists the
      positions in the history that the client's samples come from. An attempt that fails, for whatever
      reason, leaves the tables alone and is not an event. */
  datatype Event =
    | Tick(to: Time)
    | ItemSaved(itemId: Id, status: ItemStatus)
    | Committed(client: nat, request: Request, at: seq<nat>)

  datatype Run = Run(worlds: seq<World>, events: seq<Event>)

  predicate Sampling(at: seq<nat>, k: nat) {
    |at| == SLOTS && at[0] <= at[1] <= at[2] <= at[3] <= at[4] <= at[5] <= at[6] <= k
  }

  function Sample(worlds: seq<World>, at: seq<nat>): Samples
    requires |worlds| > 0 && Sampling(at, |worlds| - 1)
  {
    seq(SLOTS, j requires 0 <= j < SLOTS => worlds[at[j]])
  }

  /** Event `ev` leads from worlds[k] to worlds[k + 1]. */
  ghost predicate Next(worlds: seq<World>, k: nat, ev: Event)
    requires k + 1 < |worlds|
  {
    var w, w' := worlds[k], worlds[k + 1];
    match ev
    case Tick(to) => w.clock <= to && w' == w.(clock := to)
    case ItemSaved(id, status) => w' == w.(db := w.db.(items := w.db.items[id := status]))
    case Committed(_, q, at) =>
      Sampling(at, k)
      && var d := Decide(q, Sample(worlds, at));
         d.Commit? && Apply(w.db, d.w) == Ok(w'.db) && w'.clock == w.clock
  }

  ghost predicate ValidRun(run: Run) {
    |run.worlds| == |run.events| + 1
    && run.worlds[0].db == EMPTY_DB
    && forall k {:trigger Next(run.worlds, k, run.events[k])} :: 0 <= k < |run.events| ==>
        Next(run.worlds, k, run.events[k])
  }

  type History = run: Run | ValidRun(run) ghost witness Run([World(EMPTY_DB, 0)], [])
}
