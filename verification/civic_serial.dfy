/** Serialisability: which operations might as well have run in one piece at the moment of their commit. */
module CivicSerial {
  import opened Outcomes
  import opened SuggestionStatus
  import opened CivicDomain
  import opened CivicTables
  import opened CivicProtocol
  import opened CivicEvolution
  import opened CivicSafety

  /** The same clock readings, but every query answered by the database `db`. */
  function Reread(s: Samples, db: Db): Samples {
    seq(SLOTS, j requires 0 <= j < SLOTS => World(db, s[j].clock))
  }

  /** What an operation checks on a stale read and neither a version, nor a constraint, nor an absorbing
      status makes good at the commit. For the operations not listed there is nothing of the kind. */
  ghost predicate StaleGuard(q: Request, db: Db) {
    if q.AddCollectionPoint? then q.campaignId in db.campaigns && db.campaigns[q.campaignId].status == CampaignDraft
    else if q.ActivateCollectionPoint? then
      q.pointId in db.points && db.points[q.pointId].campaignId in db.campaigns
      && db.campaigns[db.points[q.pointId].campaignId].status in {CampaignDraft, CampaignOpen}
    else if q.EnrollAdvisor? then q.campaignId in db.campaigns && db.campaigns[q.campaignId].status != CampaignClosed
    else if q.IntakeSuggestion? then
      q.campaignId in db.campaigns && db.campaigns[q.campaignId].status == CampaignOpen
      && q.pointId in db.points
      && |IntakesBetween(db, q.pointId, q.dayStart, q.dayEnd)| < db.points[q.pointId].dailyQuota
    else if q.AssignReview? then
      q.suggestionId in db.items && !db.items[q.suggestionId].IsTerminal()
      && q.advisorId in db.advisors && db.advisors[q.advisorId].campaignId in db.campaigns
      && db.campaigns[db.advisors[q.advisorId].campaignId].status in {CampaignOpen, CampaignReview}
    else if q.ProposeConversion? then
      q.suggestionId in db.items && db.items[q.suggestionId] == StatusCompleted && PlansCompleted(db, q.suggestionId)
    else true
  }

  /** `q`, decided on stale samples `s`, commits on `cur` and leaves `db`. */
  ghost predicate Commits(q: Request, s: Samples, cur: World, db: Db) {
    Stale(s, cur) && Decide(q, s).Commit? && Apply(cur.db, Decide(q, s).w) == Ok(db)
  }

  /** Decided in one piece on the database of the commit, the operation would have done the same. */
  ghost predicate SameInOnePiece(q: Request, s: Samples, cur: World) {
    Decide(q, Reread(s, cur.db)) == Decide(q, s)
  }

  /** Decided in one piece on the database of the commit, the operation would not have committed at all. */
  ghost predicate RefusedInOnePiece(q: Request, s: Samples, cur: World) {
    !Decide(q, Reread(s, cur.db)).Commit?
  }

  /** The early look for the code is made good by UNIQUE(code): a code found as given is stored trimmed, so
      it is the trimmed code that the INSERT would repeat. */
  lemma CreateCampaignInOnePiece(q: Request, s: Samples, cur: World, db: Db)
    requires q.CreateCampaign? && Commits(q, s, cur, db) && CodesTrimmed(cur.db)
    ensures SameInOnePiece(q, s, cur)
  {
    hide Trim;
    assert HasCode(cur.db, q.code) ==> HasCode(cur.db, Trim(q.code));
  }

  lemma AddPointInOnePiece(q: Request, s: Samples, cur: World, db: Db)
    requires q.AddCollectionPoint? && Commits(q, s, cur, db)
    ensures if StaleGuard(q, cur.db) then SameInOnePiece(q, s, cur) else RefusedInOnePiece(q, s, cur)
  {
    PastCampaign(s, 0, cur, q.campaignId);
  }

  lemma ActivatePointInOnePiece(q: Request, s: Samples, cur: World, db: Db)
    requires q.ActivateCollectionPoint? && Commits(q, s, cur, db)
    ensures if StaleGuard(q, cur.db) then SameInOnePiece(q, s, cur) else RefusedInOnePiece(q, s, cur)
  {
    PastPoint(s, 0, cur, q.pointId);
    PastCampaign(s, 1, cur, s[0].db.points[q.pointId].campaignId);
  }

  lemma TransitionCampaignInOnePiece(q: Request, s: Samples, cur: World, db: Db)
    requires q.TransitionCampaign? && Commits(q, s, cur, db)
    ensures SameInOnePiece(q, s, cur)
  {
    PastCampaign(s, 0, cur, q.campaignId);
    if q.toCampaign == CampaignOpen || q.toCampaign == CampaignReview {
      PastActivePoint(s, 1, cur, q.campaignId);
    }
  }

  lemma EnrollInOnePiece(q: Request, s: Samples, cur: World, db: Db)
    requires q.EnrollAdvisor? && Commits(q, s, cur, db)
    ensures if StaleGuard(q, cur.db) then SameInOnePiece(q, s, cur) else RefusedInOnePiece(q, s, cur)
  {
    PastCampaign(s, 0, cur, q.campaignId);
  }

  lemma IntakeInOnePiece(q: Request, s: Samples, cur: World, db: Db)
    requires q.IntakeSuggestion? && Commits(q, s, cur, db)
    ensures if StaleGuard(q, cur.db) then SameInOnePiece(q, s, cur) else RefusedInOnePiece(q, s, cur)
  {
    hide IntakesBetween, IntakesOn, HasIntakeKey, HasIntakeOf;
    PastCampaign(s, 3, cur, q.campaignId);
    PastPoint(s, 5, cur, q.pointId);
  }

  lemma AssignInOnePiece(q: Request, s: Samples, cur: World, db: Db)
    requires q.AssignReview? && Commits(q, s, cur, db)
    ensures if StaleGuard(q, cur.db) then SameInOnePiece(q, s, cur) else RefusedInOnePiece(q, s, cur)
  {
    hide PendingReviews, Trim, HasReview, HasPanel, Stale;
    PastAdvisor(s, 1, cur, q.advisorId);
    PastCampaign(s, 2, cur, s[1].db.advisors[q.advisorId].campaignId);
  }

  lemma DecideReviewInOnePiece(q: Request, s: Samples, cur: World, db: Db)
    requires q.DecideReview? && Commits(q, s, cur, db)
    ensures SameInOnePiece(q, s, cur)
  {
    PastReview(s, 0, cur, q.reviewId);
  }

  lemma CreatePlanInOnePiece(q: Request, s: Samples, cur: World, db: Db)
    requires q.CreateHandlingPlan? && Commits(q, s, cur, db)
    ensures SameInOnePiece(q, s, cur)
  {
    PastReview(s, 1, cur, q.reviewId);
  }

  lemma TransitionPlanInOnePiece(q: Request, s: Samples, cur: World, db: Db)
    requires q.TransitionHandlingPlan? && Commits(q, s, cur, db)
    ensures SameInOnePiece(q, s, cur)
  {
    PastPlan(s, 0, cur, q.planId);
  }

  lemma ProposeInOnePiece(q: Request, s: Samples, cur: World, db: Db)
    requires q.ProposeConversion? && Commits(q, s, cur, db)
    ensures if StaleGuard(q, cur.db) then SameInOnePiece(q, s, cur) else RefusedInOnePiece(q, s, cur)
  {
    hide Stale;
    PastPlan(s, 2, cur, q.planId);
  }

  lemma ConversionStillFound(s: Samples, j: nat, cur: World, suggestionId: Id)
    requires Stale(s, cur) && j < SLOTS && ConversionsUnique(cur.db) && HasConversion(s[j].db, suggestionId)
    ensures ConversionOf(cur.db, suggestionId) == ConversionOf(s[j].db, suggestionId)
  {
    PastConversion(s, j, cur, ConversionOf(s[j].db, suggestionId).value);
    assert HasConversion(cur.db, suggestionId);
  }

  lemma VerifyInOnePiece(q: Request, s: Samples, cur: World, db: Db)
    requires q.VerifyConversion? && Commits(q, s, cur, db) && ConversionsUnique(cur.db)
    ensures SameInOnePiece(q, s, cur)
  {
    PastConversion(s, 0, cur, ConversionOf(s[0].db, q.suggestionId).value);
    ConversionStillFound(s, 0, cur, q.suggestionId);
  }

  lemma QueueInOnePiece(q: Request, s: Samples, cur: World, db: Db)
    requires q.QueueFeedback? && Commits(q, s, cur, db) && ConversionsUnique(cur.db)
    ensures SameInOnePiece(q, s, cur)
  {
    PastConversion(s, 1, cur, ConversionOf(s[1].db, q.suggestionId).value);
    ConversionStillFound(s, 1, cur, q.suggestionId);
  }

  lemma ClaimFeedbackInOnePiece(q: Request, s: Samples, cur: World, db: Db)
    requires q.ClaimFeedback? && Commits(q, s, cur, db)
    ensures SameInOnePiece(q, s, cur)
  {
    PastReceipt(s, 1, cur, q.receiptId);
  }

  lemma CompleteFeedbackInOnePiece(q: Request, s: Samples, cur: World, db: Db)
    requires q.CompleteFeedback? && Commits(q, s, cur, db)
    ensures SameInOnePiece(q, s, cur)
  {
    PastReceipt(s, 0, cur, q.receiptId);
  }

  lemma ClaimOutboxInOnePiece(q: Request, s: Samples, cur: World, db: Db)
    requires q.ClaimOutbox? && Commits(q, s, cur, db)
    ensures SameInOnePiece(q, s, cur)
  {
    PastEvent(s, 1, cur, q.eventId);
  }

  lemma CompleteOutboxInOnePiece(q: Request, s: Samples, cur: World, db: Db)
    requires q.CompleteOutbox? && Commits(q, s, cur, db)
    ensures SameInOnePiece(q, s, cur)
  {
    PastEvent(s, 0, cur, q.eventId);
  }

  lemma SameIsNotRefused(q: Request, s: Samples, cur: World, db: Db)
    requires Commits(q, s, cur, db)
    ensures SameInOnePiece(q, s, cur) ==> !RefusedInOnePiece(q, s, cur)
  {
    hide Decide, Apply, Stale;
  }

  /** Exactly when a commit decided on stale samples equals the operation run in one piece: always for campaign
      creation and transitions, review decisions, plans, conversion verifications, feedback and outbox; for the
      other operations iff the stale guard still holds, and otherwise the operation run in one piece would not
      have committed. */
  lemma InOnePieceIffGuard(q: Request, s: Samples, cur: World, db: Db)
    requires Commits(q, s, cur, db) && ConversionsUnique(cur.db) && CodesTrimmed(cur.db)
    ensures SameInOnePiece(q, s, cur) <==> StaleGuard(q, cur.db)
    ensures RefusedInOnePiece(q, s, cur) <==> !StaleGuard(q, cur.db)
  {
    hide Reread, Apply, Stale, SameInOnePiece, RefusedInOnePiece;
    SameIsNotRefused(q, s, cur, db);
    if q.CreateCampaign? { CreateCampaignInOnePiece(q, s, cur, db); }
    else if q.AddCollectionPoint? { AddPointInOnePiece(q, s, cur, db); }
    else if q.ActivateCollectionPoint? { ActivatePointInOnePiece(q, s, cur, db); }
    else if q.TransitionCampaign? { TransitionCampaignInOnePiece(q, s, cur, db); }
    else if q.EnrollAdvisor? { EnrollInOnePiece(q, s, cur, db); }
    else if q.IntakeSuggestion? { IntakeInOnePiece(q, s, cur, db); }
    else if q.AssignReview? { AssignInOnePiece(q, s, cur, db); }
    else if q.DecideReview? { DecideReviewInOnePiece(q, s, cur, db); }
    else if q.CreateHandlingPlan? { CreatePlanInOnePiece(q, s, cur, db); }
    else if q.TransitionHandlingPlan? { TransitionPlanInOnePiece(q, s, cur, db); }
    else if q.ProposeConversion? { ProposeInOnePiece(q, s, cur, db); }
    else if q.VerifyConversion? { VerifyInOnePiece(q, s, cur, db); }
    else if q.QueueFeedback? { QueueInOnePiece(q, s, cur, db); }
    else if q.ClaimFeedback? { ClaimFeedbackInOnePiece(q, s, cur, db); }
    else if q.CompleteFeedback? { CompleteFeedbackInOnePiece(q, s, cur, db); }
    else if q.ClaimOutbox? { ClaimOutboxInOnePiece(q, s, cur, db); }
    else { CompleteOutboxInOnePiece(q, s, cur, db); }
  }

  /******* Whole runs *******/

  /** The serial machine: one operation at a time, each query of it on the current database. */
  datatype Op = SaveItem(itemId: Id, status: ItemStatus) | Call(request: Request, clocks: seq<Time>)

  ghost function Execute(db: Db, op: Op): Option<Db>
    requires op.Call? ==> |op.clocks| == SLOTS
  {
    match op
    case SaveItem(id, status) => Some(db.(items := db.items[id := status]))
    case Call(q, clocks) =>
      var d := Decide(q, seq(SLOTS, j requires 0 <= j < SLOTS => World(db, clocks[j])));
      if d.Commit? && Apply(db, d.w).Ok? then Some(Apply(db, d.w).value) else None
  }

  predicate WellFormed(ops: seq<Op>) {
    forall k :: 0 <= k < |ops| && ops[k].Call? ==> |ops[k].clocks| == SLOTS
  }

  ghost function ExecuteAll(ops: seq<Op>): Option<Db>
    requires WellFormed(ops)
  {
    if ops == [] then Some(EMPTY_DB)
    else
      var before := ExecuteAll(ops[..|ops| - 1]);
      if before.None? then None else Execute(before.value, ops[|ops| - 1])
  }

  lemma CommitIsSampled(run: Run, k: nat)
    requires ValidRun(run) && k < |run.events| && run.events[k].Committed?
    ensures Sampling(run.events[k].at, k)
  {
    assert Next(run.worlds, k, run.events[k]);
  }

  /** The operation an event stands for, with the clock readings it had. */
  ghost function OpOf(run: Run, k: nat): (op: Option<Op>)
    requires ValidRun(run) && k < |run.events|
    ensures op.Some? && op.value.Call? ==> |op.value.clocks| == SLOTS
  {
    match run.events[k]
    case Tick(_) => None
    case ItemSaved(id, status) => Some(SaveItem(id, status))
    case Committed(_, q, at) =>
      CommitIsSampled(run, k);
      var s := Sample(run.worlds, at);
      Some(Call(q, seq(SLOTS, j requires 0 <= j < SLOTS => s[j].clock)))
  }

  /** The committed operations among the first k events, in commit order. */
  ghost function Operations(run: Run, k: nat): (ops: seq<Op>)
    requires ValidRun(run) && k <= |run.events|
    ensures WellFormed(ops)
  {
    if k == 0 then []
    else
      var op := OpOf(run, k - 1);
      Operations(run, k - 1) + if op.None? then [] else [op.value]
  }

  /** The check that event k's commit does not protect, if it has one, still held at the commit. */
  ghost predicate GuardHeld(run: Run, k: nat)
    requires ValidRun(run) && k < |run.events|
  {
    run.events[k].Committed? ==> StaleGuard(run.events[k].request, run.worlds[k].db)
  }

  ghost predicate GuardsHeld(run: Run, k: nat)
    requires ValidRun(run) && k <= |run.events|
  {
    forall j :: 0 <= j < k ==> GuardHeld(run, j)
  }

  /** An event is the execution of its operation if its guard held, and cannot be executed at all otherwise. */
  lemma EventIsExecution(run: Run, k: nat)
    requires ValidRun(run) && k < |run.events|
    ensures var op := OpOf(run, k);
            if op.None? then run.worlds[k + 1].db == run.worlds[k].db
            else if GuardHeld(run, k) then Execute(run.worlds[k].db, op.value) == Some(run.worlds[k + 1].db)
            else Execute(run.worlds[k].db, op.value) == None
  {
    assert Next(run.worlds, k, run.events[k]);
    if run.events[k].Committed? {
      var q, s, w := run.events[k].request, Sample(run.worlds, run.events[k].at), run.worlds[k];
      RunSafeUpTo(run, k);
      SamplesAreStale(run.worlds, k, run.events[k].at);
      assert Safe(w);
      InOnePieceIffGuard(q, s, w, run.worlds[k + 1].db);
      var clocks := seq(SLOTS, j requires 0 <= j < SLOTS => s[j].clock);
      assert seq(SLOTS, j requires 0 <= j < SLOTS => World(w.db, clocks[j])) == Reread(s, w.db);
    }
  }

  /** Serialisability, exactly: the committed operations of a run, executed one after the other, each in one
      piece, in commit order, end in the database of the run if and only if every commit met its stale guard;
      where there is none to meet, always. */
  lemma {:induction false} Serialisable(run: Run, k: nat)
    requires ValidRun(run) && k <= |run.events|
    ensures ExecuteAll(Operations(run, k)) == Some(run.worlds[k].db) <==> GuardsHeld(run, k)
    ensures ExecuteAll(Operations(run, k)) == None <==> !GuardsHeld(run, k)
  {
    hide Execute, GuardHeld, OpOf, Next, Operations;
    if k == 0 {
      NoOperations(run);
    } else {
      Serialisable(run, k - 1);
      EventIsExecution(run, k - 1);
      NoOpHasNoGuard(run, k - 1);
      OperationsAppend(run, k);
    }
  }

  lemma NoOperations(run: Run)
    requires ValidRun(run)
    ensures ExecuteAll(Operations(run, 0)) == Some(run.worlds[0].db)
  {
  }

  lemma OperationsAppend(run: Run, k: nat)
    requires ValidRun(run) && 0 < k <= |run.events|
    ensures var op, before := OpOf(run, k - 1), ExecuteAll(Operations(run, k - 1));
            ExecuteAll(Operations(run, k))
            == if op.None? || before.None? then before else Execute(before.value, op.value)
  {
    hide Execute, OpOf, Next;
    var ops := Operations(run, k);
    if OpOf(run, k - 1).Some? {
      assert ops[..|ops| - 1] == Operations(run, k - 1);
    } else {
      assert ops == Operations(run, k - 1);
    }
  }

  lemma NoOpHasNoGuard(run: Run, k: nat)
    requires ValidRun(run) && k < |run.events|
    ensures OpOf(run, k).None? ==> GuardHeld(run, k)
  {
  }
}
