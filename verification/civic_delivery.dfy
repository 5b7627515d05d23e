/** Delivery of feedback: attempt and version accounting, the bound on commits, and the backoff. */
module CivicDelivery {
  import opened Outcomes
  import opened Durations
  import opened CivicDomain
  import opened CivicTables
  import opened CivicProtocol
  import opened CivicEvolution
  import opened CivicEffects
  import opened CivicSafety

  /** Every CompleteFeedback call of the run passes this attempt limit. */
  ghost predicate Limited(run: Run, maxAttempts: int) {
    forall k :: 0 <= k < |run.events| && run.events[k].Committed? && run.events[k].request.CompleteFeedback? ==>
      run.events[k].request.maxAttempts == maxAttempts
  }

  /** Every CompleteFeedback call of the run passes this base, and no delay overflows. */
  ghost predicate Paced(run: Run, base: int) {
    0 <= base && base * Pow2(BACKOFF_CAP) <= MAX_INT64
    && forall k :: 0 <= k < |run.events| && run.events[k].Committed? && run.events[k].request.CompleteFeedback? ==>
         run.events[k].request.baseBackoff == base
  }

  /** Version, attempt and status of a receipt determine one another up to the attempt number. */
  predicate ReceiptAccounted(r: Receipt, maxAttempts: int) {
    match r.status
    case FeedbackQueued => r.version == 1 + 2 * r.attempt && r.attempt < maxAttempts
    case FeedbackDelivering => r.version == 2 + 2 * r.attempt && r.attempt < maxAttempts
    case FeedbackDelivered => r.version == 3 + 2 * r.attempt && r.attempt < maxAttempts
    case FeedbackPermanentFailed => r.version == 1 + 2 * r.attempt && r.attempt == maxAttempts
    case FeedbackAcknowledged => false
  }

  /** The earliest instant at which attempt number `attempt` (counted from zero) may be claimed. */
  function Earliest(r: Receipt, base: int): Time {
    r.createdAt + base * Doublings(r.attempt, BACKOFF_CAP)
  }

  predicate ReceiptPaced(r: Receipt, base: int) {
    && (r.status == FeedbackQueued ==> Earliest(r, base) <= r.nextAttemptAt)
    && (r.status == FeedbackDelivering ==> Earliest(r, base) <= r.updatedAt)
  }

  predicate EventAccounted(e: OutboxEvent) {
    match e.status
    case OutboxPending => e.attempt == 0 && e.version == 1
    case OutboxProcessing => e.version == 2 + 2 * e.attempt
    case OutboxFailed => e.attempt >= 1 && e.version == 1 + 2 * e.attempt
    case OutboxPublished => e.version == 3 + 2 * e.attempt
  }

  lemma ReceiptAccountWritten(q: Request, now: Time, cur: World, db: Db, maxAttempts: int, i: Id)
    requires maxAttempts >= 1 && (q.CompleteFeedback? ==> q.maxAttempts == maxAttempts)
    requires WritesReceipts(q) && Effect(q, now, cur, db) && i in db.receipts
    requires i in cur.db.receipts ==> ReceiptAccounted(cur.db.receipts[i], maxAttempts)
    ensures ReceiptAccounted(db.receipts[i], maxAttempts)
  {
    hide Trim, Delay;
  }

  lemma EffectKeepsReceiptAccounts(q: Request, now: Time, cur: World, db: Db, maxAttempts: int)
    requires maxAttempts >= 1 && (q.CompleteFeedback? ==> q.maxAttempts == maxAttempts) && Effect(q, now, cur, db)
    requires forall i :: i in cur.db.receipts ==> ReceiptAccounted(cur.db.receipts[i], maxAttempts)
    ensures forall i :: i in db.receipts ==> ReceiptAccounted(db.receipts[i], maxAttempts)
  {
    hide Effect, ReceiptAccounted;
    EffectIsFramed(q, now, cur, db);
    forall i | i in db.receipts && WritesReceipts(q)
      ensures ReceiptAccounted(db.receipts[i], maxAttempts)
    {
      ReceiptAccountWritten(q, now, cur, db, maxAttempts, i);
    }
  }

  /** A failed delivery moves the earliest next claim by exactly one capped doubling of the base. */
  lemma CompletionKeepsPace(r: Receipt, q: Request, now: Time, base: int)
    requires 0 <= base && base * Pow2(BACKOFF_CAP) <= MAX_INT64 && q.CompleteFeedback? && q.baseBackoff == base
    requires r.status == FeedbackDelivering && ReceiptPaced(r, base) && r.updatedAt <= now
    ensures ReceiptPaced(Delivered(r, q.deliveryError, q.maxAttempts, q.baseBackoff, now), base)
  {
    DelayAdds(base, r.attempt, BACKOFF_CAP);
  }

  lemma ClaimKeepsPace(r: Receipt, now: Time, until: Time, base: int)
    requires FeedbackReady(r, now) && ReceiptPaced(r, base)
    ensures ReceiptPaced(r.(status := FeedbackDelivering, leaseUntil := Some(until), version := r.version + 1,
                            updatedAt := now), base)
  {
  }

  lemma PaceWritten(q: Request, now: Time, cur: World, db: Db, base: int, i: Id)
    requires 0 <= base && base * Pow2(BACKOFF_CAP) <= MAX_INT64 && (q.CompleteFeedback? ==> q.baseBackoff == base)
    requires WritesReceipts(q) && Effect(q, now, cur, db) && i in db.receipts
    requires i in cur.db.receipts ==> ReceiptPaced(cur.db.receipts[i], base)
    ensures ReceiptPaced(db.receipts[i], base)
  {
    hide Trim;
    if q.CompleteFeedback? && i == q.receiptId {
      CompletionKeepsPace(cur.db.receipts[i], q, now, base);
    } else if q.ClaimFeedback? && i == q.receiptId {
      ClaimKeepsPace(cur.db.receipts[i], now, now + q.lease, base);
    }
  }

  lemma EffectKeepsPace(q: Request, now: Time, cur: World, db: Db, base: int)
    requires 0 <= base && base * Pow2(BACKOFF_CAP) <= MAX_INT64 && (q.CompleteFeedback? ==> q.baseBackoff == base)
    requires Effect(q, now, cur, db) && forall i :: i in cur.db.receipts ==> ReceiptPaced(cur.db.receipts[i], base)
    ensures forall i :: i in db.receipts ==> ReceiptPaced(db.receipts[i], base)
  {
    hide Effect, ReceiptPaced;
    EffectIsFramed(q, now, cur, db);
    forall i | i in db.receipts && WritesReceipts(q)
      ensures ReceiptPaced(db.receipts[i], base)
    {
      PaceWritten(q, now, cur, db, base, i);
    }
  }

  lemma EventAccountWritten(q: Request, now: Time, cur: World, db: Db, e: Id)
    requires WritesOutbox(q) && Effect(q, now, cur, db) && e in db.outbox
    requires e in cur.db.outbox ==> EventAccounted(cur.db.outbox[e])
    ensures EventAccounted(db.outbox[e])
  {
  }

  lemma EffectKeepsEventAccounts(q: Request, now: Time, cur: World, db: Db)
    requires Effect(q, now, cur, db)
    requires forall i :: i in cur.db.outbox ==> EventAccounted(cur.db.outbox[i])
    ensures forall i :: i in db.outbox ==> EventAccounted(db.outbox[i])
  {
    hide Effect, EventAccounted;
    EffectIsFramed(q, now, cur, db);
    forall e | e in db.outbox && WritesOutbox(q)
      ensures EventAccounted(db.outbox[e])
    {
      EventAccountWritten(q, now, cur, db, e);
    }
  }

  lemma {:induction false} RunAccounted(run: Run, k: nat, maxAttempts: int)
    requires ValidRun(run) && k < |run.worlds| && maxAttempts >= 1 && Limited(run, maxAttempts)
    ensures forall i :: i in run.worlds[k].db.receipts ==> ReceiptAccounted(run.worlds[k].db.receipts[i], maxAttempts)
  {
    if k > 0 {
      RunAccounted(run, k - 1, maxAttempts);
      CommitEffect(run, k - 1);
      var ev, w, w' := run.events[k - 1], run.worlds[k - 1], run.worlds[k];
      if ev.Committed? {
        EffectKeepsReceiptAccounts(ev.request, Now(ev.request, Sample(run.worlds, ev.at)), w, w'.db, maxAttempts);
      }
    }
  }

  lemma {:induction false} RunPaced(run: Run, k: nat, base: int)
    requires ValidRun(run) && k < |run.worlds| && Paced(run, base)
    ensures forall i :: i in run.worlds[k].db.receipts ==> ReceiptPaced(run.worlds[k].db.receipts[i], base)
  {
    if k > 0 {
      RunPaced(run, k - 1, base);
      CommitEffect(run, k - 1);
      var ev, w, w' := run.events[k - 1], run.worlds[k - 1], run.worlds[k];
      if ev.Committed? {
        EffectKeepsPace(ev.request, Now(ev.request, Sample(run.worlds, ev.at)), w, w'.db, base);
      }
    }
  }

  /** Each event of a run is an atomic effect, or leaves the delivery tables alone. */
  lemma CommitEffect(run: Run, k: nat)
    requires ValidRun(run) && k < |run.events|
    ensures var ev, w, w' := run.events[k], run.worlds[k], run.worlds[k + 1];
            if ev.Committed? then Sampling(ev.at, k) && Effect(ev.request, Now(ev.request, Sample(run.worlds, ev.at)),
                                                               w, w'.db)
            else w'.db == w.db.(items := w'.db.items)
  {
    assert Next(run.worlds, k, run.events[k]);
    if run.events[k].Committed? {
      RunSafeUpTo(run, k);
      SamplesAreStale(run.worlds, k, run.events[k].at);
      CommitRefinesEffect(run.events[k].request, Sample(run.worlds, run.events[k].at), run.worlds[k],
                          run.worlds[k + 1].db);
    }
  }

  /******* Theorems over runs *******/

  /** Exact accounting in every world: a receipt is live below the attempt limit and fails for good at it. */
  lemma ReceiptAccounting(run: Run, k: nat, i: Id, maxAttempts: int)
    requires ValidRun(run) && k < |run.worlds| && maxAttempts >= 1 && Limited(run, maxAttempts)
    requires i in run.worlds[k].db.receipts
    ensures ReceiptAccounted(run.worlds[k].db.receipts[i], maxAttempts)
    ensures run.worlds[k].db.receipts[i].version <= 1 + 2 * maxAttempts
  {
    RunAccounted(run, k, maxAttempts);
  }

  /** Claim number attempt + 1 of a receipt, recorded in `updatedAt`, waits out all backoffs before it. */
  lemma BackoffBound(run: Run, k: nat, i: Id, base: int)
    requires ValidRun(run) && k < |run.worlds| && Paced(run, base)
    requires i in run.worlds[k].db.receipts && run.worlds[k].db.receipts[i].status == FeedbackDelivering
    ensures var r := run.worlds[k].db.receipts[i];
            r.updatedAt >= r.createdAt + base * (if r.attempt <= 9 then Pow2(r.attempt) - 1
                                                 else 511 + 256 * (r.attempt - 9))
  {
    RunPaced(run, k, base);
    DoublingsClosedForm(run.worlds[k].db.receipts[i].attempt, BACKOFF_CAP);
  }

  predicate Touches(ev: Event, i: Id) {
    ev.Committed?
    && ((ev.request.ClaimFeedback? && ev.request.receiptId == i)
        || (ev.request.CompleteFeedback? && ev.request.receiptId == i))
  }

  /** How many of the first k events claim or complete receipt i. */
  ghost function Touched(run: Run, k: nat, i: Id): nat
    requires k <= |run.events|
  {
    if k == 0 then 0 else Touched(run, k - 1, i) + if Touches(run.events[k - 1], i) then 1 else 0
  }

  lemma EffectCounts(q: Request, now: Time, cur: World, db: Db, i: Id)
    requires Effect(q, now, cur, db)
    ensures i in cur.db.receipts ==> i in db.receipts
    ensures i in cur.db.receipts ==>
              db.receipts[i].version == cur.db.receipts[i].version + if Touches(Committed(0, q, []), i) then 1 else 0
    ensures i !in cur.db.receipts ==>
              !Touches(Committed(0, q, []), i) && (i in db.receipts ==> db.receipts[i].version == 1)
  {
  }

  lemma {:induction false} VersionCountsCommits(run: Run, k: nat, i: Id)
    requires ValidRun(run) && k <= |run.events|
    ensures var db := run.worlds[k].db;
            if i in db.receipts then db.receipts[i].version == 1 + Touched(run, k, i) else Touched(run, k, i) == 0
  {
    if k > 0 {
      VersionCountsCommits(run, k - 1, i);
      CommitEffect(run, k - 1);
      var ev := run.events[k - 1];
      if ev.Committed? {
        EffectCounts(ev.request, Now(ev.request, Sample(run.worlds, ev.at)), run.worlds[k - 1], run.worlds[k].db, i);
      }
    }
  }

  /** However many clients compete, a receipt is written at most twice per permitted attempt. */
  lemma CommitsBounded(run: Run, k: nat, i: Id, maxAttempts: int)
    requires ValidRun(run) && k <= |run.events| && maxAttempts >= 1 && Limited(run, maxAttempts)
    ensures Touched(run, k, i) <= 2 * maxAttempts
  {
    VersionCountsCommits(run, k, i);
    RunAccounted(run, k, maxAttempts);
  }

  /** A delivered or permanently failed receipt never changes again. */
  lemma ReceiptOutcomeFinal(run: Run, i: nat, k: nat, r: Id)
    requires ValidRun(run) && i <= k < |run.worlds| && r in run.worlds[i].db.receipts
    requires run.worlds[i].db.receipts[r].status in {FeedbackDelivered, FeedbackPermanentFailed}
    ensures r in run.worlds[k].db.receipts && run.worlds[k].db.receipts[r] == run.worlds[i].db.receipts[r]
  {
    RunSafeUpTo(run, k);
    assert Evolves(run.worlds[i].db, run.worlds[k].db);
    assert ReceiptStep(run.worlds[i].db.receipts[r], run.worlds[k].db.receipts[r]);
  }

  /** Every CompleteFeedback call of the run passes this base, whatever else it passes. */
  ghost predicate OneBase(run: Run, base: int) {
    forall k :: 0 <= k < |run.events| && run.events[k].Committed? && run.events[k].request.CompleteFeedback? ==>
      run.events[k].request.baseBackoff == base
  }

  /** A queued receipt waits for the delay of its last failure; one that has not failed yet does not wait. */
  predicate ReceiptWaits(r: Receipt, base: int) {
    r.status == FeedbackQueued ==>
      r.nextAttemptAt == if r.attempt == 0 then r.createdAt else r.updatedAt + Delay(base, r.attempt, 8)
  }

  lemma ReceiptWaitWritten(q: Request, now: Time, cur: World, db: Db, base: int, i: Id)
    requires WritesReceipts(q) && Effect(q, now, cur, db) && i in db.receipts
    requires q.CompleteFeedback? ==> q.baseBackoff == base
    requires i in cur.db.receipts ==> ReceiptWaits(cur.db.receipts[i], base)
    ensures ReceiptWaits(db.receipts[i], base)
  {
    hide Delay;
  }

  lemma EffectKeepsReceiptWaits(q: Request, now: Time, cur: World, db: Db, base: int)
    requires Effect(q, now, cur, db) && (q.CompleteFeedback? ==> q.baseBackoff == base)
    requires forall i :: i in cur.db.receipts ==> ReceiptWaits(cur.db.receipts[i], base)
    ensures forall i :: i in db.receipts ==> ReceiptWaits(db.receipts[i], base)
  {
    hide Effect, ReceiptWaits;
    EffectIsFramed(q, now, cur, db);
    forall i | i in db.receipts && WritesReceipts(q)
      ensures ReceiptWaits(db.receipts[i], base)
    {
      ReceiptWaitWritten(q, now, cur, db, base, i);
    }
  }

  lemma {:induction false} RunReceiptWaits(run: Run, k: nat, base: int)
    requires ValidRun(run) && k < |run.worlds| && OneBase(run, base)
    ensures forall i :: i in run.worlds[k].db.receipts ==> ReceiptWaits(run.worlds[k].db.receipts[i], base)
  {
    hide Effect, ReceiptWaits, Next;
    if k > 0 {
      RunReceiptWaits(run, k - 1, base);
      CommitEffect(run, k - 1);
      var ev, w, w' := run.events[k - 1], run.worlds[k - 1], run.worlds[k];
      if ev.Committed? {
        EffectKeepsReceiptWaits(ev.request, Now(ev.request, Sample(run.worlds, ev.at)), w, w'.db, base);
      }
    }
  }

  /** In every world a queued receipt can be claimed exactly from the end of its wait: at once when it has just been
      queued, and else when the capped doubling of the base, counted from its last failure, has passed. */
  lemma FailedReceiptReturns(run: Run, k: nat, i: Id, base: int, now: Time)
    requires ValidRun(run) && k < |run.worlds| && OneBase(run, base)
    requires i in run.worlds[k].db.receipts && run.worlds[k].db.receipts[i].status == FeedbackQueued
    ensures var r := run.worlds[k].db.receipts[i];
            var from := if r.attempt == 0 then r.createdAt else r.updatedAt + Delay(base, r.attempt, 8);
            && r.nextAttemptAt == from
            && (FeedbackReady(r, now) <==> from <= now)
            && (0 <= base <= MAX_INT64 / 256 && r.attempt > 0 ==>
                  from == r.updatedAt + base * Pow2(if r.attempt <= 9 then r.attempt - 1 else 8))
  {
    RunReceiptWaits(run, k, base);
    ReadyQueriesIgnoreLeases(run, k, now, i, "");
    var r := run.worlds[k].db.receipts[i];
    if 0 <= base <= MAX_INT64 / 256 && r.attempt > 0 {
      CapIs256(base);
      DelayExact(base, r.attempt, 8);
    }
  }

  lemma CapIs256(base: int)
    requires 0 <= base <= MAX_INT64 / 256
    ensures base * Pow2(8) <= MAX_INT64
  {
    assert Pow2(1) == 2 && Pow2(2) == 4 && Pow2(3) == 8 && Pow2(4) == 16 && Pow2(5) == 32 && Pow2(6) == 64;
    assert Pow2(7) == 128 && Pow2(8) == 256;
  }

  /** Every CompleteOutbox call of the run passes this attempt limit and this backoff. */
  ghost predicate Retried(run: Run, maxAttempts: int, backoff: int) {
    forall k :: 0 <= k < |run.events| && run.events[k].Committed? && run.events[k].request.CompleteOutbox? ==>
      run.events[k].request.maxAttempts == maxAttempts && run.events[k].request.backoff == backoff
  }

  /** A failed event waits for its backoff, and for a day once it has used up its attempts. */
  predicate EventWaits(e: OutboxEvent, maxAttempts: int, backoff: int) {
    e.status == OutboxFailed ==>
      e.attempt >= 1
      && e.availableAt == e.updatedAt + if e.attempt >= maxAttempts then DAY else Delay(backoff, e.attempt, BACKOFF_CAP)
  }

  lemma WaitWritten(q: Request, now: Time, cur: World, db: Db, maxAttempts: int, backoff: int, e: Id)
    requires WritesOutbox(q) && Effect(q, now, cur, db) && e in db.outbox
    requires q.CompleteOutbox? ==> q.maxAttempts == maxAttempts && q.backoff == backoff
    requires e in cur.db.outbox ==> EventWaits(cur.db.outbox[e], maxAttempts, backoff)
    ensures EventWaits(db.outbox[e], maxAttempts, backoff)
  {
    hide Delay;
  }

  lemma EffectKeepsWaits(q: Request, now: Time, cur: World, db: Db, maxAttempts: int, backoff: int)
    requires Effect(q, now, cur, db) && (q.CompleteOutbox? ==> q.maxAttempts == maxAttempts && q.backoff == backoff)
    requires forall i :: i in cur.db.outbox ==> EventWaits(cur.db.outbox[i], maxAttempts, backoff)
    ensures forall i :: i in db.outbox ==> EventWaits(db.outbox[i], maxAttempts, backoff)
  {
    hide Effect, EventWaits;
    EffectIsFramed(q, now, cur, db);
    forall e | e in db.outbox && WritesOutbox(q)
      ensures EventWaits(db.outbox[e], maxAttempts, backoff)
    {
      WaitWritten(q, now, cur, db, maxAttempts, backoff, e);
    }
  }

  lemma {:induction false} RunWaits(run: Run, k: nat, maxAttempts: int, backoff: int)
    requires ValidRun(run) && k < |run.worlds| && Retried(run, maxAttempts, backoff)
    ensures forall i :: i in run.worlds[k].db.outbox ==> EventWaits(run.worlds[k].db.outbox[i], maxAttempts, backoff)
  {
    hide Effect, EventWaits, Next;
    if k > 0 {
      RunWaits(run, k - 1, maxAttempts, backoff);
      CommitEffect(run, k - 1);
      var ev, w, w' := run.events[k - 1], run.worlds[k - 1], run.worlds[k];
      if ev.Committed? {
        EffectKeepsWaits(ev.request, Now(ev.request, Sample(run.worlds, ev.at)), w, w'.db, maxAttempts, backoff);
      }
    }
  }

  /** In every world a failed event can be claimed again exactly from the end of its wait: the capped doubling of
      the backoff while it has attempts left, and a day after each failure from then on, for ever. */
  lemma FailedEventReturns(run: Run, k: nat, e: Id, maxAttempts: int, backoff: int, now: Time)
    requires ValidRun(run) && k < |run.worlds| && Retried(run, maxAttempts, backoff)
    requires e in run.worlds[k].db.outbox && run.worlds[k].db.outbox[e].status == OutboxFailed
    ensures var v := run.worlds[k].db.outbox[e];
            && v.attempt >= 1
            && (OutboxReady(v, now)
                <==> v.updatedAt + (if v.attempt >= maxAttempts then 24 * 3_600_000_000_000
                                    else Delay(backoff, v.attempt, 8)) <= now)
  {
    RunWaits(run, k, maxAttempts, backoff);
    ReadyQueriesIgnoreLeases(run, k, now, "", e);
  }

  /** The outbox has no end like a receipt's: whatever the attempt limit, an unpublished event that is not
      being processed is claimable again, from its available time on. */
  lemma OutboxNeverGivesUp(run: Run, k: nat, e: Id, now: Time)
    requires ValidRun(run) && k < |run.worlds| && e in run.worlds[k].db.outbox
    requires run.worlds[k].db.outbox[e].status != OutboxPublished
             && run.worlds[k].db.outbox[e].status != OutboxProcessing
    ensures EventAccounted(run.worlds[k].db.outbox[e])
    ensures OutboxReady(run.worlds[k].db.outbox[e], now) <==> run.worlds[k].db.outbox[e].availableAt <= now
  {
    EventAccounting(run, k);
    ReadyQueriesIgnoreLeases(run, k, now, "", e);
  }

  lemma {:induction false} EventAccounting(run: Run, k: nat)
    requires ValidRun(run) && k < |run.worlds|
    ensures forall e :: e in run.worlds[k].db.outbox ==> EventAccounted(run.worlds[k].db.outbox[e])
  {
    if k > 0 {
      EventAccounting(run, k - 1);
      CommitEffect(run, k - 1);
      var ev := run.events[k - 1];
      if ev.Committed? {
        EffectKeepsEventAccounts(ev.request, Now(ev.request, Sample(run.worlds, ev.at)), run.worlds[k - 1],
                                 run.worlds[k].db);
      }
    }
  }

  /******* Expired leases *******/

  /** The call that ends the processing of a receipt, or of an event. */
  predicate Completes(ev: Event, r: Id) {
    ev.Committed? && ev.request.CompleteFeedback? && ev.request.receiptId == r
  }

  predicate CompletesEvent(ev: Event, e: Id) {
    ev.Committed? && ev.request.CompleteOutbox? && ev.request.eventId == e
  }

  lemma HeldReceiptStays(q: Request, now: Time, cur: World, db: Db, r: Id)
    requires Effect(q, now, cur, db) && r in cur.db.receipts && cur.db.receipts[r].status == FeedbackDelivering
    requires !(q.CompleteFeedback? && q.receiptId == r)
    ensures r in db.receipts && db.receipts[r] == cur.db.receipts[r]
  {
    EffectIsFramed(q, now, cur, db);
    if !WritesReceipts(q) {
      hide Effect;
    }
  }

  lemma HeldEventStays(q: Request, now: Time, cur: World, db: Db, e: Id)
    requires Effect(q, now, cur, db) && e in cur.db.outbox && cur.db.outbox[e].status == OutboxProcessing
    requires !(q.CompleteOutbox? && q.eventId == e)
    ensures e in db.outbox && db.outbox[e] == cur.db.outbox[e]
  {
    EffectIsFramed(q, now, cur, db);
    if !WritesOutbox(q) {
      hide Effect;
    }
  }

  /** An expired lease is never reclaimed: until somebody completes it, a claimed receipt stays exactly as it was
      claimed and is offered to nobody, however late it is. */
  lemma {:induction false} ClaimedReceiptWaits(run: Run, i: nat, k: nat, r: Id)
    requires ValidRun(run) && i <= k < |run.worlds|
    requires r in run.worlds[i].db.receipts && run.worlds[i].db.receipts[r].status == FeedbackDelivering
    requires forall j :: i <= j < k ==> !Completes(run.events[j], r)
    ensures r in run.worlds[k].db.receipts && run.worlds[k].db.receipts[r] == run.worlds[i].db.receipts[r]
    ensures forall now :: !FeedbackReady(run.worlds[k].db.receipts[r], now)
  {
    hide Next, Effect;
    if i < k {
      ClaimedReceiptWaits(run, i, k - 1, r);
      CommitEffect(run, k - 1);
      var ev := run.events[k - 1];
      if ev.Committed? {
        HeldReceiptStays(ev.request, Now(ev.request, Sample(run.worlds, ev.at)), run.worlds[k - 1], run.worlds[k].db,
                         r);
      }
    }
  }

  /** The same for a claimed outbox event. */
  lemma {:induction false} ClaimedEventWaits(run: Run, i: nat, k: nat, e: Id)
    requires ValidRun(run) && i <= k < |run.worlds|
    requires e in run.worlds[i].db.outbox && run.worlds[i].db.outbox[e].status == OutboxProcessing
    requires forall j :: i <= j < k ==> !CompletesEvent(run.events[j], e)
    ensures e in run.worlds[k].db.outbox && run.worlds[k].db.outbox[e] == run.worlds[i].db.outbox[e]
    ensures forall now :: !OutboxReady(run.worlds[k].db.outbox[e], now)
  {
    hide Next, Effect;
    if i < k {
      ClaimedEventWaits(run, i, k - 1, e);
      CommitEffect(run, k - 1);
      var ev := run.events[k - 1];
      if ev.Committed? {
        HeldEventStays(ev.request, Now(ev.request, Sample(run.worlds, ev.at)), run.worlds[k - 1], run.worlds[k].db, e);
      }
    }
  }
}
