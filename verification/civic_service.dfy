/** internal/service/civic_service.go in its own shape: read, decide, commit, with everybody else free to act
    between any two statements. What the methods promise is exact: the answer is the one the protocol decides on
    what this call has seen since it began; a decision to commit is carried out by a transaction, which succeeds
    exactly if the world it meets and the storage let it, and is then a step of the protocol, so everything proved
    of runs holds of it; and a returned row is the row the tables hold. */
module CivicServices {
  import opened Outcomes
  import opened SuggestionStatus
  import opened Durations
  import opened CivicDomain
  import opened CivicTables
  import opened CivicProtocol
  import opened CivicSafety
  import opened CivicReturns
  import opened CivicRepeats
  import opened CivicIndexes
  import opened Queries

  /** The requests client `me` has committed, in order. */
  ghost function Own(events: seq<Event>, me: nat): seq<Request> {
    if events == [] then []
    else
      var last := events[|events| - 1];
      Own(events[..|events| - 1], me)
      + if last.Committed? && last.client == me then [last.request] else []
  }

  lemma OwnAppends(events: seq<Event>, ev: Event, me: nat)
    ensures Own(events + [ev], me) == Own(events, me) + if ev.Committed? && ev.client == me then [ev.request] else []
  {
    assert (events + [ev])[..|events|] == events;
  }

  /** What look number `j` saw. After its last look an operation sees nothing newer. */
  function View(views: seq<World>, j: nat): World {
    if j < |views| then views[j] else if views == [] then World(EMPTY_DB, 0) else views[|views| - 1]
  }

  /** What an operation saw, as samples: the worlds of its reads, the last one repeated. */
  function Seen(views: seq<World>): Samples {
    [View(views, 0), View(views, 1), View(views, 2), View(views, 3), View(views, 4), View(views, 5), View(views, 6)]
  }

  /** What the operation decides on having seen `views`. */
  ghost function DecisionOn(q: Request, views: seq<World>): Decision {
    Decide(q, Seen(views))
  }

  lemma ActivateCollectionPointDecides(q: Request)
    requires q.ActivateCollectionPoint?
    ensures forall v {:trigger DecisionOn(q, v)} ::
      DecisionOn(q, v) == DecideActivatePoint(q, View(v, 0).db, View(v, 1).db, View(v, 2).clock)
  {
  }

  lemma TransitionCampaignDecides(q: Request)
    requires q.TransitionCampaign?
    ensures forall v {:trigger DecisionOn(q, v)} ::
      DecisionOn(q, v) == DecideTransitionCampaign(q, View(v, 0).db, View(v, 1).db, View(v, 2).clock)
  {
  }

  lemma CreateHandlingPlanDecides(q: Request)
    requires q.CreateHandlingPlan?
    ensures forall v {:trigger DecisionOn(q, v)} ::
      DecisionOn(q, v) == DecideCreatePlan(q, View(v, 0).db, View(v, 1).db, View(v, 2).clock, View(v, 3).clock)
  {
  }

  lemma ProposeConversionDecides(q: Request)
    requires q.ProposeConversion?
    ensures forall v {:trigger DecisionOn(q, v)} ::
      DecisionOn(q, v) == DecideProposeConversion(q, View(v, 0).db, View(v, 1).db, View(v, 2).db, View(v, 3).clock)
  {
  }

  lemma QueueFeedbackDecides(q: Request)
    requires q.QueueFeedback?
    ensures forall v {:trigger DecisionOn(q, v)} ::
      DecisionOn(q, v) == DecideQueueFeedback(q, View(v, 0).db, View(v, 1).db, View(v, 2).clock)
  {
  }

  lemma CompleteFeedbackDecides(q: Request)
    requires q.CompleteFeedback?
    ensures forall v {:trigger DecisionOn(q, v)} ::
      DecisionOn(q, v) == DecideCompleteFeedback(q, View(v, 0).db, View(v, 1).clock)
  {
  }

  lemma VerifyConversionDecides(q: Request)
    requires q.VerifyConversion?
    ensures forall v {:trigger DecisionOn(q, v)} ::
      DecisionOn(q, v) == DecideVerifyConversion(q, View(v, 0).db, View(v, 1).clock)
  {
  }

  /** The requests that are turned down before anything is read. */
  predicate Malformed(q: Request) {
    (q.CreateCampaign? && q.actor == "") || (q.IntakeSuggestion? && q.key == "")
        || (q.CreateHandlingPlan? && q.key == "")
    || (q.QueueFeedback? && (q.citizenHash == "" || q.channel == ""))
  }

  /** How the database answers the transaction `w`: a statement's error, the storage's, or success. */
  function Refusal(db: Db, w: Write, storageFails: bool): Option<Error> {
    if Apply(db, w).Err? then Some(Apply(db, w).error) else if storageFails then Some(StorageFailure) else None
  }

  predicate Extends(worlds: seq<World>, later: seq<World>) {
    worlds <= later
  }

  /** The views were taken at the positions `seen` of the history, in order and none before `since`. */
  predicate SeenAt(worlds: seq<World>, since: nat, seen: seq<nat>, views: seq<World>) {
    |seen| == |views| && since < |worlds|
    && (forall k {:trigger seen[k]} :: 0 <= k < |seen| ==> since <= seen[k] < |worlds| && worlds[seen[k]] == views[k])
    && (forall j, k {:trigger seen[j], seen[k]} :: 0 <= j <= k < |seen| ==> seen[j] <= seen[k])
  }

  lemma SeenLater(worlds: seq<World>, later: seq<World>, since: nat, seen: seq<nat>, views: seq<World>)
    requires worlds <= later && SeenAt(worlds, since, seen, views)
    ensures SeenAt(later, since, seen, views)
  {
  }

  lemma SeenNow(worlds: seq<World>, since: nat, seen: seq<nat>, views: seq<World>)
    requires SeenAt(worlds, since, seen, views)
    ensures SeenAt(worlds, since, seen + [|worlds| - 1], views + [worlds[|worlds| - 1]])
  {
  }

  lemma ViewsAreSamples(worlds: seq<World>, since: nat, seen: seq<nat>, views: seq<World>) returns (at: seq<nat>)
    requires 0 < |views| && SeenAt(worlds, since, seen, views)
    ensures Sampling(at, |worlds| - 1) && Sample(worlds, at) == Seen(views)
  {
    at := seq(SLOTS, j requires 0 <= j < SLOTS => if j < |seen| then seen[j] else seen[|seen| - 1]);
  }

  lemma SampleOfPrefix(a: seq<World>, b: seq<World>, at: seq<nat>)
    requires 0 < |a| && a <= b && Sampling(at, |a| - 1)
    ensures Sample(a, at) == Sample(b, at)
  {
  }

  lemma RunExtends(run: Run, w: World, ev: Event)
    requires ValidRun(run) && Next(run.worlds + [w], |run.events|, ev)
    ensures ValidRun(Run(run.worlds + [w], run.events + [ev]))
  {
    var worlds, events := run.worlds + [w], run.events + [ev];
    forall k | 0 <= k < |events|
      ensures Next(worlds, k, events[k])
    {
      if k < |run.events| {
        assert Next(run.worlds, k, run.events[k]);
        if events[k].Committed? {
          SampleOfPrefix(run.worlds, worlds, events[k].at);
        }
      }
    }
  }

  lemma CommitAppends(run: Run, q: Request, at: seq<nat>, w: Write, cur: World, db: Db)
    requires ValidRun(run) && cur == run.worlds[|run.worlds| - 1] && Sampling(at, |run.worlds| - 1)
    requires Decide(q, Sample(run.worlds, at)) == Commit(w) && Apply(cur.db, w) == Ok(db)
    ensures forall client :: ValidRun(Run(run.worlds + [World(db, cur.clock)], run.events + [Committed(client, q, at)]))
    ensures Stored(db, w)
  {
    var next := World(db, cur.clock);
    SampleOfPrefix(run.worlds, run.worlds + [next], at);
    forall client
      ensures ValidRun(Run(run.worlds + [next], run.events + [Committed(client, q, at)]))
    {
      RunExtends(run, next, Committed(client, q, at));
    }
    RunSafeUpTo(run, |run.events|);
    SamplesAreStale(run.worlds, |run.events|, at);
    CommitStores(q, Sample(run.worlds, at), cur, db);
  }

  /** The intake with this campaign and key that event `j` of the run committed, as it was stored. */
  ghost predicate FiledAt(run: Run, j: nat, campaignId: Id, key: string, row: Intake)
    requires ValidRun(run)
  {
    && j < |run.events| && run.events[j].Committed? && run.events[j].request.IntakeSuggestion?
    && run.events[j].request.campaignId == campaignId && run.events[j].request.key == key
    && run.events[j].request.id in run.worlds[j + 1].db.intakes
    && run.worlds[j + 1].db.intakes[run.events[j].request.id] == row
  }

  /** A look for the campaign and key can only find this row. */
  ghost predicate OnlyRow(db: Db, campaignId: Id, key: string, row: Intake) {
    && HasIntakeKey(db, campaignId, key)
    && forall other ::
         IsRow(db.intakes, other) && other.campaignId == campaignId && other.key == key ==> other == row
  }

  /** An intake filed before a world is what that world has under its campaign and key. */
  lemma FiledIsKept(run: Run, j: nat, k: nat, campaignId: Id, key: string, row: Intake)
    requires ValidRun(run) && j < k < |run.worlds| && FiledAt(run, j, campaignId, key, row)
    ensures OnlyRow(run.worlds[k].db, campaignId, key, row)
  {
    hide ValidRun;
    IntakeFiled(run, j);
    IntakeStays(run, j + 1, k, run.events[j].request.id);
  }

  ghost predicate IsRow<T(!new)>(table: map<Id, T>, row: T) {
    exists i :: i in table && table[i] == row
  }

  /** LIMIT of the list queries. */
  function PageSize(limit: int): nat {
    if limit <= 0 || limit > 200 then 50 else limit
  }

  /** The ready receipts of `db` at `now`, each once and the longest waiting first. Those left out wait no longer
      than any that is listed, and are left out only when the page is full. */
  ghost predicate FeedbackQueue(db: Db, now: Time, limit: int, ready: seq<Receipt>) {
    var size := if limit <= 0 || limit > 200 then 50 else limit;
    && |ready| <= size
    && (forall r <- ready :: r.id in db.receipts && db.receipts[r.id] == r && r.status == FeedbackQueued
                         && r.nextAttemptAt <= now && (r.leaseUntil.Some? ==> r.leaseUntil.value < now))
    && (forall j, k :: 0 <= j < k < |ready| ==>
          ready[j].id != ready[k].id && ready[j].nextAttemptAt <= ready[k].nextAttemptAt)
    && forall i ::
         i in db.receipts && db.receipts[i].status == FeedbackQueued && db.receipts[i].nextAttemptAt <= now
         && (db.receipts[i].leaseUntil.Some? ==> db.receipts[i].leaseUntil.value < now) && db.receipts[i] !in ready
         ==> |ready| == size && forall r <- ready :: r.nextAttemptAt <= db.receipts[i].nextAttemptAt
  }

  /** The rows that sort first are such a page. */
  lemma FeedbackQueueSorted(db: Db, now: Time, limit: int, waiting: map<Id, Rank>, ids: seq<Id>,
                            ready: seq<Receipt>)
    requires FirstByRank(waiting, PageSize(limit), ids)
    requires forall i :: i in waiting <==> i in db.receipts && FeedbackReady(db.receipts[i], now)
    requires forall i :: i in waiting ==> waiting[i] == By(db.receipts[i].nextAttemptAt)
    requires |ready| == |ids| && forall k :: 0 <= k < |ids| ==>
               ids[k] in db.receipts && ready[k] == db.receipts[ids[k]] && ready[k].id == ids[k]
    ensures FeedbackQueue(db, now, limit, ready)
  {
    assert forall k :: 0 <= k < |ids| ==> ids[k] in ids && ids[k] in waiting;
    forall i | i in waiting && db.receipts[i] !in ready
      ensures |ready| == PageSize(limit) && forall r <- ready :: r.nextAttemptAt <= db.receipts[i].nextAttemptAt
    {
      assert i !in ids;
    }
  }

  /** The ready events of `db` at `now`, each once and the longest waiting first. Those left out wait no longer than
      any that is listed, and are left out only when the page is full. */
  ghost predicate OutboxQueue(db: Db, now: Time, limit: int, ready: seq<OutboxEvent>) {
    var size := if limit <= 0 || limit > 200 then 50 else limit;
    && |ready| <= size
    && (forall e <- ready :: e.id in db.outbox && db.outbox[e.id] == e && e.status in {OutboxPending, OutboxFailed}
                         && e.availableAt <= now && (e.leaseUntil.Some? ==> e.leaseUntil.value < now))
    && (forall j, k :: 0 <= j < k < |ready| ==>
          ready[j].id != ready[k].id && ready[j].availableAt <= ready[k].availableAt)
    && forall i ::
         i in db.outbox && db.outbox[i].status in {OutboxPending, OutboxFailed} && db.outbox[i].availableAt <= now
         && (db.outbox[i].leaseUntil.Some? ==> db.outbox[i].leaseUntil.value < now) && db.outbox[i] !in ready
         ==> |ready| == size && forall e <- ready :: e.availableAt <= db.outbox[i].availableAt
  }

  /** The rows that sort first are such a page. */
  lemma OutboxQueueSorted(db: Db, now: Time, limit: int, waiting: map<Id, Rank>, ids: seq<Id>,
                          ready: seq<OutboxEvent>)
    requires FirstByRank(waiting, PageSize(limit), ids)
    requires forall i :: i in waiting <==> i in db.outbox && OutboxReady(db.outbox[i], now)
    requires forall i :: i in waiting ==> waiting[i] == By(db.outbox[i].availableAt)
    requires |ready| == |ids| && forall k :: 0 <= k < |ids| ==>
               ids[k] in db.outbox && ready[k] == db.outbox[ids[k]] && ready[k].id == ids[k]
    ensures OutboxQueue(db, now, limit, ready)
  {
    assert forall k :: 0 <= k < |ids| ==> ids[k] in ids && ids[k] in waiting;
    forall i | i in waiting && db.outbox[i] !in ready
      ensures |ready| == PageSize(limit) && forall e <- ready :: e.availableAt <= db.outbox[i].availableAt
    {
      assert i !in ids;
    }
  }

  /** One transaction of a pass over a queue: what was tried, the position of the world it met, its error. */
  datatype Attempt = Attempt(request: Request, at: nat, failed: Option<Error>) {
    /** Another client having got there first does not end the pass. */
    predicate GoesOn() {
      failed.None? || failed == Some(ConcurrentConflict)
    }
  }

  /** The attempts were decided on `views`, and each failed as the world it met made it fail. */
  ghost predicate Genuine(attempts: seq<Attempt>, views: seq<World>, began: int, worlds: seq<World>,
                          fails: set<Request>) {
    forall a <- attempts ::
      began <= a.at < |worlds| && DecisionOn(a.request, views).Commit?
      && a.failed == Refusal(worlds[a.at].db, DecisionOn(a.request, views).w, a.request in fails)
  }

  lemma GenuineAppends(attempts: seq<Attempt>, a: Attempt, views: seq<World>, began: int,
                       worlds: seq<World>, later: seq<World>, fails: set<Request>)
    requires Genuine(attempts, views, began, worlds, fails) && worlds <= later
    requires Genuine([a], views, began, later, fails)
    ensures Genuine(attempts + [a], views, began, later, fails)
  {
    assert a in [a];
    forall b | b in attempts + [a]
      ensures began <= b.at < |later| && DecisionOn(b.request, views).Commit?
              && b.failed == Refusal(later[b.at].db, DecisionOn(b.request, views).w, b.request in fails)
    {
      assert b in attempts || b == a;
    }
  }

  /** The receipt as its claim at `now` leaves it: it was queued, due and not held. */
  predicate ClaimedReceipt(db: Db, now: Time, lease: int, r: Receipt) {
    r.id in db.receipts
    && var row := db.receipts[r.id];
       row.status == FeedbackQueued && row.nextAttemptAt <= now && (row.leaseUntil.Some? ==> row.leaseUntil.value < now)
       && r == row.(status := FeedbackDelivering, leaseUntil := Some(now + lease), version := row.version + 1,
                    updatedAt := now)
  }

  /** `claimed` are the receipts as the winning requests wrote them. */
  ghost predicate ReceiptsOf(claimed: seq<Receipt>, won: seq<Request>, views: seq<World>, lease: int) {
    |claimed| == |won|
    && (forall k :: 0 <= k < |claimed| ==>
        DecisionOn(won[k], views) == Commit(UpdateReceipt(claimed[k], claimed[k].version - 1)))
    && (forall r <- claimed :: |views| == 2 && ClaimedReceipt(views[1].db, views[0].clock, lease, r))
  }

  lemma ReceiptsOfAppends(claimed: seq<Receipt>, won: seq<Request>, views: seq<World>, lease: int, r: Receipt,
                          q: Request)
    requires ReceiptsOf(claimed, won, views, lease) && DecisionOn(q, views) == Commit(UpdateReceipt(r, r.version - 1))
    requires |views| == 2 && ClaimedReceipt(views[1].db, views[0].clock, lease, r)
    ensures ReceiptsOf(claimed + [r], won + [q], views, lease)
  {
    hide DecisionOn;
  }

  /** The event as its claim at `now` leaves it: it was waiting, due and not held. */
  predicate ClaimedEvent(db: Db, now: Time, lease: int, e: OutboxEvent) {
    e.id in db.outbox
    && var row := db.outbox[e.id];
       row.status in {OutboxPending, OutboxFailed} && row.availableAt <= now
       && (row.leaseUntil.Some? ==> row.leaseUntil.value < now)
       && e == row.(status := OutboxProcessing, leaseUntil := Some(now + lease), version := row.version + 1,
                    updatedAt := now)
  }

  /** `claimed` are the events as the winning requests wrote them. */
  ghost predicate EventsOf(claimed: seq<OutboxEvent>, won: seq<Request>, views: seq<World>, lease: int) {
    |claimed| == |won|
    && (forall k :: 0 <= k < |claimed| ==>
        DecisionOn(won[k], views) == Commit(UpdateEvent(claimed[k], claimed[k].version - 1)))
    && (forall e <- claimed :: |views| == 2 && ClaimedEvent(views[1].db, views[0].clock, lease, e))
  }

  lemma EventsOfAppends(claimed: seq<OutboxEvent>, won: seq<Request>, views: seq<World>, lease: int, e: OutboxEvent,
                        q: Request)
    requires EventsOf(claimed, won, views, lease) && DecisionOn(q, views) == Commit(UpdateEvent(e, e.version - 1))
    requires |views| == 2 && ClaimedEvent(views[1].db, views[0].clock, lease, e)
    ensures EventsOf(claimed + [e], won + [q], views, lease)
  {
    hide DecisionOn;
  }

  lemma FeedbackClaimDecided(views: seq<World>, limit: int, ready: seq<Receipt>, q: Request, r: Receipt)
    requires |views| == 2 && FeedbackQueue(views[1].db, views[0].clock, limit, ready) && r in ready
    requires q.ClaimFeedback? && q.receiptId == r.id
    ensures DecisionOn(q, views)
            == Commit(UpdateReceipt(r.(status := FeedbackDelivering, leaseUntil := Some(views[0].clock + q.lease),
                                       version := r.version + 1, updatedAt := views[0].clock), r.version))
    ensures ClaimedReceipt(views[1].db, views[0].clock, q.lease,
                           r.(status := FeedbackDelivering, leaseUntil := Some(views[0].clock + q.lease),
                              version := r.version + 1, updatedAt := views[0].clock))
  {
  }

  lemma OutboxClaimDecided(views: seq<World>, limit: int, ready: seq<OutboxEvent>, q: Request, e: OutboxEvent)
    requires |views| == 2 && OutboxQueue(views[1].db, views[0].clock, limit, ready) && e in ready
    requires q.ClaimOutbox? && q.eventId == e.id
    ensures DecisionOn(q, views)
            == Commit(UpdateEvent(e.(status := OutboxProcessing, leaseUntil := Some(views[0].clock + q.lease),
                                     updatedAt := views[0].clock, version := e.version + 1), e.version))
    ensures ClaimedEvent(views[1].db, views[0].clock, q.lease,
                         e.(status := OutboxProcessing, leaseUntil := Some(views[0].clock + q.lease),
                            updatedAt := views[0].clock, version := e.version + 1))
  {
  }

  /** A pass under way: it has tried its requests in order, and none of them has ended it. */
  ghost predicate Passing(attempts: seq<Attempt>, requests: seq<Request>) {
    |attempts| <= |requests|
    && forall k :: 0 <= k < |attempts| ==> attempts[k].request == requests[k] && attempts[k].GoesOn()
  }

  /** A pass that has ended: with `err` at the first request that failed otherwise than by a conflict, or well
      after the last. */
  ghost predicate Passed(attempts: seq<Attempt>, requests: seq<Request>, err: Option<Error>) {
    if err.None? then Passing(attempts, requests) && |attempts| == |requests|
    else
      var n := |attempts| - 1;
      0 <= n < |requests| && Passing(attempts[..n], requests)
      && attempts[n].request == requests[n] && !attempts[n].GoesOn() && attempts[n].failed == err
  }

  lemma PassGoesOn(attempts: seq<Attempt>, a: Attempt, requests: seq<Request>)
    requires Passing(attempts, requests) && |attempts| < |requests| && a.request == requests[|attempts|]
    ensures if a.GoesOn() then Passing(attempts + [a], requests) else Passed(attempts + [a], requests, a.failed)
  {
    assert (attempts + [a])[..|attempts|] == attempts;
  }

  /** The requests that got through. */
  function Won(attempts: seq<Attempt>): (won: seq<Request>)
    ensures |won| <= |attempts|
  {
    if attempts == [] then []
    else
      var last := attempts[|attempts| - 1];
      Won(attempts[..|attempts| - 1]) + if last.failed.None? then [last.request] else []
  }

  lemma WonAppends(attempts: seq<Attempt>, a: Attempt)
    ensures Won(attempts + [a]) == if a.failed.None? then Won(attempts) + [a.request] else Won(attempts)
  {
    assert (attempts + [a])[..|attempts|] == attempts;
  }

  class CivicService {
    const index: CivicIndex
    const me: nat
    var clock: Time
    ghost var run: History
    /** What this client has committed since it exists. */
    ghost var mine: seq<Request>
    /** The history when the current call began, and what the call has read since, and where. */
    ghost var began: History
    ghost var views: seq<World>
    ghost var seen: seq<nat>

    /** The tables and the clock are the latest world of a run of the protocol, which only ever grows, and the
        current call has looked at none of its worlds before it began. */
    ghost predicate Valid()
      reads this, index
    {
      && run.worlds[|run.worlds| - 1] == World(index.db, clock)
      && mine == Own(run.events, me)
      && began.worlds <= run.worlds && began.events <= run.events
      && SeenAt(run.worlds, |began.worlds| - 1, seen, views)
    }

    /** The transaction `w` of the request `q` has been tried on some world since the call began. A success is
        the last event of the run and leaves what the client computed; a failure leaves the world as it was. */
    ghost predicate Carried(q: Request, w: Write, storageFails: bool, failed: Option<Error>, before: seq<Request>)
      reads this, index
    {
      if failed.None? then
        |began.worlds| - 1 <= |run.worlds| - 2
        && Refusal(run.worlds[|run.worlds| - 2].db, w, storageFails).None?
        && Apply(run.worlds[|run.worlds| - 2].db, w) == Ok(index.db)
        && Stored(index.db, w)
        && mine == before + [q]
      else failed == Refusal(index.db, w, storageFails) && mine == before
    }

    /** A call of `q` has ended with the error `failed`, or well. All it looked at is of a moment after it
        began, and the end is the one it decided on: its own error, a row that was there, or its transaction's. */
    twostate predicate Ended(q: Request, storageFails: bool, failed: Option<Error>)
      reads this, index
    {
      && began == old(run)
      && (views == [] ==> Malformed(q))
      && var decision := DecisionOn(q, views);
         if decision.Commit? then Carried(q, decision.w, storageFails, failed, old(mine))
         else failed == (if decision.Rejected? then Some(decision.error) else None) && mine == old(mine)
    }

    constructor (me: nat, now: Time)
      ensures Valid() && fresh(index) && run.events == [] && mine == []
    {
      this.me, clock := me, now;
      index := new CivicIndex();
      run := Run([World(EMPTY_DB, now)], []);
      began, mine, views, seen := Run([World(EMPTY_DB, now)], []), [], [], [];
    }

    /** A call begins: it has read nothing yet. */
    ghost method Begin()
      requires Valid()
      modifies this`views, this`seen, this`began
      ensures Valid() && views == [] && began == run
    {
      views, seen, began := [], [], run;
    }

    /** What the rest of the system may do between two statements of this client: any number of events of
        other clients, of the suggestion services and of the clock. Callers know no more than the contract;
        the body is the schedule in which nobody else runs. The client then looks at the database. */
    method Look()
      requires Valid()
      modifies this, index
      ensures Valid() && Extends(old(run.worlds), run.worlds) && mine == old(mine) && began == old(began)
      ensures views == old(views) + [World(index.db, clock)]
    {
      SeenNow(run.worlds, |began.worlds| - 1, seen, views);
      views, seen := views + [World(index.db, clock)], seen + [|run.worlds| - 1];
    }

    /** A loaded row carries the identifier it was loaded by. */
    lemma ReadKey(id: Id)
      requires Valid()
      ensures id in index.db.campaigns ==> index.db.campaigns[id].id == id
      ensures id in index.db.points ==> index.db.points[id].id == id
      ensures id in index.db.advisors ==> index.db.advisors[id].id == id
      ensures id in index.db.reviews ==> index.db.reviews[id].id == id
      ensures id in index.db.plans ==> index.db.plans[id].id == id
      ensures id in index.db.conversions ==> index.db.conversions[id].id == id
      ensures id in index.db.receipts ==> index.db.receipts[id].id == id
      ensures id in index.db.outbox ==> index.db.outbox[id].id == id
    {
      RunSafeUpTo(run, |run.events|);
      assert Safe(run.worlds[|run.events|]);
    }

    method ExecuteInsert(w: Write) returns (err: Option<Error>)
      requires Inserts(w)
      modifies index
      ensures err == ErrorOf(Apply(old(index.db), w))
      ensures err.None? ==> Ok(index.db) == Apply(old(index.db), w)
    {
      match w
      case InsertCampaign(c) => err := index.InsertCampaign(c);
      case InsertPoint(p) => err := index.InsertPoint(p);
      case InsertAdvisor(a) => err := index.InsertAdvisor(a);
      case InsertIntake(n) => err := index.InsertIntake(n);
      case InsertReview(r) => err := index.InsertReview(r);
      case InsertPlan(p) => err := index.InsertPlan(p);
      case InsertConversion(o) => err := index.InsertConversion(o);
      case InsertReceiptAndEvent(r, e) =>
        err := index.InsertReceipt(r);
        if err.None? {
          err := index.InsertEvent(e);
        }
    }

    method ExecuteUpdate(w: Write) returns (err: Option<Error>)
      requires !Inserts(w)
      modifies index
      ensures err == ErrorOf(Apply(old(index.db), w))
      ensures err.None? ==> Ok(index.db) == Apply(old(index.db), w)
    {
      match w
      case UpdateCampaign(c, expected) => err := index.UpdateCampaign(c, expected);
      case UpdatePoint(p, expected) => err := index.UpdatePoint(p, expected);
      case UpdateReview(r, expected) => err := index.UpdateReview(r, expected);
      case UpdatePlan(p, expected) => err := index.UpdatePlan(p, expected);
      case UpdateConversion(o, expected) => err := index.UpdateConversion(o, expected);
      case UpdateReceipt(r, expected) => err := index.UpdateReceipt(r, expected);
      case UpdateEvent(e, expected) => err := index.UpdateEvent(e, expected);
    }

    /** The statements of one transaction; a failure may leave its earlier rows behind for the rollback. */
    method Execute(w: Write) returns (err: Option<Error>)
      modifies index
      ensures err == ErrorOf(Apply(old(index.db), w))
      ensures err.None? ==> Ok(index.db) == Apply(old(index.db), w)
    {
      if Inserts(w) {
        err := ExecuteInsert(w);
      } else {
        err := ExecuteUpdate(w);
      }
    }

    /** One transaction: the statements of `w` and, where the operation writes one, an audit entry, rolled back
        together when one of them or the commit itself fails. */
    method Transact(w: Write, storageFails: bool) returns (err: Option<Error>)
      modifies index
      ensures err == Refusal(old(index.db), w, storageFails)
      ensures if err.None? then Ok(index.db) == Apply(old(index.db), w) else index.db == old(index.db)
    {
      var before := index.db;
      err := Execute(w);
      if err.None? && storageFails {
        err := Some(StorageFailure);
      }
      if err.Some? {
        index.Rollback(before);
      }
    }

    /** Records a commit that has just met the world `cur`. */
    ghost method Record(q: Request, w: Write, cur: World)
      requires run.worlds[|run.worlds| - 1] == cur && mine == Own(run.events, me)
      requires began.worlds <= run.worlds && began.events <= run.events
      requires SeenAt(run.worlds, |began.worlds| - 1, seen, views) && views != [] && DecisionOn(q, views) == Commit(w)
      requires Apply(cur.db, w) == Ok(index.db) && cur.clock == clock
      modifies this`run, this`mine
      ensures Valid() && old(run.events) <= run.events && mine == old(mine) + [q] && Stored(index.db, w)
      ensures run.worlds == old(run.worlds) + [World(index.db, clock)]
    {
      hide Decide, Apply, Stored, SeenAt, Next;
      var at := ViewsAreSamples(run.worlds, |began.worlds| - 1, seen, views);
      CommitAppends(run, q, at, w, cur, index.db);
      OwnAppends(run.events, Committed(me, q, at), me);
      SeenLater(run.worlds, run.worlds + [World(index.db, clock)], |began.worlds| - 1, seen, views);
      run := Run(run.worlds + [World(index.db, clock)], run.events + [Committed(me, q, at)]);
      mine := mine + [q];
    }

    /** The store's WithTx: the transaction begins at some later moment. If it commits, it is the next event
        of the run, decided on what this call has read; if not, it leaves no trace. */
    method WithTx(w: Write, storageFails: bool, ghost q: Request) returns (err: Option<Error>)
      requires Valid() && views != [] && DecisionOn(q, views) == Commit(w)
      modifies this, index
      ensures Valid() && Extends(old(run.worlds), run.worlds) && began == old(began) && views == old(views)
      ensures Carried(q, w, storageFails, err, old(mine))
    {
      hide Decide, Apply, Stored, ValidRun;
      ghost var read := views;
      Look();
      ghost var cur := World(index.db, clock);
      views, seen := views[..|read|], seen[..|read|];
      assert views == read;
      err := Transact(w, storageFails);
      if err.None? {
        Record(q, w, cur);
      }
    }

    /** The current call is passing over a queue, and has committed exactly what its attempts won. */
    ghost predicate Underway(requests: seq<Request>, attempts: seq<Attempt>, fails: set<Request>, before: seq<Request>)
      reads this
    {
      Passing(attempts, requests) && Genuine(attempts, views, |began.worlds| - 1, run.worlds, fails)
      && mine == before + Won(attempts)
    }

    /** The pass has ended with `err`. */
    ghost predicate Over(requests: seq<Request>, attempts: seq<Attempt>, fails: set<Request>, before: seq<Request>,
                         err: Option<Error>)
      reads this
    {
      Passed(attempts, requests, err) && Genuine(attempts, views, |began.worlds| - 1, run.worlds, fails)
      && mine == before + Won(attempts)
    }

    lemma NothingTried(requests: seq<Request>, fails: set<Request>, lease: int)
      ensures Underway(requests, [], fails, mine)
      ensures ReceiptsOf([], Won([]), views, lease) && EventsOf([], Won([]), views, lease)
    {
    }

    lemma PassEnds(requests: seq<Request>, attempts: seq<Attempt>, fails: set<Request>, before: seq<Request>)
      requires Underway(requests, attempts, fails, before) && |attempts| == |requests|
      ensures Over(requests, attempts, fails, before, None)
    {
    }

    /** What WithTx leaves behind tells what it met. */
    lemma AttemptIsGenuine(a: Attempt, fails: set<Request>, before: seq<Request>)
      requires Valid() && DecisionOn(a.request, views).Commit?
      requires Carried(a.request, DecisionOn(a.request, views).w, a.request in fails, a.failed, before)
      requires a.at == |run.worlds| - if a.failed.None? then 2 else 1
      ensures Genuine([a], views, |began.worlds| - 1, run.worlds, fails)
    {
      hide DecisionOn, Apply, Stored;
    }

    lemma AttemptNoted(a: Attempt, requests: seq<Request>, attempts: seq<Attempt>, fails: set<Request>,
                       before: seq<Request>, worlds: seq<World>)
      requires Passing(attempts, requests) && |attempts| < |requests| && requests[|attempts|] == a.request
      requires Genuine(attempts, views, |began.worlds| - 1, worlds, fails) && Extends(worlds, run.worlds)
      requires Genuine([a], views, |began.worlds| - 1, run.worlds, fails)
      requires mine == before + if a.failed.None? then Won(attempts) + [a.request] else Won(attempts)
      ensures if a.GoesOn() then Underway(requests, attempts + [a], fails, before)
              else Over(requests, attempts + [a], fails, before, a.failed)
    {
      hide Genuine, Passing, Passed, Won, Valid;
      WonAppends(attempts, a);
      PassGoesOn(attempts, a, requests);
      GenuineAppends(attempts, a, views, |began.worlds| - 1, worlds, run.worlds, fails);
    }

    /** The next transaction of a pass over a queue. */
    method Try(w: Write, q: Request, fails: set<Request>, ghost requests: seq<Request>, ghost attempts: seq<Attempt>,
               ghost before: seq<Request>)
      returns (failed: Option<Error>, ghost after: seq<Attempt>)
      requires Valid() && views != [] && DecisionOn(q, views) == Commit(w)
      requires |attempts| < |requests| && requests[|attempts|] == q && Underway(requests, attempts, fails, before)
      modifies this, index
      ensures Valid() && began == old(began) && views == old(views) && |after| == |attempts| + 1
      ensures Won(after) == if failed.None? then Won(attempts) + [q] else Won(attempts)
      ensures if failed.None? || failed == Some(ConcurrentConflict) then Underway(requests, after, fails, before)
              else Over(requests, after, fails, before, failed)
    {
      hide DecisionOn, Refusal, Stored, Passing, Genuine, Passed, Won;
      ghost var worlds, earlier := run.worlds, mine;
      assert |began.worlds| > 0;
      failed := WithTx(w, q in fails, q);
      ghost var attempt := Attempt(q, |run.worlds| - (if failed.None? then 2 else 1), failed);
      AttemptIsGenuine(attempt, fails, earlier);
      assert before + (Won(attempts) + [q]) == before + Won(attempts) + [q];
      AttemptNoted(attempt, requests, attempts, fails, before, worlds);
      WonAppends(attempts, attempt);
      after := attempts + [attempt];
    }

    /******* Lookups by a unique key *******/

    method GetCampaignByCode(code: string) returns (found: Option<Campaign>)
      ensures found.Some? <==> HasCode(index.db, code)
      ensures found.Some? ==> IsRow(index.db.campaigns, found.value) && found.value.code == code
    {
      if HasCode(index.db, code) {
        var i :| i in index.db.campaigns && index.db.campaigns[i].code == code;
        return Some(index.db.campaigns[i]);
      }
      return None;
    }

    method GetSuggestionIntakeByKey(campaignId: Id, key: string) returns (found: Option<Intake>)
      ensures found.Some? <==> HasIntakeKey(index.db, campaignId, key)
      ensures found.Some? ==> IsRow(index.db.intakes, found.value)
                              && found.value.campaignId == campaignId && found.value.key == key
    {
      if HasIntakeKey(index.db, campaignId, key) {
        var i :| i in index.db.intakes && index.db.intakes[i].campaignId == campaignId
            && index.db.intakes[i].key == key;
        return Some(index.db.intakes[i]);
      }
      return None;
    }

    method GetHandlingPlanByKey(suggestionId: Id, key: string) returns (found: Option<HandlingPlan>)
      ensures found.Some? <==> HasPlanKey(index.db, suggestionId, key)
      ensures found.Some? ==> IsRow(index.db.plans, found.value)
                              && found.value.suggestionId == suggestionId && found.value.key == key
    {
      if HasPlanKey(index.db, suggestionId, key) {
        var i :| i in index.db.plans && index.db.plans[i].suggestionId == suggestionId && index.db.plans[i].key == key;
        return Some(index.db.plans[i]);
      }
      return None;
    }

    method GetFeedbackByIdentity(suggestionId: Id, citizenHash: string, channel: string)
        returns (found: Option<Receipt>)
      ensures found.Some? <==> HasIdentity(index.db, suggestionId, citizenHash, channel)
      ensures found.Some? ==> IsRow(index.db.receipts, found.value)
                              && found.value.suggestionId == suggestionId && found.value.citizenHash == citizenHash
                              && found.value.channel == channel
    {
      if HasIdentity(index.db, suggestionId, citizenHash, channel) {
        var i :| i in index.db.receipts && index.db.receipts[i].suggestionId == suggestionId
                 && index.db.receipts[i].citizenHash == citizenHash && index.db.receipts[i].channel == channel;
        return Some(index.db.receipts[i]);
      }
      return None;
    }

    /** At most one conversion per suggestion is ever stored, so the query has one possible answer. */
    method GetConversionBySuggestion(suggestionId: Id) returns (found: Option<Conversion>)
      requires Valid()
      ensures match ConversionOf(index.db, suggestionId)
              case None => found.None?
              case Some(id) => found == Some(index.db.conversions[id]) && found.value.id == id
      ensures found.Some? <==> HasConversion(index.db, suggestionId)
      ensures found.Some? ==> found.value.suggestionId == suggestionId && IsRow(index.db.conversions, found.value)
    {
      if HasConversion(index.db, suggestionId) {
        var i :| i in index.db.conversions && index.db.conversions[i].suggestionId == suggestionId;
        RunSafeUpTo(run, |run.events|);
        assert Safe(run.worlds[|run.events|]) && ConversionsUnique(index.db);
        return Some(index.db.conversions[i]);
      }
      return None;
    }

    /******* Campaigns *******/

    method CreateCampaign(id: Id, code: string, title: string, theme: string, opensAt: Time, closesAt: Time,
                          actor: string, storageFails: bool)
      returns (result: Result<Campaign>)
      requires Valid()
      modifies this, index
      ensures Valid()
      ensures var q := Request.CreateCampaign(id, code, title, theme, opensAt, closesAt, actor);
              Ended(q, storageFails, ErrorOf(result))
              && (result.Ok? && DecisionOn(q, views).Commit? ==> DecisionOn(q, views).w == InsertCampaign(result.value))
      ensures actor != "" ==> views != []
      ensures actor != "" && HasCode(views[0].db, code) ==>
                result.Ok? && IsRow(views[0].db.campaigns, result.value) && result.value.code == code
                && mine == old(mine)
      ensures result.Ok? && !HasCode(views[0].db, code) ==>
                |views| == 2 && actor != "" && Trim(code) != "" && Trim(title) != "" && opensAt < closesAt
                && result.value == Campaign(id, Trim(code), Trim(title), Trim(theme), CampaignDraft, opensAt, closesAt,
                                            1, views[1].clock, views[1].clock)
    {
      hide Valid, ValidRun, Extends, Carried;
      Begin();
      ghost var q := Request.CreateCampaign(id, code, title, theme, opensAt, closesAt, actor);
      if actor == "" {
        return Err(Validation);
      }
      Look();
      var existing := GetCampaignByCode(code);
      if existing.Some? {
        return Ok(existing.value);
      }
      Look();
      var now := clock;
      var campaign := Campaign(id, Trim(code), Trim(title), Trim(theme), CampaignDraft, opensAt, closesAt, 1, now, now);
      if !campaign.Valid() {
        return Err(Validation);
      }
      var err := WithTx(InsertCampaign(campaign), storageFails, q);
      return if err.Some? then Err(err.value) else Ok(campaign);
    }

    method AddCollectionPoint(id: Id, campaignId: Id, district: string, name: string, address: string, topic: string,
                              dailyQuota: int, storageFails: bool)
      returns (result: Result<CollectionPoint>)
      requires Valid()
      modifies this, index
      ensures Valid()
      ensures var q := Request.AddCollectionPoint(id, campaignId, district, name, address, topic, dailyQuota);
              Ended(q, storageFails, ErrorOf(result))
              && (result.Ok? ==> DecisionOn(q, views) == Commit(InsertPoint(result.value))
                                 && campaignId in views[0].db.campaigns
                                 && views[0].db.campaigns[campaignId].status == CampaignDraft)
      ensures result.Ok? ==>
                |views| == 2 && campaignId != "" && Trim(district) != "" && Trim(name) != "" && dailyQuota > 0
                && result.value == CollectionPoint(id, campaignId, Trim(district), Trim(name), Trim(address),
                                                   Trim(topic), dailyQuota, PointPreparing, 1, None, views[1].clock,
                                                   views[1].clock)
    {
      hide Valid, ValidRun, Extends, Carried;
      Begin();
      ghost var q := Request.AddCollectionPoint(id, campaignId, district, name, address, topic, dailyQuota);
      Look();
      if campaignId !in index.db.campaigns {
        return Err(NotFound);
      }
      var campaign := index.db.campaigns[campaignId];
      if campaign.status != CampaignDraft {
        return Err(InvalidTransition);
      }
      Look();
      var now := clock;
      var point := CollectionPoint(id, campaignId, Trim(district), Trim(name), Trim(address), Trim(topic), dailyQuota,
                                   PointPreparing, 1, None, now, now);
      if !point.Valid() {
        return Err(Validation);
      }
      var err := WithTx(InsertPoint(point), storageFails, q);
      return if err.Some? then Err(err.value) else Ok(point);
    }

    method ActivateCollectionPoint(pointId: Id, storageFails: bool) returns (result: Result<CollectionPoint>)
      requires Valid()
      modifies this, index
      ensures Valid()
      ensures var q := Request.ActivateCollectionPoint(pointId);
              Ended(q, storageFails, ErrorOf(result))
              && (result.Ok? && DecisionOn(q, views).Commit? ==>
                    DecisionOn(q, views).w == UpdatePoint(result.value, result.value.version - 1))
      ensures views != []
      ensures result.Ok? ==>
                |views| >= 2 && pointId in views[0].db.points && result.value.id == pointId
                && var p := views[0].db.points[pointId];
                   p.campaignId in views[1].db.campaigns
                   && views[1].db.campaigns[p.campaignId].status in {CampaignDraft, CampaignOpen}
                   && if p.status == PointActive then result.value == p && mine == old(mine)
                      else
                        p.status in {PointPreparing, PointPaused} && |views| == 3
                        && result.value == p.(status := PointActive, activatedAt := Some(views[2].clock),
                                              updatedAt := views[2].clock, version := p.version + 1)
    {
      hide Valid, ValidRun, Extends, Carried, DecisionOn;
      Begin();
      ghost var q := Request.ActivateCollectionPoint(pointId);
      ActivateCollectionPointDecides(q);
      Look();
      if pointId !in index.db.points {
        return Err(NotFound);
      }
      var point := index.db.points[pointId];
      ReadKey(pointId);
      Look();
      if point.campaignId !in index.db.campaigns {
        return Err(NotFound);
      }
      var campaign := index.db.campaigns[point.campaignId];
      if campaign.status != CampaignDraft && campaign.status != CampaignOpen {
        return Err(InvalidTransition);
      }
      if point.status == PointActive {
        return Ok(point);
      }
      if point.status != PointPreparing && point.status != PointPaused {
        return Err(InvalidTransition);
      }
      Look();
      var now, expected := clock, point.version;
      point := point.(status := PointActive, activatedAt := Some(now), updatedAt := now, version := expected + 1);
      var err := WithTx(UpdatePoint(point, expected), storageFails, q);
      return if err.Some? then Err(err.value) else Ok(point);
    }

    method TransitionCampaign(id: Id, to: CampaignStatus, storageFails: bool) returns (result: Result<Campaign>)
      requires Valid()
      modifies this, index
      ensures Valid()
      ensures var q := Request.TransitionCampaign(id, to);
              Ended(q, storageFails, ErrorOf(result))
              && (result.Ok? ==>
                    DecisionOn(q, views) == Commit(UpdateCampaign(result.value, result.value.version - 1)))
      ensures result.Ok? ==>
                |views| == 3 && id in views[0].db.campaigns && result.value.id == id
                && var c := views[0].db.campaigns[id];
                   (c.status, to) in {(CampaignDraft, CampaignOpen), (CampaignOpen, CampaignReview),
                                      (CampaignReview, CampaignClosed)}
                   && (to != CampaignClosed ==>
                         exists i :: i in views[1].db.points && views[1].db.points[i].campaignId == id
                                     && views[1].db.points[i].status == PointActive)
                   && result.value == c.(status := to, version := c.version + 1, updatedAt := views[2].clock)
    {
      hide Valid, ValidRun, Extends, Carried, DecisionOn;
      Begin();
      ghost var q := Request.TransitionCampaign(id, to);
      TransitionCampaignDecides(q);
      Look();
      if id !in index.db.campaigns {
        return Err(NotFound);
      }
      var campaign := index.db.campaigns[id];
      ReadKey(id);
      Look();
      if (to == CampaignOpen || to == CampaignReview) && !HasActivePoint(index.db, id) {
        return Err(Validation);
      }
      var expected := campaign.version;
      var moved := campaign.Transition(to);
      if moved.Err? {
        return moved;
      }
      Look();
      var now := clock;
      campaign := moved.value.(version := expected + 1, updatedAt := now);
      var err := WithTx(UpdateCampaign(campaign, expected), storageFails, q);
      return if err.Some? then Err(err.value) else Ok(campaign);
    }

    method EnrollAdvisor(id: Id, campaignId: Id, userId: Id, displayName: string, expertise: seq<string>,
                         districts: seq<string>, reviewQuota: int, storageFails: bool)
      returns (result: Result<Advisor>)
      requires Valid()
      modifies this, index
      ensures Valid()
      ensures var q := Request.EnrollAdvisor(id, campaignId, userId, displayName, expertise, districts, reviewQuota);
              Ended(q, storageFails, ErrorOf(result))
              && (result.Ok? ==> DecisionOn(q, views) == Commit(InsertAdvisor(result.value))
                                 && campaignId in views[0].db.campaigns
                                 && views[0].db.campaigns[campaignId].status != CampaignClosed)
      ensures result.Ok? ==>
                |views| == 2 && userId != "" && displayName != "" && reviewQuota > 0 && expertise != []
                && result.value == Advisor(id, campaignId, userId, displayName, expertise, districts, reviewQuota,
                                           true, 1, views[1].clock)
    {
      hide Valid, ValidRun, Extends, Carried;
      Begin();
      ghost var q := Request.EnrollAdvisor(id, campaignId, userId, displayName, expertise, districts, reviewQuota);
      Look();
      if campaignId !in index.db.campaigns {
        return Err(NotFound);
      }
      if index.db.campaigns[campaignId].status == CampaignClosed {
        return Err(InvalidTransition);
      }
      Look();
      var now := clock;
      var advisor := Advisor(id, campaignId, userId, displayName, expertise, districts, reviewQuota, true, 1, now);
      if !advisor.Valid() {
        return Err(Validation);
      }
      var err := WithTx(InsertAdvisor(advisor), storageFails, q);
      return if err.Some? then Err(err.value) else Ok(advisor);
    }

    /** What had been filed when the call began is what its first look finds. */
    lemma FiledIsSeen(campaignId: Id, key: string)
      requires Valid() && views != []
      ensures forall j: nat, row ::
                FiledAt(began, j, campaignId, key, row) ==> OnlyRow(views[0].db, campaignId, key, row)
    {
      hide OnlyRow, Next;
      forall j: nat, row | FiledAt(began, j, campaignId, key, row)
        ensures OnlyRow(views[0].db, campaignId, key, row)
      {
        assert run.events[j] == began.events[j] && run.worlds[j + 1] == began.worlds[j + 1];
        assert FiledAt(run, j, campaignId, key, row) && run.worlds[seen[0]] == views[0];
        FiledIsKept(run, j, seen[0], campaignId, key, row);
      }
    }

    /** The first queries of an intake: an earlier call with the same key is answered with its row, and the
        suggestion must exist and not be taken in already. Any answer it gives is the one the intake decides on. */
    method FindIntake(suggestionId: Id, campaignId: Id, key: string, ghost q: Request)
        returns (answer: Option<Result<Intake>>)
      requires Valid() && views == [] && key != ""
      requires q.IntakeSuggestion? && q.suggestionId == suggestionId && q.campaignId == campaignId && q.key == key
      modifies this, index
      ensures Valid() && mine == old(mine) && began == old(began)
      ensures views != []
      ensures answer.None? ==>
        |views| == 3 && !HasIntakeKey(views[0].db, campaignId, key)
        && suggestionId in views[1].db.items && !HasIntakeOf(views[2].db, suggestionId)
      ensures HasIntakeKey(views[0].db, campaignId, key) ==> answer.Some? && answer.value.Ok?
      ensures answer.Some? && answer.value.Err? ==> DecisionOn(q, views) == Rejected(answer.value.error)
      ensures answer.Some? && answer.value.Ok? ==>
        var found := answer.value.value;
        DecisionOn(q, views) == Existing && IsRow(views[0].db.intakes, found)
        && found.campaignId == campaignId && found.key == key
    {
      hide Valid, ValidRun, Extends, Carried;
      Look();
      var existing := GetSuggestionIntakeByKey(campaignId, key);
      if existing.Some? {
        return Some(Ok(existing.value));
      }
      Look();
      if suggestionId !in index.db.items {
        return Some(Err(NotFound));
      }
      Look();
      if HasIntakeOf(index.db, suggestionId) {
        return Some(Err(Duplicate));
      }
      return None;
    }

    /** The middle queries of an intake: the campaign's window is open, and the point is an active one of it.
        An error it gives is the one the intake decides on. */
    method FindOpenPoint(campaignId: Id, pointId: Id, ghost q: Request)
        returns (answer: Result<(CollectionPoint, Time)>)
      requires Valid() && q.IntakeSuggestion? && q.campaignId == campaignId && q.pointId == pointId && q.key != ""
      requires |views| == 3 && !HasIntakeKey(views[0].db, campaignId, q.key)
      requires q.suggestionId in views[1].db.items && !HasIntakeOf(views[2].db, q.suggestionId)
      modifies this, index
      ensures Valid() && mine == old(mine) && began == old(began)
      ensures old(views) <= views
      ensures answer.Err? ==> DecisionOn(q, views) == Rejected(answer.error)
      ensures answer.Ok? ==>
        |views| == 6 && views[4].clock == answer.value.1
        && campaignId in views[3].db.campaigns && pointId in views[5].db.points
        && var c := views[3].db.campaigns[campaignId];
           c.id == campaignId && c.status == CampaignOpen && c.opensAt <= answer.value.1 < c.closesAt
           && answer.value.0 == views[5].db.points[pointId] && answer.value.0.id == pointId
           && answer.value.0.campaignId == campaignId && answer.value.0.status == PointActive
    {
      hide Valid, ValidRun, Extends, Carried;
      Look();
      if campaignId !in index.db.campaigns {
        return Err(NotFound);
      }
      var campaign := index.db.campaigns[campaignId];
      ReadKey(campaignId);
      Look();
      var now := clock;
      if campaign.status != CampaignOpen || now < campaign.opensAt || !(now < campaign.closesAt) {
        return Err(InvalidTransition);
      }
      Look();
      if pointId !in index.db.points {
        return Err(NotFound);
      }
      var point := index.db.points[pointId];
      ReadKey(pointId);
      if point.campaignId != campaign.id || point.status != PointActive {
        return Err(Validation);
      }
      return Ok((point, now));
    }

    /** `dayStart` and `dayEnd` delimit the day of `now` in the server's time zone. An intake that had been filed
        under the campaign and the key when the call began is the answer, as it was filed. */
    method IntakeSuggestion(id: Id, suggestionId: Id, campaignId: Id, pointId: Id, key: string, source: Source,
                            dayStart: Time, dayEnd: Time, storageFails: bool)
      returns (result: Result<Intake>)
      requires Valid()
      modifies this, index
      ensures Valid()
      ensures var q := Request.IntakeSuggestion(id, suggestionId, campaignId, pointId, key, source, dayStart, dayEnd);
              Ended(q, storageFails, ErrorOf(result))
              && (result.Ok? && DecisionOn(q, views).Commit? ==> DecisionOn(q, views).w == InsertIntake(result.value))
      ensures key != "" ==> views != []
      ensures key != "" && HasIntakeKey(views[0].db, campaignId, key) ==>
                result.Ok? && IsRow(views[0].db.intakes, result.value) && result.value.campaignId == campaignId
                && result.value.key == key && mine == old(mine)
      ensures forall j: nat, row :: key != "" && FiledAt(began, j, campaignId, key, row) ==>
                result == Ok(row) && mine == old(mine)
      ensures result.Ok? && !HasIntakeKey(views[0].db, campaignId, key) ==>
                |views| == 7 && key != "" && suggestionId in views[1].db.items
                && !HasIntakeOf(views[2].db, suggestionId)
                && campaignId in views[3].db.campaigns && pointId in views[5].db.points
                && var c, now, p := views[3].db.campaigns[campaignId], views[4].clock, views[5].db.points[pointId];
                   c.status == CampaignOpen && c.opensAt <= now < c.closesAt
                   && p.campaignId == campaignId && p.status == PointActive
                   && |IntakesBetween(views[6].db, pointId, dayStart, dayEnd)| < p.dailyQuota
                   && result.value == Intake(id, suggestionId, campaignId, pointId, key, source, now)
    {
      hide Valid, ValidRun, Extends, Carried, IntakesBetween, HasIntakeKey, HasIntakeOf, FiledAt;
      Begin();
      ghost var q := Request.IntakeSuggestion(id, suggestionId, campaignId, pointId, key, source, dayStart, dayEnd);
      if key == "" {
        return Err(Validation);
      }
      var answer := FindIntake(suggestionId, campaignId, key, q);
      FiledIsSeen(campaignId, key);
      if answer.Some? {
        return answer.value;
      }
      var found := FindOpenPoint(campaignId, pointId, q);
      if found.Err? {
        return Err(found.error);
      }
      var point, now := found.value.0, found.value.1;
      Look();
      if |IntakesBetween(index.db, point.id, dayStart, dayEnd)| >= point.dailyQuota {
        return Err(ConcurrentConflict);
      }
      var intake := Intake(id, suggestionId, campaignId, point.id, key, source, now);
      var err := WithTx(InsertIntake(intake), storageFails, q);
      return if err.Some? then Err(err.value) else Ok(intake);
    }

    /******* Reviews and handling *******/

    /** The first queries of an assignment: the suggestion is not terminal, the advisor is active, and their
        campaign is open or in review. An error it gives is the one the assignment decides on. */
    method FindReviewer(suggestionId: Id, advisorId: Id, ghost q: Request) returns (answer: Result<Advisor>)
      requires Valid() && views == [] && q.AssignReview? && q.suggestionId == suggestionId && q.advisorId == advisorId
      modifies this, index
      ensures Valid() && mine == old(mine) && began == old(began)
      ensures views != []
      ensures answer.Err? ==> DecisionOn(q, views) == Rejected(answer.error)
      ensures answer.Ok? ==>
        |views| == 3 && suggestionId in views[0].db.items && !views[0].db.items[suggestionId].IsTerminal()
        && advisorId in views[1].db.advisors
        && var advisor := views[1].db.advisors[advisorId];
           advisor == answer.value && advisor.id == advisorId && advisor.active
           && advisor.campaignId in views[2].db.campaigns
           && views[2].db.campaigns[advisor.campaignId].status in {CampaignOpen, CampaignReview}
    {
      hide Valid, ValidRun, Extends, Carried;
      Look();
      if suggestionId !in index.db.items {
        return Err(NotFound);
      }
      if index.db.items[suggestionId].IsTerminal() {
        return Err(InvalidTransition);
      }
      Look();
      if advisorId !in index.db.advisors {
        return Err(NotFound);
      }
      var advisor := index.db.advisors[advisorId];
      ReadKey(advisorId);
      if !advisor.active {
        return Err(Validation);
      }
      Look();
      if advisor.campaignId !in index.db.campaigns {
        return Err(NotFound);
      }
      var campaign := index.db.campaigns[advisor.campaignId];
      if campaign.status != CampaignOpen && campaign.status != CampaignReview {
        return Err(InvalidTransition);
      }
      return Ok(advisor);
    }

    method AssignReview(id: Id, suggestionId: Id, advisorId: Id, panelKey: string, storageFails: bool)
      returns (result: Result<Review>)
      requires Valid()
      modifies this, index
      ensures Valid()
      ensures var q := Request.AssignReview(id, suggestionId, advisorId, panelKey);
              Ended(q, storageFails, ErrorOf(result))
              && (result.Ok? ==> DecisionOn(q, views) == Commit(InsertReview(result.value))
                                 && |views| == 5 && advisorId in views[1].db.advisors
                                 && var advisor := views[1].db.advisors[advisorId];
                                    advisor.active && |PendingReviews(views[3].db, advisorId)| < advisor.reviewQuota)
      ensures result.Ok? ==>
                suggestionId in views[0].db.items
                && views[0].db.items[suggestionId] !in {StatusCompleted, StatusCancelled}
                && advisorId in views[1].db.advisors
                && views[1].db.advisors[advisorId].campaignId in views[2].db.campaigns
                && views[2].db.campaigns[views[1].db.advisors[advisorId].campaignId].status
                   in {CampaignOpen, CampaignReview}
                && Trim(panelKey) != ""
                && result.value == Review(id, suggestionId, advisorId, panelKey, ReviewPending, "", 1, views[4].clock,
                                          None)
    {
      hide Valid, ValidRun, Extends, Carried, PendingReviews, Trim;
      Begin();
      ghost var q := Request.AssignReview(id, suggestionId, advisorId, panelKey);
      var found := FindReviewer(suggestionId, advisorId, q);
      if found.Err? {
        return Err(found.error);
      }
      var advisor := found.value;
      Look();
      if |PendingReviews(index.db, advisor.id)| >= advisor.reviewQuota {
        return Err(ConcurrentConflict);
      }
      if Trim(panelKey) == "" {
        return Err(Validation);
      }
      Look();
      var now := clock;
      var review := Review(id, suggestionId, advisor.id, panelKey, ReviewPending, "", 1, now, None);
      var err := WithTx(InsertReview(review), storageFails, q);
      return if err.Some? then Err(err.value) else Ok(review);
    }

    method DecideReview(id: Id, verdict: Verdict, notes: string, storageFails: bool) returns (result: Result<Review>)
      requires Valid()
      modifies this, index
      ensures Valid()
      ensures var q := Request.DecideReview(id, verdict, notes);
              Ended(q, storageFails, ErrorOf(result))
              && (result.Ok? ==>
                    DecisionOn(q, views) == Commit(UpdateReview(result.value, result.value.version - 1)))
      ensures result.Ok? ==>
                |views| == 2 && id in views[0].db.reviews && result.value.id == id && verdict != ReviewPending
                && Trim(notes) != ""
                && var r := views[0].db.reviews[id];
                   r.verdict == ReviewPending
                   && result.value == r.(verdict := verdict, notes := notes, reviewedAt := Some(views[1].clock),
                                         version := r.version + 1)
    {
      hide Valid, ValidRun, Extends, Carried;
      Begin();
      ghost var q := Request.DecideReview(id, verdict, notes);
      Look();
      if id !in index.db.reviews {
        return Err(NotFound);
      }
      var review := index.db.reviews[id];
      ReadKey(id);
      Look();
      var expected, now := review.version, clock;
      var decided := review.Decide(verdict, notes, now);
      if decided.Err? {
        return decided;
      }
      review := decided.value.(version := expected + 1);
      var err := WithTx(UpdateReview(review, expected), storageFails, q);
      return if err.Some? then Err(err.value) else Ok(review);
    }

    method CreateHandlingPlan(id: Id, suggestionId: Id, reviewId: Id, department: string, commitment: string,
                              key: string, dueAt: Time, storageFails: bool)
      returns (result: Result<HandlingPlan>)
      requires Valid()
      modifies this, index
      ensures Valid()
      ensures var q := Request.CreateHandlingPlan(id, suggestionId, reviewId, department, commitment, key, dueAt);
              Ended(q, storageFails, ErrorOf(result))
              && (result.Ok? && DecisionOn(q, views).Commit? ==> DecisionOn(q, views).w == InsertPlan(result.value))
      ensures key != "" ==> views != []
      ensures key != "" && HasPlanKey(views[0].db, suggestionId, key) ==>
                result.Ok? && IsRow(views[0].db.plans, result.value) && result.value.suggestionId == suggestionId
                && result.value.key == key && mine == old(mine)
      ensures result.Ok? && !HasPlanKey(views[0].db, suggestionId, key) ==>
                |views| == 4 && key != "" && reviewId in views[1].db.reviews
                && views[1].db.reviews[reviewId].suggestionId == suggestionId
                && views[1].db.reviews[reviewId].verdict == ReviewAccepted
                && department != "" && commitment != "" && views[2].clock < dueAt
                && result.value == HandlingPlan(id, suggestionId, reviewId, department, commitment, HandlingProposed,
                                                key, dueAt, 1, views[3].clock, views[3].clock)
    {
      hide Valid, ValidRun, Extends, Carried, DecisionOn;
      Begin();
      ghost var q := Request.CreateHandlingPlan(id, suggestionId, reviewId, department, commitment, key, dueAt);
      CreateHandlingPlanDecides(q);
      if key == "" {
        return Err(Validation);
      }
      Look();
      var existing := GetHandlingPlanByKey(suggestionId, key);
      if existing.Some? {
        return Ok(existing.value);
      }
      Look();
      if reviewId !in index.db.reviews {
        return Err(NotFound);
      }
      var review := index.db.reviews[reviewId];
      if review.suggestionId != suggestionId || review.verdict != ReviewAccepted {
        return Err(Validation);
      }
      Look();
      if department == "" || commitment == "" || !(clock < dueAt) {
        return Err(Validation);
      }
      Look();
      var now := clock;
      var plan := HandlingPlan(id, suggestionId, reviewId, department, commitment, HandlingProposed, key, dueAt, 1,
                               now, now);
      var err := WithTx(InsertPlan(plan), storageFails, q);
      return if err.Some? then Err(err.value) else Ok(plan);
    }

    method TransitionHandlingPlan(id: Id, to: HandlingStatus, storageFails: bool) returns (result: Result<HandlingPlan>)
      requires Valid()
      modifies this, index
      ensures Valid()
      ensures var q := Request.TransitionHandlingPlan(id, to);
              Ended(q, storageFails, ErrorOf(result))
              && (result.Ok? ==>
                    DecisionOn(q, views) == Commit(UpdatePlan(result.value, result.value.version - 1)))
      ensures result.Ok? ==>
                |views| == 2 && id in views[0].db.plans && result.value.id == id
                && var p := views[0].db.plans[id];
                   (p.status, to) in {(HandlingProposed, HandlingAccepted), (HandlingAccepted, HandlingImplementing),
                                      (HandlingImplementing, HandlingCompleted), (HandlingProposed, HandlingCancelled),
                                      (HandlingAccepted, HandlingCancelled), (HandlingImplementing, HandlingCancelled)}
                   && result.value == p.(status := to, version := p.version + 1, updatedAt := views[1].clock)
    {
      hide Valid, ValidRun, Extends, Carried;
      Begin();
      ghost var q := Request.TransitionHandlingPlan(id, to);
      Look();
      if id !in index.db.plans {
        return Err(NotFound);
      }
      var plan := index.db.plans[id];
      ReadKey(id);
      var expected := plan.version;
      var moved := plan.Transition(to);
      if moved.Err? {
        return moved;
      }
      Look();
      var now := clock;
      plan := moved.value.(version := expected + 1, updatedAt := now);
      var err := WithTx(UpdatePlan(plan, expected), storageFails, q);
      return if err.Some? then Err(err.value) else Ok(plan);
    }

    /******* Conversions *******/

    /** The walk over the listed plans: the first that is not completed ends it, and the plan asked for has to
        turn up on the way. */
    method CheckPlans(plans: seq<HandlingPlan>, planId: Id) returns (err: Option<Error>)
      ensures err == if exists p <- plans :: p.status != HandlingCompleted then Some(InvalidTransition)
                     else if exists p <- plans :: p.id == planId then None else Some(Validation)
    {
      if |plans| == 0 {
        return Some(Validation);
      }
      var found := false;
      for k := 0 to |plans|
        invariant forall p <- plans[..k] :: p.status == HandlingCompleted
        invariant found <==> exists p <- plans[..k] :: p.id == planId
      {
        if plans[k].status != HandlingCompleted {
          return Some(InvalidTransition);
        }
        if plans[k].id == planId {
          found := true;
        }
        assert plans[..k + 1] == plans[..k] + [plans[k]];
      }
      assert plans[..|plans|] == plans;
      return if found then None else Some(Validation);
    }

    method ListHandlingPlansBySuggestion(suggestionId: Id) returns (plans: seq<HandlingPlan>)
      requires Valid()
      ensures forall p <- plans :: p.id in index.db.plans && index.db.plans[p.id] == p && p.suggestionId == suggestionId
      ensures forall i :: i in index.db.plans && index.db.plans[i].suggestionId == suggestionId ==>
                index.db.plans[i] in plans && index.db.plans[i].id == i
    {
      plans := [];
      var left := set i | i in index.db.plans && index.db.plans[i].suggestionId == suggestionId;
      while left != {}
        invariant forall i <- left :: i in index.db.plans && index.db.plans[i].suggestionId == suggestionId
        invariant forall p <- plans ::
                    p.id in index.db.plans && index.db.plans[p.id] == p && p.suggestionId == suggestionId
        invariant forall i :: i in index.db.plans && index.db.plans[i].suggestionId == suggestionId ==>
                    i in left || (index.db.plans[i] in plans && index.db.plans[i].id == i)
        decreases |left|
      {
        var i :| i in left;
        ReadKey(i);
        plans := plans + [index.db.plans[i]];
        left := left - {i};
      }
    }

    /** What the walk finds in the list is what holds of the suggestion's plans. */
    static lemma ListedPlans(db: Db, suggestionId: Id, plans: seq<HandlingPlan>)
      requires forall p <- plans :: p.id in db.plans && db.plans[p.id] == p && p.suggestionId == suggestionId
      requires forall i :: i in db.plans && db.plans[i].suggestionId == suggestionId ==>
                 db.plans[i] in plans && db.plans[i].id == i
      ensures PlansCompleted(db, suggestionId) <==> !exists p <- plans :: p.status != HandlingCompleted
      ensures forall i :: (i in db.plans && db.plans[i].suggestionId == suggestionId)
                          <==> exists p <- plans :: p.id == i
    {
    }

    /** All plans of the suggestion are completed, and the one asked for is among them. */
    method CheckHandling(suggestionId: Id, planId: Id) returns (err: Option<Error>)
      requires Valid()
      ensures err == if !PlansCompleted(index.db, suggestionId) then Some(InvalidTransition)
                     else if planId in index.db.plans && index.db.plans[planId].suggestionId == suggestionId then None
                     else Some(Validation)
    {
      hide Valid, PlansCompleted;
      var plans := ListHandlingPlansBySuggestion(suggestionId);
      ListedPlans(index.db, suggestionId, plans);
      err := CheckPlans(plans, planId);
    }

    method ProposeConversion(id: Id, suggestionId: Id, planId: Id, benefitScope: string, evidenceRef: string,
                             storageFails: bool)
      returns (result: Result<Conversion>)
      requires Valid()
      modifies this, index
      ensures Valid()
      ensures var q := Request.ProposeConversion(id, suggestionId, planId, benefitScope, evidenceRef);
              Ended(q, storageFails, ErrorOf(result))
              && (result.Ok? && DecisionOn(q, views).Commit? ==>
                    DecisionOn(q, views).w == InsertConversion(result.value))
      ensures views != []
      ensures HasConversion(views[0].db, suggestionId) ==>
                result.Ok? && IsRow(views[0].db.conversions, result.value)
                && result.value.suggestionId == suggestionId && mine == old(mine)
      ensures result.Ok? && !HasConversion(views[0].db, suggestionId) ==>
                |views| == 4 && suggestionId in views[1].db.items && views[1].db.items[suggestionId] == StatusCompleted
                && planId in views[2].db.plans && views[2].db.plans[planId].suggestionId == suggestionId
                && PlansCompleted(views[2].db, suggestionId)
                && benefitScope != "" && evidenceRef != ""
                && result.value == Conversion(id, suggestionId, planId, ConversionProposed, benefitScope, evidenceRef,
                                              "", 1, views[3].clock, None, None)
    {
      hide Valid, ValidRun, Extends, Carried, DecisionOn, PlansCompleted, HasConversion, ConversionOf, IsRow;
      Begin();
      ghost var q := Request.ProposeConversion(id, suggestionId, planId, benefitScope, evidenceRef);
      ProposeConversionDecides(q);
      Look();
      var existing := GetConversionBySuggestion(suggestionId);
      if existing.Some? {
        return Ok(existing.value);
      }
      Look();
      if suggestionId !in index.db.items {
        return Err(NotFound);
      }
      if index.db.items[suggestionId] != StatusCompleted {
        return Err(InvalidTransition);
      }
      Look();
      var refused := CheckHandling(suggestionId, planId);
      if refused.Some? {
        return Err(refused.value);
      }
      if benefitScope == "" || evidenceRef == "" {
        return Err(Validation);
      }
      Look();
      var now := clock;
      var outcome := Conversion(id, suggestionId, planId, ConversionProposed, benefitScope, evidenceRef, "", 1, now,
                                None, None);
      var err := WithTx(InsertConversion(outcome), storageFails, q);
      return if err.Some? then Err(err.value) else Ok(outcome);
    }

    method VerifyConversion(suggestionId: Id, reviewer: string, publish: bool, storageFails: bool)
      returns (result: Result<Conversion>)
      requires Valid()
      modifies this, index
      ensures Valid()
      ensures var q := Request.VerifyConversion(suggestionId, reviewer, publish);
              Ended(q, storageFails, ErrorOf(result))
              && (result.Ok? ==>
                    DecisionOn(q, views) == Commit(UpdateConversion(result.value, result.value.version - 1)))
      ensures result.Ok? ==>
                |views| == 2 && result.value.id in views[0].db.conversions
                && var o, now := views[0].db.conversions[result.value.id], views[1].clock;
                   o.suggestionId == suggestionId && o.status in {ConversionProposed, ConversionVerified}
                   && result.value == o.(
                        status := if publish then ConversionPublished else ConversionVerified,
                        reviewer := if o.status == ConversionProposed then reviewer else o.reviewer,
                        verifiedAt := if o.status == ConversionProposed then Some(now) else o.verifiedAt,
                        publishedAt := if publish then Some(now) else o.publishedAt, version := o.version + 1)
    {
      hide Valid, ValidRun, Extends, Carried, DecisionOn;
      Begin();
      ghost var q := Request.VerifyConversion(suggestionId, reviewer, publish);
      VerifyConversionDecides(q);
      Look();
      var found := GetConversionBySuggestion(suggestionId);
      if found.None? {
        return Err(NotFound);
      }
      var outcome := found.value;
      Look();
      var expected, now := outcome.version, clock;
      if outcome.status == ConversionProposed {
        outcome := outcome.(status := ConversionVerified, reviewer := reviewer, verifiedAt := Some(now));
      } else if outcome.status != ConversionVerified {
        return Err(InvalidTransition);
      }
      if publish {
        outcome := outcome.(status := ConversionPublished, publishedAt := Some(now));
      }
      outcome := outcome.(version := outcome.version + 1);
      var err := WithTx(UpdateConversion(outcome, expected), storageFails, q);
      return if err.Some? then Err(err.value) else Ok(outcome);
    }

    /******* Feedback and outbox *******/

    method QueueFeedback(id: Id, eventId: Id, suggestionId: Id, citizenHash: string, channel: string,
                         storageFails: bool)
      returns (result: Result<Receipt>)
      requires Valid()
      modifies this, index
      ensures Valid()
      ensures var q := Request.QueueFeedback(id, eventId, suggestionId, citizenHash, channel);
              Ended(q, storageFails, ErrorOf(result))
              && (result.Ok? ==>
                    DecisionOn(q, views).Commit? ==>
                      DecisionOn(q, views).w.InsertReceiptAndEvent? && DecisionOn(q, views).w.receipt == result.value)
      ensures citizenHash != "" && channel != "" ==> views != []
      ensures citizenHash != "" && channel != "" && HasIdentity(views[0].db, suggestionId, citizenHash, channel) ==>
                result.Ok? && IsRow(views[0].db.receipts, result.value) && result.value.suggestionId == suggestionId
                && result.value.citizenHash == citizenHash && result.value.channel == channel && mine == old(mine)
      ensures result.Ok? && !HasIdentity(views[0].db, suggestionId, citizenHash, channel) ==>
                |views| == 3 && citizenHash != "" && channel != ""
                && var q, now := Request.QueueFeedback(id, eventId, suggestionId, citizenHash, channel), views[2].clock;
                && DecisionOn(q, views).Commit? && DecisionOn(q, views).w.InsertReceiptAndEvent?
                && (exists i :: i in views[1].db.conversions && views[1].db.conversions[i].suggestionId == suggestionId
                                && views[1].db.conversions[i].status == ConversionPublished)
                && result.value == Receipt(id, suggestionId, citizenHash, channel, FeedbackQueued, 0, now, None, "", 1,
                                           now, now)
                && DecisionOn(q, views).w.event == OutboxEvent(eventId, suggestionId, OutboxPending, 0, 1, now, None,
                                                               "feedback:" + id, now, now)
    {
      hide Valid, ValidRun, Extends, Carried, DecisionOn;
      Begin();
      ghost var q := Request.QueueFeedback(id, eventId, suggestionId, citizenHash, channel);
      QueueFeedbackDecides(q);
      if citizenHash == "" || channel == "" {
        return Err(Validation);
      }
      Look();
      var existing := GetFeedbackByIdentity(suggestionId, citizenHash, channel);
      if existing.Some? {
        return Ok(existing.value);
      }
      Look();
      var outcome := GetConversionBySuggestion(suggestionId);
      if outcome.None? {
        return Err(NotFound);
      }
      if outcome.value.status != ConversionPublished {
        return Err(InvalidTransition);
      }
      Look();
      var now := clock;
      var receipt := Receipt(id, suggestionId, citizenHash, channel, FeedbackQueued, 0, now, None, "", 1, now, now);
      var event := OutboxEvent(eventId, suggestionId, OutboxPending, 0, 1, now, None, FeedbackKey(id), now, now);
      var err := WithTx(InsertReceiptAndEvent(receipt, event), storageFails, q);
      return if err.Some? then Err(err.value) else Ok(receipt);
    }

    method CompleteFeedback(id: Id, deliveryError: Option<string>, maxAttempts: int, baseBackoff: int,
                            storageFails: bool)
      returns (result: Result<Receipt>)
      requires Valid()
      modifies this, index
      ensures Valid()
      ensures var q := Request.CompleteFeedback(id, deliveryError, maxAttempts, baseBackoff);
              Ended(q, storageFails, ErrorOf(result))
              && (result.Ok? ==>
                    DecisionOn(q, views) == Commit(UpdateReceipt(result.value, result.value.version - 1)))
      ensures result.Ok? ==>
                |views| == 2 && id in views[0].db.receipts && result.value.id == id
                && var r, now := views[0].db.receipts[id], views[1].clock;
                   var failed, again := deliveryError.Some?, r.attempt + 1 < maxAttempts;
                   r.status == FeedbackDelivering
                   && result.value == r.(
                        status := if !failed then FeedbackDelivered
                                  else if again then FeedbackQueued else FeedbackPermanentFailed,
                        attempt := if failed then r.attempt + 1 else r.attempt,
                        nextAttemptAt := if failed && again then now + Delay(baseBackoff, r.attempt + 1, 8)
                                         else r.nextAttemptAt,
                        leaseUntil := None, lastError := if failed then deliveryError.value else "",
                        version := r.version + 1, updatedAt := now)
    {
      hide Valid, ValidRun, Extends, Carried, DecisionOn, Delay;
      Begin();
      ghost var q := Request.CompleteFeedback(id, deliveryError, maxAttempts, baseBackoff);
      CompleteFeedbackDecides(q);
      Look();
      if id !in index.db.receipts {
        return Err(NotFound);
      }
      var receipt := index.db.receipts[id];
      ghost var loaded := receipt;
      ReadKey(id);
      if receipt.status != FeedbackDelivering {
        return Err(InvalidTransition);
      }
      Look();
      var expected, now := receipt.version, clock;
      receipt := receipt.(version := receipt.version + 1, updatedAt := now, leaseUntil := None);
      if deliveryError.None? {
        receipt := receipt.(status := FeedbackDelivered, lastError := "");
      } else {
        receipt := receipt.(attempt := receipt.attempt + 1, lastError := deliveryError.value);
        if receipt.attempt >= maxAttempts {
          receipt := receipt.(status := FeedbackPermanentFailed);
        } else {
          receipt := receipt.(status := FeedbackQueued,
                              nextAttemptAt := now + Delay(baseBackoff, receipt.attempt, BACKOFF_CAP));
        }
      }
      var err := WithTx(UpdateReceipt(receipt, expected), storageFails, q);
      return if err.Some? then Err(err.value) else Ok(receipt);
    }

    method CompleteOutbox(id: Id, publishFailed: bool, maxAttempts: int, backoff: int, storageFails: bool)
      returns (result: Result<OutboxEvent>)
      requires Valid()
      modifies this, index
      ensures Valid()
      ensures var q := Request.CompleteOutbox(id, publishFailed, maxAttempts, backoff);
              Ended(q, storageFails, ErrorOf(result))
              && (result.Ok? ==>
                    DecisionOn(q, views) == Commit(UpdateEvent(result.value, result.value.version - 1)))
      ensures result.Ok? ==>
                |views| == 2 && id in views[0].db.outbox && result.value.id == id
                && var e, now := views[0].db.outbox[id], views[1].clock;
                   e.status == OutboxProcessing
                   && result.value == e.(
                        status := if publishFailed then OutboxFailed else OutboxPublished,
                        attempt := if publishFailed then e.attempt + 1 else e.attempt,
                        availableAt := if !publishFailed then e.availableAt
                                       else if e.attempt + 1 < maxAttempts then now + Delay(backoff, e.attempt + 1, 8)
                                       else now + 24 * 3_600_000_000_000,
                        leaseUntil := None, version := e.version + 1, updatedAt := now)
    {
      hide Valid, ValidRun, Extends, Carried, Delay;
      Begin();
      ghost var q := Request.CompleteOutbox(id, publishFailed, maxAttempts, backoff);
      Look();
      if id !in index.db.outbox {
        return Err(NotFound);
      }
      var event := index.db.outbox[id];
      ReadKey(id);
      if event.status != OutboxProcessing {
        return Err(InvalidTransition);
      }
      Look();
      var now, expected := clock, event.version;
      event := event.(leaseUntil := None, updatedAt := now, version := event.version + 1);
      if !publishFailed {
        event := event.(status := OutboxPublished);
      } else {
        event := event.(attempt := event.attempt + 1);
        if event.attempt >= maxAttempts {
          event := event.(status := OutboxFailed, availableAt := now + DAY);
        } else {
          event := event.(status := OutboxFailed, availableAt := now + Delay(backoff, event.attempt, BACKOFF_CAP));
        }
      }
      var err := WithTx(UpdateEvent(event, expected), storageFails, q);
      return if err.Some? then Err(err.value) else Ok(event);
    }

    /** ListReadyFeedback: the ready receipts, longest waiting first. */
    method ListReadyFeedback(now: Time, limit: int) returns (ready: seq<Receipt>)
      requires Valid()
      ensures FeedbackQueue(index.db, now, limit, ready)
    {
      var waiting := map i | i in index.db.receipts && FeedbackReady(index.db.receipts[i], now) ::
          By(index.db.receipts[i].nextAttemptAt);
      var ids := OrderAndLimit(waiting, PageSize(limit));
      var rows := index.db.receipts;
      assert forall k :: 0 <= k < |ids| ==> ids[k] in waiting;
      ready := seq(|ids|, k requires 0 <= k < |ids| => rows[ids[k]]);
      forall k | 0 <= k < |ids|
        ensures ready[k].id == ids[k]
      {
        ReadKey(ids[k]);
      }
      FeedbackQueueSorted(index.db, now, limit, waiting, ids, ready);
    }

    /** One pass over the ready receipts. Those another client got first are skipped; any other failure ends
        the pass. Exactly the returned receipts were claimed, in their order. Storage fails for those in `fails`. */
    method ClaimFeedback(limit: int, lease: int, fails: set<Request>)
      returns (claimed: seq<Receipt>, err: Option<Error>, ghost ready: seq<Receipt>, ghost attempts: seq<Attempt>)
      requires Valid()
      modifies this, index
      ensures Valid() && began == old(run) && |views| == 2
      ensures FeedbackQueue(views[1].db, views[0].clock, limit, ready)
      ensures Over(seq(|ready|, k requires 0 <= k < |ready| => Request.ClaimFeedback(ready[k].id, lease)), attempts,
                   fails, old(mine), err)
      ensures ReceiptsOf(claimed, Won(attempts), views, lease)
    {
      hide Valid, ValidRun, Extends, FeedbackQueue, DecisionOn, Won, Underway, Over, ReceiptsOf, ClaimedReceipt,
          Decide, FeedbackReady, SeenAt, Carried;
      Begin();
      Look();
      var now := clock;
      Look();
      var due := ListReadyFeedback(now, limit);
      ready, claimed, attempts := due, [], [];
      ghost var requests := seq(|due|, k requires 0 <= k < |due| => Request.ClaimFeedback(due[k].id, lease));
      NothingTried(requests, fails, lease);
      for k := 0 to |due|
        invariant Valid() && began == old(run) && |views| == 2 && views[0].clock == now
        invariant FeedbackQueue(views[1].db, now, limit, due) && |attempts| == k
        invariant Underway(requests, attempts, fails, old(mine)) && ReceiptsOf(claimed, Won(attempts), views, lease)
      {
        var receipt := due[k];
        ghost var row, before := due[k], Won(attempts);
        var expected, until := receipt.version, now + lease;
        receipt := receipt.(status := FeedbackDelivering, leaseUntil := Some(until), version := expected + 1,
                            updatedAt := now);
        var q := Request.ClaimFeedback(receipt.id, lease);
        FeedbackClaimDecided(views, limit, due, q, row);
        var failed, after := Try(UpdateReceipt(receipt, expected), q, fails, requests, attempts, old(mine));
        attempts := after;
        if failed == Some(ConcurrentConflict) {
          continue;
        }
        if failed.Some? {
          return claimed, failed, ready, attempts;
        }
        ReceiptsOfAppends(claimed, before, views, lease, receipt, q);
        claimed := claimed + [receipt];
      }
      PassEnds(requests, attempts, fails, old(mine));
      return claimed, None, ready, attempts;
    }

    /** ListReadyOutbox: the ready events, longest waiting first. */
    method ListReadyOutbox(now: Time, limit: int) returns (ready: seq<OutboxEvent>)
      requires Valid()
      ensures OutboxQueue(index.db, now, limit, ready)
    {
      var waiting := map i | i in index.db.outbox && OutboxReady(index.db.outbox[i], now) ::
          By(index.db.outbox[i].availableAt);
      var ids := OrderAndLimit(waiting, PageSize(limit));
      var rows := index.db.outbox;
      assert forall k :: 0 <= k < |ids| ==> ids[k] in waiting;
      ready := seq(|ids|, k requires 0 <= k < |ids| => rows[ids[k]]);
      forall k | 0 <= k < |ids|
        ensures ready[k].id == ids[k]
      {
        ReadKey(ids[k]);
      }
      OutboxQueueSorted(index.db, now, limit, waiting, ids, ready);
    }

    /** As ClaimFeedback, for the outbox. */
    method ClaimOutbox(limit: int, lease: int, fails: set<Request>)
      returns (claimed: seq<OutboxEvent>, err: Option<Error>, ghost ready: seq<OutboxEvent>,
               ghost attempts: seq<Attempt>)
      requires Valid()
      modifies this, index
      ensures Valid() && began == old(run) && |views| == 2
      ensures OutboxQueue(views[1].db, views[0].clock, limit, ready)
      ensures Over(seq(|ready|, k requires 0 <= k < |ready| => Request.ClaimOutbox(ready[k].id, lease)), attempts,
                   fails, old(mine), err)
      ensures EventsOf(claimed, Won(attempts), views, lease)
    {
      hide Valid, ValidRun, Extends, OutboxQueue, DecisionOn, Won, Underway, Over, EventsOf, ClaimedEvent,
          Decide, OutboxReady, SeenAt, Carried;
      Begin();
      Look();
      var now := clock;
      Look();
      var due := ListReadyOutbox(now, limit);
      ready, claimed, attempts := due, [], [];
      ghost var requests := seq(|due|, k requires 0 <= k < |due| => Request.ClaimOutbox(due[k].id, lease));
      NothingTried(requests, fails, lease);
      for k := 0 to |due|
        invariant Valid() && began == old(run) && |views| == 2 && views[0].clock == now
        invariant OutboxQueue(views[1].db, now, limit, due) && |attempts| == k
        invariant Underway(requests, attempts, fails, old(mine)) && EventsOf(claimed, Won(attempts), views, lease)
      {
        var event := due[k];
        ghost var row, before := due[k], Won(attempts);
        var expected, until := event.version, now + lease;
        event := event.(status := OutboxProcessing, leaseUntil := Some(until), updatedAt := now,
                        version := expected + 1);
        var q := Request.ClaimOutbox(event.id, lease);
        OutboxClaimDecided(views, limit, due, q, row);
        var failed, after := Try(UpdateEvent(event, expected), q, fails, requests, attempts, old(mine));
        attempts := after;
        if failed == Some(ConcurrentConflict) {
          continue;
        }
        if failed.Some? {
          return claimed, failed, ready, attempts;
        }
        EventsOfAppends(claimed, before, views, lease, event, q);
        claimed := claimed + [event];
      }
      PassEnds(requests, attempts, fails, old(mine));
      return claimed, None, ready, attempts;
    }
  }
}
