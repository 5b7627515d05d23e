/** internal/worker/reeval.go: the sweep that re-routes items still carried by an older rule version. */
module Reevaluation {
  import opened Outcomes
  import opened SuggestionStatus
  import opened RoutingDomain
  import opened Adjudication
  import opened RuleTables
  import opened Desks
  import opened Casework
  import opened CaseworkSafety
  import opened DeskStores
  import opened ItemServices
  import opened Queries

  const SWEEP_PAGE_SIZE: nat := 200

  /** ORDER BY registered_at DESC; the identifier stands for SQLite's fixed order among equals. */
  function StatusRank(items: map<Id, Item>, status: ItemStatus): map<Id, Rank> {
    map i | i in items && items[i].status == status :: Rank(-items[i].registeredAt, i)
  }

  /** Exactly the registered and adjudicated items with an older rule version, each once. */
  ghost predicate AllStale(items: map<Id, Item>, current: int, stale: seq<Item>) {
    Distinct(stale)
    && forall item :: item in stale <==>
         item.id in items && items[item.id] == item && item.ruleVersion < current
         && item.status in {StatusRegistered, StatusAdjudicated}
  }

  predicate Known(items: map<Id, Item>, ids: seq<Id>) {
    forall i <- ids :: i in items
  }

  /** The items with a status, each once, the last registered first. */
  ghost predicate NewestFirst(items: map<Id, Item>, status: ItemStatus, ids: seq<Id>) {
    && Distinct(ids) && (forall i :: i in ids <==> i in items && items[i].status == status)
    && forall j, k :: 0 <= j < k < |ids| && Known(items, ids) ==>
         items[ids[j]].registeredAt >= items[ids[k]].registeredAt
  }

  lemma RankIsNewest(items: map<Id, Item>, status: ItemStatus, ids: seq<Id>)
    requires AllByRank(StatusRank(items, status), ids)
    ensures Known(items, ids) && NewestFirst(items, status, ids)
  {
    forall i
      ensures i in ids <==> i in items && items[i].status == status
    {
      assert i in ids <==> i in StatusRank(items, status);
    }
  }

  /** The rows of `ids` whose rule version is older than `current`, in order. */
  function StaleOf(items: map<Id, Item>, ids: seq<Id>, current: int): (stale: seq<Item>)
    requires Known(items, ids)
  {
    if ids == [] then []
    else
      var last := ids[|ids| - 1];
      StaleOf(items, ids[..|ids| - 1], current) + if items[last].ruleVersion < current then [items[last]] else []
  }

  lemma {:induction false} StaleOfHas(items: map<Id, Item>, ids: seq<Id>, current: int, item: Item)
    requires Known(items, ids)
    ensures item in StaleOf(items, ids, current) <==> exists i <- ids :: items[i] == item && item.ruleVersion < current
  {
    if ids != [] {
      StaleOfHas(items, ids[..|ids| - 1], current, item);
      assert ids == ids[..|ids| - 1] + [ids[|ids| - 1]];
    }
  }

  /** The sweep re-routes the item: it is stale, some rule fits it, and its transaction does not fail. */
  ghost predicate Moves(rules: Table, current: int, item: Item, fails: bool) {
    item.ruleVersion < current && item.status in {StatusRegistered, StatusAdjudicated} && Routing(rules, item).Some?
    && !fails
  }

  /** The item after the sweep: routed by its best rule, if the sweep re-routes it. */
  ghost function AfterSweep(rules: Table, current: int, item: Item, now: Time, fails: bool): Item {
    if Moves(rules, current, item, fails) then
      var rule := Routing(rules, item).value;
      item.(lead := rule.lead, coDepartments := rule.coDepartments, ruleVersion := rule.version,
            status := StatusAdjudicated, updatedAt := now)
    else item
  }

  /** The desk after the sweep's transaction for one item. */
  ghost function SweepOne(d: Desk, id: Id, current: int, fails: bool): Desk
    requires id in d.items
  {
    if Moves(d.rules, current, d.items[id], fails) then
      d.(items := d.items[id := AfterSweep(d.rules, current, d.items[id], d.now, fails)], next := d.next + 1,
         referrals := Supersede(d, id).referrals[d.next := ReferralBy(Routing(d.rules, d.items[id]).value, d.next, id,
                                                                      d.now)])
    else d
  }

  predicate FiledFor(d: Desk, i: Id, r: Id) {
    r in d.referrals && d.referrals[r].itemId == i
  }

  /** The referrals of an item are as they were. */
  ghost predicate SameReferrals(before: Desk, after: Desk, i: Id) {
    forall r :: (FiledFor(after, i, r) <==> FiledFor(before, i, r))
                && (FiledFor(before, i, r) ==> after.referrals[r] == before.referrals[r])
  }

  /** Referral `n` is new and by `rule` at `at`; those the item had are superseded, and nothing else became of them. */
  ghost predicate IsNewReferral(before: Desk, after: Desk, i: Id, rule: Rule, at: Time, n: Id) {
    && n !in before.referrals && FiledFor(after, i, n)
    && after.referrals[n] == Referral(n, i, rule.lead, rule.coDepartments, rule.version, at, "system", true)
    && forall r :: r != n ==>
         (FiledFor(after, i, r) <==> FiledFor(before, i, r))
         && (FiledFor(before, i, r) ==> after.referrals[r] == before.referrals[r].(isCurrent := false))
  }

  ghost predicate NewReferral(before: Desk, after: Desk, i: Id, rule: Rule, at: Time) {
    exists n :: IsNewReferral(before, after, i, rule, at, n)
  }

  /** What the sweep makes of item `i`: exactly a re-routed one gets a new referral. */
  ghost predicate SweptItem(current: int, before: Desk, after: Desk, i: Id, fails: bool)
    requires i in before.items && i in after.items
  {
    && after.items[i] == AfterSweep(before.rules, current, before.items[i], before.now, fails)
    && if Moves(before.rules, current, before.items[i], fails)
       then NewReferral(before, after, i, Routing(before.rules, before.items[i]).value, before.now)
       else SameReferrals(before, after, i)
  }

  ghost predicate SweptUpTo(current: int, before: Desk, after: Desk, done: seq<Item>, fails: set<Id>) {
    && after.rules == before.rules && after.now == before.now
    && after.items.Keys == before.items.Keys && before.referrals.Keys <= after.referrals.Keys
    && forall i :: i in before.items ==>
         if before.items[i] in done then SweptItem(current, before, after, i, i in fails)
         else after.items[i] == before.items[i] && SameReferrals(before, after, i)
  }

  /** The desk after a sweep. */
  ghost predicate Swept(current: int, before: Desk, after: Desk, fails: set<Id>) {
    && after.rules == before.rules && after.now == before.now
    && after.items.Keys == before.items.Keys && before.referrals.Keys <= after.referrals.Keys
    && forall i :: i in before.items ==> SweptItem(current, before, after, i, i in fails)
  }

  class ReevalWorker {
    const store: Store
    var reevaled: nat
    var skipped: nat
    var failed: nat

    constructor (store: Store)
      ensures this.store == store && reevaled == skipped == failed == 0
    {
      this.store := store;
      reevaled, skipped, failed := 0, 0, 0;
    }

    /** One page of the items with a status. `all` is the listing the page is cut from. */
    method ListItems(status: ItemStatus, pageSize: int, pageOffset: int) returns (page: seq<Item>, ghost all: seq<Id>)
      requires store.Valid()
      ensures AllByRank(StatusRank(store.desk.items, status), all) && Known(store.desk.items, all)
      ensures NewestFirst(store.desk.items, status, all)
      ensures var size := if pageSize <= 0 then 20 else if pageSize > 200 then 200 else pageSize;
              var offset := if pageOffset < 0 then 0 else pageOffset;
              && |page| == (if |all| <= offset then 0 else if |all| - offset < size then |all| - offset else size)
              && forall k :: 0 <= k < |page| ==> page[k] == store.desk.items[all[offset + k]]
    {
      hide NewestFirst, AllByRank, StatusRank, Performed;
      var items := store.desk.items;
      var size := if pageSize <= 0 then 20 else if pageSize > 200 then 200 else pageSize;
      var offset := if pageOffset < 0 then 0 else pageOffset;
      var order := Order(StatusRank(items, status));
      all := order;
      RankIsNewest(items, status, all);
      assert forall k :: 0 <= k < |order| ==> order[k] in order;
      var count := if |order| <= offset then 0 else if |order| - offset < size then |order| - offset else size;
      page := seq(count, k requires 0 <= k < count => items[order[offset + k]]);
    }

    method KeepStale(page: seq<Item>, current: int, kept: seq<Item>, ghost items: map<Id, Item>, ghost all: seq<Id>,
                     ghost offset: nat)
      returns (stale: seq<Item>)
      requires Known(items, all) && offset + |page| <= |all| && kept == StaleOf(items, all[..offset], current)
      requires forall k :: 0 <= k < |page| ==> page[k] == items[all[offset + k]]
      ensures stale == StaleOf(items, all[..offset + |page|], current)
    {
      stale := kept;
      for k := 0 to |page|
        invariant stale == StaleOf(items, all[..offset + k], current)
      {
        assert all[..offset + k + 1][..offset + k] == all[..offset + k];
        if page[k].ruleVersion < current {
          stale := stale + [page[k]];
        }
      }
    }

    /** The paging loop over one status: every page is cut from the same listing, and none is left out. */
    method CollectStatus(status: ItemStatus, current: int) returns (stale: seq<Item>, ghost all: seq<Id>)
      requires store.Valid()
      ensures AllByRank(StatusRank(store.desk.items, status), all) && Known(store.desk.items, all)
      ensures stale == StaleOf(store.desk.items, all, current)
    {
      hide Performed, StatusRank, AllByRank, NewestFirst;
      var page;
      page, all := ListItems(status, SWEEP_PAGE_SIZE, 0);
      stale := [];
      var offset := 0;
      var more := true;
      assert all[..0] == [];
      while more
        invariant 0 <= offset <= |all| && Known(store.desk.items, all[..offset])
        invariant more ==> stale == StaleOf(store.desk.items, all[..offset], current)
        invariant !more ==> stale == StaleOf(store.desk.items, all, current)
        decreases more, |all| - offset
      {
        ghost var again;
        page, again := ListItems(status, SWEEP_PAGE_SIZE, offset);
        OneListing(store.desk.items, status, all, again);
        stale := KeepStale(page, current, stale, store.desk.items, all, offset);
        if |page| < SWEEP_PAGE_SIZE {
          assert all[..offset + |page|] == all;
          more := false;
        } else {
          offset := offset + SWEEP_PAGE_SIZE;
        }
      }
    }

    method CollectStaleItems(current: int) returns (stale: seq<Item>)
      requires store.Valid()
      ensures AllStale(store.desk.items, current, stale)
    {
      ghost var registered, adjudicated;
      var first;
      first, registered := CollectStatus(StatusRegistered, current);
      var second;
      second, adjudicated := CollectStatus(StatusAdjudicated, current);
      stale := first + second;
      StaleAreReevaluable(store, registered, adjudicated, current);
    }

    /** The item as it is now is checked again; a no-op unless it is still stale and some rule fits. */
    method ReevaluateItem(id: Id, list: seq<Rule>, since: Time, current: int, storageFails: bool)
        returns (err: Option<Error>)
      requires store.Valid() && id in store.desk.items && IsListOf(store.desk.rules, since, list)
      requires store.desk.items[id].registeredAt <= since
      modifies this, store
      ensures store.Valid() && failed == old(failed)
      ensures store.desk == SweepOne(old(store.desk), id, current, storageFails)
      ensures err == if storageFails && Moves(old(store.desk).rules, current, old(store.desk).items[id], false)
                     then Some(StorageFailure) else None
      ensures reevaled == old(reevaled)
                          + if Moves(old(store.desk).rules, current, old(store.desk).items[id], storageFails) then 1
                            else 0
      ensures skipped == old(skipped)
                         + if Moves(old(store.desk).rules, current, old(store.desk).items[id], false) then 0 else 1
      ensures reevaled > old(reevaled) <==> store.ops != old(store.ops)
    {
      hide Perform, Performed, Routes, IsBest, IsBestOf, SomeEligible, Rule.Fits, Rule.IsActiveAt, IsListOf, Commit;
      var item := store.desk.items[id];
      if item.ruleVersion >= current {
        skipped := skipped + 1;
        return None;
      }
      if item.status.IsTerminal() {
        skipped := skipped + 1;
        return None;
      }
      if item.status != StatusRegistered && item.status != StatusAdjudicated {
        skipped := skipped + 1;
        return None;
      }
      StoredUnderId(store, id);
      var now := store.desk.now;
      var routed, chosen := Adjudicate(store.desk.next, item, list, now);
      ListIsEnough(store, item, since, list, chosen);
      if routed.Err? {
        skipped := skipped + 1;
        return None;
      }
      var referral := routed.value;
      if item.status == StatusRegistered {
        item := item.(status := StatusAdjudicated);
      }
      item := item.(lead := referral.lead, coDepartments := referral.coDepartments, ruleVersion := referral.ruleVersion,
                      updatedAt := now);
      RerouteIsTx(store, id, current, chosen.value);
      err := store.WithTx(RerouteTx(item, referral), 1, storageFails, Op.Reevaluate(id, current));
      if err.Some? {
        return err;
      }
      reevaled := reevaled + 1;
      return None;
    }

    /** Every stale item with a fitting rule is re-routed by the best rule of the whole table, and gets a new
        referral that says so; the others are left alone, with their referrals. An item whose transaction fails
        does not stop the sweep. The counters tell the re-routed items, the failed ones, and those without a
        fitting rule. */
    method Sweep(fails: set<Id>) returns (ghost current: int)
      requires store.Valid()
      modifies this, store
      ensures store.Valid() && current == |store.desk.rules| && Swept(current, old(store.desk), store.desk, fails)
      ensures reevaled == old(reevaled) + |Moved(old(store.desk), current, fails)|
      ensures failed == old(failed) + |Moved(old(store.desk), current, {}) * fails|
      ensures skipped == old(skipped) + if current > 0 then |Unfit(old(store.desk), current)| else 0
    {
      hide Performed, SweptUpTo, Swept, SweepOne, IsListOf, Moves, Moved, Unfit, AllStale,
          SweptAndCounted, Ordered, IsCurrentVersion, BestFirst;
      var version := GetCurrentRuleVersion(store.desk.rules);
      current := version;
      CountIsCurrent(store, version);
      ghost var before := store.desk;
      if version == 0 {
        NothingToSweep(before, version, fails);
        return;
      }
      var now := store.desk.now;
      var list := GetActiveRules(store.desk.rules, now);
      var stale := CollectStaleItems(version);
      AllStored(store);
      NoneSwept(version, before, fails);
      assert stale[..0] == [];
      for k := 0 to |stale|
        invariant store.Valid() && store.desk.rules == before.rules && store.desk.now == now
        invariant SweptAndCounted(version, before, store.desk, stale[..k], fails, reevaled - old(reevaled),
                                  failed - old(failed), skipped - old(skipped))
      {
        NextIdIsNew(store);
        SweepNextOf(version, before, store.desk, stale, k, fails, reevaled - old(reevaled), failed - old(failed),
                    skipped - old(skipped));
        RegisteredInPast(store, stale[k].id);
        var err := ReevaluateItem(stale[k].id, list, now, version, stale[k].id in fails);
        if err.Some? {
          failed := failed + 1;
        }
      }
      assert stale[..|stale|] == stale;
      SweptAll(version, before, store.desk, stale, fails, reevaled - old(reevaled), failed - old(failed),
               skipped - old(skipped));
    }
  }

  /** The items that the sweep re-routes when the transactions of those in `fails` fail. */
  ghost function Moved(d: Desk, current: int, fails: set<Id>): set<Id> {
    set i | i in d.items && Moves(d.rules, current, d.items[i], i in fails)
  }

  /** The stale items that no rule fits. */
  ghost function Unfit(d: Desk, current: int): set<Id> {
    set i | i in d.items && d.items[i].ruleVersion < current
            && d.items[i].status in {StatusRegistered, StatusAdjudicated}
            && !exists r :: Routes(d.rules, d.items[i], r)
  }

  /** Of the items with these identifiers, so many have been re-routed, have failed and have been skipped. */
  ghost predicate Tally(d: Desk, current: int, fails: set<Id>, done: set<Id>, reevaled: int, failed: int,
                        skipped: int) {
    && reevaled == |Moved(d, current, fails) * done| && failed == |Moved(d, current, {}) * fails * done|
    && skipped == |Unfit(d, current) * done|
  }

  function IdsOf(items: seq<Item>): set<Id> {
    set item | item in items :: item.id
  }

  lemma NothingTallied(d: Desk, current: int, fails: set<Id>)
    ensures Tally(d, current, fails, IdsOf([]), 0, 0, 0)
  {
    assert IdsOf([]) == {} && Moved(d, current, fails) * {} == {} && Unfit(d, current) * {} == {};
    assert Moved(d, current, {}) * fails * {} == {};
  }

  lemma OneMoreOf(a: set<Id>, done: set<Id>, i: Id)
    requires i !in done
    ensures |a * (done + {i})| == |a * done| + if i in a then 1 else 0
  {
    assert a * (done + {i}) == a * done + if i in a then {i} else {};
  }

  lemma InTally(d: Desk, current: int, fails: set<Id>, i: Id)
    requires i in d.items
    ensures i in Moved(d, current, fails) <==> Moves(d.rules, current, d.items[i], i in fails)
    ensures i in Moved(d, current, {}) * fails <==> i in fails && Moves(d.rules, current, d.items[i], false)
    ensures i in Unfit(d, current) <==>
              Reevaluable(d.items[i], current) && !Moves(d.rules, current, d.items[i], false)
  {
    hide Routes;
  }

  lemma TallyIsStale(d: Desk, current: int, fails: set<Id>, i: Id)
    ensures i in Moved(d, current, fails) || i in Moved(d, current, {}) || i in Unfit(d, current) ==>
              i in d.items && Reevaluable(d.items[i], current)
  {
    hide Routes;
  }

  /** Each stale item is counted once: as re-routed, as failed or as skipped. */
  lemma OneMoreTallied(d: Desk, current: int, fails: set<Id>, done: seq<Item>, item: Item, r: int, f: int, s: int)
    requires forall i <- done :: i.id in d.items && d.items[i.id] == i
    requires item.id in d.items && d.items[item.id] == item && Reevaluable(item, current) && item !in done
    requires Tally(d, current, fails, IdsOf(done), r, f, s)
    ensures var stuck := item.id in fails && Moves(d.rules, current, item, false);
            Tally(d, current, fails, IdsOf(done + [item]),
                  r + (if Moves(d.rules, current, item, item.id in fails) then 1 else 0), f + (if stuck then 1 else 0),
                  s + (if Moves(d.rules, current, item, false) then 0 else 1))
  {
    hide Moved, Unfit, Moves, Reevaluable;
    InTally(d, current, fails, item.id);
    assert IdsOf(done + [item]) == IdsOf(done) + {item.id};
    OneMoreOf(Moved(d, current, fails), IdsOf(done), item.id);
    OneMoreOf(Moved(d, current, {}) * fails, IdsOf(done), item.id);
    OneMoreOf(Unfit(d, current), IdsOf(done), item.id);
  }

  lemma AllTallied(d: Desk, current: int, fails: set<Id>, stale: seq<Item>, r: int, f: int, s: int)
    requires forall i :: i in d.items ==> d.items[i].id == i
    requires forall i :: i in d.items && Reevaluable(d.items[i], current) ==> d.items[i] in stale
    requires Tally(d, current, fails, IdsOf(stale), r, f, s)
    ensures r == |Moved(d, current, fails)| && f == |Moved(d, current, {}) * fails| && s == |Unfit(d, current)|
  {
    hide Moved, Unfit, Reevaluable;
    forall i
      ensures i in Moved(d, current, fails) || i in Moved(d, current, {}) || i in Unfit(d, current) ==>
                i in IdsOf(stale)
    {
      TallyIsStale(d, current, fails, i);
    }
    assert Moved(d, current, fails) * IdsOf(stale) == Moved(d, current, fails);
    assert Moved(d, current, {}) * fails * IdsOf(stale) == Moved(d, current, {}) * fails;
    assert Unfit(d, current) * IdsOf(stale) == Unfit(d, current);
  }

  lemma NextIdIsNew(store: Store)
    requires store.Valid()
    ensures store.desk.next !in store.desk.referrals
  {
    PerformedSafe(store.cfg, store.start, store.ops);
  }

  lemma OneListing(items: map<Id, Item>, status: ItemStatus, a: seq<Id>, b: seq<Id>)
    requires AllByRank(StatusRank(items, status), a) && AllByRank(StatusRank(items, status), b)
    ensures a == b
  {
    OrderIsUnique(StatusRank(items, status), a, b);
  }

  lemma {:induction false} StaleOfDistinct(items: map<Id, Item>, ids: seq<Id>, current: int)
    requires Known(items, ids) && Distinct(ids) && forall i :: i in items ==> items[i].id == i
    ensures Distinct(StaleOf(items, ids, current))
  {
    if ids != [] {
      var n := |ids| - 1;
      StaleOfDistinct(items, ids[..n], current);
      StaleOfHas(items, ids[..n], current, items[ids[n]]);
      assert forall i <- ids[..n] :: i != ids[n];
    }
  }

  lemma ListingHas(items: map<Id, Item>, status: ItemStatus, all: seq<Id>, current: int, item: Item)
    requires Known(items, all) && AllByRank(StatusRank(items, status), all)
             && forall i :: i in items ==> items[i].id == i
    ensures item in StaleOf(items, all, current)
            <==> item.id in items && items[item.id] == item && item.status == status && item.ruleVersion < current
  {
    StaleOfHas(items, all, current, item);
    assert item.id in all <==> item.id in StatusRank(items, status);
  }

  lemma StaleAreReevaluable(store: Store, registered: seq<Id>, adjudicated: seq<Id>, current: int)
    requires store.Valid()
    requires Known(store.desk.items, registered)
    requires AllByRank(StatusRank(store.desk.items, StatusRegistered), registered)
    requires Known(store.desk.items, adjudicated)
    requires AllByRank(StatusRank(store.desk.items, StatusAdjudicated), adjudicated)
    ensures var items := store.desk.items;
            var stale := StaleOf(items, registered, current) + StaleOf(items, adjudicated, current);
            && Distinct(stale)
            && forall item :: item in stale <==>
                 item.id in items && items[item.id] == item && Reevaluable(item, current)
  {
    hide Performed, StaleOf, AllByRank;
    var items := store.desk.items;
    forall i | i in items
      ensures items[i].id == i
    {
      StoredUnderId(store, i);
    }
    assert Distinct(registered) && Distinct(adjudicated) by {
      ListingIsDistinct(items, StatusRegistered, registered);
      ListingIsDistinct(items, StatusAdjudicated, adjudicated);
    }
    StaleOfDistinct(items, registered, current);
    StaleOfDistinct(items, adjudicated, current);
    forall item
      ensures item in StaleOf(items, registered, current) <==>
                item.id in items && items[item.id] == item && Reevaluable(item, current)
                    && item.status == StatusRegistered
      ensures item in StaleOf(items, adjudicated, current) <==>
                item.id in items && items[item.id] == item && Reevaluable(item, current)
                    && item.status == StatusAdjudicated
    {
      ListingHas(items, StatusRegistered, registered, current, item);
      ListingHas(items, StatusAdjudicated, adjudicated, current, item);
    }
    DistinctTogether(StaleOf(items, registered, current), StaleOf(items, adjudicated, current));
  }

  lemma ListingIsDistinct(items: map<Id, Item>, status: ItemStatus, all: seq<Id>)
    requires AllByRank(StatusRank(items, status), all)
    ensures Distinct(all)
  {
  }

  lemma NoneSwept(current: int, d: Desk, fails: set<Id>)
    ensures SweptAndCounted(current, d, d, [], fails, 0, 0, 0)
  {
    hide Tally, IdsOf;
    NothingTallied(d, current, fails);
  }

  lemma SweepOneSpares(d: Desk, id: Id, current: int, fails: bool, i: Id)
    requires id in d.items && d.next !in d.referrals && i != id
    ensures var e := SweepOne(d, id, current, fails);
            SameReferrals(d, e, i) && (i in d.items ==> i in e.items && e.items[i] == d.items[i])
  {
    hide Routing, Moves;
  }

  /** Sweeping one item files at most one referral, under that item. */
  lemma SweepOneFiles(d: Desk, id: Id, current: int, fails: bool)
    requires id in d.items && d.next !in d.referrals
    ensures var e := SweepOne(d, id, current, fails);
            && e.rules == d.rules && e.now == d.now && e.items.Keys == d.items.Keys
            && d.referrals.Keys <= e.referrals.Keys
            && SweptItem(current, d, e, id, fails)
            && forall i :: i != id ==> SameReferrals(d, e, i) && (i in d.items ==> e.items[i] == d.items[i])
  {
    hide Routing, Reevaluable, SameReferrals;
    var e := SweepOne(d, id, current, fails);
    if Moves(d.rules, current, d.items[id], fails) {
      assert IsNewReferral(d, e, id, Routing(d.rules, d.items[id]).value, d.now, d.next);
    } else {
      SameIsSame(d, id);
    }
    forall i | i != id
      ensures SameReferrals(d, e, i) && (i in d.items ==> i in e.items && e.items[i] == d.items[i])
    {
      SweepOneSpares(d, id, current, fails, i);
    }
  }

  lemma SameIsSame(d: Desk, i: Id)
    ensures SameReferrals(d, d, i)
  {
  }

  lemma SameThenSwept(current: int, a: Desk, b: Desk, c: Desk, i: Id, fails: bool)
    requires i in a.items && i in b.items && i in c.items
    requires a.rules == b.rules && a.now == b.now && a.items[i] == b.items[i] && a.referrals.Keys <= b.referrals.Keys
    requires SameReferrals(a, b, i) && SweptItem(current, b, c, i, fails)
    ensures SweptItem(current, a, c, i, fails)
  {
    hide Reevaluable, Routing, AfterSweep;
    if Moves(a.rules, current, a.items[i], fails) {
      var best := Routing(a.rules, a.items[i]).value;
      var n :| IsNewReferral(b, c, i, best, a.now, n);
      assert IsNewReferral(a, c, i, best, a.now, n);
    }
  }

  lemma SweptThenSame(current: int, a: Desk, b: Desk, c: Desk, i: Id, fails: bool)
    requires i in a.items && i in b.items && i in c.items && b.items[i] == c.items[i]
    requires SweptItem(current, a, b, i, fails) && SameReferrals(b, c, i)
    ensures SweptItem(current, a, c, i, fails)
  {
    hide Reevaluable, Routing, AfterSweep;
    if Moves(a.rules, current, a.items[i], fails) {
      var best := Routing(a.rules, a.items[i]).value;
      var n :| IsNewReferral(a, b, i, best, a.now, n);
      assert IsNewReferral(a, c, i, best, a.now, n);
    }
  }

  /** The next stale item is still as it was collected; sweeping it sweeps one item more. */
  lemma SweepNext(current: int, before: Desk, after: Desk, done: seq<Item>, item: Item, fails: set<Id>)
    requires SweptUpTo(current, before, after, done, fails) && after.next !in after.referrals
    requires item.id in before.items && before.items[item.id] == item && item !in done
    requires forall i :: i in before.items ==> before.items[i].id == i
    ensures item.id in after.items && after.items[item.id] == item
    ensures var e := SweepOne(after, item.id, current, item.id in fails); e.rules == before.rules && e.now == before.now
    ensures SweptUpTo(current, before, SweepOne(after, item.id, current, item.id in fails), done + [item], fails)
  {
    hide SweepOne, SweptItem, SameReferrals;
    var id := item.id;
    var e := SweepOne(after, id, current, id in fails);
    SweepOneFiles(after, id, current, id in fails);
    forall i | i in before.items
      ensures if before.items[i] in done + [item] then SweptItem(current, before, e, i, i in fails)
              else e.items[i] == before.items[i] && SameReferrals(before, e, i)
    {
      if i == id {
        SameThenSwept(current, before, after, e, i, i in fails);
      } else if before.items[i] in done {
        SweptThenSame(current, before, after, e, i, i in fails);
      } else {
        SameTwice(before, after, e, i);
      }
    }
  }

  lemma SameTwice(a: Desk, b: Desk, c: Desk, i: Id)
    requires SameReferrals(a, b, i) && SameReferrals(b, c, i)
    ensures SameReferrals(a, c, i)
  {
  }

  ghost predicate SweptAndCounted(current: int, before: Desk, after: Desk, done: seq<Item>, fails: set<Id>,
                                  reevaled: int, failed: int, skipped: int) {
    SweptUpTo(current, before, after, done, fails)
    && Tally(before, current, fails, IdsOf(done), reevaled, failed, skipped)
  }

  /** Item number k of the stale ones is swept and counted next. */
  lemma SweepNextOf(current: int, before: Desk, after: Desk, stale: seq<Item>, k: nat, fails: set<Id>, r: int, f: int,
                    s: int)
    requires k < |stale| && AllStale(before.items, current, stale) && after.next !in after.referrals
    requires SweptAndCounted(current, before, after, stale[..k], fails, r, f, s)
    requires forall i :: i in before.items ==> before.items[i].id == i
    ensures var item := stale[k]; var id := item.id;
            && id in after.items && id in before.items && after.items[id] == before.items[id]
            && var e := SweepOne(after, id, current, id in fails);
               e.rules == before.rules && e.now == before.now
               && SweptAndCounted(current, before, e, stale[..k + 1], fails,
                    r + (if Moves(before.rules, current, after.items[id], id in fails) then 1 else 0),
                    f + (if id in fails && Moves(before.rules, current, after.items[id], false) then 1 else 0),
                    s + (if Moves(before.rules, current, after.items[id], false) then 0 else 1))
  {
    hide SweptUpTo, Tally, SweepOne, Moves, IdsOf;
    assert stale[k] in stale && stale[k] !in stale[..k] && stale[..k + 1] == stale[..k] + [stale[k]];
    assert forall item <- stale[..k] :: item in stale;
    OneMoreTallied(before, current, fails, stale[..k], stale[k], r, f, s);
    SweepNext(current, before, after, stale[..k], stale[k], fails);
  }

  lemma SweptAll(current: int, before: Desk, after: Desk, stale: seq<Item>, fails: set<Id>, r: int, f: int, s: int)
    requires AllStale(before.items, current, stale) && forall i :: i in before.items ==> before.items[i].id == i
    requires SweptAndCounted(current, before, after, stale, fails, r, f, s)
    ensures Swept(current, before, after, fails)
    ensures r == |Moved(before, current, fails)| && f == |Moved(before, current, {}) * fails|
            && s == |Unfit(before, current)|
  {
    hide SweptUpTo, Tally, Swept, Moved, Unfit, IdsOf, Distinct;
    AllSwept(current, before, after, stale, fails);
    AllTallied(before, current, fails, stale, r, f, s);
  }

  lemma AllSwept(current: int, before: Desk, after: Desk, done: seq<Item>, fails: set<Id>)
    requires SweptUpTo(current, before, after, done, fails)
    requires forall i :: i in before.items && Reevaluable(before.items[i], current) ==> before.items[i] in done
    ensures Swept(current, before, after, fails)
  {
    hide SameReferrals, NewReferral, Routing;
  }

  lemma CountIsCurrent(store: Store, version: int)
    requires store.Valid() && IsCurrentVersion(store.desk.rules, version)
    ensures version == |store.desk.rules|
    ensures version == 0 ==> forall item :: !SomeEligible(store.desk.rules, item)
  {
    PerformedSafe(store.cfg, store.start, store.ops);
    CurrentIsCount(store.desk.rules, version);
  }

  lemma NothingToSweep(d: Desk, version: int, fails: set<Id>)
    requires forall item :: !SomeEligible(d.rules, item)
    ensures Swept(version, d, d, fails)
    ensures forall some :: Moved(d, version, some) == {}
  {
  }

  lemma RegisteredInPast(store: Store, i: Id)
    requires store.Valid() && i in store.desk.items
    ensures store.desk.items[i].registeredAt <= store.desk.now
  {
    PerformedSafe(store.cfg, store.start, store.ops);
    assert ItemSafe(store.cfg, store.desk.items[i], store.desk.escalations, store.desk.now);
  }

  lemma RerouteIsTx(store: Store, i: Id, current: int, best: Rule)
    requires store.Valid() && i in store.desk.items && Reevaluable(store.desk.items[i], current)
    requires Routing(store.desk.rules, store.desk.items[i]) == Some(best)
    ensures var d := store.desk; var item := RoutedBy(d.items[i], best).(updatedAt := d.now);
            var tx := RerouteTx(item, ReferralBy(best, d.next, i, d.now));
            && Commit(d, tx).Ok? && Perform(store.cfg, d, Op.Reevaluate(i, current)) == Try(d, tx, d.next + 1)
            && Try(d, tx, d.next + 1) == SweepOne(d, i, current, false)
  {
    hide History, OneCurrent, Agreed, Sound;
    PerformedSafe(store.cfg, store.start, store.ops);
    var d := store.desk;
    Rerouted(d, RoutedBy(d.items[i], best).(updatedAt := d.now), ReferralBy(best, d.next, i, d.now));
  }

  /******* Sweeping again *******/

  /** Routing looks at the registration time, the category and the keywords of an item, and at nothing else. */
  lemma RoutingReads(rules: Table, a: Item, b: Item)
    requires RuleTables.Keyed(rules)
    requires a.registeredAt == b.registeredAt && a.category == b.category && a.keywords == b.keywords
    ensures Routing(rules, a) == Routing(rules, b)
  {
    assert forall v :: v in rules ==> (Eligible(rules[v], a) <==> Eligible(rules[v], b));
    if Routing(rules, a).Some? {
      assert IsBestOf(rules, b, Routing(rules, a).value);
      RoutingIsBest(rules, b, Routing(rules, a).value);
    }
  }

  lemma SecondRoute(rules: Table, current: int, item: Item, first: Time)
    requires RuleTables.Keyed(rules)
    ensures var once := AfterSweep(rules, current, item, first, false);
            && (Moves(rules, current, once, false)
                <==> Moves(rules, current, item, false) && Routing(rules, item).value.version < current)
            && forall second :: var twice := AfterSweep(rules, current, once, second, false);
                                twice == once.(updatedAt := twice.updatedAt)
  {
    RoutingReads(rules, item, AfterSweep(rules, current, item, first, false));
  }

  lemma NewReferralOnlyIfSwept(current: int, before: Desk, after: Desk, i: Id, fails: bool)
    requires i in before.items && i in after.items && SweptItem(current, before, after, i, fails)
    ensures (exists r :: FiledFor(after, i, r) && !FiledFor(before, i, r))
            <==> Moves(before.rules, current, before.items[i], fails)
  {
    hide Reevaluable, AfterSweep, Routing;
    if Moves(before.rules, current, before.items[i], fails) {
      var n :| IsNewReferral(before, after, i, Routing(before.rules, before.items[i]).value, before.now, n);
      assert FiledFor(after, i, n) && !FiledFor(before, i, n);
    }
  }

  /** Two sweeps with nothing between them but time. The second leaves lead, co-departments, rule version and
      status of every item as the first left them, and files a new referral exactly for the items the first has
      re-routed by a rule that is itself older than the current version: those are swept again and again. */
  lemma SecondSweepIsStable(current: int, start: Desk, once: Desk, later: Time, twice: Desk, i: Id)
    requires RuleTables.Keyed(start.rules) && i in start.items
    requires Swept(current, start, once, {}) && Swept(current, once.(now := later), twice, {})
    ensures i in once.items && i in twice.items
    ensures twice.items[i] == once.items[i].(updatedAt := twice.items[i].updatedAt)
    ensures (exists r :: FiledFor(twice, i, r) && !FiledFor(once, i, r))
            <==> Moves(start.rules, current, start.items[i], false)
                 && Routing(start.rules, start.items[i]).value.version < current
  {
    hide SameReferrals, NewReferral, Reevaluable, Routing;
    var idle := once.(now := later);
    assert SweptItem(current, start, once, i, false) && SweptItem(current, idle, twice, i, false);
    SecondRoute(start.rules, current, start.items[i], start.now);
    NewReferralOnlyIfSwept(current, idle, twice, i, false);
    assert forall r :: FiledFor(idle, i, r) <==> FiledFor(once, i, r);
  }
}
