/** internal/service/escalation_service.go: overdue items move up one level. */
module EscalationServices {
  import opened Outcomes
  import opened SuggestionStatus
  import opened RoutingDomain
  import opened RuleTables
  import opened Desks
  import opened Casework
  import opened CaseworkSafety
  import opened DeskStores
  import opened Queries

  function OverdueRank(cfg: Config, items: map<Id, Item>, now: Time): map<Id, Rank> {
    map i | i in items && Overdue(cfg, items[i], now) :: By(items[i].deadline)
  }

  /** The items after exactly those of `raised` have gone up one level: each has a new lead, deadline and status,
      and is otherwise as it was. */
  ghost predicate ExactlyRaised(cfg: Config, before: map<Id, Item>, after: map<Id, Item>, raised: seq<Id>, now: Time) {
    after.Keys == before.Keys
    && forall i :: i in before ==>
         after[i] == if i !in raised then before[i]
                     else before[i].(lead := EscalationDepartmentName(before[i].lead, before[i].level + 1),
                                     level := before[i].level + 1, deadline := now + cfg.extension,
                                     status := StatusEscalated, updatedAt := now)
  }

  /** The record of an item's step to the next level. */
  predicate RecordsStep(cfg: Config, item: Item, now: Time, record: Escalation) {
    record == Escalation(record.id, item.id, item.level, item.level + 1, item.lead,
                         EscalationDepartmentName(item.lead, item.level + 1), now, now + cfg.extension)
  }

  /** What one escalation records, and the desk it leaves: the item under its supervising department with a new
      deadline, a record of the step, and a current referral to the new lead in place of the item's others. */
  ghost predicate Escalates(cfg: Config, d: Desk, item: Item, now: Time, record: Escalation, after: Desk) {
    var lead := EscalationDepartmentName(item.lead, item.level + 1);
    && record.id == d.next && RecordsStep(cfg, item, now, record)
    && after == d.(items := d.items[item.id := item.(lead := lead, level := item.level + 1,
                                                     deadline := now + cfg.extension, status := StatusEscalated,
                                                     updatedAt := now)],
                   escalations := d.escalations[d.next := record], referrals := after.referrals, next := d.next + 2)
    && after.referrals.Keys == d.referrals.Keys + {d.next + 1}
    && after.referrals[d.next + 1] == Referral(d.next + 1, item.id, lead, item.coDepartments, item.ruleVersion, now,
                                               "system_escalation", true)
    && forall r :: r in d.referrals ==>
         after.referrals[r] == if d.referrals[r].itemId == item.id then d.referrals[r].(isCurrent := false)
                               else d.referrals[r]
  }

  /** The open items past their deadline and below the top level, each once, by deadline. */
  ghost predicate DueByDeadline(cfg: Config, items: map<Id, Item>, now: Time, ids: seq<Id>) {
    && Distinct(ids)
    && (forall i :: i in ids <==>
          i in items && items[i].status !in {StatusCompleted, StatusCancelled} && items[i].deadline < now
          && items[i].level < cfg.maxLevel)
    && (forall j, k :: 0 <= j < k < |ids| && ids[j] in items && ids[k] in items ==>
          items[ids[j]].deadline <= items[ids[k]].deadline)
  }

  /** The escalation cannot go on past this item. */
  predicate Blocks(items: map<Id, Item>, fails: set<Id>, i: Id) {
    i in items && (items[i].status !in {StatusAdjudicated, StatusInProgress, StatusEscalated} || i in fails)
  }

  /** Each of the first overdue items, up to the first that blocks, has a record of its step. */
  ghost predicate StepsRecorded(cfg: Config, items: map<Id, Item>, overdue: seq<Id>, raised: seq<Escalation>,
                                fails: set<Id>, now: Time) {
    |raised| <= |overdue|
    && forall k :: 0 <= k < |raised| ==>
         overdue[k] in items && items[overdue[k]].id == overdue[k] && !Blocks(items, fails, overdue[k])
         && RecordsStep(cfg, items[overdue[k]], now, raised[k])
  }

  lemma StepRecorded(cfg: Config, items: map<Id, Item>, overdue: seq<Id>, raised: seq<Escalation>, fails: set<Id>,
                     now: Time, record: Escalation)
    requires StepsRecorded(cfg, items, overdue, raised, fails, now) && |raised| < |overdue|
    requires var i := overdue[|raised|];
             i in items && items[i].id == i && !Blocks(items, fails, i) && RecordsStep(cfg, items[i], now, record)
    ensures StepsRecorded(cfg, items, overdue, raised + [record], fails, now)
  {
  }

  function Escalations(ids: seq<Id>, at: Time): seq<Op> {
    if ids == [] then [] else Escalations(ids[..|ids| - 1], at) + [Op.Escalate(ids[|ids| - 1], at)]
  }

  class EscalationService {
    const store: Store

    constructor (store: Store)
      ensures this.store == store
    {
      this.store := store;
    }

    method FindOverdueItems(now: Time) returns (overdue: seq<Item>, ghost ids: seq<Id>)
      requires store.Valid()
      ensures AllByRank(OverdueRank(store.cfg, store.desk.items, now), ids) && |ids| == |overdue|
      ensures forall k :: 0 <= k < |ids| ==> ids[k] in store.desk.items && overdue[k] == store.desk.items[ids[k]]
                                             && overdue[k].id == ids[k] && Overdue(store.cfg, overdue[k], now)
      ensures DueByDeadline(store.cfg, store.desk.items, now, ids)
    {
      hide DueByDeadline, InOrder, Distinct, Performed;
      AllStored(store);
      var items := store.desk.items;
      var order := Order(OverdueRank(store.cfg, items, now));
      ids := order;
      RankIsDue(store.cfg, items, now, ids);
      assert forall k :: 0 <= k < |ids| ==> ids[k] in ids;
      overdue := seq(|order|, k requires 0 <= k < |order| => items[order[k]]);
    }

    method EscalateItem(item: Item, now: Time, storageFails: bool) returns (result: Result<Escalation>)
      requires store.Valid() && item.id in store.desk.items && item == store.desk.items[item.id]
      requires now <= store.desk.now && Overdue(store.cfg, item, now)
      modifies store
      ensures store.Valid()
      ensures result.Err? ==> store.ops == old(store.ops) && store.desk == old(store.desk)
      ensures result.Err? <==> item.status !in {StatusAdjudicated, StatusInProgress, StatusEscalated} || storageFails
      ensures result.Err? ==>
                result.error == if item.status !in {StatusAdjudicated, StatusInProgress, StatusEscalated}
                                then InvalidTransition else StorageFailure
      ensures result.Ok? ==>
                store.ops == old(store.ops) + [Op.Escalate(item.id, now)]
                && Escalates(store.cfg, old(store.desk), item, now, result.value, store.desk)
      ensures item.level >= 0
              && EscalationDepartmentName(item.lead, item.level + 1)
                 == item.lead + "-supervisor-l" + Decimal(item.level + 1)
    {
      hide Perform, Performed, Try, Commit, EscalationDepartmentName, Supersede, Escalates;
      NextName(store, item);
      var level := item.level + 1;
      if level > store.cfg.maxLevel {
        return Err(MaxEscalationReached);
      }
      var lead := EscalationDepartmentName(item.lead, level);
      var deadline := now + store.cfg.extension;
      var escalation := Escalation(store.desk.next, item.id, item.level, level, item.lead, lead, now, deadline);
      var referral := Referral(store.desk.next + 1, item.id, lead, item.coDepartments, item.ruleVersion, now,
                               "system_escalation", true);
      var moved := item.(lead := lead, level := level, deadline := deadline).TransitionTo(StatusEscalated);
      if moved.Err? {
        return Err(moved.error);
      }
      var raised := moved.value.(updatedAt := now);
      RaiseIsEscalateTx(store, item, now);
      var err := store.WithTx(EscalateTx(raised, referral, escalation), 2, storageFails, Op.Escalate(item.id, now));
      if err.Some? {
        return Err(err.value);
      }
      return Ok(escalation);
    }

    /** Raises by one level exactly the overdue items, in deadline order, up to the first that blocks, and
        touches no other item. Storage fails for the items in `fails`. */
    method CheckAndEscalate(fails: set<Id>) returns (raised: seq<Escalation>, err: Option<Error>,
                                                     ghost overdue: seq<Id>)
      requires store.Valid()
      modifies store
      ensures store.Valid()
      ensures AllByRank(OverdueRank(store.cfg, old(store.desk).items, old(store.desk).now), overdue)
      ensures DueByDeadline(store.cfg, old(store.desk).items, old(store.desk).now, overdue)
      ensures StepsRecorded(store.cfg, old(store.desk).items, overdue, raised, fails, old(store.desk).now)
      ensures if err.None? then |raised| == |overdue|
              else |raised| < |overdue| && Blocks(old(store.desk).items, fails, overdue[|raised|])
      ensures ExactlyRaised(store.cfg, old(store.desk).items, store.desk.items, overdue[..|raised|],
                            old(store.desk).now)
      ensures store.ops == old(store.ops) + Escalations(overdue[..|raised|], old(store.desk).now)
      ensures store.desk.now == old(store.desk).now
    {
      hide Perform, Performed, Raised, Overdue, MayEscalate, OverdueRank, ExactlyRaised, InOrder, DueByDeadline,
          RecordsStep, Escalates, StepsRecorded;
      var now := store.desk.now;
      var items;
      items, overdue := FindOverdueItems(now);
      raised, err := [], None;
      NoneRaised(store.cfg, store.desk.items, now);
      assert overdue[..0] == [];
      for k := 0 to |items|
        invariant store.Valid() && |raised| == k && store.desk.now == now
        invariant StepsRecorded(store.cfg, old(store.desk).items, overdue, raised, fails, now)
        invariant ExactlyRaised(store.cfg, old(store.desk).items, store.desk.items, overdue[..k], now)
        invariant store.ops == old(store.ops) + Escalations(overdue[..k], now)
      {
        EscalationRaises(store.cfg, store.desk, items[k], now);
        RaiseNext(store.cfg, old(store.desk).items, store.desk.items, overdue, k, now);
        assert overdue[..k + 1][..k] == overdue[..k];
        var escalated := EscalateItem(items[k], now, items[k].id in fails);
        if escalated.Err? {
          if escalated.error == MaxEscalationReached {
            assert false;
          }
          return raised, Some(escalated.error), overdue;
        }
        StepRecorded(store.cfg, old(store.desk).items, overdue, raised, fails, now, escalated.value);
        raised := raised + [escalated.value];
      }
      assert overdue[..|items|] == overdue;
    }
  }

  lemma RankIsDue(cfg: Config, items: map<Id, Item>, now: Time, ids: seq<Id>)
    requires AllByRank(OverdueRank(cfg, items, now), ids)
    ensures DueByDeadline(cfg, items, now, ids)
  {
    forall i
      ensures i in ids <==> i in items && Overdue(cfg, items[i], now)
    {
      assert i in ids <==> i in OverdueRank(cfg, items, now);
    }
  }

  lemma NoneRaised(cfg: Config, items: map<Id, Item>, now: Time)
    ensures ExactlyRaised(cfg, items, items, [], now)
    ensures forall overdue, fails :: StepsRecorded(cfg, items, overdue, [], fails, now)
  {
  }

  lemma EscalationRaises(cfg: Config, d: Desk, item: Item, now: Time)
    ensures forall record, after :: Escalates(cfg, d, item, now, record, after) ==>
              RecordsStep(cfg, item, now, record) && after.now == d.now
              && after.items == d.items[item.id := Raised(cfg, item, now)]
  {
  }

  /** The next overdue item is still as it was loaded; raising it raises one item more. */
  lemma RaiseNext(cfg: Config, before: map<Id, Item>, after: map<Id, Item>, overdue: seq<Id>, k: nat, now: Time)
    requires k < |overdue| && Distinct(overdue) && overdue[k] in before
    requires ExactlyRaised(cfg, before, after, overdue[..k], now)
    ensures overdue[k] in after && after[overdue[k]] == before[overdue[k]]
    ensures ExactlyRaised(cfg, before, after[overdue[k] := Raised(cfg, before[overdue[k]], now)], overdue[..k + 1], now)
  {
    assert overdue[..k + 1] == overdue[..k] + [overdue[k]];
  }

  lemma EscalationPerforms(cfg: Config, d: Desk, item: Item, now: Time)
    requires item.id in d.items && item == d.items[item.id] && now <= d.now && Overdue(cfg, item, now)
             && MayEscalate(item)
    ensures Perform(cfg, d, Op.Escalate(item.id, now))
            == Try(d, EscalationTx(cfg, d, item, now), d.next + 2)
  {
    hide Try, Raised, RaiseReferral, RaiseRecord;
  }

  lemma EscalationCommits(cfg: Config, d: Desk, item: Item, now: Time)
    requires Unused(d) && item.id in d.items && item == d.items[item.id]
    ensures var tx := EscalationTx(cfg, d, item, now);
            && Commit(d, tx).Ok?
            && Escalates(cfg, d, item, now, RaiseRecord(cfg, item, d.next, now), Try(d, tx, d.next + 2))
  {
    Escalated(d, Raised(cfg, item, now), RaiseReferral(cfg, item, d.next + 1, now),
              RaiseRecord(cfg, item, d.next, now));
  }

  lemma NextName(store: Store, item: Item)
    requires store.Valid() && item.id in store.desk.items && item == store.desk.items[item.id]
    ensures item.level >= 0
            && EscalationDepartmentName(item.lead, item.level + 1)
               == item.lead + "-supervisor-l" + Decimal(item.level + 1)
  {
    hide History, OneCurrent, Agreed, Sound, Performed, Decimal;
    PerformedSafe(store.cfg, store.start, store.ops);
    assert ItemSafe(store.cfg, item, store.desk.escalations, store.desk.now);
  }

  lemma RaiseIsEscalateTx(store: Store, item: Item, now: Time)
    requires store.Valid() && item.id in store.desk.items && item == store.desk.items[item.id]
    requires now <= store.desk.now && Overdue(store.cfg, item, now) && MayEscalate(item)
    ensures var d := store.desk;
            var tx := EscalationTx(store.cfg, d, item, now);
            && Commit(d, tx).Ok? && Perform(store.cfg, d, Op.Escalate(item.id, now)) == Try(d, tx, d.next + 2)
            && Escalates(store.cfg, d, item, now, RaiseRecord(store.cfg, item, d.next, now), Try(d, tx, d.next + 2))
  {
    hide History, OneCurrent, Agreed, Sound, Performed, Perform, Commit, ItemSafe, Try, Raised, RaiseReferral,
        RaiseRecord, Escalates;
    PerformedSafe(store.cfg, store.start, store.ops);
    var d := store.desk;
    EscalationPerforms(store.cfg, d, item, now);
    EscalationCommits(store.cfg, d, item, now);
  }

  /** Without a blocker, nothing below the top level is overdue any more. */
  lemma NothingLeftOverdue(cfg: Config, before: map<Id, Item>, after: map<Id, Item>, overdue: seq<Id>, now: Time, i: Id)
    requires cfg.Valid() && AllByRank(OverdueRank(cfg, before, now), overdue)
    requires ExactlyRaised(cfg, before, after, overdue, now) && i in after
    ensures after[i].status in {StatusCompleted, StatusCancelled} || after[i].deadline >= now
            || after[i].level >= cfg.maxLevel
  {
    assert i in overdue <==> i in OverdueRank(cfg, before, now);
  }

  /** What is raised stays open to the department it has moved to. */
  lemma RaisedCanBeWorkedOn(cfg: Config, before: map<Id, Item>, after: map<Id, Item>, raised: seq<Id>, now: Time, i: Id)
    requires ExactlyRaised(cfg, before, after, raised, now) && i in raised && i in before
    ensures after[i].TransitionTo(StatusInProgress).Ok? && after[i].TransitionTo(StatusCompleted).Ok?
    ensures after[i].TransitionTo(StatusReturned).Err? && after[i].TransitionTo(StatusAdjudicated).Err?
  {
  }

  lemma InOnePart(keys: seq<Id>, n: nat, i: Id)
    requires Distinct(keys) && n <= |keys|
    ensures i in keys[n..] <==> i in keys && i !in keys[..n]
  {
    assert keys == keys[..n] + keys[n..];
  }

  /** A blocker keeps every item behind it overdue: only returned and registered items block for good. */
  lemma BlockedStayOverdue(cfg: Config, before: map<Id, Item>, after: map<Id, Item>, overdue: seq<Id>, n: nat,
                           now: Time, i: Id)
    requires cfg.Valid() && AllByRank(OverdueRank(cfg, before, now), overdue) && n <= |overdue|
    requires ExactlyRaised(cfg, before, after, overdue[..n], now) && i in after
    ensures after[i].status !in {StatusCompleted, StatusCancelled} && after[i].deadline < now
            && after[i].level < cfg.maxLevel
            <==> i in overdue[n..]
    ensures i in before && Overdue(cfg, before[i], now) ==>
              (MayEscalate(before[i]) <==> before[i].status !in {StatusRegistered, StatusReturned})
  {
    hide InOrder, EscalationDepartmentName;
    assert i in overdue <==> i in OverdueRank(cfg, before, now);
    InOnePart(overdue, n, i);
  }
}
