/** What stays true of the desk when items are handled one operation at a time. */
module CaseworkSafety {
  import opened Outcomes
  import opened SuggestionStatus
  import opened RoutingDomain
  import opened Adjudication
  import opened RuleTables
  import opened Desks
  import opened Casework

  ghost predicate Unused(d: Desk) {
    && (forall i :: i in d.items ==> i < d.next && d.items[i].id == i)
    && (forall r :: r in d.referrals ==> r < d.next)
    && (forall e :: e in d.escalations ==> e < d.next && d.escalations[e].itemId in d.items)
  }

  /** Once escalated, an item can only be worked on, completed or cancelled: it can never again be returned,
      resubmitted or re-evaluated. */
  predicate LevelAllows(cfg: Config, item: Item) {
    0 <= item.level <= cfg.maxLevel
    && (item.level > 0 ==> item.status in {StatusEscalated, StatusInProgress, StatusCompleted, StatusCancelled})
  }

  /** Record `e` is the item's escalation to level `k`. */
  ghost predicate RecordAt(escalations: map<Id, Escalation>, item: Id, k: int, e: Id) {
    e in escalations && escalations[e].itemId == item && escalations[e].toLevel == k
  }

  ghost predicate HasRecord(escalations: map<Id, Escalation>, item: Id, k: int) {
    exists e :: RecordAt(escalations, item, k, e)
  }

  /** A record in the history of an item first led by `base`: one level up, from the department of the old
      level to that of the new, after the old deadline. */
  predicate RecordFits(cfg: Config, item: Item, base: string, e: Escalation) {
    && 1 <= e.toLevel <= item.level && e.fromLevel == e.toLevel - 1
    && e.oldLead == Supervised(base, e.fromLevel) && e.newLead == Supervised(base, e.toLevel)
    && e.escalatedAt > item.registeredAt + cfg.deadline + e.fromLevel * cfg.extension
    && e.newDeadline == e.escalatedAt + cfg.extension
  }

  /** The escalation history of an item: one record per level, each dated after the deadline the one before
      it set, and the last one explaining the item's lead and deadline. */
  ghost predicate History(cfg: Config, item: Item, escalations: map<Id, Escalation>, base: string) {
    && item.level >= 0 && item.lead == Supervised(base, item.level)
    && (item.level == 0 ==> item.deadline == item.registeredAt + cfg.deadline)
    && (forall e :: e in escalations && escalations[e].itemId == item.id ==>
        RecordFits(cfg, item, base, escalations[e]))
    && (forall k :: 1 <= k <= item.level ==> HasRecord(escalations, item.id, k))
    && (forall k, e, f :: RecordAt(escalations, item.id, k, e) && RecordAt(escalations, item.id, k, f) ==> e == f)
    && (forall e :: RecordAt(escalations, item.id, item.level, e) ==> escalations[e].newDeadline == item.deadline)
    && (forall k, l, e, f ::
          l == k + 1 && RecordAt(escalations, item.id, k, e) && RecordAt(escalations, item.id, l, f) ==>
          escalations[e].newDeadline < escalations[f].escalatedAt)
  }

  ghost predicate Safe(cfg: Config, d: Desk) {
    && Unused(d) && OneCurrent(d) && Agreed(d) && Sound(d.rules, d.now)
    && (forall i :: i in d.items ==> ItemSafe(cfg, d.items[i], d.escalations, d.now))
  }

  ghost predicate ItemSafe(cfg: Config, item: Item, escalations: map<Id, Escalation>, now: Time) {
    LevelAllows(cfg, item) && item.registeredAt <= now && exists base :: History(cfg, item, escalations, base)
  }

  /******* One escalation *******/

  lemma Stretch(k: int, extension: int)
    ensures (k + 1) * extension == k * extension + extension
  {
  }

  /** The deadline of an item never falls short of its level. */
  lemma DeadlineGrows(cfg: Config, item: Item, escalations: map<Id, Escalation>, base: string)
    requires History(cfg, item, escalations, base)
    ensures item.deadline >= item.registeredAt + cfg.deadline + item.level * cfg.extension
  {
    if item.level > 0 {
      assert HasRecord(escalations, item.id, item.level);
      var e :| RecordAt(escalations, item.id, item.level, e);
      Stretch(item.level - 1, cfg.extension);
    }
  }

  lemma StillFits(cfg: Config, item: Item, raised: Item, base: string, e: Escalation)
    requires RecordFits(cfg, item, base, e) && raised.registeredAt == item.registeredAt && item.level <= raised.level
    ensures RecordFits(cfg, raised, base, e)
  {
  }

  /** The record of an overdue item's next step fits its history. */
  lemma NextFits(cfg: Config, item: Item, raised: Item, escalations: map<Id, Escalation>, base: string, e: Escalation,
                 at: Time)
    requires History(cfg, item, escalations, base) && item.deadline < at
    requires raised.registeredAt == item.registeredAt && raised.level == item.level + 1
    requires e.fromLevel == item.level && e.toLevel == item.level + 1 && e.oldLead == item.lead
    requires e.newLead == EscalationDepartmentName(item.lead, item.level + 1)
    requires e.escalatedAt == at && e.newDeadline == at + cfg.extension
    ensures RecordFits(cfg, raised, base, e) && e.newLead == Supervised(base, item.level + 1)
  {
    DeadlineGrows(cfg, item, escalations, base);
  }

  lemma RaisingExtendsHistory(cfg: Config, item: Item, escalations: map<Id, Escalation>, base: string, id: Id, at: Time)
    requires History(cfg, item, escalations, base) && id !in escalations && item.deadline < at
    ensures var lead := EscalationDepartmentName(item.lead, item.level + 1);
            History(cfg, item.(lead := lead, level := item.level + 1, deadline := at + cfg.extension,
                               status := StatusEscalated, updatedAt := at),
                    escalations[id := Escalation(id, item.id, item.level, item.level + 1, item.lead, lead, at,
                                                 at + cfg.extension)], base)
  {
    hide RecordFits, EscalationDepartmentName;
    var lead := EscalationDepartmentName(item.lead, item.level + 1);
    var step := Escalation(id, item.id, item.level, item.level + 1, item.lead, lead, at, at + cfg.extension);
    var after := escalations[id := step];
    var raised := item.(lead := lead, level := item.level + 1, deadline := at + cfg.extension,
                        status := StatusEscalated, updatedAt := at);
    NextFits(cfg, item, raised, escalations, base, step, at);
    forall e | e in after && after[e].itemId == item.id
      ensures RecordFits(cfg, raised, base, after[e])
    {
      if e != id {
        StillFits(cfg, item, raised, base, escalations[e]);
      }
    }
    forall k, e
      ensures RecordAt(after, item.id, k, e) <==> if e == id then k == raised.level
              else RecordAt(escalations, item.id, k, e)
    {
    }
    LevelsStay(cfg, item, escalations, base);
    forall k | 1 <= k <= raised.level
      ensures HasRecord(after, item.id, k)
    {
      if k == raised.level {
        assert RecordAt(after, item.id, k, id);
      } else {
        assert HasRecord(escalations, item.id, k);
        var e :| RecordAt(escalations, item.id, k, e);
        assert RecordAt(after, item.id, k, e);
      }
    }
  }

  /** No record of an item is of a level it has not reached. */
  lemma LevelsStay(cfg: Config, item: Item, escalations: map<Id, Escalation>, base: string)
    requires History(cfg, item, escalations, base)
    ensures forall k, e :: RecordAt(escalations, item.id, k, e) ==> 1 <= k <= item.level
  {
  }

  /** A record of another item is none of this item's history. */
  lemma OtherRecordIsNoMatter(cfg: Config, item: Item, escalations: map<Id, Escalation>, base: string, id: Id,
                              e: Escalation)
    requires History(cfg, item, escalations, base) && id !in escalations && e.itemId != item.id
    ensures History(cfg, item, escalations[id := e], base)
  {
    var after := escalations[id := e];
    forall k, f
      ensures RecordAt(after, item.id, k, f) <==> RecordAt(escalations, item.id, k, f)
    {
    }
    forall k | HasRecord(escalations, item.id, k)
      ensures HasRecord(after, item.id, k)
    {
      var f :| RecordAt(escalations, item.id, k, f);
      assert RecordAt(after, item.id, k, f);
    }
  }

  /******* What each transaction amounts to: fresh identifiers never clash *******/

  lemma Registered(d: Desk, item: Item, r: Referral)
    requires Unused(d) && !HasRef(d, item.externalRef) && item.id == d.next && r.id == d.next + 1
    ensures Try(d, RegisterTx(item, r), d.next + 2)
            == d.(items := d.items[item.id := item], referrals := d.referrals[r.id := r], next := d.next + 2)
  {
  }

  lemma Rerouted(d: Desk, item: Item, r: Referral)
    requires Unused(d) && item.id in d.items && r.id == d.next && SetItem(d.items[item.id], item) == item
    ensures Try(d, RerouteTx(item, r), d.next + 1)
            == d.(items := d.items[item.id := item], referrals := Supersede(d, item.id).referrals[r.id := r],
                  next := d.next + 1)
  {
  }

  lemma Escalated(d: Desk, item: Item, r: Referral, e: Escalation)
    requires Unused(d) && item.id in d.items && SetItem(d.items[item.id], item) == item
    requires e.id == d.next && r.id == d.next + 1
    ensures Try(d, EscalateTx(item, r, e), d.next + 2)
            == d.(items := d.items[item.id := item], referrals := Supersede(d, item.id).referrals[r.id := r],
                  escalations := d.escalations[e.id := e], next := d.next + 2)
  {
  }

  lemma Updated(d: Desk, item: Item)
    requires item.id in d.items && SetItem(d.items[item.id], item) == item
    ensures Try(d, UpdateTx(item), d.next) == d.(items := d.items[item.id := item])
  {
  }

  /******* Keeping the desk safe *******/

  lemma ReferralsDecide(d: Desk, e: Desk)
    requires e.items == d.items && e.referrals == d.referrals && OneCurrent(d) && Agreed(d)
    ensures OneCurrent(e) && Agreed(e)
  {
    assert forall i, r :: CurrentReferral(e, i, r) <==> CurrentReferral(d, i, r);
  }

  lemma TryKeepsReferrals(d: Desk, tx: Tx, next: Id)
    requires OneCurrent(d) && Agreed(d) && WellMade(tx) && Carries(d, tx)
    ensures OneCurrent(Try(d, tx, next)) && Agreed(Try(d, tx, next))
  {
    hide OneCurrent, Agreed, Commit;
    if Commit(d, tx).Ok? {
      CommitKeepsOneCurrent(d, tx);
      CommitAgreesIff(d, tx);
      ReferralsDecide(Commit(d, tx).value, Try(d, tx, next));
    }
  }

  lemma EditKeepsRow(cfg: Config, op: Op, item: Item, now: Time)
    requires Edits(op) && LevelAllows(cfg, item) && Edited(op, item, now).Ok?
    ensures var item' := Edited(op, item, now).value;
            && SetItem(item, item') == item' && item'.lead == item.lead && item'.coDepartments == item.coDepartments
            && item'.ruleVersion == item.ruleVersion && item'.level == item.level && item'.deadline == item.deadline
            && LevelAllows(cfg, item')
  {
  }

  lemma HistoryReads(cfg: Config, a: Item, b: Item, escalations: map<Id, Escalation>, base: string)
    requires History(cfg, a, escalations, base) && b.id == a.id && b.level == a.level && b.lead == a.lead
    requires b.deadline == a.deadline && b.registeredAt == a.registeredAt
    ensures History(cfg, b, escalations, base)
  {
  }

  lemma EditKeepsItem(cfg: Config, op: Op, item: Item, escalations: map<Id, Escalation>, now: Time)
    requires Edits(op) && ItemSafe(cfg, item, escalations, now) && Edited(op, item, now).Ok?
    ensures var item' := Edited(op, item, now).value;
            && SetItem(item, item') == item' && item'.lead == item.lead && item'.coDepartments == item.coDepartments
            && item'.ruleVersion == item.ruleVersion && ItemSafe(cfg, item', escalations, now)
  {
    hide Edited, History;
    EditKeepsRow(cfg, op, item, now);
    var base :| History(cfg, item, escalations, base);
    HistoryReads(cfg, item, Edited(op, item, now).value, escalations, base);
  }

  lemma EditKeepsSafe(cfg: Config, d: Desk, op: Op)
    requires Safe(cfg, d) && Edits(op) && op.id in d.items && Edited(op, d.items[op.id], d.now).Ok?
    ensures Safe(cfg, Perform(cfg, d, op))
  {
    hide OneCurrent, Agreed, Sound, ItemSafe, Commit, Try, Edited;
    var item := Edited(op, d.items[op.id], d.now).value;
    EditKeepsItem(cfg, op, d.items[op.id], d.escalations, d.now);
    Updated(d, item);
    TryKeepsReferrals(d, UpdateTx(item), d.next);
  }

  lemma RegistrationIsSafe(cfg: Config, d: Desk, q: Registration, r: Rule)
    requires Safe(cfg, d) && cfg.Valid()
    ensures ItemSafe(cfg, RoutedBy(NewItem(cfg, q, d.next, d.now), r), d.escalations, d.now)
  {
    assert History(cfg, RoutedBy(NewItem(cfg, q, d.next, d.now), r), d.escalations, r.lead);
  }

  lemma RegisterKeepsSafe(cfg: Config, d: Desk, op: Op)
    requires Safe(cfg, d) && cfg.Valid() && op.Register?
    ensures Safe(cfg, Perform(cfg, d, op))
  {
    hide OneCurrent, Agreed, Sound, ItemSafe, Commit, Try, Routing;
    var item := NewItem(cfg, op.request, d.next, d.now);
    var best := Routing(d.rules, item);
    if best.Some? && !HasRef(d, op.request.externalRef) {
      var routed, r := RoutedBy(item, best.value), ReferralBy(best.value, d.next + 1, item.id, d.now);
      RegistrationIsSafe(cfg, d, op.request, best.value);
      Registered(d, routed, r);
      TryKeepsReferrals(d, RegisterTx(routed, r), d.next + 2);
    }
  }

  /** Only an item that was never escalated can be re-routed, so its history is still empty. */
  lemma RerouteKeepsItem(cfg: Config, item: Item, escalations: map<Id, Escalation>, now: Time, current: int, r: Rule)
    requires ItemSafe(cfg, item, escalations, now) && Reevaluable(item, current)
    ensures ItemSafe(cfg, RoutedBy(item, r).(updatedAt := now), escalations, now)
  {
    var base :| History(cfg, item, escalations, base);
    assert History(cfg, RoutedBy(item, r).(updatedAt := now), escalations, r.lead);
  }

  lemma ReevaluateKeepsSafe(cfg: Config, d: Desk, op: Op)
    requires Safe(cfg, d) && op.Reevaluate? && op.id in d.items && Reevaluable(d.items[op.id], op.current)
    ensures Safe(cfg, Perform(cfg, d, op))
  {
    hide OneCurrent, Agreed, Sound, ItemSafe, Commit, Try, Routing, Reevaluable;
    var item := d.items[op.id];
    var best := Routing(d.rules, item);
    if best.Some? {
      var routed, r := RoutedBy(item, best.value).(updatedAt := d.now), ReferralBy(best.value, d.next, op.id, d.now);
      RerouteKeepsItem(cfg, item, d.escalations, d.now, op.current, best.value);
      Rerouted(d, routed, r);
      TryKeepsReferrals(d, RerouteTx(routed, r), d.next + 1);
    }
  }

  lemma RaiseKeepsItem(cfg: Config, item: Item, escalations: map<Id, Escalation>, now: Time, id: Id, at: Time)
    requires ItemSafe(cfg, item, escalations, now) && Overdue(cfg, item, at) && id !in escalations
    ensures ItemSafe(cfg, Raised(cfg, item, at), escalations[id := RaiseRecord(cfg, item, id, at)], now)
  {
    var base :| History(cfg, item, escalations, base);
    RaisingExtendsHistory(cfg, item, escalations, base, id, at);
  }

  lemma OthersStaySafe(cfg: Config, item: Item, escalations: map<Id, Escalation>, now: Time, id: Id, e: Escalation)
    requires ItemSafe(cfg, item, escalations, now) && id !in escalations && e.itemId != item.id
    ensures ItemSafe(cfg, item, escalations[id := e], now)
  {
    var base :| History(cfg, item, escalations, base);
    OtherRecordIsNoMatter(cfg, item, escalations, base, id, e);
  }

  lemma EscalateKeepsSafe(cfg: Config, d: Desk, op: Op)
    requires Safe(cfg, d) && op.Escalate? && op.id in d.items && Overdue(cfg, d.items[op.id], op.at)
    requires MayEscalate(d.items[op.id]) && op.at <= d.now
    ensures Safe(cfg, Perform(cfg, d, op))
  {
    hide OneCurrent, Agreed, Sound, ItemSafe, Commit, Try;
    var item := d.items[op.id];
    var raised, r, e := Raised(cfg, item, op.at), RaiseReferral(cfg, item, d.next + 1, op.at),
        RaiseRecord(cfg, item, d.next, op.at);
    Escalated(d, raised, r, e);
    TryKeepsReferrals(d, EscalateTx(raised, r, e), d.next + 2);
    forall i | i in d.items
      ensures ItemSafe(cfg, if i == op.id then raised else d.items[i], d.escalations[e.id := e], d.now)
    {
      if i == op.id {
        RaiseKeepsItem(cfg, item, d.escalations, d.now, d.next, op.at);
      } else {
        OthersStaySafe(cfg, d.items[i], d.escalations, d.now, e.id, e);
      }
    }
  }

  lemma CreateRuleKeepsSound(rules: Table, now: Time, rule: Rule, supersede: int)
    requires Sound(rules, now) && rule.version == |rules| + 1 && rule.status == RuleActive && rule.effectiveTo.None?
    requires rule.effectiveFrom == now
    ensures var made := DoCreateRule(rules, rule, supersede, now); made.Ok? && Sound(made.value, now)
  {
    assert IsCurrentVersion(rules, |rules|) by {
      if rules != map[] {
        assert |rules| in rules;
      }
    }
    StaleCreation(rules, rules, |rules|, rule, supersede, now);
  }

  lemma TickKeepsSafe(cfg: Config, d: Desk, op: Op)
    requires Safe(cfg, d) && op.Tick?
    ensures Safe(cfg, Perform(cfg, d, op))
  {
    hide OneCurrent, Agreed, History;
    ReferralsDecide(d, Perform(cfg, d, op));
    forall i | i in d.items && d.now <= op.to
      ensures ItemSafe(cfg, d.items[i], d.escalations, op.to)
    {
      assert ItemSafe(cfg, d.items[i], d.escalations, d.now);
    }
  }

  lemma CreateRuleKeepsSafe(cfg: Config, d: Desk, op: Op)
    requires Safe(cfg, d) && op.CreateRule?
    ensures Safe(cfg, Perform(cfg, d, op))
  {
    hide OneCurrent, Agreed, ItemSafe, Sound;
    var r := op.rule.(version := |d.rules| + 1, effectiveFrom := d.now, effectiveTo := None, status := RuleActive);
    CreateRuleKeepsSound(d.rules, d.now, r, op.supersede);
    ReferralsDecide(d, Perform(cfg, d, op));
  }

  lemma PerformKeepsSafe(cfg: Config, d: Desk, op: Op)
    requires Safe(cfg, d) && cfg.Valid()
    ensures Safe(cfg, Perform(cfg, d, op))
  {
    hide Safe, Try, Edited, Routing, Overdue;
    if op.Tick? {
      TickKeepsSafe(cfg, d, op);
    } else if op.Register? {
      RegisterKeepsSafe(cfg, d, op);
    } else if op.Escalate? {
      if op.id in d.items && op.at <= d.now && Overdue(cfg, d.items[op.id], op.at) && MayEscalate(d.items[op.id]) {
        EscalateKeepsSafe(cfg, d, op);
      }
    } else if op.Reevaluate? {
      if op.id in d.items && Reevaluable(d.items[op.id], op.current) {
        ReevaluateKeepsSafe(cfg, d, op);
      }
    } else if op.CreateRule? {
      CreateRuleKeepsSafe(cfg, d, op);
    } else if op.id in d.items && Edited(op, d.items[op.id], d.now).Ok? {
      EditKeepsSafe(cfg, d, op);
    }
  }

  lemma {:induction false} PerformedSafe(cfg: Config, start: Time, ops: seq<Op>)
    requires cfg.Valid()
    ensures Safe(cfg, Performed(cfg, start, ops))
  {
    if ops != [] {
      PerformedSafe(cfg, start, ops[..|ops| - 1]);
      PerformKeepsSafe(cfg, Performed(cfg, start, ops[..|ops| - 1]), ops[|ops| - 1]);
    }
  }

  /******* Main results *******/

  /** One current referral per item, and it says what the item says. */
  lemma ReferralsAgree(cfg: Config, start: Time, ops: seq<Op>, i: Id) returns (r: Id)
    requires cfg.Valid() && i in Performed(cfg, start, ops).items
    ensures var d := Performed(cfg, start, ops);
            && CurrentReferral(d, i, r) && (forall s :: CurrentReferral(d, i, s) ==> s == r)
            && d.referrals[r].lead == d.items[i].lead && d.referrals[r].coDepartments == d.items[i].coDepartments
            && d.referrals[r].ruleVersion == d.items[i].ruleVersion
  {
    PerformedSafe(cfg, start, ops);
    r :| CurrentReferral(Performed(cfg, start, ops), i, r);
  }

  lemma {:induction false} ChainOf(cfg: Config, item: Item, escalations: map<Id, Escalation>, base: string, level: nat)
    returns (chain: seq<Id>)
    requires History(cfg, item, escalations, base) && level <= item.level
    ensures |chain| == level
    ensures forall k :: 0 <= k < level ==> RecordAt(escalations, item.id, k + 1, chain[k])
  {
    if level == 0 {
      chain := [];
    } else {
      chain := ChainOf(cfg, item, escalations, base, level - 1);
      assert HasRecord(escalations, item.id, level);
      var e :| RecordAt(escalations, item.id, level, e);
      chain := chain + [e];
    }
  }

  /** `chain` lists the item's records, one per level; each hands over from the department the one before
      handed to; record k is later than the registration by the deadline and k extensions (counting from 0),
      and later than the deadline set by the record before. The last one explains the item. */
  ghost predicate IsHistory(cfg: Config, item: Item, escalations: map<Id, Escalation>, base: string, chain: seq<Id>) {
    && |chain| == item.level <= cfg.maxLevel
    && (forall e <- chain :: e in escalations && escalations[e].itemId == item.id)
    && (forall e :: e in escalations && escalations[e].itemId == item.id ==> e in chain)
    && (forall k :: 0 <= k < |chain| && chain[k] in escalations ==>
          var e := escalations[chain[k]];
          e.fromLevel == k && e.toLevel == k + 1 && e.oldLead == Supervised(base, k)
              && e.newLead == Supervised(base, k + 1)
          && e.escalatedAt > item.registeredAt + cfg.deadline + k * cfg.extension)
    && (forall k, l :: l == k + 1 && 0 <= k < l < |chain| && chain[k] in escalations && chain[l] in escalations ==>
          escalations[chain[k]].newDeadline < escalations[chain[l]].escalatedAt)
    && item.lead == Supervised(base, item.level)
    && (if chain == [] then item.deadline == item.registeredAt + cfg.deadline
        else chain[|chain| - 1] in escalations && item.deadline == escalations[chain[|chain| - 1]].newDeadline)
  }

  lemma HistoryListed(cfg: Config, item: Item, escalations: map<Id, Escalation>, base: string) returns (chain: seq<Id>)
    requires History(cfg, item, escalations, base) && item.level <= cfg.maxLevel
    ensures IsHistory(cfg, item, escalations, base, chain)
  {
    chain := ChainOf(cfg, item, escalations, base, item.level);
    forall e | e in escalations && escalations[e].itemId == item.id
      ensures e in chain
    {
      assert RecordAt(escalations, item.id, escalations[e].toLevel, e);
      assert RecordAt(escalations, item.id, escalations[e].toLevel, chain[escalations[e].toLevel - 1]);
    }
  }

  /** Every item has its escalation history, whatever was done to it, one operation at a time. */
  lemma EscalationHistory(cfg: Config, start: Time, ops: seq<Op>, i: Id) returns (base: string, chain: seq<Id>)
    requires cfg.Valid() && i in Performed(cfg, start, ops).items
    ensures var d := Performed(cfg, start, ops);
            d.items[i].id == i && IsHistory(cfg, d.items[i], d.escalations, base, chain)
  {
    hide OneCurrent, Agreed, Sound, IsHistory;
    PerformedSafe(cfg, start, ops);
    var d := Performed(cfg, start, ops);
    assert ItemSafe(cfg, d.items[i], d.escalations, d.now);
    base :| History(cfg, d.items[i], d.escalations, base);
    chain := HistoryListed(cfg, d.items[i], d.escalations, base);
  }

  lemma EscalatedRefuses(cfg: Config, d: Desk, op: Op)
    requires (op.ReturnForCorrection? || op.Resubmit?) && op.id in d.items
    requires LevelAllows(cfg, d.items[op.id]) && d.items[op.id].level > 0
    ensures Perform(cfg, d, op) == d
  {
    assert Edited(op, d.items[op.id], d.now).Err?;
  }

  lemma EscalatedIsNotReevaluable(cfg: Config, d: Desk, op: Op)
    requires op.Reevaluate? && op.id in d.items && LevelAllows(cfg, d.items[op.id]) && d.items[op.id].level > 0
    ensures Perform(cfg, d, op) == d
  {
  }

  /** An escalated item is never again returned, resubmitted or re-evaluated. */
  lemma EscalatedStaysInWork(cfg: Config, start: Time, ops: seq<Op>, i: Id, op: Op)
    requires cfg.Valid() && i in Performed(cfg, start, ops).items && Performed(cfg, start, ops).items[i].level > 0
    requires op.ReturnForCorrection? || op.Resubmit? || op.Reevaluate?
    requires op.id == i
    ensures var d := Performed(cfg, start, ops); Perform(cfg, d, op) == d
  {
    hide Unused, OneCurrent, Agreed, Sound, History, Perform, Performed, LevelAllows;
    var d := Performed(cfg, start, ops);
    PerformedSafe(cfg, start, ops);
    assert ItemSafe(cfg, d.items[i], d.escalations, d.now);
    if op.Reevaluate? {
      EscalatedIsNotReevaluable(cfg, d, op);
    } else {
      EscalatedRefuses(cfg, d, op);
    }
  }

  /******* Operations that overlap *******/

  /** What EscalateItem and StartProcessing commit, both having read the item on `d`. */
  function EscalationTx(cfg: Config, d: Desk, item: Item, at: Time): Tx {
    EscalateTx(Raised(cfg, item, at), RaiseReferral(cfg, item, d.next + 1, at), RaiseRecord(cfg, item, d.next, at))
  }

  lemma EscalationFits(cfg: Config, d: Desk, item: Item, at: Time)
    requires Unused(d) && item.id in d.items && item == d.items[item.id]
    ensures var tx := EscalationTx(cfg, d, item, at);
            && Commit(d, tx).Ok? && WellMade(tx) && Carries(d, tx)
            && item.id in Commit(d, tx).value.items && Commit(d, tx).value.items[item.id].lead
                == Raised(cfg, item, at).lead
  {
  }

  /** Whatever has been done before: when an overdue item is escalated while somebody starts to work on it, both
      transactions commit, and the item falls back to the department the escalation has taken it from, while its
      referral names the new one. */
  lemma OverlapBreaksAgreement(cfg: Config, start: Time, ops: seq<Op>, i: Id, at: Time) returns (e: Desk)
    requires cfg.Valid() && i in Performed(cfg, start, ops).items
    requires var d := Performed(cfg, start, ops);
             && at <= d.now && Overdue(cfg, d.items[i], at) && MayEscalate(d.items[i])
             && Edited(Op.StartProcessing(i), d.items[i], d.now).Ok?
    ensures var d := Performed(cfg, start, ops);
            var txs := [EscalationTx(cfg, d, d.items[i], at),
                        UpdateTx(Edited(Op.StartProcessing(i), d.items[i], d.now).value)];
            && e == CommitAll(d, txs) && Commit(d, txs[0]).Ok? && Commit(CommitAll(d, txs[..1]), txs[1]).Ok?
            && OneCurrent(e) && !Agreed(e)
            && i in e.items && e.items[i].lead == d.items[i].lead && e.items[i].status == StatusInProgress
  {
    hide Performed, History, Perform, OneCurrent, Agreed, Sound, Decimal;
    var d := Performed(cfg, start, ops);
    PerformedSafe(cfg, start, ops);
    var item := d.items[i];
    var escalate, stale := EscalationTx(cfg, d, item, at), UpdateTx(Edited(Op.StartProcessing(i), item, d.now).value);
    EscalationFits(cfg, d, item, at);
    CommitAgreesIff(d, escalate);
    CommitKeepsOneCurrent(d, escalate);
    var middle := Commit(d, escalate).value;
    assert |middle.items[i].lead| > |item.lead|;
    CommitAgreesIff(middle, stale);
    CommitKeepsOneCurrent(middle, stale);
    var txs := [escalate, stale];
    assert txs[..1] == [escalate] && [escalate][..0] == [];
    e := CommitAll(d, txs);
  }

  lemma ThreePerformed(cfg: Config, a: Op, b: Op, c: Op)
    ensures Performed(cfg, 0, [a, b, c]) == Perform(cfg, Perform(cfg, Perform(cfg, EmptyDesk(0), a), b), c)
  {
    hide Perform;
    assert [a, b, c][..2] == [a, b] && [a, b][..1] == [a] && [a][..0] == [];
    assert Performed(cfg, 0, [a]) == Perform(cfg, EmptyDesk(0), a);
    assert Performed(cfg, 0, [a, b]) == Perform(cfg, Performed(cfg, 0, [a]), b);
  }

  lemma CreateOne(cfg: Config, rule: Rule)
    requires rule.version == 1 && rule.effectiveFrom == 0 && rule.effectiveTo.None? && rule.status == RuleActive
    ensures Perform(cfg, EmptyDesk(0), Op.CreateRule(rule, 0)) == EmptyDesk(0).(rules := map[1 := rule])
  {
  }

  /** Such a moment comes soon: one rule, one item, and its deadline. */
  lemma OverlapIsReachable() returns (cfg: Config, ops: seq<Op>, i: Id, at: Time)
    ensures cfg.Valid() && i in Performed(cfg, 0, ops).items
    ensures var d := Performed(cfg, 0, ops);
            && at <= d.now && Overdue(cfg, d.items[i], at) && MayEscalate(d.items[i])
            && Edited(Op.StartProcessing(i), d.items[i], d.now).Ok?
  {
    hide Performed;
    cfg, i, at := Config(1, 1, 1), 0, 2;
    var rule := Rule(1, "n", [], "", "d", [], 0, true, 0, None, RuleActive);
    var request := Registration("r", "t", "", "", "", [], "", [], "u", "");
    ops := [Op.CreateRule(rule, 0), Op.Register(request), Op.Tick(2)];
    ThreePerformed(cfg, ops[0], ops[1], ops[2]);
    var first := EmptyDesk(0).(rules := map[1 := rule]);
    assert Perform(cfg, EmptyDesk(0), ops[0]) == first by {
      CreateOne(cfg, rule);
    }
    RegisterOne(cfg, first, rule, request);
  }

  lemma RegisterOne(cfg: Config, d: Desk, rule: Rule, q: Registration)
    requires d == EmptyDesk(0).(rules := map[1 := rule]) && rule.isDefault && rule.IsActiveAt(0)
    requires q.externalRef != "" && q.title != "" && q.registeredBy != ""
    ensures var e := Perform(cfg, d, Op.Register(q));
            e.now == 0 && 0 in e.items && e.items[0].status == StatusAdjudicated && e.items[0].level == 0
            && e.items[0].deadline == cfg.deadline
  {
    var item := NewItem(cfg, q, 0, 0);
    assert Eligible(d.rules[1], item);
    assert SomeEligible(d.rules, item);
    Registered(d, RoutedBy(item, Routing(d.rules, item).value), ReferralBy(Routing(d.rules, item).value, 1, 0, 0));
  }
}
