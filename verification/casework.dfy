/** What the services do to items, one operation at a time: internal/service/suggestion_service.go,
    escalation_service.go, rule_service.go and internal/worker/reeval.go as functions on the desk. */
module Casework {
  import opened Outcomes
  import opened SuggestionStatus
  import opened RoutingDomain
  import opened Adjudication
  import opened Queries
  import opened RuleTables
  import opened Desks

  /** internal/config/config.go insists on a positive extension and at least one level. */
  datatype Config = Config(deadline: int, extension: int, maxLevel: int)
  {
    predicate Valid() {
      extension > 0 && maxLevel >= 1
    }
  }

  datatype Registration = Registration(
    externalRef: string, title: string, description: string, citizenName: string, citizenContact: string,
    materials: seq<string>, category: string, keywords: seq<string>, registeredBy: string, collectionPointId: string)

  /** An empty string or an absent list leaves the field alone. */
  datatype Changes = Changes(
    title: string, description: string, citizenName: string, citizenContact: string,
    materials: Option<seq<string>>, category: string, keywords: Option<seq<string>>)

  datatype Op =
    | Tick(to: Time)
    | Register(request: Registration)
    | StartProcessing(id: Id)
    | Modify(id: Id, changes: Changes)
    | ReturnForCorrection(id: Id)
    | Resubmit(id: Id)
    | Cancel(id: Id, reason: string)
    | Complete(id: Id)
    | Escalate(id: Id, at: Time)
    | Reevaluate(id: Id, current: int)
    | CreateRule(rule: Rule, supersede: int)

  /******* Items *******/

  function Changed(item: Item, c: Changes, now: Time): Item {
    item.(title := if c.title != "" then c.title else item.title,
          description := if c.description != "" then c.description else item.description,
          citizenName := if c.citizenName != "" then c.citizenName else item.citizenName,
          citizenContact := if c.citizenContact != "" then c.citizenContact else item.citizenContact,
          materials := if c.materials.Some? then c.materials.value else item.materials,
          category := if c.category != "" then c.category else item.category,
          keywords := if c.keywords.Some? then c.keywords.value else item.keywords,
          updatedAt := now)
  }

  predicate Edits(op: Op) {
    op.StartProcessing? || op.Modify? || op.ReturnForCorrection? || op.Resubmit? || op.Cancel? || op.Complete?
  }

  /** The item as one of the plain operations leaves it. */
  function Edited(op: Op, item: Item, now: Time): Result<Item>
    requires Edits(op)
  {
    if op.Modify? then
      if item.status.IsTerminal() then Err(AlreadyCompleted) else Ok(Changed(item, op.changes, now))
    else if op.Resubmit? then
      var back := item.TransitionTo(StatusRegistered);
      if back.Err? then back
      else
        var again := back.value.TransitionTo(StatusAdjudicated);
        if again.Err? then again else Ok(again.value.(updatedAt := now))
    else
      var to := match op
        case StartProcessing(_) => StatusInProgress
        case ReturnForCorrection(_) => StatusReturned
        case Cancel(_, _) => StatusCancelled
        case _ => StatusCompleted;
      var moved := item.TransitionTo(to);
      if moved.Err? then moved
      else
        var item' := moved.value.(updatedAt := now);
        if op.Cancel? then Ok(item'.(cancelledAt := Some(now), cancelReason := op.reason))
        else if op.Complete? then Ok(item'.(completedAt := Some(now)))
        else Ok(item')
  }

  function NewItem(cfg: Config, r: Registration, id: Id, now: Time): Item {
    Item(id, r.externalRef, r.title, r.description, r.citizenName, r.citizenContact, r.materials, r.category,
         r.keywords, StatusRegistered, "", [], 0, now, r.registeredBy, now + cfg.deadline, 0, r.collectionPointId,
         None, None, "", now)
  }

  function RoutedBy(item: Item, r: Rule): Item {
    item.(lead := r.lead, coDepartments := r.coDepartments, ruleVersion := r.version, status := StatusAdjudicated)
  }

  /** FindOverdueItems' WHERE clause. */
  predicate Overdue(cfg: Config, item: Item, at: Time) {
    !item.status.IsTerminal() && item.deadline < at && item.level < cfg.maxLevel
  }

  predicate MayEscalate(item: Item) {
    ValidTransition(item.status, StatusEscalated)
  }

  function Raised(cfg: Config, item: Item, at: Time): Item {
    item.(lead := EscalationDepartmentName(item.lead, item.level + 1), level := item.level + 1,
          deadline := at + cfg.extension, status := StatusEscalated, updatedAt := at)
  }

  function RaiseRecord(cfg: Config, item: Item, id: Id, at: Time): Escalation {
    Escalation(id, item.id, item.level, item.level + 1, item.lead, Raised(cfg, item, at).lead, at, at + cfg.extension)
  }

  function RaiseReferral(cfg: Config, item: Item, id: Id, at: Time): Referral {
    Referral(id, item.id, Raised(cfg, item, at).lead, item.coDepartments, item.ruleVersion, at, "system_escalation",
             true)
  }

  predicate Reevaluable(item: Item, current: int) {
    item.ruleVersion < current && (item.status == StatusRegistered || item.status == StatusAdjudicated)
  }

  /******* Routing *******/

  ghost function Routing(rules: Table, item: Item): (best: Option<Rule>)
    ensures best.Some? ==> IsBestOf(rules, item, best.value) && Routes(rules, item, best.value)
    ensures best.None? <==> !SomeEligible(rules, item)
    ensures best.None? <==> !exists r :: Routes(rules, item, r)
  {
    if SomeEligible(rules, item) then
      SomeRuleIsBest(rules, item, set v | v in rules && Eligible(rules[v], item));
      var r :| IsBestOf(rules, item, r);
      assert Routes(rules, item, r);
      Some(r)
    else None
  }

  lemma {:induction false} BestOfSome(rules: Table, item: Item, pool: set<int>) returns (best: int)
    requires pool != {} && forall v <- pool :: v in rules
    ensures best in pool && forall v <- pool :: Outranks(rules[best], rules[v])
  {
    var first := AnyOf(pool);
    var others := pool - {first};
    best := first;
    if others != {} {
      var next := BestOfSome(rules, item, others);
      best := if Outranks(rules[first], rules[next]) then first else next;
    }
    forall v | v in pool
      ensures Outranks(rules[best], rules[v])
    {
      assert v == first || v in others;
    }
  }

  lemma SomeRuleIsBest(rules: Table, item: Item, pool: set<int>)
    requires pool == (set v | v in rules && Eligible(rules[v], item)) && SomeEligible(rules, item)
    ensures exists r :: IsBestOf(rules, item, r)
  {
    var some :| some in rules && Eligible(rules[some], item);
    assert some in pool;
    var best := BestOfSome(rules, item, pool);
    assert IsBestOf(rules, item, rules[best]);
  }

  /** The rule that the routing picks is the one that the columns single out. */
  lemma RoutingRoutes(rules: Table, item: Item)
    requires RuleTables.Keyed(rules)
    ensures forall r :: Routing(rules, item) == Some(r) <==> Routes(rules, item, r)
    ensures SomeEligible(rules, item) <==> exists r :: Routes(rules, item, r)
  {
    forall r
      ensures IsBestOf(rules, item, r) <==> Routes(rules, item, r)
    {
    }
    forall r | IsBestOf(rules, item, r)
      ensures Routing(rules, item) == Some(r)
    {
      RoutingIsBest(rules, item, r);
    }
    if SomeEligible(rules, item) {
      assert Routes(rules, item, Routing(rules, item).value);
    }
  }

  lemma RoutingIsBest(rules: Table, item: Item, r: Rule)
    requires RuleTables.Keyed(rules) && IsBestOf(rules, item, r)
    ensures Routing(rules, item) == Some(r)
  {
    var v :| v in rules && rules[v] == r;
    assert SomeEligible(rules, item);
    var best := Routing(rules, item).value;
    var w :| w in rules && rules[w] == best;
    assert Outranks(r, best) && Outranks(best, r);
  }

  /******* The operations on the desk *******/

  function Try(d: Desk, tx: Tx, next: Id): Desk {
    var r := Commit(d, tx);
    if r.Ok? then r.value.(next := next) else d
  }

  /** The desk after `op`; one that is refused leaves it as it was. */
  ghost function Perform(cfg: Config, d: Desk, op: Op): Desk {
    match op
    case Tick(to) => if d.now <= to then d.(now := to) else d
    case Register(q) =>
      if q.externalRef == "" || q.title == "" || q.registeredBy == "" || HasRef(d, q.externalRef) then d
      else
        var item := NewItem(cfg, q, d.next, d.now);
        var best := Routing(d.rules, item);
        if best.None? then d
        else Try(d, RegisterTx(RoutedBy(item, best.value), ReferralBy(best.value, d.next + 1, item.id, d.now)),
                 d.next + 2)
    case Escalate(id, at) =>
      if id in d.items && at <= d.now && Overdue(cfg, d.items[id], at) && MayEscalate(d.items[id]) then
        var item := d.items[id];
        Try(d, EscalateTx(Raised(cfg, item, at), RaiseReferral(cfg, item, d.next + 1, at),
                          RaiseRecord(cfg, item, d.next, at)),
            d.next + 2)
      else d
    case Reevaluate(id, current) =>
      if id in d.items && Reevaluable(d.items[id], current) then
        var best := Routing(d.rules, d.items[id]);
        if best.None? then d
        else
          Try(d, RerouteTx(RoutedBy(d.items[id], best.value).(updatedAt := d.now),
                           ReferralBy(best.value, d.next, id, d.now)),
              d.next + 1)
      else d
    case CreateRule(rule, supersede) =>
      var r := rule.(version := |d.rules| + 1, effectiveFrom := d.now, effectiveTo := None, status := RuleActive);
      var made := DoCreateRule(d.rules, r, supersede, d.now);
      if made.Ok? then d.(rules := made.value) else d
    case _ =>
      if op.id in d.items && Edited(op, d.items[op.id], d.now).Ok?
      then Try(d, UpdateTx(Edited(op, d.items[op.id], d.now).value), d.next)
      else d
  }

  /** Everything done since the service was installed at `start`. */
  ghost function Performed(cfg: Config, start: Time, ops: seq<Op>): Desk {
    if ops == [] then EmptyDesk(start) else Perform(cfg, Performed(cfg, start, ops[..|ops| - 1]), ops[|ops| - 1])
  }
}
