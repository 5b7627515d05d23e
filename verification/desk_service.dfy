/** The store the routing services share: loaded rows, statements, transactions. */
module DeskStores {
  import opened Outcomes
  import opened RoutingDomain
  import opened RuleTables
  import opened Desks
  import opened Casework
  import opened CaseworkSafety
  import opened Queries

  /** The statement's result is the new desk, or its error with the desk unchanged. */
  predicate Wrote(r: Result<Desk>, before: Desk, after: Desk, err: Option<Error>) {
    if r.Ok? then err.None? && after == r.value else err == Some(r.error) && after == before
  }

  lemma PerformedLast(cfg: Config, start: Time, ops: seq<Op>)
    requires ops != []
    ensures Performed(cfg, start, ops) == Perform(cfg, Performed(cfg, start, ops[..|ops| - 1]), ops[|ops| - 1])
  {
  }

  lemma CreationPerforms(cfg: Config, d: Desk, request: Rule, supersede: int)
    ensures var rule := request.(version := |d.rules| + 1, effectiveFrom := d.now, effectiveTo := None,
                                 status := RuleActive);
            var made := DoCreateRule(d.rules, rule, supersede, d.now);
            made.Ok? ==> Perform(cfg, d, Op.CreateRule(request, supersede)) == d.(rules := made.value)
  {
    hide DoCreateRule;
  }

  class Store {
    const cfg: Config
    const start: Time
    var desk: Desk
    /** What has been committed so far. */
    ghost var ops: seq<Op>

    ghost predicate Valid()
      reads this
    {
      cfg.Valid() && desk == Performed(cfg, start, ops)
    }

    constructor (cfg: Config, now: Time)
      requires cfg.Valid()
      ensures Valid() && this.cfg == cfg && desk == EmptyDesk(now)
    {
      this.cfg, start, desk, ops := cfg, now, EmptyDesk(now), [];
    }

    /** The services are alone with the store between two ticks of the clock. */
    method Tick(to: Time)
      requires Valid() && desk.now <= to
      modifies this
      ensures Valid() && desk == old(desk).(now := to)
    {
      ops := ops + [Op.Tick(to)];
      desk := desk.(now := to);
      assert ops[..|ops| - 1] == old(ops);
    }

    /** Creating a rule between two ticks of the clock: nobody else creates one in between, so it becomes the
        next version, and only the rule it ends has changed. */
    method CreateRule(request: Rule, createdBy: string, supersede: int, storageFails: bool)
        returns (result: Result<Rule>)
      requires Valid()
      modifies this
      ensures Valid()
      ensures result == if request.name == "" || request.lead == "" || createdBy == "" then Err(Validation)
                        else if storageFails then Err(StorageFailure)
                        else Ok(request.(version := |old(desk).rules| + 1, effectiveFrom := old(desk).now,
                                         effectiveTo := None, status := RuleActive))
      ensures ops == old(ops) + if result.Ok? then [Op.CreateRule(request, supersede)] else []
      ensures desk == old(desk).(rules := desk.rules)
      ensures if result.Ok? then Adds(old(desk).rules, desk.rules, result.value, supersede, desk.now)
              else desk.rules == old(desk).rules
    {
      hide Performed, VersionsExact, IsCurrentVersion, DoCreateRule, Adds, Perform;
      if request.name == "" || request.lead == "" || createdBy == "" {
        return Err(Validation);
      }
      var current := GetCurrentRuleVersion(desk.rules);
      PerformedSafe(cfg, start, ops);
      CurrentIsCount(desk.rules, current);
      var now := desk.now;
      var rule := request.(version := current + 1, effectiveFrom := now, effectiveTo := None, status := RuleActive);
      CreateRuleKeepsSound(desk.rules, now, rule, supersede);
      var made := DoCreateRule(desk.rules, rule, supersede, now);
      if made.Err? {
        assert false;
      }
      if storageFails {
        return Err(StorageFailure);
      }
      CreationPerforms(cfg, desk, request, supersede);
      CreationKeepsRows(desk.rules, rule, supersede, now, made.value);
      ops := ops + [Op.CreateRule(request, supersede)];
      desk := desk.(rules := made.value);
      assert ops[..|ops| - 1] == old(ops);
      PerformedLast(cfg, start, ops);
      return Ok(rule);
    }

    /******* Statements *******/

    method InsertItem(item: Item) returns (err: Option<Error>)
      modifies this`desk
      ensures Wrote(Desks.InsertItem(old(desk), item), old(desk), desk, err)
      ensures err.Some? <==> item.id in old(desk).items
                             || exists i :: i in old(desk).items && old(desk).items[i].externalRef == item.externalRef
    {
      if item.id in desk.items || HasRef(desk, item.externalRef) {
        return Some(ConstraintViolated);
      }
      desk := desk.(items := desk.items[item.id := item]);
      return None;
    }

    method UpdateItem(item: Item) returns (err: Option<Error>)
      modifies this`desk
      ensures Wrote(Desks.UpdateItem(old(desk), item), old(desk), desk, err)
      ensures item.id in old(desk).items ==>
                var row := old(desk).items[item.id];
                desk.items == old(desk).items[item.id :=
                  item.(id := row.id, externalRef := row.externalRef, registeredAt := row.registeredAt,
                        registeredBy := row.registeredBy)]
    {
      if item.id !in desk.items {
        return Some(NotFound);
      }
      desk := desk.(items := desk.items[item.id := SetItem(desk.items[item.id], item)]);
      return None;
    }

    method InsertReferral(r: Referral) returns (err: Option<Error>)
      modifies this`desk
      ensures Wrote(Desks.InsertReferral(old(desk), r), old(desk), desk, err)
    {
      if r.id in desk.referrals {
        return Some(ConstraintViolated);
      }
      desk := desk.(referrals := desk.referrals[r.id := r]);
      return None;
    }

    /** UPDATE assignments SET is_current = 0 WHERE item_id = ?, row by row. */
    method MarkAssignmentSuperseded(itemId: Id)
      modifies this`desk
      ensures desk == Supersede(old(desk), itemId)
      ensures desk == old(desk).(referrals := desk.referrals) && desk.referrals.Keys == old(desk).referrals.Keys
      ensures forall r :: r in desk.referrals ==>
                desk.referrals[r] == if old(desk).referrals[r].itemId != itemId then old(desk).referrals[r]
                                     else old(desk).referrals[r].(isCurrent := false)
    {
      var left := desk.referrals.Keys;
      var rows := desk.referrals;
      while left != {}
        invariant left <= desk.referrals.Keys == rows.Keys && desk == old(desk)
        invariant forall r :: r in rows ==>
                    rows[r] == if r in left then desk.referrals[r] else Supersede(desk, itemId).referrals[r]
        decreases |left|
      {
        ghost var some := AnyOf(left);
        var r :| r in left;
        if rows[r].itemId == itemId {
          rows := rows[r := rows[r].(isCurrent := false)];
        }
        left := left - {r};
      }
      assert rows == Supersede(desk, itemId).referrals;
      desk := desk.(referrals := rows);
    }

    method InsertEscalation(e: Escalation) returns (err: Option<Error>)
      modifies this`desk
      ensures Wrote(Desks.InsertEscalation(old(desk), e), old(desk), desk, err)
    {
      if e.id in desk.escalations {
        return Some(ConstraintViolated);
      }
      desk := desk.(escalations := desk.escalations[e.id := e]);
      return None;
    }

    /******* Transactions *******/

    /** The statements of a transaction, up to the first that fails. */
    method Execute(tx: Tx) returns (err: Option<Error>)
      modifies this`desk
      ensures match Commit(old(desk), tx) case Ok(d) => err.None? && desk == d case Err(e) => err == Some(e)
    {
      match tx
      case RegisterTx(item, referral) =>
        err := InsertItem(item);
        if err.None? {
          err := InsertReferral(referral);
        }
      case RerouteTx(item, referral) =>
        MarkAssignmentSuperseded(item.id);
        err := InsertReferral(referral);
        if err.None? {
          err := UpdateItem(item);
        }
      case EscalateTx(item, referral, escalation) =>
        err := InsertEscalation(escalation);
        if err.None? {
          MarkAssignmentSuperseded(item.id);
          err := InsertReferral(referral);
          if err.None? {
            err := UpdateItem(item);
          }
        }
      case UpdateTx(item) =>
        err := UpdateItem(item);
    }

    /** All statements and an audit entry, or none of them. `drawn` identifiers are used up. */
    method WithTx(tx: Tx, drawn: nat, storageFails: bool, ghost op: Op) returns (err: Option<Error>)
      requires Valid() && Perform(cfg, desk, op) == Try(desk, tx, desk.next + drawn)
      modifies this
      ensures Valid()
      ensures err == if Commit(old(desk), tx).Err? then Some(Commit(old(desk), tx).error)
                     else if storageFails then Some(StorageFailure) else None
      ensures if err.None? then ops == old(ops) + [op] && desk == Perform(cfg, old(desk), op)
              else ops == old(ops) && desk == old(desk)
    {
      var before := desk;
      err := Execute(tx);
      if err.None? && storageFails {
        err := Some(StorageFailure);
      }
      if err.Some? {
        desk := before;
        return;
      }
      desk := desk.(next := before.next + drawn);
      ops := ops + [op];
      assert ops[..|ops| - 1] == old(ops);
    }
  }

  lemma AllStored(store: Store)
    requires store.Valid()
    ensures forall i :: i in store.desk.items ==> store.desk.items[i].id == i
  {
    hide Performed;
    PerformedSafe(store.cfg, store.start, store.ops);
  }
}
