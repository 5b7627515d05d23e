/** internal/service/suggestion_service.go: registering and handling items. */
module ItemServices {
  import opened Outcomes
  import opened SuggestionStatus
  import opened RoutingDomain
  import opened Adjudication
  import opened RuleTables
  import opened Desks
  import opened Casework
  import opened CaseworkSafety
  import opened DeskStores

  function WithItem(d: Desk, id: Id, item: Item): Desk {
    d.(items := d.items[id := item])
  }

  /** What a registration answers, and the desk it leaves. */
  ghost predicate Registers(cfg: Config, d: Desk, q: Registration, storageFails: bool, result: Result<Item>,
                            after: Desk) {
    var item := Item(d.next, q.externalRef, q.title, q.description, q.citizenName, q.citizenContact, q.materials,
                     q.category, q.keywords, StatusRegistered, "", [], 0, d.now, q.registeredBy, d.now + cfg.deadline,
                     0, q.collectionPointId, None, None, "", d.now);
    if q.externalRef == "" || q.title == "" || q.registeredBy == "" then result == Err(Validation) && after == d
    else if exists i :: i in d.items && d.items[i].externalRef == q.externalRef then
      result.Ok? && result.value.externalRef == q.externalRef && after == d
      && result.value.id in d.items && d.items[result.value.id] == result.value
    else if !exists r :: Routes(d.rules, item, r) then result == Err(NoMatchingRule) && after == d
    else if storageFails then result == Err(StorageFailure) && after == d
    else
      exists r :: Routes(d.rules, item, r)
        && result == Ok(item.(lead := r.lead, coDepartments := r.coDepartments, ruleVersion := r.version,
                              status := StatusAdjudicated))
        && after == d.(items := d.items[item.id := result.value], next := d.next + 2,
                       referrals := d.referrals[d.next + 1 :=
                         Referral(d.next + 1, item.id, r.lead, r.coDepartments, r.version, d.now, "system", true)])
  }

  lemma NotRegistered(cfg: Config, d: Desk, q: Registration, storageFails: bool)
    requires q.externalRef == "" || q.title == "" || q.registeredBy == "" || HasRef(d, q.externalRef)
             || !exists r :: Routes(d.rules, NewItem(cfg, q, d.next, d.now), r)
    ensures q.externalRef == "" || q.title == "" || q.registeredBy == "" ==>
              Registers(cfg, d, q, storageFails, Err(Validation), d)
    ensures q.externalRef != "" && q.title != "" && q.registeredBy != "" ==>
              if HasRef(d, q.externalRef) then
                forall i :: i in d.items && d.items[i].externalRef == q.externalRef && d.items[i].id == i ==>
                  Registers(cfg, d, q, storageFails, Ok(d.items[i]), d)
              else Registers(cfg, d, q, storageFails, Err(NoMatchingRule), d)
  {
    hide Routes;
    assert NewItem(cfg, q, d.next, d.now).id == d.next;
  }

  lemma IsRegistered(cfg: Config, d: Desk, q: Registration, r: Rule, item: Item, referral: Referral)
    requires q.externalRef != "" && q.title != "" && q.registeredBy != "" && !HasRef(d, q.externalRef)
    requires Routes(d.rules, NewItem(cfg, q, d.next, d.now), r)
    requires item == RoutedBy(NewItem(cfg, q, d.next, d.now), r)
    requires referral == ReferralBy(r, d.next + 1, item.id, d.now)
    ensures Registers(cfg, d, q, true, Err(StorageFailure), d)
    ensures Registers(cfg, d, q, false, Ok(item),
                      d.(items := d.items[item.id := item], referrals := d.referrals[referral.id := referral],
                         next := d.next + 2))
  {
    hide Routes;
  }

  class ItemService {
    const store: Store

    constructor (store: Store)
      ensures this.store == store
    {
      this.store := store;
    }

    /** A known reference is answered with its item. A new one is routed by the best rule of the whole table,
        although only the active rules are asked for, and filed with a referral that says so; it is turned
        down exactly when no rule fits it. */
    method Register(q: Registration, storageFails: bool) returns (result: Result<Item>)
      requires store.Valid()
      modifies store
      ensures store.Valid() && Registers(store.cfg, old(store.desk), q, storageFails, result, store.desk)
      ensures store.ops == old(store.ops) + if old(store.desk) == store.desk then [] else [Op.Register(q)]
    {
      hide Performed, IsBest, IsListOf, SomeEligible, IsBestOf, Routes, Routing, Rule.Fits, Rule.IsActiveAt, Registers,
          NewItem, BestFirst;
      ghost var d := store.desk;
      if q.externalRef == "" || q.title == "" || q.registeredBy == "" || HasRef(d, q.externalRef) {
        NotRegistered(store.cfg, d, q, storageFails);
      }
      if q.externalRef == "" || q.title == "" || q.registeredBy == "" {
        return Err(Validation);
      }
      if HasRef(store.desk, q.externalRef) {
        var existing :| existing in store.desk.items && store.desk.items[existing].externalRef == q.externalRef;
        StoredUnderId(store, existing);
        return Ok(store.desk.items[existing]);
      }
      var now := store.desk.now;
      var rules := GetActiveRules(store.desk.rules, now);
      var item := NewItem(store.cfg, q, store.desk.next, now);
      NewItemIsNew(store.cfg, q, d.next, now);
      var routed, chosen := Adjudicate(store.desk.next + 1, item, rules, now);
      ListIsEnough(store, item, now, rules, chosen);
      StoredKeyed(store);
      RoutingRoutes(store.desk.rules, item);
      if routed.Err? {
        NotRegistered(store.cfg, d, q, storageFails);
        return Err(routed.error);
      }
      var referral := routed.value;
      item := item.(lead := referral.lead, coDepartments := referral.coDepartments, ruleVersion := referral.ruleVersion,
                    status := StatusAdjudicated);
      IsRegistered(store.cfg, d, q, chosen.value, item, referral);
      RegistrationCommits(store, item, referral);
      var err := store.WithTx(RegisterTx(item, referral), 2, storageFails, Op.Register(q));
      if err.Some? {
        return Err(err.value);
      }
      return Ok(item);
    }

    method UpdateItemWithAudit(item: Item, storageFails: bool, ghost op: Op) returns (err: Option<Error>)
      requires store.Valid() && Edits(op) && op.id in store.desk.items
      requires Edited(op, store.desk.items[op.id], store.desk.now) == Ok(item)
      modifies store
      ensures store.Valid() && err == if storageFails then Some(StorageFailure) else None
      ensures store.ops == old(store.ops) + if err.None? then [op] else []
      ensures store.desk == if err.None? then WithItem(old(store.desk), op.id, item) else old(store.desk)
    {
      EditIsUpdate(store, op);
      err := store.WithTx(UpdateTx(item), 0, storageFails, op);
    }

    method StartProcessing(id: Id, storageFails: bool) returns (result: Result<Item>)
      requires store.Valid()
      modifies store
      ensures store.Valid()
      ensures result == if id !in old(store.desk).items then Err(NotFound)
                        else if old(store.desk).items[id].status !in
                             {StatusAdjudicated, StatusInProgress, StatusEscalated} then Err(InvalidTransition)
                        else if storageFails then Err(StorageFailure)
                        else Ok(old(store.desk).items[id].(
                                 status := StatusInProgress, updatedAt := old(store.desk).now))
      ensures store.ops == old(store.ops) + if result.Ok? then [Op.StartProcessing(id)] else []
      ensures store.desk == if result.Ok? then WithItem(old(store.desk), id, result.value) else old(store.desk)
    {
      if id !in store.desk.items {
        return Err(NotFound);
      }
      var item := store.desk.items[id];
      var now := store.desk.now;
      var moved := item.TransitionTo(StatusInProgress);
      if moved.Err? {
        return moved;
      }
      item := moved.value;
      item := item.(updatedAt := now);
      var err := UpdateItemWithAudit(item, storageFails, Op.StartProcessing(id));
      return if err.Some? then Err(err.value) else Ok(item);
    }

    method Modify(id: Id, c: Changes, storageFails: bool) returns (result: Result<Item>)
      requires store.Valid()
      modifies store
      ensures store.Valid()
      ensures id !in old(store.desk).items ==> result == Err(NotFound)
      ensures id in old(store.desk).items ==>
                var row := old(store.desk).items[id];
                result == if row.status == StatusCompleted || row.status == StatusCancelled then Err(AlreadyCompleted)
                          else if storageFails then Err(StorageFailure)
                          else Ok(row.(title := if c.title == "" then row.title else c.title,
                                       description := if c.description == "" then row.description else c.description,
                                       citizenName := if c.citizenName == "" then row.citizenName else c.citizenName,
                                       citizenContact := if c.citizenContact == "" then row.citizenContact
                                                         else c.citizenContact,
                                       materials := if c.materials.None? then row.materials else c.materials.value,
                                       category := if c.category == "" then row.category else c.category,
                                       keywords := if c.keywords.None? then row.keywords else c.keywords.value,
                                       updatedAt := old(store.desk).now))
      ensures store.ops == old(store.ops) + if result.Ok? then [Op.Modify(id, c)] else []
      ensures store.desk == if result.Ok? then WithItem(old(store.desk), id, result.value) else old(store.desk)
    {
      if id !in store.desk.items {
        return Err(NotFound);
      }
      var item := store.desk.items[id];
      if item.status.IsTerminal() {
        return Err(AlreadyCompleted);
      }
      if c.title != "" {
        item := item.(title := c.title);
      }
      if c.description != "" {
        item := item.(description := c.description);
      }
      if c.citizenName != "" {
        item := item.(citizenName := c.citizenName);
      }
      if c.citizenContact != "" {
        item := item.(citizenContact := c.citizenContact);
      }
      if c.materials.Some? {
        item := item.(materials := c.materials.value);
      }
      if c.category != "" {
        item := item.(category := c.category);
      }
      if c.keywords.Some? {
        item := item.(keywords := c.keywords.value);
      }
      item := item.(updatedAt := store.desk.now);
      var err := UpdateItemWithAudit(item, storageFails, Op.Modify(id, c));
      return if err.Some? then Err(err.value) else Ok(item);
    }

    method ReturnForCorrection(id: Id, storageFails: bool) returns (result: Result<Item>)
      requires store.Valid()
      modifies store
      ensures store.Valid()
      ensures result == if id !in old(store.desk).items then Err(NotFound)
                        else if old(store.desk).items[id].status !in
                             {StatusRegistered, StatusAdjudicated, StatusReturned} then Err(InvalidTransition)
                        else if storageFails then Err(StorageFailure)
                        else Ok(old(store.desk).items[id].(
                                 status := StatusReturned, updatedAt := old(store.desk).now))
      ensures store.ops == old(store.ops) + if result.Ok? then [Op.ReturnForCorrection(id)] else []
      ensures store.desk == if result.Ok? then WithItem(old(store.desk), id, result.value) else old(store.desk)
    {
      if id !in store.desk.items {
        return Err(NotFound);
      }
      var item := store.desk.items[id];
      var now := store.desk.now;
      var moved := item.TransitionTo(StatusReturned);
      if moved.Err? {
        return moved;
      }
      item := moved.value;
      item := item.(updatedAt := now);
      var err := UpdateItemWithAudit(item, storageFails, Op.ReturnForCorrection(id));
      return if err.Some? then Err(err.value) else Ok(item);
    }

    method Resubmit(id: Id, storageFails: bool) returns (result: Result<Item>)
      requires store.Valid()
      modifies store
      ensures store.Valid()
      ensures result == if id !in old(store.desk).items then Err(NotFound)
                        else if old(store.desk).items[id].status !in
                             {StatusRegistered, StatusReturned} then Err(InvalidTransition)
                        else if storageFails then Err(StorageFailure)
                        else Ok(old(store.desk).items[id].(
                                 status := StatusAdjudicated, updatedAt := old(store.desk).now))
      ensures store.ops == old(store.ops) + if result.Ok? then [Op.Resubmit(id)] else []
      ensures store.desk == if result.Ok? then WithItem(old(store.desk), id, result.value) else old(store.desk)
    {
      if id !in store.desk.items {
        return Err(NotFound);
      }
      var item := store.desk.items[id];
      var back := item.TransitionTo(StatusRegistered);
      if back.Err? {
        return back;
      }
      var again := back.value.TransitionTo(StatusAdjudicated);
      if again.Err? {
        return again;
      }
      item := again.value.(updatedAt := store.desk.now);
      var err := UpdateItemWithAudit(item, storageFails, Op.Resubmit(id));
      return if err.Some? then Err(err.value) else Ok(item);
    }

    method Cancel(id: Id, reason: string, storageFails: bool) returns (result: Result<Item>)
      requires store.Valid()
      modifies store
      ensures store.Valid()
      ensures result == if id !in old(store.desk).items then Err(NotFound)
                        else if old(store.desk).items[id].status == StatusCompleted then Err(InvalidTransition)
                        else if storageFails then Err(StorageFailure)
                        else Ok(old(store.desk).items[id].(
                                 status := StatusCancelled, cancelledAt := Some(old(store.desk).now),
                                 cancelReason := reason, updatedAt := old(store.desk).now))
      ensures store.ops == old(store.ops) + if result.Ok? then [Op.Cancel(id, reason)] else []
      ensures store.desk == if result.Ok? then WithItem(old(store.desk), id, result.value) else old(store.desk)
    {
      if id !in store.desk.items {
        return Err(NotFound);
      }
      var item := store.desk.items[id];
      var now := store.desk.now;
      var moved := item.TransitionTo(StatusCancelled);
      if moved.Err? {
        return moved;
      }
      item := moved.value;
      item := item.(cancelledAt := Some(now), cancelReason := reason);
      item := item.(updatedAt := now);
      var err := UpdateItemWithAudit(item, storageFails, Op.Cancel(id, reason));
      return if err.Some? then Err(err.value) else Ok(item);
    }

    method Complete(id: Id, storageFails: bool) returns (result: Result<Item>)
      requires store.Valid()
      modifies store
      ensures store.Valid()
      ensures result == if id !in old(store.desk).items then Err(NotFound)
                        else if old(store.desk).items[id].status !in
                             {StatusInProgress, StatusEscalated, StatusCompleted} then Err(InvalidTransition)
                        else if storageFails then Err(StorageFailure)
                        else Ok(old(store.desk).items[id].(
                                 status := StatusCompleted, completedAt := Some(old(store.desk).now),
                                 updatedAt := old(store.desk).now))
      ensures store.ops == old(store.ops) + if result.Ok? then [Op.Complete(id)] else []
      ensures store.desk == if result.Ok? then WithItem(old(store.desk), id, result.value) else old(store.desk)
    {
      if id !in store.desk.items {
        return Err(NotFound);
      }
      var item := store.desk.items[id];
      var now := store.desk.now;
      var moved := item.TransitionTo(StatusCompleted);
      if moved.Err? {
        return moved;
      }
      item := moved.value;
      item := item.(completedAt := Some(now));
      item := item.(updatedAt := now);
      var err := UpdateItemWithAudit(item, storageFails, Op.Complete(id));
      return if err.Some? then Err(err.value) else Ok(item);
    }
  }

  lemma NewItemIsNew(cfg: Config, q: Registration, id: Id, now: Time)
    ensures var item := NewItem(cfg, q, id, now);
            item.id == id && item.externalRef == q.externalRef && item.registeredAt == now
  {
  }

  lemma StoredUnderId(store: Store, id: Id)
    requires store.Valid() && id in store.desk.items
    ensures store.desk.items[id].id == id
  {
    PerformedSafe(store.cfg, store.start, store.ops);
  }

  lemma StoredKeyed(store: Store)
    requires store.Valid()
    ensures RuleTables.Keyed(store.desk.rules)
  {
    PerformedSafe(store.cfg, store.start, store.ops);
  }

  /** Asking for the active rules only loses nothing at registration. */
  lemma ListIsEnough(store: Store, item: Item, now: Time, list: seq<Rule>, chosen: Option<Rule>)
    requires store.Valid() && item.registeredAt <= now && IsListOf(store.desk.rules, now, list)
    requires if chosen.Some? then IsBest(list, item, chosen.value) else !exists r <- list :: Eligible(r, item)
    ensures Routing(store.desk.rules, item) == chosen
    ensures chosen.Some? ==> IsBestOf(store.desk.rules, item, chosen.value)
  {
    PerformedSafe(store.cfg, store.start, store.ops);
    QueryIsTransparent(store.desk.rules, item, now, list);
    if chosen.Some? {
      RoutingIsBest(store.desk.rules, item, chosen.value);
    }
  }

  /** A new reference under fresh identifiers meets no constraint. */
  lemma RegistrationCommits(store: Store, item: Item, referral: Referral)
    requires store.Valid() && !HasRef(store.desk, item.externalRef)
    requires item.id == store.desk.next && referral.id == store.desk.next + 1
    ensures var d := store.desk;
            Commit(d, RegisterTx(item, referral))
            == Ok(d.(items := d.items[item.id := item], referrals := d.referrals[referral.id := referral]))
  {
    PerformedSafe(store.cfg, store.start, store.ops);
  }

  lemma EditIsUpdate(store: Store, op: Op)
    requires store.Valid() && Edits(op) && op.id in store.desk.items
    requires Edited(op, store.desk.items[op.id], store.desk.now).Ok?
    ensures var d := store.desk; var item := Edited(op, d.items[op.id], d.now).value;
            && item.id == op.id && Commit(d, UpdateTx(item)).Ok?
            && Perform(store.cfg, d, op) == Try(d, UpdateTx(item), d.next) == d.(items := d.items[op.id := item])
  {
    hide History, OneCurrent, Agreed, Sound, Edited;
    var d := store.desk;
    PerformedSafe(store.cfg, store.start, store.ops);
    assert ItemSafe(store.cfg, d.items[op.id], d.escalations, d.now);
    EditKeepsItem(store.cfg, op, d.items[op.id], d.escalations, d.now);
    Updated(d, Edited(op, d.items[op.id], d.now).value);
  }
}
