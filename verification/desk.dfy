/** The items, assignments and escalations tables, the statements of internal/index/writes.go on them, and the
    transactions the services make of those. */
module Desks {
  import opened Outcomes
  import opened SuggestionStatus
  import opened RoutingDomain
  import RuleTables

  /** `next` is the supply of identifiers no row has. */
  datatype Desk = Desk(
    items: map<Id, Item>, referrals: map<Id, Referral>, escalations: map<Id, Escalation>,
    rules: RuleTables.Table, next: Id, now: Time)

  function EmptyDesk(now: Time): Desk {
    Desk(map[], map[], map[], map[], 0, now)
  }

  predicate HasRef(d: Desk, ref: string) {
    exists i :: i in d.items && d.items[i].externalRef == ref
  }

  function InsertItem(d: Desk, item: Item): Result<Desk> {
    if item.id in d.items || HasRef(d, item.externalRef) then Err(ConstraintViolated)
    else Ok(d.(items := d.items[item.id := item]))
  }

  /** UPDATE items: unconditional, but some columns are never written. */
  function SetItem(row: Item, item: Item): Item {
    item.(id := row.id, externalRef := row.externalRef, registeredAt := row.registeredAt,
          registeredBy := row.registeredBy)
  }

  function UpdateItem(d: Desk, item: Item): Result<Desk> {
    if item.id !in d.items then Err(NotFound)
    else Ok(d.(items := d.items[item.id := SetItem(d.items[item.id], item)]))
  }

  function InsertReferral(d: Desk, r: Referral): Result<Desk> {
    if r.id in d.referrals then Err(ConstraintViolated) else Ok(d.(referrals := d.referrals[r.id := r]))
  }

  /** MarkAssignmentSuperseded. */
  function Supersede(d: Desk, itemId: Id): Desk {
    d.(referrals := map r | r in d.referrals ::
      if d.referrals[r].itemId == itemId then d.referrals[r].(isCurrent := false) else d.referrals[r])
  }

  function InsertEscalation(d: Desk, e: Escalation): Result<Desk> {
    if e.id in d.escalations then Err(ConstraintViolated) else Ok(d.(escalations := d.escalations[e.id := e]))
  }

  /******* Transactions *******/

  datatype Tx =
    | RegisterTx(item: Item, referral: Referral)
    | RerouteTx(item: Item, referral: Referral)
    | EscalateTx(item: Item, referral: Referral, escalation: Escalation)
    | UpdateTx(item: Item)

  /** The statements in the order the services issue them; an error rolls all of them back. */
  function Commit(d: Desk, tx: Tx): Result<Desk> {
    match tx
    case RegisterTx(item, referral) =>
      var x := InsertItem(d, item);
      if x.Err? then x else InsertReferral(x.value, referral)
    case RerouteTx(item, referral) =>
      var x := InsertReferral(Supersede(d, item.id), referral);
      if x.Err? then x else UpdateItem(x.value, item)
    case EscalateTx(item, referral, escalation) =>
      var x := InsertEscalation(d, escalation);
      if x.Err? then x
      else
        var y := InsertReferral(Supersede(x.value, item.id), referral);
        if y.Err? then y else UpdateItem(y.value, item)
    case UpdateTx(item) =>
      UpdateItem(d, item)
  }

  /** Whatever else their rows say, the services file a referral under its item and as current. */
  predicate WellMade(tx: Tx) {
    tx.UpdateTx? || (tx.referral.itemId == tx.item.id && tx.referral.isCurrent)
  }

  ghost predicate CurrentReferral(d: Desk, item: Id, r: Id) {
    r in d.referrals && d.referrals[r].itemId == item && d.referrals[r].isCurrent
  }

  /** Every item has exactly one current referral, and no referral is filed under anything else. */
  ghost predicate OneCurrent(d: Desk) {
    && (forall r :: r in d.referrals ==> d.referrals[r].itemId in d.items)
    && (forall i :: i in d.items ==> exists r :: CurrentReferral(d, i, r))
    && (forall i, r, s :: CurrentReferral(d, i, r) && CurrentReferral(d, i, s) ==> r == s)
  }

  /** A transaction makes its own referral the current one of its item and leaves the other items' alone. */
  lemma CommitSetsCurrent(d: Desk, tx: Tx, i: Id, r: Id)
    requires OneCurrent(d) && WellMade(tx) && Commit(d, tx).Ok?
    ensures CurrentReferral(Commit(d, tx).value, i, r)
            <==> if !tx.UpdateTx? && i == tx.item.id then r == tx.referral.id else CurrentReferral(d, i, r)
  {
  }

  lemma CommitKeepsRows(d: Desk, tx: Tx)
    requires OneCurrent(d) && WellMade(tx) && Commit(d, tx).Ok?
    ensures var e := Commit(d, tx).value;
            && e.items.Keys == d.items.Keys + (if tx.RegisterTx? then {tx.item.id} else {})
            && (!tx.UpdateTx? ==> tx.item.id in e.items)
            && forall r :: r in e.referrals ==> e.referrals[r].itemId in e.items
  {
  }

  lemma CommitKeepsOneCurrent(d: Desk, tx: Tx)
    requires OneCurrent(d) && WellMade(tx) && Commit(d, tx).Ok?
    ensures OneCurrent(Commit(d, tx).value)
  {
    hide Commit, CurrentReferral;
    var e := Commit(d, tx).value;
    CommitKeepsRows(d, tx);
    forall i, r
      ensures CurrentReferral(e, i, r)
              <==> if !tx.UpdateTx? && i == tx.item.id then r == tx.referral.id else CurrentReferral(d, i, r)
    {
      CommitSetsCurrent(d, tx, i, r);
    }
    forall i | i in e.items
      ensures exists r :: CurrentReferral(e, i, r)
    {
      if !tx.UpdateTx? && i == tx.item.id {
        assert CurrentReferral(e, i, tx.referral.id);
      } else {
        var r :| CurrentReferral(d, i, r);
        assert CurrentReferral(e, i, r);
      }
    }
  }

  /** Any number of transactions, on rows read no matter when; those that fail change nothing. */
  function CommitAll(d: Desk, txs: seq<Tx>): Desk {
    if txs == [] then d
    else
      var before := CommitAll(d, txs[..|txs| - 1]);
      var r := Commit(before, txs[|txs| - 1]);
      if r.Ok? then r.value else before
  }

  /** Under every interleaving of committed transactions, each item has exactly one current referral. */
  lemma {:induction false} OneCurrentReferral(now: Time, txs: seq<Tx>)
    requires forall k :: 0 <= k < |txs| ==> WellMade(txs[k])
    ensures OneCurrent(CommitAll(EmptyDesk(now), txs))
  {
    if txs != [] {
      var n := |txs| - 1;
      OneCurrentReferral(now, txs[..n]);
      var before := CommitAll(EmptyDesk(now), txs[..n]);
      assert WellMade(txs[n]);
      if Commit(before, txs[n]).Ok? {
        CommitKeepsOneCurrent(before, txs[n]);
      }
    }
  }

  /******* What needs items to be handled one at a time *******/

  /** A referral, or an older row, routes an item as the item says. */
  predicate RoutesAs(lead: string, coDepartments: seq<string>, ruleVersion: int, item: Item) {
    lead == item.lead && coDepartments == item.coDepartments && ruleVersion == item.ruleVersion
  }

  /** The current referral says what the item says. */
  ghost predicate Agreed(d: Desk) {
    forall i, r :: i in d.items && CurrentReferral(d, i, r) ==>
      RoutesAs(d.referrals[r].lead, d.referrals[r].coDepartments, d.referrals[r].ruleVersion, d.items[i])
  }

  /** The transaction carries the routing it will meet: its own referral's, or for an update the stored row's. */
  predicate Carries(d: Desk, tx: Tx) {
    if tx.UpdateTx? then
      tx.item.id in d.items
      && var row := d.items[tx.item.id]; RoutesAs(row.lead, row.coDepartments, row.ruleVersion, tx.item)
    else RoutesAs(tx.referral.lead, tx.referral.coDepartments, tx.referral.ruleVersion, tx.item)
  }

  lemma OthersStayAgreed(d: Desk, tx: Tx, i: Id, r: Id)
    requires OneCurrent(d) && Agreed(d) && WellMade(tx) && Commit(d, tx).Ok?
    requires i != tx.item.id && i in Commit(d, tx).value.items && CurrentReferral(Commit(d, tx).value, i, r)
    ensures var e := Commit(d, tx).value;
            RoutesAs(e.referrals[r].lead, e.referrals[r].coDepartments, e.referrals[r].ruleVersion, e.items[i])
  {
    CommitSetsCurrent(d, tx, i, r);
    assert CurrentReferral(d, i, r);
  }

  lemma OwnAgreesIff(d: Desk, tx: Tx, r: Id)
    requires OneCurrent(d) && Agreed(d) && WellMade(tx) && Commit(d, tx).Ok?
    requires CurrentReferral(Commit(d, tx).value, tx.item.id, r)
    ensures var e := Commit(d, tx).value;
            && tx.item.id in e.items
            && (RoutesAs(e.referrals[r].lead, e.referrals[r].coDepartments, e.referrals[r].ruleVersion,
                         e.items[tx.item.id])
                <==> Carries(d, tx))
  {
    CommitSetsCurrent(d, tx, tx.item.id, r);
  }

  /** One transaction keeps the agreement exactly when it carries the routing it meets. */
  lemma CommitAgreesIff(d: Desk, tx: Tx)
    requires OneCurrent(d) && Agreed(d) && WellMade(tx) && Commit(d, tx).Ok?
    ensures Agreed(Commit(d, tx).value) <==> Carries(d, tx)
  {
    hide Commit, Carries, RoutesAs, CurrentReferral;
    var e, id := Commit(d, tx).value, tx.item.id;
    CommitKeepsOneCurrent(d, tx);
    ItemIsThere(d, tx);
    var own :| CurrentReferral(e, id, own);
    OwnAgreesIff(d, tx, own);
    CurrentIsThere(e, id, own);
    if Carries(d, tx) {
      forall i, r | i in e.items && CurrentReferral(e, i, r)
        ensures r in e.referrals
                && RoutesAs(e.referrals[r].lead, e.referrals[r].coDepartments, e.referrals[r].ruleVersion, e.items[i])
      {
        CurrentIsThere(e, i, r);
        if i != id {
          OthersStayAgreed(d, tx, i, r);
        }
      }
    }
  }

  lemma CurrentIsThere(d: Desk, i: Id, r: Id)
    requires CurrentReferral(d, i, r)
    ensures r in d.referrals
  {
  }

  lemma ItemIsThere(d: Desk, tx: Tx)
    requires Commit(d, tx).Ok?
    ensures tx.item.id in Commit(d, tx).value.items
  {
  }

  /** The desk that transaction `n` meets. */
  function Met(now: Time, txs: seq<Tx>, n: nat): Desk
    requires n <= |txs|
  {
    CommitAll(EmptyDesk(now), txs[..n])
  }

  ghost predicate AlwaysAgreed(now: Time, txs: seq<Tx>) {
    forall n :: 0 <= n <= |txs| ==> Agreed(Met(now, txs, n))
  }

  ghost predicate AlwaysCarried(now: Time, txs: seq<Tx>) {
    forall n :: 0 <= n < |txs| && Commit(Met(now, txs, n), txs[n]).Ok? ==> Carries(Met(now, txs, n), txs[n])
  }

  lemma MetOfPrefix(now: Time, txs: seq<Tx>, n: nat, k: nat)
    requires k <= n <= |txs|
    ensures Met(now, txs[..n], k) == Met(now, txs, k)
  {
    assert txs[..n][..k] == txs[..k];
  }

  /** Under any interleaving of committed transactions, each item and its current referral agree at every moment
      exactly when every transaction that committed carried the routing it met. For a plain update that means
      that nobody has re-routed its item between its read and its commit. */
  lemma {:induction false} AgreementIff(now: Time, txs: seq<Tx>)
    requires forall k :: 0 <= k < |txs| ==> WellMade(txs[k])
    ensures AlwaysAgreed(now, txs) <==> AlwaysCarried(now, txs)
  {
    hide Agreed, Carries, Commit, Met, OneCurrent;
    if txs == [] {
      EmptyAgrees(now, txs);
    } else {
      var n := |txs| - 1;
      AgreementIff(now, txs[..n]);
      LastAgreesIff(now, txs);
      forall k | 0 <= k <= n
        ensures Met(now, txs[..n], k) == Met(now, txs, k)
      {
        MetOfPrefix(now, txs, n, k);
      }
      if AlwaysAgreed(now, txs) {
        assert AlwaysAgreed(now, txs[..n]);
        assert Agreed(Met(now, txs, n)) && Agreed(Met(now, txs, n + 1));
      }
      if AlwaysCarried(now, txs) {
        forall k | 0 <= k < n && Commit(Met(now, txs[..n], k), txs[..n][k]).Ok?
          ensures Carries(Met(now, txs[..n], k), txs[..n][k])
        {
          assert txs[..n][k] == txs[k];
        }
        assert AlwaysAgreed(now, txs[..n]) && Agreed(Met(now, txs[..n], n));
      }
    }
  }

  lemma EmptyAgrees(now: Time, txs: seq<Tx>)
    requires txs == []
    ensures Agreed(Met(now, txs, 0))
  {
  }

  lemma LastAgreesIff(now: Time, txs: seq<Tx>)
    requires txs != [] && forall k :: 0 <= k < |txs| ==> WellMade(txs[k])
    ensures var n := |txs| - 1;
            Agreed(Met(now, txs, n)) ==>
              (Agreed(Met(now, txs, n + 1))
               <==> (Commit(Met(now, txs, n), txs[n]).Ok? ==> Carries(Met(now, txs, n), txs[n])))
  {
    hide Agreed, Carries, Commit, OneCurrent;
    var n := |txs| - 1;
    assert txs[..n + 1] == txs && WellMade(txs[n]);
    OneCurrentReferral(now, txs[..n]);
    if Agreed(Met(now, txs, n)) && Commit(Met(now, txs, n), txs[n]).Ok? {
      CommitAgreesIff(Met(now, txs, n), txs[n]);
    }
  }

  /** An item is registered and escalated, and then an update prepared in between puts the old department back. */
  function StaleUpdate(): seq<Tx> {
    var item := Item(0, "r", "t", "", "", "", [], "", [], StatusAdjudicated, "d", [], 1, 0, "u", 9, 0, "", None, None,
                     "", 0);
    var raised := EscalationDepartmentName("d", 1);
    [RegisterTx(item, Referral(1, 0, "d", [], 1, 0, "system", true)),
     EscalateTx(item.(lead := raised, level := 1, deadline := 19, status := StatusEscalated, updatedAt := 10),
                Referral(3, 0, raised, [], 1, 10, "system_escalation", true),
                Escalation(2, 0, 0, 1, "d", raised, 10, 19)),
     UpdateTx(item.(status := StatusInProgress, updatedAt := 10))]
  }

  lemma StaleUpdateCommits(now: Time) returns (one: Desk, two: Desk)
    ensures Commit(EmptyDesk(now), StaleUpdate()[0]) == Ok(one) && Carries(EmptyDesk(now), StaleUpdate()[0])
    ensures Commit(one, StaleUpdate()[1]) == Ok(two) && Carries(one, StaleUpdate()[1])
    ensures Commit(two, StaleUpdate()[2]).Ok? && !Carries(two, StaleUpdate()[2])
  {
    hide Decimal;
    var register, escalate := StaleUpdate()[0], StaleUpdate()[1];
    one := EmptyDesk(now).(items := map[0 := register.item], referrals := map[1 := register.referral]);
    two := one.(items := one.items[0 := escalate.item],
                referrals := Supersede(one, 0).referrals[3 := escalate.referral],
                escalations := map[2 := escalate.escalation]);
    assert |EscalationDepartmentName("d", 1)| > |"d"|;
  }

  /** Two overlapping operations suffice to break the agreement: every transaction commits, and each is what its
      operation made of what it had read. */
  lemma StaleUpdateBreaksAgreement(now: Time) returns (txs: seq<Tx>)
    ensures |txs| == 3 && txs[0].RegisterTx? && txs[1].EscalateTx? && forall k :: 0 <= k < 3 ==> WellMade(txs[k])
    ensures txs[2] == UpdateTx(txs[0].item.(status := StatusInProgress, updatedAt := txs[1].item.updatedAt))
    ensures forall k :: 0 <= k < 3 ==> Commit(Met(now, txs, k), txs[k]).Ok?
    ensures Agreed(Met(now, txs, 0)) && Agreed(Met(now, txs, 1)) && Agreed(Met(now, txs, 2))
            && !Agreed(Met(now, txs, 3))
  {
    hide Commit, Carries, Met, OneCurrent, CurrentReferral;
    txs := StaleUpdate();
    var one, two := StaleUpdateCommits(now);
    MetFirst(now, txs);
    MetNext(now, txs, 0);
    MetNext(now, txs, 1);
    MetNext(now, txs, 2);
    OneCurrentAt(now, txs, 0);
    CommitAgreesIff(EmptyDesk(now), txs[0]);
    OneCurrentAt(now, txs, 1);
    CommitAgreesIff(one, txs[1]);
    OneCurrentAt(now, txs, 2);
    CommitAgreesIff(two, txs[2]);
  }

  lemma OneCurrentAt(now: Time, txs: seq<Tx>, n: nat)
    requires n <= |txs| && forall k :: 0 <= k < |txs| ==> WellMade(txs[k])
    ensures OneCurrent(Met(now, txs, n))
  {
    OneCurrentReferral(now, txs[..n]);
  }

  lemma MetFirst(now: Time, txs: seq<Tx>)
    ensures Met(now, txs, 0) == EmptyDesk(now)
  {
  }

  lemma MetNext(now: Time, txs: seq<Tx>, n: nat)
    requires n < |txs|
    ensures var r := Commit(Met(now, txs, n), txs[n]);
            Met(now, txs, n + 1) == if r.Ok? then r.value else Met(now, txs, n)
  {
    assert txs[..n + 1][..n] == txs[..n];
  }
}
