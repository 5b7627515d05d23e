/** The append-only log against the index, for items: internal/repo/store.go writes both in one transaction,
    internal/repo/rebuild.go reads the log back. A rollback undoes the index but not the log. */
module Replays {
  import opened Outcomes
  import opened SuggestionStatus
  import opened Durations
  import opened RoutingDomain
  import opened Desks

  lemma DaysFollowTime(s: Time, t: Time)
    requires s <= t
    ensures DayOf(s) <= DayOf(t)
  {
  }

  type Index = map<Id, Item>

  /** One appended record: the file it went to, and whether its transaction committed. */
  datatype Entry = Entry(day: int, item: Item, committed: bool)

  /** storeTx.SaveItem or UpdateItem, with the clock it reads. */
  datatype Write = Save(item: Item, at: Time) | Update(item: Item, at: Time)

  datatype Tx = Tx(writes: seq<Write>, storageFails: bool)

  datatype Repo = Repo(index: Index, log: seq<Entry>, now: Time)

  function EmptyRepo(now: Time): Repo {
    Repo(map[], [], now)
  }

  /** SaveItem files the record under the registration day, UpdateItem under today. */
  function FiledUnder(w: Write): int {
    if w.Save? then DayOf(w.item.registeredAt) else DayOf(w.at)
  }

  /** The statement on the index. */
  function Indexed(index: Index, w: Write): Result<Index> {
    if w.Save? then
      if w.item.id in index || exists i :: i in index && index[i].externalRef == w.item.externalRef
          then Err(ConstraintViolated)
      else Ok(index[w.item.id := w.item])
    else if w.item.id !in index then Err(NotFound)
    else Ok(index[w.item.id := SetItem(index[w.item.id], w.item)])
  }

  /** The index after the writes of a transaction, if they all succeed. */
  function AllIndexed(index: Index, writes: seq<Write>): Result<Index> {
    if writes == [] then Ok(index)
    else
      var before := AllIndexed(index, writes[..|writes| - 1]);
      if before.Err? then before else Indexed(before.value, writes[|writes| - 1])
  }

  /** The records that reach the log: every write up to and including the first that fails. */
  function Appends(index: Index, writes: seq<Write>, committed: bool): (entries: seq<Entry>)
    ensures |entries| <= |writes|
  {
    if writes == [] then []
    else
      var before := Appends(index, writes[..|writes| - 1], committed);
      if AllIndexed(index, writes[..|writes| - 1]).Err? then before
      else before + [Entry(FiledUnder(writes[|writes| - 1]), writes[|writes| - 1].item, committed)]
  }

  predicate Commits(index: Index, tx: Tx) {
    AllIndexed(index, tx.writes).Ok? && !tx.storageFails
  }

  function Latest(now: Time, writes: seq<Write>): Time {
    if writes == [] then now else writes[|writes| - 1].at
  }

  function Perform(r: Repo, tx: Tx): Repo {
    Repo(if Commits(r.index, tx) then AllIndexed(r.index, tx.writes).value else r.index,
         r.log + Appends(r.index, tx.writes, Commits(r.index, tx)),
         Latest(r.now, tx.writes))
  }

  /** The clock never runs back, not within the transaction either. */
  predicate InTime(now: Time, writes: seq<Write>) {
    && (forall k :: 0 <= k < |writes| ==>
          now <= writes[k].at && (writes[k].Save? ==> writes[k].item.registeredAt <= writes[k].at))
    && (forall j, k :: 0 <= j < k < |writes| ==> writes[j].at <= writes[k].at)
  }

  predicate Mentions(log: seq<Entry>, id: Id) {
    exists k :: 0 <= k < |log| && log[k].item.id == id
  }

  /** A saved item has a fresh identifier; an updated one was loaded from the index, however long ago, so its
      immutable columns are those of the row. */
  ghost predicate WellMade(r: Repo, tx: Tx) {
    && InTime(r.now, tx.writes)
    && (forall k :: 0 <= k < |tx.writes| ==> FitsRow(r, tx.writes, k))
  }

  ghost predicate FitsRow(r: Repo, writes: seq<Write>, k: nat)
    requires k < |writes|
  {
    var w, before := writes[k], AllIndexed(r.index, writes[..k]);
    if w.Save? then
      !Mentions(r.log, w.item.id) && forall j :: 0 <= j < k ==> writes[j].item.id != w.item.id
    else before.Ok? && w.item.id in before.value ==> SetItem(before.value[w.item.id], w.item) == w.item
  }

  /******* Reading the log *******/

  /** recordCollector.add over a list of records: the last one of an identifier stays. */
  function AddAll(collected: Index, items: seq<Item>): Index {
    if items == [] then collected
    else AddAll(collected, items[..|items| - 1])[items[|items| - 1].id := items[|items| - 1]]
  }

  /** The records of one day's file. */
  function DayItems(log: seq<Entry>, day: int): seq<Item> {
    if log == [] then []
    else
      var last := log[|log| - 1];
      DayItems(log[..|log| - 1], day) + if last.day == day then [last.item] else []
  }

  /** RebuildIndex' collection: the files in path order, which is day order. */
  function Replay(log: seq<Entry>, days: seq<int>): Index {
    if days == [] then map[] else AddAll(Replay(log, days[..|days| - 1]), DayItems(log, days[|days| - 1]))
  }

  predicate Ascending(days: seq<int>) {
    forall i, j :: 0 <= i < j < |days| ==> days[i] < days[j]
  }

  /** `days` are the files of the log, in order. */
  ghost predicate FilesOf(log: seq<Entry>, days: seq<int>) {
    Ascending(days) && forall k :: 0 <= k < |log| ==> log[k].day in days
  }

  /** The last record of every identifier, in the order of appending. */
  function LastRecords(log: seq<Entry>): Index {
    if log == [] then map[] else LastRecords(log[..|log| - 1])[log[|log| - 1].item.id := log[|log| - 1].item]
  }

  function LastCommitted(log: seq<Entry>): Index {
    if log == [] then map[]
    else
      var before, last := LastCommitted(log[..|log| - 1]), log[|log| - 1];
      if last.committed then before[last.item.id := last.item] else before
  }

  /** Records of the same item never go back to an earlier file. */
  predicate DayOrdered(log: seq<Entry>) {
    forall j, k :: 0 <= j < k < |log| && log[j].item.id == log[k].item.id ==> log[j].day <= log[k].day
  }

  /** The last record of `id` in the files of `days`, in the order of appending. */
  function Last(log: seq<Entry>, id: Id, days: seq<int>): Option<Item> {
    if log == [] then None
    else if log[|log| - 1].item.id == id && log[|log| - 1].day in days then Some(log[|log| - 1].item)
    else Last(log[..|log| - 1], id, days)
  }

  function Lookup(index: Index, id: Id): Option<Item> {
    if id in index then Some(index[id]) else None
  }

  lemma DayItemsGrow(log: seq<Entry>, e: Entry, day: int)
    ensures DayItems(log + [e], day) == if e.day == day then DayItems(log, day) + [e.item] else DayItems(log, day)
  {
    assert (log + [e])[..|log|] == log;
  }

  lemma AddAllGrows(collected: Index, items: seq<Item>, item: Item)
    ensures AddAll(collected, items + [item]) == AddAll(collected, items)[item.id := item]
  {
    assert (items + [item])[..|items|] == items;
  }

  lemma {:induction false} OneFile(log: seq<Entry>, day: int, collected: Index, id: Id)
    ensures Lookup(AddAll(collected, DayItems(log, day)), id)
            == if Last(log, id, [day]).Some? then Last(log, id, [day]) else Lookup(collected, id)
  {
    if log != [] {
      var before, last := log[..|log| - 1], log[|log| - 1];
      assert log == before + [last];
      OneFile(before, day, collected, id);
      hide DayItems, AddAll;
      DayItemsGrow(before, last, day);
      AddAllGrows(collected, DayItems(before, day), last.item);
    }
  }

  lemma {:induction false} NoneOnALaterDay(log: seq<Entry>, id: Id, day: int)
    requires forall k :: 0 <= k < |log| && log[k].item.id == id ==> log[k].day < day
    ensures Last(log, id, [day]) == None
  {
    if log != [] {
      NoneOnALaterDay(log[..|log| - 1], id, day);
    }
  }

  /** The last record of an item is in its last file. */
  lemma {:induction false} LastFileWins(log: seq<Entry>, id: Id, days: seq<int>, day: int)
    requires DayOrdered(log) && forall d <- days :: d < day
    ensures Last(log, id, days + [day])
            == if Last(log, id, [day]).Some? then Last(log, id, [day]) else Last(log, id, days)
  {
    if log != [] {
      var last := log[|log| - 1];
      if last.item.id == id && last.day in days {
        NoneOnALaterDay(log[..|log| - 1], id, day);
      } else {
        LastFileWins(log[..|log| - 1], id, days, day);
      }
    }
  }

  lemma {:induction false} ReplayFindsLast(log: seq<Entry>, days: seq<int>, id: Id)
    requires DayOrdered(log) && Ascending(days)
    ensures Lookup(Replay(log, days), id) == Last(log, id, days)
  {
    hide Last, AddAll, DayItems, DayOrdered;
    if days == [] {
      NoFiles(log, id);
    } else {
      var n := |days| - 1;
      ReplayFindsLast(log, days[..n], id);
      OneFile(log, days[n], Replay(log, days[..n]), id);
      LastFileWins(log, id, days[..n], days[n]);
      assert days == days[..n] + [days[n]];
    }
  }

  lemma {:induction false} NoFiles(log: seq<Entry>, id: Id)
    ensures Last(log, id, []) == None
  {
    if log != [] {
      NoFiles(log[..|log| - 1], id);
    }
  }

  lemma {:induction false} AllFiles(log: seq<Entry>, days: seq<int>, id: Id)
    requires forall k :: 0 <= k < |log| ==> log[k].day in days
    ensures Last(log, id, days) == Lookup(LastRecords(log), id)
  {
    if log != [] {
      AllFiles(log[..|log| - 1], days, id);
    }
  }

  lemma SameLookups(a: Index, b: Index)
    requires forall id :: Lookup(a, id) == Lookup(b, id)
    ensures a == b
  {
    assert forall id :: id in a <==> Lookup(a, id).Some?;
    assert forall id :: id in b <==> Lookup(b, id).Some?;
  }

  /** Replay over the files in day order is replay in the order of appending. */
  lemma ReplayKeepsLastRecords(log: seq<Entry>, days: seq<int>)
    requires DayOrdered(log) && FilesOf(log, days)
    ensures Replay(log, days) == LastRecords(log)
  {
    forall id
      ensures Lookup(Replay(log, days), id) == Lookup(LastRecords(log), id)
    {
      ReplayFindsLast(log, days, id);
      AllFiles(log, days, id);
    }
    SameLookups(Replay(log, days), LastRecords(log));
  }

  /******* Runs *******/

  ghost predicate WellMadeRun(start: Time, txs: seq<Tx>) {
    forall n :: 0 <= n < |txs| ==> WellMade(After(start, txs[..n]), txs[n])
  }

  function After(start: Time, txs: seq<Tx>): Repo {
    if txs == [] then EmptyRepo(start) else Perform(After(start, txs[..|txs| - 1]), txs[|txs| - 1])
  }

  /** What every run keeps: the index holds the last committed records, and files follow the clock. */
  ghost predicate Sound(r: Repo) {
    r.index == LastCommitted(r.log) && DayOrdered(r.log) && OnTime(r.log, r.now)
  }

  /** No record lies in a file of the future. */
  predicate OnTime(log: seq<Entry>, now: Time) {
    forall k :: 0 <= k < |log| ==> log[k].day <= DayOf(now)
  }

  lemma LastCommittedAppends(log: seq<Entry>, e: Entry)
    ensures LastCommitted(log + [e]) == if e.committed then LastCommitted(log)[e.item.id := e.item]
            else LastCommitted(log)
  {
    assert (log + [e])[..|log|] == log;
  }

  lemma {:induction false} RolledBackIsIgnored(log: seq<Entry>, index: Index, writes: seq<Write>)
    ensures LastCommitted(log + Appends(index, writes, false)) == LastCommitted(log)
  {
    if writes == [] {
      assert log + [] == log;
    } else {
      var n := |writes| - 1;
      RolledBackIsIgnored(log, index, writes[..n]);
      var before, after := Appends(index, writes[..n], false), Appends(index, writes, false);
      if AllIndexed(index, writes[..n]).Ok? {
        var e := Entry(FiledUnder(writes[n]), writes[n].item, false);
        assert log + after == (log + before) + [e];
        LastCommittedAppends(log + before, e);
      }
    }
  }

  /** A committed write leaves in the index exactly its record. */
  lemma {:induction false} CommittedIsIndexed(r: Repo, writes: seq<Write>)
    requires r.index == LastCommitted(r.log) && AllIndexed(r.index, writes).Ok?
    requires forall k :: 0 <= k < |writes| ==> FitsRow(r, writes, k)
    ensures AllIndexed(r.index, writes).value == LastCommitted(r.log + Appends(r.index, writes, true))
  {
    if writes == [] {
      assert r.log + [] == r.log;
    } else {
      var n := |writes| - 1;
      assert FitsRow(r, writes, n);
      forall k | 0 <= k < n
        ensures FitsRow(r, writes[..n], k)
      {
        assert FitsRow(r, writes, k) && writes[..n][..k] == writes[..k];
      }
      CommittedIsIndexed(r, writes[..n]);
      var before := Appends(r.index, writes[..n], true);
      var e := Entry(FiledUnder(writes[n]), writes[n].item, true);
      assert r.log + Appends(r.index, writes, true) == (r.log + before) + [e];
      LastCommittedAppends(r.log + before, e);
    }
  }

  lemma EntryFollows(before: seq<Entry>, e: Entry, now: Time, later: Time)
    requires DayOrdered(before) && OnTime(before, now) && now <= later && e.day <= DayOf(later)
    requires forall j :: 0 <= j < |before| && before[j].item.id == e.item.id ==> before[j].day <= e.day
    ensures DayOrdered(before + [e]) && OnTime(before + [e], later)
  {
    DaysFollowTime(now, later);
  }

  /** The entries from `from` on are records of `writes`. */
  predicate WrittenBy(log: seq<Entry>, from: nat, writes: seq<Write>) {
    forall k {:trigger log[k]} :: from <= k < |log| ==>
      exists j :: 0 <= j < |writes| && log[k].item.id == writes[j].item.id
  }

  lemma WrittenByOneMore(log: seq<Entry>, from: nat, writes: seq<Write>, n: nat, e: Entry)
    requires n < |writes| && from <= |log| && WrittenBy(log, from, writes[..n]) && e.item.id == writes[n].item.id
    ensures WrittenBy(log + [e], from, writes) && WrittenBy(log, from, writes)
  {
    forall k | from <= k < |log|
      ensures exists j :: 0 <= j < |writes| && log[k].item.id == writes[j].item.id
    {
      var j :| 0 <= j < n && log[k].item.id == writes[..n][j].item.id;
      assert writes[j] == writes[..n][j];
    }
    forall k | from <= k < |log + [e]|
      ensures exists j :: 0 <= j < |writes| && (log + [e])[k].item.id == writes[j].item.id
    {
      if k < |log| {
        assert (log + [e])[k] == log[k];
      } else {
        assert (log + [e])[k].item.id == writes[n].item.id;
      }
    }
  }

  /** A saved item has no record yet. */
  lemma SavedIsNew(r: Repo, writes: seq<Write>, n: nat, before: seq<Entry>, j: nat)
    requires n < |writes| && FitsRow(r, writes, n) && writes[n].Save?
    requires r.log <= before && WrittenBy(before, |r.log|, writes[..n]) && j < |before|
    ensures before[j].item.id != writes[n].item.id
  {
    if j < |r.log| {
      assert before[j] == r.log[j];
      assert Mentions(r.log, before[j].item.id);
    } else {
      var i :| 0 <= i < n && before[j].item.id == writes[..n][i].item.id;
      assert writes[..n][i] == writes[i];
    }
  }

  /** Within a transaction too, a record goes to a file no earlier than those of its item before it. */
  lemma {:induction false} AppendsFollowClock(r: Repo, writes: seq<Write>, committed: bool)
    requires DayOrdered(r.log) && OnTime(r.log, r.now)
    requires InTime(r.now, writes) && forall k :: 0 <= k < |writes| ==> FitsRow(r, writes, k)
    ensures var log := r.log + Appends(r.index, writes, committed);
            DayOrdered(log) && OnTime(log, Latest(r.now, writes)) && WrittenBy(log, |r.log|, writes)
  {
    hide DayOrdered, OnTime, WrittenBy, FitsRow, AllIndexed;
    if writes == [] {
      assert r.log + [] == r.log;
      NothingWritten(r.log);
    } else {
      var n := |writes| - 1;
      forall k | 0 <= k < n
        ensures FitsRow(r, writes[..n], k)
      {
        FitsPrefix(r, writes, n, k);
      }
      AppendsFollowClock(r, writes[..n], committed);
      var before := r.log + Appends(r.index, writes[..n], committed);
      var e := Entry(FiledUnder(writes[n]), writes[n].item, committed);
      WrittenByOneMore(before, |r.log|, writes, n, e);
      if AllIndexed(r.index, writes[..n]).Ok? {
        assert r.log + Appends(r.index, writes, committed) == before + [e];
        NextFollows(r, writes, n, before, e);
      } else {
        LaterOnTime(before, Latest(r.now, writes[..n]), writes[n].at);
      }
    }
  }

  lemma NothingWritten(log: seq<Entry>)
    ensures WrittenBy(log, |log|, [])
  {
  }

  lemma FitsPrefix(r: Repo, writes: seq<Write>, n: nat, k: nat)
    requires k < n <= |writes| && FitsRow(r, writes, k)
    ensures FitsRow(r, writes[..n], k)
  {
    assert writes[..n][..k] == writes[..k];
  }

  lemma LaterOnTime(log: seq<Entry>, now: Time, later: Time)
    requires OnTime(log, now) && now <= later
    ensures OnTime(log, later)
  {
    DaysFollowTime(now, later);
  }

  lemma NextFollows(r: Repo, writes: seq<Write>, n: nat, before: seq<Entry>, e: Entry)
    requires n < |writes| && InTime(r.now, writes) && FitsRow(r, writes, n) && e.item == writes[n].item
             && e.day == FiledUnder(writes[n])
    requires DayOrdered(before) && OnTime(before, Latest(r.now, writes[..n]))
    requires r.log <= before && WrittenBy(before, |r.log|, writes[..n])
    ensures DayOrdered(before + [e]) && OnTime(before + [e], writes[n].at)
  {
    hide FitsRow, WrittenBy, DayOrdered;
    var now := Latest(r.now, writes[..n]);
    DaysFollowTime(now, writes[n].at);
    DaysFollowTime(if writes[n].Save? then writes[n].item.registeredAt else writes[n].at, writes[n].at);
    forall j | 0 <= j < |before| && before[j].item.id == e.item.id
      ensures before[j].day <= e.day
    {
      if writes[n].Save? {
        SavedIsNew(r, writes, n, before, j);
      }
    }
    EntryFollows(before, e, now, writes[n].at);
  }

  lemma PerformKeepsSound(r: Repo, tx: Tx)
    requires Sound(r) && WellMade(r, tx)
    ensures Sound(Perform(r, tx))
  {
    AppendsFollowClock(r, tx.writes, Commits(r.index, tx));
    if Commits(r.index, tx) {
      CommittedIsIndexed(r, tx.writes);
    } else {
      RolledBackIsIgnored(r.log, r.index, tx.writes);
    }
  }

  lemma {:induction false} RunSound(start: Time, txs: seq<Tx>)
    requires WellMadeRun(start, txs)
    ensures Sound(After(start, txs))
  {
    if txs != [] {
      var n := |txs| - 1;
      forall k | 0 <= k < n
        ensures WellMade(After(start, txs[..n][..k]), txs[..n][k])
      {
        assert txs[..n][..k] == txs[..k];
      }
      RunSound(start, txs[..n]);
      PerformKeepsSound(After(start, txs[..n]), txs[n]);
    }
  }

  /******* Main results *******/

  /** Entry k is the last record of its item. */
  predicate LastWord(log: seq<Entry>, k: int) {
    0 <= k < |log| && forall j :: k < j < |log| ==> log[j].item.id != log[k].item.id
  }

  lemma {:induction false} LastWordIsFound(log: seq<Entry>, id: Id)
    ensures id !in LastRecords(log) ==> id !in LastCommitted(log)
    ensures id in LastRecords(log) ==>
              exists k :: LastWord(log, k) && log[k].item.id == id && log[k].item == LastRecords(log)[id]
                          && (log[k].committed ==> id in LastCommitted(log) && LastCommitted(log)[id] == log[k].item)
  {
    if log != [] {
      var n := |log| - 1;
      if log[n].item.id == id {
        assert LastWord(log, n);
      } else {
        LastWordIsFound(log[..n], id);
        if id in LastRecords(log) {
          var k :| LastWord(log[..n], k) && log[..n][k].item.id == id && log[..n][k].item == LastRecords(log[..n])[id]
                   && (log[..n][k].committed ==>
                         id in LastCommitted(log[..n]) && LastCommitted(log[..n])[id] == log[..n][k].item);
          assert LastWord(log, k) && log[k] == log[..n][k];
        }
      }
    }
  }

  lemma {:induction false} LastWordIsReplayed(log: seq<Entry>, k: int)
    requires LastWord(log, k)
    ensures log[k].item.id in LastRecords(log) && LastRecords(log)[log[k].item.id] == log[k].item
  {
    var n := |log| - 1;
    if k < n {
      assert log[n].item.id != log[k].item.id;
      assert forall j :: k < j < n ==> log[..n][j] == log[j];
      LastWordIsReplayed(log[..n], k);
    }
  }

  /** Every rolled-back record that is the last word on its item says what the index says anyway. */
  ghost predicate RollbacksAreHarmless(log: seq<Entry>, index: Index) {
    forall k :: LastWord(log, k) && !log[k].committed ==> Lookup(index, log[k].item.id) == Some(log[k].item)
  }

  /** Entry k is the last committed record of its item. */
  predicate LastCommit(log: seq<Entry>, k: int) {
    0 <= k < |log| && log[k].committed
    && forall j :: k < j < |log| && log[j].committed ==> log[j].item.id != log[k].item.id
  }

  lemma {:induction false} LastCommitIsIndexed(log: seq<Entry>, k: int)
    requires LastCommit(log, k)
    ensures Lookup(LastCommitted(log), log[k].item.id) == Some(log[k].item)
  {
    var n := |log| - 1;
    if k < n {
      assert log[n].committed ==> log[n].item.id != log[k].item.id;
      assert forall j :: k < j < n ==> log[..n][j] == log[j];
      LastCommitIsIndexed(log[..n], k);
    }
  }

  lemma LastIsCommittedIff(log: seq<Entry>)
    ensures LastRecords(log) == LastCommitted(log) <==> RollbacksAreHarmless(log, LastCommitted(log))
  {
    forall k | LastWord(log, k)
      ensures Lookup(LastRecords(log), log[k].item.id) == Some(log[k].item)
    {
      LastWordIsReplayed(log, k);
    }
    if RollbacksAreHarmless(log, LastCommitted(log)) {
      forall id
        ensures Lookup(LastRecords(log), id) == Lookup(LastCommitted(log), id)
      {
        LastWordIsFound(log, id);
      }
      SameLookups(LastRecords(log), LastCommitted(log));
    }
  }

  /** With rollbacks, replay gives the index exactly if the rollbacks are harmless in this sense. */
  lemma ReplayIsIndexIff(start: Time, txs: seq<Tx>, days: seq<int>)
    requires WellMadeRun(start, txs) && FilesOf(After(start, txs).log, days)
    ensures Replay(After(start, txs).log, days) == After(start, txs).index
            <==> RollbacksAreHarmless(After(start, txs).log, After(start, txs).index)
  {
    hide LastRecords, LastCommitted, RollbacksAreHarmless, WellMadeRun, FilesOf;
    RunSound(start, txs);
    ReplayKeepsLastRecords(After(start, txs).log, days);
    LastIsCommittedIff(After(start, txs).log);
  }

  /** Every item of the index can be found in the log, rollbacks or not. */
  lemma IndexIsLogged(start: Time, txs: seq<Tx>, days: seq<int>)
    requires WellMadeRun(start, txs) && FilesOf(After(start, txs).log, days)
    ensures After(start, txs).index.Keys <= Replay(After(start, txs).log, days).Keys
  {
    RunSound(start, txs);
    var r := After(start, txs);
    ReplayKeepsLastRecords(r.log, days);
    forall id | id in r.index
      ensures id in LastRecords(r.log)
    {
      LastWordIsFound(r.log, id);
    }
  }

  lemma {:induction false} AllCommitted(start: Time, txs: seq<Tx>)
    requires forall n :: 0 <= n < |txs| ==> Commits(After(start, txs[..n]).index, txs[n])
    ensures forall k :: 0 <= k < |After(start, txs).log| ==> After(start, txs).log[k].committed
  {
    if txs != [] {
      var n := |txs| - 1;
      forall k | 0 <= k < n
        ensures Commits(After(start, txs[..n][..k]).index, txs[..n][k])
      {
        assert txs[..n][..k] == txs[..k];
      }
      AllCommitted(start, txs[..n]);
      AppendsAreMarked(After(start, txs[..n]).index, txs[n].writes, true);
    }
  }

  lemma {:induction false} AppendsAreMarked(index: Index, writes: seq<Write>, committed: bool)
    ensures forall e <- Appends(index, writes, committed) :: e.committed == committed
  {
    if writes != [] {
      AppendsAreMarked(index, writes[..|writes| - 1], committed);
    }
  }

  /** Without rollbacks, replaying the log gives exactly the items of the index, although items were updated
      from reads of any age. */
  lemma ReplayRefinesIndex(start: Time, txs: seq<Tx>, days: seq<int>)
    requires WellMadeRun(start, txs) && FilesOf(After(start, txs).log, days)
    requires forall n :: 0 <= n < |txs| ==> Commits(After(start, txs[..n]).index, txs[n])
    ensures Replay(After(start, txs).log, days) == After(start, txs).index
  {
    hide WellMadeRun, FilesOf, Replay, Commits;
    AllCommitted(start, txs);
    ReplayIsIndexIff(start, txs, days);
  }

  /** A rolled-back update comes back to life when the index is rebuilt. */
  lemma RollbackResurrects() returns (txs: seq<Tx>, days: seq<int>)
    ensures WellMadeRun(0, txs) && FilesOf(After(0, txs).log, days)
    ensures Replay(After(0, txs).log, days) != After(0, txs).index
  {
    var item := Item(1, "r", "t", "", "", "", [], "", [], StatusAdjudicated, "d", [], 1, 0, "u", 9, 0, "", None, None,
                     "", 0);
    var gone := item.(status := StatusCancelled);
    txs := [Tx([Save(item, 0)], false), Tx([Update(gone, 0)], true)];
    days := [0];
    hide WellMadeRun, After, Replay, RollbacksAreHarmless;
    ExampleRun(item, gone);
    RollbackIsHarmful(item, gone);
    ReplayIsIndexIff(0, txs, days);
  }

  lemma RollbackIsHarmful(item: Item, gone: Item)
    requires item.id == gone.id && item != gone
    ensures !RollbacksAreHarmless([Entry(0, item, true), Entry(0, gone, false)], map[item.id := item])
  {
    assert LastWord([Entry(0, item, true), Entry(0, gone, false)], 1);
  }

  lemma ExampleRun(item: Item, gone: Item)
    requires item.id == gone.id && item.externalRef == gone.externalRef && item.registeredAt == gone.registeredAt == 0
    requires item.registeredBy == gone.registeredBy && item != gone
    ensures var txs := [Tx([Save(item, 0)], false), Tx([Update(gone, 0)], true)];
            var r := After(0, txs);
            && WellMadeRun(0, txs) && r.log == [Entry(0, item, true), Entry(0, gone, false)]
            && r.index == map[item.id := item]
  {
    var first, second := Tx([Save(item, 0)], false), Tx([Update(gone, 0)], true);
    var txs := [first, second];
    assert txs[..1] == [first] && txs[..0] == [] && [first][..0] == [];
    assert first.writes[..0] == [] && second.writes[..0] == [];
    var one := After(0, [first]);
    assert After(0, []) == EmptyRepo(0);
    assert one == Perform(EmptyRepo(0), first);
    assert one.index == map[item.id := item] && one.log == [Entry(0, item, true)];
    assert After(0, txs) == Perform(one, second);
    assert FitsRow(EmptyRepo(0), first.writes, 0) && FitsRow(one, second.writes, 0);
    assert WellMade(EmptyRepo(0), first) && WellMade(one, second);
  }
}
