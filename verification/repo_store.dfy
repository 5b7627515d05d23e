/** internal/repo/store.go and the item part of internal/repo/rebuild.go, down to the bytes of the shards. */
module RepoStores {
  import opened Outcomes
  import opened Durations
  import opened RoutingDomain
  import Desks
  import opened Framing
  import opened ShardWriters
  import opened Replays
  import opened Queries

  /** json.Marshal and json.Unmarshal of an item, of which only this is used: they are inverse, and an encoded
      item is not empty, has no newline and does not end in a carriage return. It may be of any length. */
  datatype Codec = Codec(encode: Item -> bytes, decode: bytes -> Option<Item>)
  {
    ghost predicate Sound() {
      forall item :: decode(encode(item)) == Some(item) && Plain(encode(item))
    }
  }

  predicate Plain(record: bytes) {
    record != [] && NEWLINE !in record && record[|record| - 1] != CARRIAGE_RETURN
  }

  function EncodeAll(codec: Codec, items: seq<Item>): seq<bytes> {
    seq(|items|, k requires 0 <= k < |items| => codec.encode(items[k]))
  }

  lemma EncodeOneMore(codec: Codec, items: seq<Item>, item: Item)
    ensures EncodeAll(codec, items + [item]) == EncodeAll(codec, items) + [codec.encode(item)]
  {
  }

  function ItemShard(day: int): Shard {
    Shard("items", day)
  }

  datatype Report = Report(totalShards: nat, indexedShards: nat, skippedShards: nat, corrupted: seq<Path>)

  /** recordCollector.add over raw records; what does not parse is dropped. */
  function AddRecords(codec: Codec, collected: Index, records: seq<bytes>): Index {
    if records == [] then collected
    else
      var before, item := AddRecords(codec, collected, records[..|records| - 1]), codec.decode(records[|records| - 1]);
      if item.Some? then before[item.value.id := item.value] else before
  }

  /** The collected items after the given files; an unreadable file adds nothing. */
  function ReplayBytes(codec: Codec, files: map<Path, bytes>, paths: seq<Path>): Index {
    if paths == [] then map[]
    else
      var before := ReplayBytes(codec, files, paths[..|paths| - 1]);
      var records := Records(ContentOf(files, paths[|paths| - 1]), 0);
      if records.Err? then before else AddRecords(codec, before, records.value)
  }

  function DaysOf(paths: seq<Path>): seq<int> {
    seq(|paths|, k requires 0 <= k < |paths| => paths[k].day)
  }

  class RepoStore {
    const codec: Codec
    const writer: Writer
    const start: Time
    var index: Index
    ghost var txs: seq<Tx>

    ghost function Repo(): Repo
      reads this
    {
      After(start, txs)
    }

    /** Each day's shard holds the day's records, in the order of appending. */
    ghost predicate Logged(log: seq<Entry>)
      reads writer
    {
      forall day :: writer.Log(ItemShard(day)) == EncodeAll(codec, DayItems(log, day))
    }

    ghost predicate Valid()
      reads this, writer
    {
      writer.Valid() && index == Repo().index && Logged(Repo().log)
    }

    constructor (codec: Codec, maxShardSize: int, now: Time)
      ensures Valid() && fresh(writer) && txs == [] && index == map[]
      ensures this.codec == codec && start == now && writer.maxShardSize == maxShardSize
    {
      this.codec, start, index, txs := codec, now, map[], [];
      writer := new Writer(maxShardSize);
    }

    /** The record goes to the log first; the index may still refuse the row. */
    method SaveItem(item: Item, at: Time, ghost log: seq<Entry>, ghost committed: bool) returns (err: Option<Error>)
      requires writer.Valid() && Logged(log)
      modifies this`index, writer
      ensures writer.Valid() && Logged(log + [Entry(DayOf(item.registeredAt), item, committed)])
      ensures match Indexed(old(index), Save(item, at))
              case Ok(i) => err.None? && index == i
              case Err(e) => err == Some(e) && index == old(index)
      ensures err == if item.id in old(index)
                        || exists i :: i in old(index) && old(index)[i].externalRef == item.externalRef
                     then Some(ConstraintViolated) else None
      ensures index == if err.None? then old(index)[item.id := item] else old(index)
    {
      var loc := writer.Append(ItemShard(DayOf(item.registeredAt)), codec.encode(item));
      LoggedOneMore(old(writer.cut), log, Entry(FiledUnder(Save(item, at)), item, committed));
      if item.id in index || exists i :: i in index && index[i].externalRef == item.externalRef {
        return Some(ConstraintViolated);
      }
      index := index[item.id := item];
      return None;
    }

    method UpdateItem(item: Item, at: Time, ghost log: seq<Entry>, ghost committed: bool) returns (err: Option<Error>)
      requires writer.Valid() && Logged(log)
      modifies this`index, writer
      ensures writer.Valid() && Logged(log + [Entry(DayOf(at), item, committed)])
      ensures match Indexed(old(index), Update(item, at))
              case Ok(i) => err.None? && index == i
              case Err(e) => err == Some(e) && index == old(index)
      ensures err == if item.id in old(index) then None else Some(NotFound)
      ensures index.Keys == old(index).Keys && forall i :: i in index ==>
                index[i] == if i != item.id then old(index)[i]
                            else item.(id := old(index)[i].id, externalRef := old(index)[i].externalRef,
                                       registeredAt := old(index)[i].registeredAt,
                                       registeredBy := old(index)[i].registeredBy)
    {
      var loc := writer.Append(ItemShard(DayOf(at)), codec.encode(item));
      LoggedOneMore(old(writer.cut), log, Entry(FiledUnder(Update(item, at)), item, committed));
      if item.id !in index {
        return Some(NotFound);
      }
      index := index[item.id := Desks.SetItem(index[item.id], item)];
      return None;
    }

    lemma LoggedOneMore(cut: map<Shard, Segments>, log: seq<Entry>, e: Entry)
      requires forall day :: Flatten(SegmentsIn(cut, ItemShard(day))) == EncodeAll(codec, DayItems(log, day))
      requires writer.Log(ItemShard(e.day)) == Flatten(SegmentsIn(cut, ItemShard(e.day))) + [codec.encode(e.item)]
      requires forall day :: day != e.day ==> writer.Log(ItemShard(day)) == Flatten(SegmentsIn(cut, ItemShard(day)))
      ensures Logged(log + [e])
    {
      hide Flatten, DayItems, EncodeAll, SegmentsIn;
      forall day
        ensures writer.Log(ItemShard(day)) == EncodeAll(codec, DayItems(log + [e], day))
      {
        DayItemsGrow(log, e, day);
        EncodeOneMore(codec, DayItems(log, day), e.item);
      }
    }

    /** The writes of a transaction, up to the first that fails. */
    method Execute(writes: seq<Write>, ghost log: seq<Entry>, ghost committed: bool) returns (err: Option<Error>)
      requires writer.Valid() && Logged(log)
      modifies this`index, writer
      ensures writer.Valid() && Logged(log + Appends(old(index), writes, committed))
      ensures err.None? <==> AllIndexed(old(index), writes).Ok?
      ensures err.None? ==> AllIndexed(old(index), writes) == Ok(index)
    {
      hide Logged, Holds, Indexed, Appends, AllIndexed;
      ghost var before := index;
      NoWrites(before, log, committed);
      assert writes[..0] == [];
      err := None;
      for k := 0 to |writes|
        invariant err.None? && writer.Valid() && AllIndexed(before, writes[..k]) == Ok(index)
        invariant Logged(log + Appends(before, writes[..k], committed))
      {
        ghost var soFar := log + Appends(before, writes[..k], committed);
        OneMoreWrite(before, writes, k, log, committed);
        match writes[k] {
          case Save(item, at) => err := SaveItem(item, at, soFar, committed);
          case Update(item, at) => err := UpdateItem(item, at, soFar, committed);
        }
        if err.Some? {
          NothingAfterFailure(before, writes, k + 1, committed);
          return;
        }
      }
      assert writes[..|writes|] == writes;
    }

    /** WithTx around a list of item writes: a failure undoes the index, never the log. */
    method WithTx(tx: Tx) returns (err: Option<Error>)
      requires Valid()
      modifies this, writer
      ensures Valid() && txs == old(txs) + [tx] && Repo() == Perform(old(Repo()), tx)
      ensures err.None? <==> Commits(old(index), tx)
      ensures index == if err.None? then AllIndexed(old(index), tx.writes).value else old(index)
    {
      hide Logged, Holds, Indexed, Appends, AllIndexed, FiledUnder;
      var before := index;
      err := Execute(tx.writes, Repo().log, Commits(index, tx));
      if err.None? && tx.storageFails {
        err := Some(StorageFailure);
      }
      if err.Some? {
        index := before;
      }
      txs := txs + [tx];
      assert txs[..|txs| - 1] == old(txs);
    }

    /** The replay part of RebuildIndex: the base files of the items in path order, unreadable ones skipped
        and counted; the last record of each identifier stays. */
    method CollectItems() returns (items: Index, report: Report, ghost paths: seq<Path>)
      ensures Distinct(paths) && Ascending(DaysOf(paths))
      ensures forall p :: p in paths <==> p in writer.files && p.entity == "items" && p.segment == 0
      ensures items == ReplayBytes(codec, writer.files, paths)
      ensures report.totalShards == |paths| == report.indexedShards + report.skippedShards
      ensures report.skippedShards == |report.corrupted|
      ensures forall p :: p in report.corrupted <==> p in paths && Records(writer.files[p], 0).Err?
    {
      hide Records, AddRecords, Frame;
      var rank := map p | p in writer.files && p.entity == "items" && p.segment == 0 :: By(p.day);
      var order := Order(rank);
      paths := order;
      PathsAscend(writer.files, order, rank);
      items, report := map[], Report(|order|, 0, 0, []);
      for k := 0 to |order|
        invariant items == ReplayBytes(codec, writer.files, paths[..k])
        invariant report.totalShards == |paths| && report.indexedShards + report.skippedShards == k
        invariant report.skippedShards == |report.corrupted|
        invariant forall p :: p in report.corrupted <==> p in paths[..k] && Records(ContentOf(writer.files, p), 0).Err?
      {
        assert order[k] in order;
        assert paths[..k + 1][..k] == paths[..k] && paths[..k + 1] == paths[..k] + [paths[k]];
        var records := ReadAll(writer.files[order[k]]);
        if records.Err? {
          report := report.(corrupted := report.corrupted + [order[k]], skippedShards := report.skippedShards + 1);
          continue;
        }
        items := Collect(items, records.value);
        report := report.(indexedShards := report.indexedShards + 1);
      }
      assert paths[..|paths|] == paths;
    }

    method Collect(collected: Index, records: seq<bytes>) returns (items: Index)
      ensures items == AddRecords(codec, collected, records)
    {
      items := collected;
      for k := 0 to |records|
        invariant items == AddRecords(codec, collected, records[..k])
      {
        assert records[..k + 1][..k] == records[..k];
        var item := codec.decode(records[k]);
        if item.Some? {
          items := items[item.value.id := item.value];
        }
      }
      assert records[..|records|] == records;
    }
  }

  lemma PathsAscend(files: map<Path, bytes>, paths: seq<Path>, rank: map<Path, Rank>)
    requires rank == map p | p in files && p.entity == "items" && p.segment == 0 :: By(p.day)
    requires AllByRank(rank, paths)
    ensures Ascending(DaysOf(paths))
    ensures forall p :: p in paths <==> p in files && p.entity == "items" && p.segment == 0
  {
    forall i, j | 0 <= i < j < |paths|
      ensures paths[i].day < paths[j].day
    {
      assert paths[i] in paths && paths[j] in paths && paths[i] in rank && paths[j] in rank;
      assert paths[i] == Path("items", paths[i].day, 0) && paths[j] == Path("items", paths[j].day, 0);
    }
  }

  lemma NoWrites(index: Index, log: seq<Entry>, committed: bool)
    ensures AllIndexed(index, []) == Ok(index) && log + Appends(index, [], committed) == log
  {
  }

  lemma OneMoreWrite(index: Index, writes: seq<Write>, k: nat, log: seq<Entry>, committed: bool)
    requires k < |writes| && AllIndexed(index, writes[..k]).Ok?
    ensures AllIndexed(index, writes[..k + 1]) == Indexed(AllIndexed(index, writes[..k]).value, writes[k])
    ensures log + Appends(index, writes[..k + 1], committed)
            == log + Appends(index, writes[..k], committed) + [Entry(FiledUnder(writes[k]), writes[k].item, committed)]
  {
    hide Indexed;
    assert writes[..k + 1][..k] == writes[..k];
  }

  lemma {:induction false} NothingAfterFailure(index: Index, writes: seq<Write>, k: nat, committed: bool)
    requires k <= |writes| && AllIndexed(index, writes[..k]).Err?
    ensures AllIndexed(index, writes).Err? && Appends(index, writes, committed)
            == Appends(index, writes[..k], committed)
    decreases |writes| - k
  {
    if k == |writes| {
      assert writes[..k] == writes;
    } else {
      assert writes[..k + 1][..k] == writes[..k];
      NothingAfterFailure(index, writes, k + 1, committed);
    }
  }

  /******* Replay from bytes *******/

  lemma {:induction false} RecordsAreItems(codec: Codec, collected: Index, items: seq<Item>)
    requires codec.Sound()
    ensures AddRecords(codec, collected, EncodeAll(codec, items)) == AddAll(collected, items)
  {
    if items != [] {
      var n := |items| - 1;
      assert EncodeAll(codec, items)[..n] == EncodeAll(codec, items[..n]);
      RecordsAreItems(codec, collected, items[..n]);
    }
  }

  lemma {:induction false} DayHasItems(log: seq<Entry>, k: nat)
    requires k < |log|
    ensures DayItems(log, log[k].day) != []
  {
    if k < |log| - 1 {
      DayHasItems(log[..|log| - 1], k);
    }
  }

  /** The rebuild reads all of a day's records: they are in one file, and each fits the scanner's buffer. */
  ghost predicate AllRead(s: RepoStore)
    reads s.writer
  {
    (forall p :: p in s.writer.files && p.entity == "items" ==> p.segment == 0)
    && forall day, r {:trigger r in s.writer.Log(ItemShard(day))} :: r in s.writer.Log(ItemShard(day)) ==>
        |r| < MAX_TOKEN
  }

  /** How many records of a day the rebuild reads: those of the first file, unless one of them is overlong. */
  function ReadSize(cut: map<Shard, Segments>, day: int): nat {
    var segments := SegmentsIn(cut, ItemShard(day));
    if segments == [] || exists r <- segments[0] :: |r| >= MAX_TOKEN then 0 else |segments[0]|
  }

  /** Entry k is among the records that the rebuild reads. */
  predicate IsRead(log: seq<Entry>, cut: map<Shard, Segments>, k: nat)
    requires k < |log|
  {
    |DayItems(log[..k], log[k].day)| < ReadSize(cut, log[k].day)
  }

  /** The entries that the rebuild reads, in the order of appending. */
  function ReadEntries(log: seq<Entry>, cut: map<Shard, Segments>): seq<Entry> {
    if log == [] then []
    else
      var n := |log| - 1;
      ReadEntries(log[..n], cut) + if IsRead(log, cut, n) then [log[n]] else []
  }

  function Take<T>(s: seq<T>, n: nat): seq<T> {
    if |s| <= n then s else s[..n]
  }

  lemma ReadEntriesGrow(log: seq<Entry>, e: Entry, cut: map<Shard, Segments>)
    ensures ReadEntries(log + [e], cut)
            == if |DayItems(log, e.day)| < ReadSize(cut, e.day) then ReadEntries(log, cut) + [e]
                else ReadEntries(log, cut)
  {
    hide DayItems, ReadSize;
    assert (log + [e])[..|log|] == log;
  }

  lemma {:induction false} ReadDayItems(log: seq<Entry>, cut: map<Shard, Segments>, day: int)
    ensures DayItems(ReadEntries(log, cut), day) == Take(DayItems(log, day), ReadSize(cut, day))
  {
    if log != [] {
      hide DayItems, ReadSize, ReadEntries;
      var before, last := log[..|log| - 1], log[|log| - 1];
      assert log == before + [last];
      ReadDayItems(before, cut, day);
      ReadEntriesGrow(before, last, cut);
      DayItemsGrow(before, last, day);
      DayItemsGrow(ReadEntries(before, cut), last, day);
    }
  }

  lemma {:induction false} ReadEntriesAreEntries(log: seq<Entry>, cut: map<Shard, Segments>)
    ensures forall e <- ReadEntries(log, cut) :: e in log
  {
    if log != [] {
      ReadEntriesAreEntries(log[..|log| - 1], cut);
    }
  }

  lemma {:induction false} ReadIsDayOrdered(log: seq<Entry>, cut: map<Shard, Segments>)
    requires DayOrdered(log)
    ensures DayOrdered(ReadEntries(log, cut))
  {
    if log != [] {
      var n := |log| - 1;
      assert forall k :: 0 <= k < n ==> log[..n][k] == log[k];
      ReadIsDayOrdered(log[..n], cut);
      ReadEntriesAreEntries(log[..n], cut);
      var read := ReadEntries(log[..n], cut);
      forall j | 0 <= j < |read| && read[j].item.id == log[n].item.id
        ensures read[j].day <= log[n].day
      {
        assert read[j] in log[..n];
        var k :| 0 <= k < n && log[..n][k] == read[j];
        assert log[k] == read[j];
      }
    }
  }

  lemma {:induction false} AllEntriesRead(log: seq<Entry>, cut: map<Shard, Segments>)
    requires forall day :: |DayItems(log, day)| <= ReadSize(cut, day)
    ensures ReadEntries(log, cut) == log
  {
    if log != [] {
      hide DayItems, ReadSize, ReadEntries;
      var before, last := log[..|log| - 1], log[|log| - 1];
      assert log == before + [last];
      forall day
        ensures |DayItems(before, day)| <= ReadSize(cut, day)
      {
        DayItemsGrow(before, last, day);
      }
      AllEntriesRead(before, cut);
      DayItemsGrow(before, last, last.day);
      ReadEntriesGrow(before, last, cut);
    }
  }

  lemma {:induction false} HeadIsPrefix(segments: Segments)
    requires segments != []
    ensures segments[0] <= Flatten(segments)
  {
    if |segments| == 1 {
      assert segments[..0] == [] && Flatten(segments) == [] + segments[0] == segments[0];
    } else {
      HeadIsPrefix(segments[..|segments| - 1]);
    }
  }

  lemma EncodeTake(codec: Codec, items: seq<Item>, n: nat)
    requires n <= |items|
    ensures EncodeAll(codec, items)[..n] == EncodeAll(codec, Take(items, n))
  {
  }

  /** The first file of a day holds the day's records up to some point. It is skipped as corrupted exactly if one
      of these is overlong, and otherwise it gives the day's read entries. */
  lemma CorruptedIff(s: RepoStore, day: int)
    requires s.Valid() && s.codec.Sound()
    ensures var items := DayItems(ReadEntries(s.Repo().log, s.writer.cut), day);
            var segments, path := s.writer.SegmentsOf(ItemShard(day)), PathOf(ItemShard(day), 0);
            && (path in s.writer.files <==> segments != [])
            && (items != [] ==> path in s.writer.files)
            && (path in s.writer.files ==>
                  segments[0] <= EncodeAll(s.codec, DayItems(s.Repo().log, day))
                  && Records(s.writer.files[path], 0)
                     == if exists r <- segments[0] :: |r| >= MAX_TOKEN then Err(StorageFailure)
                        else Ok(EncodeAll(s.codec, items)))
            && (ReadSize(s.writer.cut, day) == 0 ==> items == [])
  {
    hide Records, Frame, ReadEntries, DayItems, EncodeAll, WellCut, Flatten;
    var cut, segments := s.writer.cut, s.writer.SegmentsOf(ItemShard(day));
    var all := DayItems(s.Repo().log, day);
    assert PathHolds(s.writer.files, cut, PathOf(ItemShard(day), 0));
    ReadDayItems(s.Repo().log, cut, day);
    if segments != [] {
      HeadIsPrefix(segments);
      assert segments[0] <= EncodeAll(s.codec, all) by {
        assert s.writer.Log(ItemShard(day)) == EncodeAll(s.codec, all);
      }
      SegmentReads(s.codec, all, segments[0]);
    }
  }

  /** What scanning gives for the first records of a day. */
  lemma SegmentReads(codec: Codec, items: seq<Item>, records: seq<bytes>)
    requires codec.Sound() && records <= EncodeAll(codec, items)
    ensures Records(Frame(records), 0)
            == if exists r <- records :: |r| >= MAX_TOKEN then Err(StorageFailure)
               else Ok(EncodeAll(codec, Take(items, |records|)))
  {
    hide Records, Frame;
    forall r | r in records
      ensures Plain(r)
    {
      var k :| 0 <= k < |records| && records[k] == r;
      assert r == codec.encode(items[k]);
    }
    OverlongIsFatal(records);
    if exists r <- records :: |r| >= MAX_TOKEN {
      OnlyOneError(Frame(records), 0);
    } else {
      assert forall r <- records :: Frameable(r);
      FramingRoundTrip(records);
      EncodeTake(codec, items, |records|);
      assert EncodeAll(codec, items)[..|records|] == records;
    }
  }

  lemma {:induction false} BytesAreReplay(s: RepoStore, paths: seq<Path>)
    requires s.Valid() && s.codec.Sound()
    requires forall p <- paths :: p in s.writer.files && p.entity == "items" && p.segment == 0
    ensures ReplayBytes(s.codec, s.writer.files, paths)
            == Replay(ReadEntries(s.Repo().log, s.writer.cut), DaysOf(paths))
  {
    hide RepoStore.Valid, Codec.Sound, Records, Frame;
    if paths != [] {
      var n, read := |paths| - 1, ReadEntries(s.Repo().log, s.writer.cut);
      assert DaysOf(paths)[..n] == DaysOf(paths[..n]);
      BytesAreReplay(s, paths[..n]);
      assert paths[n] in paths && paths[n] == PathOf(ItemShard(paths[n].day), 0);
      CorruptedIff(s, paths[n].day);
      RecordsAreItems(s.codec, Replay(read, DaysOf(paths[..n])), DayItems(read, paths[n].day));
    }
  }

  lemma FilesAreComplete(s: RepoStore, paths: seq<Path>)
    requires s.Valid() && s.codec.Sound() && Ascending(DaysOf(paths))
    requires forall p :: p in paths <==> p in s.writer.files && p.entity == "items" && p.segment == 0
    ensures FilesOf(ReadEntries(s.Repo().log, s.writer.cut), DaysOf(paths))
  {
    hide RepoStore.Valid, Codec.Sound, Records, Frame;
    var read := ReadEntries(s.Repo().log, s.writer.cut);
    forall k | 0 <= k < |read|
      ensures read[k].day in DaysOf(paths)
    {
      DayHasItems(read, k);
      CorruptedIff(s, read[k].day);
      var path := PathOf(ItemShard(read[k].day), 0);
      assert path in paths;
      var j :| 0 <= j < |paths| && paths[j] == path;
      assert DaysOf(paths)[j] == read[k].day;
    }
  }

  lemma AllReadKeepsAll(s: RepoStore)
    requires s.Valid() && AllRead(s)
    ensures ReadEntries(s.Repo().log, s.writer.cut) == s.Repo().log
  {
    forall day
      ensures |DayItems(s.Repo().log, day)| <= ReadSize(s.writer.cut, day)
    {
      var segments := s.writer.SegmentsOf(ItemShard(day));
      assert PathHolds(s.writer.files, s.writer.cut, PathOf(ItemShard(day), 1));
      assert s.writer.Log(ItemShard(day)) == EncodeAll(s.codec, DayItems(s.Repo().log, day));
      if segments != [] {
        assert |segments| == 1 && segments[..0] == [] && Flatten(segments) == [] + segments[0] == segments[0];
      }
    }
    AllEntriesRead(s.Repo().log, s.writer.cut);
  }

  /******* What is read against what is indexed *******/

  /** A last commit that the rebuild does not read is repeated by the last record that it does read of the item. */
  ghost predicate UnreadCommitsAreHarmless(log: seq<Entry>, cut: map<Shard, Segments>) {
    forall k :: LastCommit(log, k) && !IsRead(log, cut, k) ==>
      Lookup(LastRecords(ReadEntries(log, cut)), log[k].item.id) == Some(log[k].item)
  }

  /** The last record read of the item is rolled back. */
  ghost predicate EndsInRollback(read: seq<Entry>, id: Id) {
    exists k :: LastWord(read, k) && !read[k].committed && read[k].item.id == id
  }

  /** The last commit of the item is not read. */
  ghost predicate LosesCommit(log: seq<Entry>, cut: map<Shard, Segments>, id: Id) {
    exists k :: LastCommit(log, k) && !IsRead(log, cut, k) && log[k].item.id == id
  }

  lemma RollbackStays(read: seq<Entry>, e: Entry, id: Id)
    requires EndsInRollback(read, id) && e.item.id != id
    ensures EndsInRollback(read + [e], id)
  {
    var k :| LastWord(read, k) && !read[k].committed && read[k].item.id == id;
    assert LastWord(read + [e], k);
  }

  lemma LossStays(log: seq<Entry>, e: Entry, cut: map<Shard, Segments>, id: Id)
    requires LosesCommit(log, cut, id) && (e.committed ==> e.item.id != id)
    ensures LosesCommit(log + [e], cut, id)
  {
    hide DayItems, ReadSize;
    var k :| LastCommit(log, k) && !IsRead(log, cut, k) && log[k].item.id == id;
    assert (log + [e])[..k] == log[..k];
    assert LastCommit(log + [e], k) && !IsRead(log + [e], cut, k);
  }

  /** For each item, what is read and what is indexed agree, or the last record read is rolled back, or the last
      commit is not read. */
  lemma {:induction false} ReadAgainstIndexed(log: seq<Entry>, cut: map<Shard, Segments>, id: Id)
    ensures Lookup(LastRecords(ReadEntries(log, cut)), id) == Lookup(LastCommitted(log), id)
            || EndsInRollback(ReadEntries(log, cut), id) || LosesCommit(log, cut, id)
  {
    if log != [] {
      var n, e := |log| - 1, log[|log| - 1];
      var before, read := log[..n], ReadEntries(log[..n], cut);
      assert log == before + [e];
      ReadAgainstIndexed(before, cut, id);
      hide DayItems, ReadSize;
      ReadEntriesGrow(before, e, cut);
      LastCommittedAppends(before, e);
      if IsRead(log, cut, n) {
        LastRecordsAppend(read, e);
        if e.item.id == id && !e.committed {
          assert LastWord(read + [e], |read|);
        }
      } else if e.item.id == id && e.committed {
        assert LastCommit(log, n);
      }
      if e.item.id != id && EndsInRollback(read, id) {
        RollbackStays(read, e, id);
      }
      if LosesCommit(before, cut, id) && (e.committed ==> e.item.id != id) {
        LossStays(before, e, cut, id);
      }
    }
  }

  lemma LastRecordsAppend(log: seq<Entry>, e: Entry)
    ensures LastRecords(log + [e]) == LastRecords(log)[e.item.id := e.item]
  {
    assert (log + [e])[..|log|] == log;
  }

  /** What is read is what is indexed exactly if neither rollbacks nor unread commits do harm. */
  lemma ReadIsIndexedIff(log: seq<Entry>, cut: map<Shard, Segments>)
    ensures var read := ReadEntries(log, cut);
            LastRecords(read) == LastCommitted(log)
            <==> RollbacksAreHarmless(read, LastCommitted(log)) && UnreadCommitsAreHarmless(log, cut)
  {
    hide ReadEntries, IsRead, LastRecords, LastCommitted;
    var read := ReadEntries(log, cut);
    forall k | LastWord(read, k)
      ensures Lookup(LastRecords(read), read[k].item.id) == Some(read[k].item)
    {
      LastWordIsReplayed(read, k);
    }
    forall k | LastCommit(log, k)
      ensures Lookup(LastCommitted(log), log[k].item.id) == Some(log[k].item)
    {
      LastCommitIsIndexed(log, k);
    }
    if RollbacksAreHarmless(read, LastCommitted(log)) && UnreadCommitsAreHarmless(log, cut) {
      forall id
        ensures Lookup(LastRecords(read), id) == Lookup(LastCommitted(log), id)
      {
        ReadAgainstIndexed(log, cut, id);
      }
      SameLookups(LastRecords(read), LastCommitted(log));
    }
  }

  /** From bytes to items: of the records it reads, RebuildIndex collects the last one of each item. That is the
      index exactly if two things do no harm. A rolled-back record that is the last one read of its item must
      repeat what the index says. And a last commit that is not read, because its file has rotated or is spoilt by
      an overlong record, must be repeated by the last record of its item that is. When all is read, it comes
      down to the rollbacks alone. */
  lemma RebuildRestoresItems(s: RepoStore, paths: seq<Path>)
    requires s.Valid() && s.codec.Sound() && WellMadeRun(s.start, s.txs) && Ascending(DaysOf(paths))
    requires forall p :: p in paths <==> p in s.writer.files && p.entity == "items" && p.segment == 0
    ensures var read := ReadEntries(s.Repo().log, s.writer.cut);
            && ReplayBytes(s.codec, s.writer.files, paths) == LastRecords(read)
            && (ReplayBytes(s.codec, s.writer.files, paths) == s.index
                <==> RollbacksAreHarmless(read, s.index) && UnreadCommitsAreHarmless(s.Repo().log, s.writer.cut))
    ensures AllRead(s) ==>
              (ReplayBytes(s.codec, s.writer.files, paths) == s.index <==> RollbacksAreHarmless(s.Repo().log, s.index))
  {
    hide RollbacksAreHarmless, UnreadCommitsAreHarmless, ReadEntries, LastRecords, ReplayBytes, WellMadeRun;
    var log, cut := s.Repo().log, s.writer.cut;
    var read := ReadEntries(log, cut);
    FilesAreComplete(s, paths);
    BytesAreReplay(s, paths);
    RunSound(s.start, s.txs);
    ReadIsDayOrdered(log, cut);
    ReplayKeepsLastRecords(read, DaysOf(paths));
    ReadIsIndexedIff(log, cut);
    if AllRead(s) {
      AllReadKeepsAll(s);
      ReplayIsIndexIff(s.start, s.txs, DaysOf(paths));
    }
  }

  /******* What rotation and overlong records cost *******/

  function TwoSaves(first: Item, second: Item): seq<Tx> {
    [Tx([Save(first, 0)], false), Tx([Save(second, 0)], false)]
  }

  lemma TwoSavesAreMade(first: Item, second: Item)
    requires first.id != second.id && first.externalRef != second.externalRef
    requires first.registeredAt == second.registeredAt == 0
    ensures var txs := TwoSaves(first, second); var r := After(0, txs);
            && WellMadeRun(0, txs) && Commits(map[], txs[0]) && Commits(After(0, txs[..1]).index, txs[1])
            && r.log == [Entry(0, first, true), Entry(0, second, true)]
            && r.index == map[first.id := first, second.id := second]
  {
    var one, two := TwoSaves(first, second)[0], TwoSaves(first, second)[1];
    var txs := [one, two];
    assert txs[..1] == [one] && txs[..0] == [] && [one][..0] == [] && one.writes[..0] == [] && two.writes[..0] == [];
    var r := After(0, [one]);
    assert After(0, []) == EmptyRepo(0) && r == Perform(EmptyRepo(0), one);
    assert r.index == map[first.id := first] && r.log == [Entry(0, first, true)];
    assert After(0, txs) == Perform(r, two);
    assert FitsRow(EmptyRepo(0), one.writes, 0) && FitsRow(r, two.writes, 0);
    assert WellMade(EmptyRepo(0), one) && WellMade(r, two);
  }

  /** With a limit of one byte every record has a segment of its own. */
  lemma OneRecordEach(segments: Segments, records: seq<bytes>)
    requires WellCut(1, segments) && Flatten(segments) == records && |records| == 2
    ensures segments != [] && segments[0] == [records[0]]
  {
    HeadIsPrefix(segments);
  }

  lemma ReadOfTwo(cut: map<Shard, Segments>, first: Item, second: Item)
    ensures var log := [Entry(0, first, true), Entry(0, second, true)];
            && DayItems(log, 0) == [first, second]
            && (ReadSize(cut, 0) == 0 ==> ReadEntries(log, cut) == [])
            && (ReadSize(cut, 0) == 1 ==> ReadEntries(log, cut) == [log[0]])
  {
    hide ReadSize;
    var e, f := Entry(0, first, true), Entry(0, second, true);
    assert [] + [e] == [e] && [e] + [f] == [e, f];
    DayItemsGrow([], e, 0);
    DayItemsGrow([e], f, 0);
    ReadEntriesGrow([], e, cut);
    ReadEntriesGrow([e], f, cut);
  }

  /** The two saves are filed under the same day. */
  lemma TwoRecordsOfDay(s: RepoStore, first: Item, second: Item)
    requires s.Valid() && s.Repo().log == [Entry(0, first, true), Entry(0, second, true)]
    ensures Flatten(s.writer.SegmentsOf(ItemShard(0))) == [s.codec.encode(first), s.codec.encode(second)]
    ensures WellCut(s.writer.maxShardSize, s.writer.SegmentsOf(ItemShard(0)))
  {
    hide Flatten, DayItems;
    ReadOfTwo(s.writer.cut, first, second);
    s.writer.WellCutHere(ItemShard(0));
    assert s.writer.Log(ItemShard(0)) == EncodeAll(s.codec, DayItems(s.Repo().log, 0));
  }

  lemma OneSegment(segments: Segments, records: seq<bytes>)
    requires WellCut(0, segments) && Flatten(segments) == records && |records| == 2
    ensures segments == [records]
  {
    if |segments| == 1 {
      assert segments[..0] == [] && Flatten(segments) == [] + segments[0] == segments[0];
    }
  }

  lemma FirstIsRead(s: RepoStore, first: Item, second: Item)
    requires s.Valid() && s.Repo().log == [Entry(0, first, true), Entry(0, second, true)]
    requires s.writer.maxShardSize == 1 && |s.codec.encode(first)| < MAX_TOKEN
    ensures LastRecords(ReadEntries(s.Repo().log, s.writer.cut)) == map[first.id := first]
  {
    hide RepoStore.Valid, ReadEntries, DayItems, Flatten, WellCut;
    TwoRecordsOfDay(s, first, second);
    OneRecordEach(s.writer.SegmentsOf(ItemShard(0)), [s.codec.encode(first), s.codec.encode(second)]);
    ReadOfTwo(s.writer.cut, first, second);
    LastRecordsAppend([], Entry(0, first, true));
    assert [] + [Entry(0, first, true)] == [Entry(0, first, true)];
  }

  lemma NothingIsRead(s: RepoStore, first: Item, second: Item)
    requires s.Valid() && s.Repo().log == [Entry(0, first, true), Entry(0, second, true)]
    requires s.writer.maxShardSize == 0 && |s.codec.encode(second)| >= MAX_TOKEN
    ensures LastRecords(ReadEntries(s.Repo().log, s.writer.cut)) == map[]
  {
    hide RepoStore.Valid, ReadEntries, DayItems, Flatten, WellCut;
    TwoRecordsOfDay(s, first, second);
    OneSegment(s.writer.SegmentsOf(ItemShard(0)), [s.codec.encode(first), s.codec.encode(second)]);
    ReadOfTwo(s.writer.cut, first, second);
  }

  /** Rotation alone loses items: with a limit of one byte the second record of a day goes to a segment that the
      rebuild does not read. Both items were saved by transactions that committed, and both are in the index. */
  method RotationLosesItems(codec: Codec, first: Item, second: Item) returns (s: RepoStore, items: Index)
    requires codec.Sound() && |codec.encode(first)| < MAX_TOKEN
    requires first.id != second.id && first.externalRef != second.externalRef
    requires first.registeredAt == second.registeredAt == 0
    ensures fresh(s) && s.Valid() && s.codec == codec && s.txs == TwoSaves(first, second) && WellMadeRun(s.start, s.txs)
    ensures s.index == map[first.id := first, second.id := second]
    ensures items == map[first.id := first]
  {
    hide WellMadeRun, After, ReadEntries, Records, ReplayBytes, RollbacksAreHarmless, UnreadCommitsAreHarmless,
         RepoStore.Logged, LastRecords;
    s := new RepoStore(codec, 1, 0);
    var err := s.WithTx(Tx([Save(first, 0)], false));
    err := s.WithTx(Tx([Save(second, 0)], false));
    assert s.txs == TwoSaves(first, second);
    TwoSavesAreMade(first, second);
    ghost var paths;
    var report;
    items, report, paths := s.CollectItems();
    FirstIsRead(s, first, second);
    RebuildRestoresItems(s, paths);
  }

  /** One overlong record loses a whole day: its item commits like any other, and from then on the rebuild skips
      the file, with every item in it. */
  method OverlongLosesDay(codec: Codec, first: Item, second: Item) returns (s: RepoStore, items: Index)
    requires codec.Sound() && |codec.encode(second)| >= MAX_TOKEN
    requires first.id != second.id && first.externalRef != second.externalRef
    requires first.registeredAt == second.registeredAt == 0
    ensures fresh(s) && s.Valid() && s.codec == codec && s.txs == TwoSaves(first, second) && WellMadeRun(s.start, s.txs)
    ensures s.index == map[first.id := first, second.id := second]
    ensures items == map[]
  {
    hide WellMadeRun, After, ReadEntries, Records, ReplayBytes, RollbacksAreHarmless, UnreadCommitsAreHarmless,
         RepoStore.Logged, LastRecords;
    s := new RepoStore(codec, 0, 0);
    var err := s.WithTx(Tx([Save(first, 0)], false));
    err := s.WithTx(Tx([Save(second, 0)], false));
    assert s.txs == TwoSaves(first, second);
    TwoSavesAreMade(first, second);
    ghost var paths;
    var report;
    items, report, paths := s.CollectItems();
    NothingIsRead(s, first, second);
    RebuildRestoresItems(s, paths);
  }
}
