/** internal/shard/writer.go: records are appended to day files that rotate into numbered segments. */
module ShardWriters {
  import opened Outcomes
  import opened Framing

  /** `root/shards/<entity>/<year-month>/<day>.jsonl`, and `..._001`, `..._002`, ... for the segments after
      the first. */
  datatype Path = Path(entity: string, day: int, segment: nat)
  datatype Shard = Shard(entity: string, day: int)

  datatype Location = Location(path: Path, offset: nat, size: nat)

  function PathOf(s: Shard, segment: nat): Path {
    Path(s.entity, s.day, segment)
  }

  /** The records of a shard, segment by segment. */
  type Segments = seq<seq<bytes>>

  function Flatten(segments: Segments): seq<bytes> {
    if segments == [] then [] else Flatten(segments[..|segments| - 1]) + segments[|segments| - 1]
  }

  /** A segment is full when the next append must go elsewhere. */
  predicate Full(max: int, records: seq<bytes>) {
    max > 0 && |Frame(records)| >= max
  }

  /** Every segment but the last is full, and was not before its last append; without a limit there is only
      one segment. */
  predicate WellCut(max: int, segments: Segments) {
    && (forall i :: 0 <= i < |segments| ==> segments[i] != [] && !Full(max, segments[i][..|segments[i]| - 1]))
    && (forall i :: 0 <= i < |segments| - 1 ==> Full(max, segments[i]))
    && (max <= 0 ==> |segments| <= 1)
  }

  /** The segment that takes the next append: the last one, unless it is full. */
  function Target(max: int, segments: Segments): nat {
    if segments == [] then 0 else if Full(max, segments[|segments| - 1]) then |segments| else |segments| - 1
  }

  function Appended(max: int, segments: Segments, record: bytes): (after: Segments)
    ensures |after| == Target(max, segments) + 1
  {
    if Target(max, segments) == |segments| then segments + [[record]]
    else segments[..|segments| - 1] + [segments[|segments| - 1] + [record]]
  }

  lemma FlattenAppended(max: int, segments: Segments, record: bytes)
    ensures Flatten(Appended(max, segments, record)) == Flatten(segments) + [record]
  {
    var after := Appended(max, segments, record);
    if Target(max, segments) == |segments| {
      assert after[..|after| - 1] == segments;
    } else {
      assert after[..|after| - 1] == segments[..|segments| - 1];
    }
  }

  lemma AppendedWellCut(max: int, segments: Segments, record: bytes)
    requires WellCut(max, segments)
    ensures WellCut(max, Appended(max, segments, record))
  {
    var n, after := |segments|, Appended(max, segments, record);
    forall i | 0 <= i < |after|
      ensures after[i] != [] && !Full(max, after[i][..|after[i]| - 1])
    {
      if i < n - 1 {
        assert after[i] == segments[i];
      } else if i == n - 1 && |after| == n {
        assert after[i][..|after[i]| - 1] == segments[i];
      } else if i == n {
        assert after[i][..|after[i]| - 1] == [];
      }
    }
  }

  function ShardOf(p: Path): Shard {
    Shard(p.entity, p.day)
  }

  function SegmentsIn(cut: map<Shard, Segments>, s: Shard): Segments {
    if s in cut then cut[s] else []
  }

  /** The file at `p` is there exactly if the segment is, and holds it framed. */
  predicate PathHolds(files: map<Path, bytes>, cut: map<Shard, Segments>, p: Path) {
    && (p in files <==> p.segment < |SegmentsIn(cut, ShardOf(p))|)
    && (p in files ==> files[p] == Frame(SegmentsIn(cut, ShardOf(p))[p.segment]))
  }

  ghost predicate Holds(max: int, files: map<Path, bytes>, cut: map<Shard, Segments>) {
    (forall s :: s in cut ==> WellCut(max, cut[s])) && forall p :: PathHolds(files, cut, p)
  }

  function ContentOf(files: map<Path, bytes>, p: Path): bytes {
    if p in files then files[p] else []
  }

  /** An append changes the last segment, or opens the next. */
  lemma AppendedShape(max: int, before: Segments, record: bytes)
    ensures var after := Appended(max, before, record); var n := |after| - 1;
            && |before| - 1 <= n <= |before| && n >= 0 && after[..n] == before[..n]
            && Frame(after[n]) == (if n < |before| then Frame(before[n]) else []) + (record + [NEWLINE])
  {
    var after := Appended(max, before, record);
    var n := |after| - 1;
    if n < |before| {
      assert after[n][..|after[n]| - 1] == before[n];
    } else {
      FrameOne(record);
    }
  }

  lemma PathStillHolds(max: int, files: map<Path, bytes>, cut: map<Shard, Segments>, s: Shard, record: bytes, p: Path)
    requires forall q :: PathHolds(files, cut, q)
    ensures var after := Appended(max, SegmentsIn(cut, s), record);
            var target := PathOf(s, Target(max, SegmentsIn(cut, s)));
            PathHolds(files[target := ContentOf(files, target) + (record + [NEWLINE])], cut[s := after], p)
  {
    hide Frame, Appended, Target;
    AppendedShape(max, SegmentsIn(cut, s), record);
    var after := Appended(max, SegmentsIn(cut, s), record);
    var n := |after| - 1;
    assert PathHolds(files, cut, PathOf(s, n)) && PathHolds(files, cut, p);
    if ShardOf(p) == s && p.segment < n {
      assert after[..n][p.segment] == SegmentsIn(cut, s)[..n][p.segment];
    }
  }

  lemma AppendHolds(max: int, files: map<Path, bytes>, cut: map<Shard, Segments>, s: Shard, record: bytes)
    requires Holds(max, files, cut)
    ensures var after := Appended(max, SegmentsIn(cut, s), record);
            var target := PathOf(s, Target(max, SegmentsIn(cut, s)));
            Holds(max, files[target := ContentOf(files, target) + (record + [NEWLINE])], cut[s := after])
  {
    hide PathHolds, WellCut, Appended, Target;
    var after := Appended(max, SegmentsIn(cut, s), record);
    var target := PathOf(s, Target(max, SegmentsIn(cut, s)));
    NoSegments(max);
    AppendedWellCut(max, SegmentsIn(cut, s), record);
    var files' := files[target := ContentOf(files, target) + (record + [NEWLINE])];
    var cut' := cut[s := after];
    forall p
      ensures PathHolds(files', cut', p)
    {
      PathStillHolds(max, files, cut, s, record, p);
    }
  }

  lemma NoSegments(max: int)
    ensures WellCut(max, [])
  {
  }

  class Writer {
    const maxShardSize: int
    var files: map<Path, bytes>
    /** The records appended to each shard, by segment. */
    ghost var cut: map<Shard, Segments>

    ghost predicate Valid()
      reads this
    {
      Holds(maxShardSize, files, cut)
    }

    /** Everything appended to a shard, in order. */
    ghost function Log(s: Shard): seq<bytes>
      reads this
    {
      Flatten(SegmentsIn(cut, s))
    }

    ghost function SegmentsOf(s: Shard): Segments
      reads this
    {
      SegmentsIn(cut, s)
    }

    constructor (maxShardSize: int)
      ensures Valid() && this.maxShardSize == maxShardSize && cut == map[] && files == map[]
    {
      this.maxShardSize, files, cut := maxShardSize, map[], map[];
    }

    lemma WellCutHere(s: Shard)
      requires Valid()
      ensures WellCut(maxShardSize, SegmentsOf(s))
    {
    }

    /** The candidate search ends, because only finitely many files exist. */
    method RotateIfNeeded(s: Shard) returns (target: Path)
      requires Valid() && maxShardSize > 0
      ensures target == PathOf(s, Target(maxShardSize, SegmentsOf(s)))
    {
      hide Frame;
      WellCutHere(s);
      var base := PathOf(s, 0);
      assert PathHolds(files, cut, base);
      if base !in files || |files[base]| < maxShardSize {
        return base;
      }
      var i := 1;
      while true
        invariant 1 <= i <= |SegmentsOf(s)| && Full(maxShardSize, SegmentsOf(s)[i - 1])
        decreases |SegmentsOf(s)| - i
      {
        var candidate := PathOf(s, i);
        assert PathHolds(files, cut, candidate);
        if candidate !in files || |files[candidate]| < maxShardSize {
          return candidate;
        }
        i := i + 1;
      }
    }

    lemma WithoutLimit(s: Shard)
      requires Valid()
      ensures maxShardSize <= 0 ==> Target(maxShardSize, SegmentsOf(s)) == 0
    {
      WellCutHere(s);
    }

    method Append(s: Shard, record: bytes) returns (loc: Location)
      requires Valid()
      modifies this
      ensures Valid()
      ensures cut == old(cut)[s := Appended(maxShardSize, old(SegmentsOf(s)), record)]
      ensures Log(s) == old(Log(s)) + [record]
      ensures forall t :: t != s ==> Log(t) == old(Log(t))
      ensures loc.path in files && files == old(files)[loc.path := files[loc.path]]
      ensures loc.path == PathOf(s, Target(maxShardSize, old(SegmentsOf(s)))) && loc.size == |record| + 1
      ensures ReadAt(files[loc.path], loc.offset, loc.size) == record + [NEWLINE]
    {
      hide Frame, PathHolds, WellCut, Appended, Flatten;
      var target := PathOf(s, 0);
      WithoutLimit(s);
      if maxShardSize > 0 {
        target := RotateIfNeeded(s);
      }
      var content := ContentOf(files, target);
      var line := record + [NEWLINE];
      files := files[target := content + line];
      FlattenAppended(maxShardSize, SegmentsOf(s), record);
      AppendHolds(maxShardSize, old(files), cut, s, record);
      cut := cut[s := Appended(maxShardSize, SegmentsOf(s), record)];
      return Location(target, |content|, |line|);
    }
  }

  /******* What the files of a shard amount to *******/

  /** The bytes of the first n segments, one after the other. */
  function Concatenated(files: map<Path, bytes>, s: Shard, n: nat): bytes {
    if n == 0 then [] else Concatenated(files, s, n - 1) + ContentOf(files, PathOf(s, n - 1))
  }

  lemma {:induction false} ConcatenationIsFrame(files: map<Path, bytes>, cut: map<Shard, Segments>, s: Shard, n: nat)
    requires n <= |SegmentsIn(cut, s)| && forall p :: PathHolds(files, cut, p)
    ensures Concatenated(files, s, n) == Frame(Flatten(SegmentsIn(cut, s)[..n]))
  {
    if n > 0 {
      ConcatenationIsFrame(files, cut, s, n - 1);
      assert PathHolds(files, cut, PathOf(s, n - 1));
      assert SegmentsIn(cut, s)[..n][..n - 1] == SegmentsIn(cut, s)[..n - 1];
      FrameConcat(Flatten(SegmentsIn(cut, s)[..n - 1]), SegmentsIn(cut, s)[n - 1]);
    }
  }

  /** A shard is a faithful queue: its segments are numbered without gaps, their concatenation is everything
      ever appended, in order, and every segment but the last is full but was not before its final record. */
  lemma SegmentsAreAQueue(w: Writer, s: Shard) returns (n: nat)
    requires w.Valid()
    ensures n == |w.SegmentsOf(s)|
    ensures forall i: nat :: PathOf(s, i) in w.files <==> i < n
    ensures Concatenated(w.files, s, n) == Frame(w.Log(s))
    ensures w.maxShardSize > 0 ==> forall i :: 0 <= i < n - 1 ==> |w.files[PathOf(s, i)]| >= w.maxShardSize
    ensures w.maxShardSize > 0 ==> forall i :: 0 <= i < n ==>
              var records := w.SegmentsOf(s)[i];
              w.files[PathOf(s, i)] == Frame(records) && records != []
                  && |Frame(records[..|records| - 1])| < w.maxShardSize
    ensures w.maxShardSize <= 0 ==> n <= 1
  {
    n := |w.SegmentsOf(s)|;
    ConcatenationIsFrame(w.files, w.cut, s, n);
    assert w.SegmentsOf(s)[..n] == w.SegmentsOf(s);
    w.WellCutHere(s);
    forall i: nat
      ensures PathOf(s, i) in w.files <==> i < n
      ensures i < n ==> w.files[PathOf(s, i)] == Frame(w.SegmentsOf(s)[i])
    {
      assert PathHolds(w.files, w.cut, PathOf(s, i));
    }
  }

  /** What the reader finds in the first n segments, if it can read them all. */
  function ReadSegments(files: map<Path, bytes>, s: Shard, n: nat): Result<seq<bytes>> {
    if n == 0 then Ok([])
    else
      var before, last := ReadSegments(files, s, n - 1), Records(ContentOf(files, PathOf(s, n - 1)), 0);
      if before.Err? then before else if last.Err? then last else Ok(before.value + last.value)
  }

  /** Frameable records are read back from their segments as they were appended. */
  lemma {:induction false} SegmentsAreReadBack(w: Writer, s: Shard, n: nat)
    requires w.Valid() && n <= |w.SegmentsOf(s)|
    requires forall r <- Flatten(w.SegmentsOf(s)[..n]) :: Frameable(r)
    ensures ReadSegments(w.files, s, n) == Ok(Flatten(w.SegmentsOf(s)[..n]))
  {
    if n > 0 {
      var segments := w.SegmentsOf(s);
      assert segments[..n][..n - 1] == segments[..n - 1];
      assert Flatten(segments[..n]) == Flatten(segments[..n - 1]) + segments[n - 1];
      SegmentsAreReadBack(w, s, n - 1);
      assert PathHolds(w.files, w.cut, PathOf(s, n - 1));
      FramingRoundTrip(segments[n - 1]);
    }
  }
}
