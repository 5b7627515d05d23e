/** rebuildManifests and Reconcile of internal/repo/rebuild.go: how the manifest of the last rebuild and the
    shards of today are compared. */
module Reconciliation {
  import opened Outcomes
  import opened Framing
  import opened ShardWriters

  type Files = map<Path, bytes>

  datatype ManifestEntry = ManifestEntry(checksum: string, recordCount: nat, ok: bool)

  type Manifest = map<Path, ManifestEntry>

  datatype Report = Report(shards: nat, orphaned: nat, missing: nat, mismatches: nat, indexCount: nat)

  const NOTHING := Report(0, 0, 0, 0, 0)

  function EntryFor(content: bytes, sum: bytes -> string): ManifestEntry {
    match Records(content, 0)
    case Ok(records) => ManifestEntry(sum(content), |records|, true)
    case Err(_) => ManifestEntry("", 0, false)
  }

  method RebuildManifests(files: Files, paths: seq<Path>, sum: bytes -> string) returns (manifest: Manifest)
    requires forall p <- paths :: p in files
    ensures manifest.Keys == set p | p in paths
    ensures forall p <- paths :: manifest[p] == EntryFor(files[p], sum)
    ensures forall p <- paths ::
              match Records(files[p], 0)
              case Ok(records) => manifest[p] == ManifestEntry(sum(files[p]), |records|, true)
              case Err(_) => manifest[p] == ManifestEntry("", 0, false)
  {
    manifest := map[];
    for k := 0 to |paths|
      invariant manifest.Keys == set p | p in paths[..k]
      invariant forall p <- paths[..k] :: manifest[p] == EntryFor(files[p], sum)
    {
      assert paths[k] in paths && paths[..k + 1] == paths[..k] + [paths[k]];
      var records := ReadAll(files[paths[k]]);
      var entry := if records.Ok? then ManifestEntry(sum(files[paths[k]]), |records.value|, true)
          else ManifestEntry("", 0, false);
      manifest := manifest[paths[k] := entry];
    }
    assert paths[..|paths|] == paths;
  }

  predicate Readable(content: bytes) {
    Records(content, 0).Ok?
  }

  /** The number of records that reading a shard gives. */
  function Held(content: bytes): nat {
    match Records(content, 0) case Ok(records) => |records| case Err(_) => 0
  }

  /** What one shard adds to the report. */
  function Compared(r: Report, content: bytes, entry: Option<ManifestEntry>, sum: bytes -> string): Report {
    match Records(content, 0)
    case Err(_) => r
    case Ok(records) =>
      var count := |records|;
      if entry.None? then r.(orphaned := r.orphaned + count)
      else
        var e := entry.value;
        r.(orphaned := r.orphaned + (if count > e.recordCount then count - e.recordCount else 0),
           missing := r.missing + (if count < e.recordCount then e.recordCount - count else 0),
           mismatches := r.mismatches + (if e.checksum != "" && e.checksum != sum(content) then 1 else 0),
           indexCount := r.indexCount + e.recordCount)
  }

  function Reconciled(files: Files, paths: seq<Path>, manifest: Manifest, sum: bytes -> string): Report {
    if paths == [] then NOTHING
    else
      var last := paths[|paths| - 1];
      Compared(Reconciled(files, paths[..|paths| - 1], manifest, sum), ContentOf(files, last),
               if last in manifest then Some(manifest[last]) else None, sum)
  }

  /** The amounts of the shards in `paths`; one without an amount adds nothing. */
  function Total(paths: seq<Path>, amounts: map<Path, nat>): nat {
    if paths == [] then 0
    else
      var last := paths[|paths| - 1];
      Total(paths[..|paths| - 1], amounts) + if last in amounts then amounts[last] else 0
  }

  /** One column of the report is a total when every shard adds its amount to it. */
  lemma {:induction false} ColumnTotal(files: Files, paths: seq<Path>, manifest: Manifest, sum: bytes -> string,
                                       column: Report -> nat, amounts: map<Path, nat>)
    requires column(NOTHING) == 0
    requires forall r: Report, p <- paths ::
               column(Compared(r, ContentOf(files, p), if p in manifest then Some(manifest[p]) else None, sum))
               == column(r) + if p in amounts then amounts[p] else 0
    ensures column(Reconciled(files, paths, manifest, sum)) == Total(paths, amounts)
  {
    hide Compared;
    if paths != [] {
      assert paths[|paths| - 1] in paths;
      assert forall p <- paths[..|paths| - 1] :: p in paths;
      ColumnTotal(files, paths[..|paths| - 1], manifest, sum, column, amounts);
    }
  }

  /** The missing records, for any contents: those by which the readable shards fall short of their entries. */
  lemma MissingTotal(files: Files, paths: seq<Path>, manifest: Manifest, sum: bytes -> string)
    requires forall p <- paths :: p in files
    ensures Reconciled(files, paths, manifest, sum).missing ==
            Total(paths, map p | p in files && Readable(files[p]) && p in manifest
                                 && Held(files[p]) < manifest[p].recordCount ::
                    manifest[p].recordCount - Held(files[p]))
  {
    hide Records, Reconciled, Total;
    ColumnTotal(files, paths, manifest, sum, (r: Report) => r.missing,
                map p | p in files && Readable(files[p]) && p in manifest
                                && Held(files[p]) < manifest[p].recordCount ::
                   manifest[p].recordCount - Held(files[p]));
  }

  /** The orphaned records: a readable shard's surplus over its entry, or all it holds if it has none. */
  lemma OrphanedTotal(files: Files, paths: seq<Path>, manifest: Manifest, sum: bytes -> string)
    requires forall p <- paths :: p in files
    ensures Reconciled(files, paths, manifest, sum).orphaned ==
            Total(paths, map p | p in files && Readable(files[p])
                                 && (p in manifest ==> Held(files[p]) > manifest[p].recordCount) ::
                    Held(files[p]) - if p in manifest then manifest[p].recordCount else 0)
  {
    hide Records, Reconciled, Total;
    ColumnTotal(files, paths, manifest, sum, (r: Report) => r.orphaned,
                map p | p in files && Readable(files[p])
                                && (p in manifest ==> Held(files[p]) > manifest[p].recordCount) ::
                   Held(files[p]) - if p in manifest then manifest[p].recordCount else 0);
  }

  /** The mismatches: the readable shards whose entry has a checksum, and a different one. */
  lemma MismatchesTotal(files: Files, paths: seq<Path>, manifest: Manifest, sum: bytes -> string)
    requires forall p <- paths :: p in files
    ensures Reconciled(files, paths, manifest, sum).mismatches ==
            Total(paths, map p | p in files && Readable(files[p]) && p in manifest
                                 && manifest[p].checksum != "" && manifest[p].checksum != sum(files[p]) :: 1)
  {
    hide Records, Reconciled, Total;
    ColumnTotal(files, paths, manifest, sum, (r: Report) => r.mismatches,
                map p | p in files && Readable(files[p]) && p in manifest
                                && manifest[p].checksum != "" && manifest[p].checksum != sum(files[p]) :: 1);
  }

  /** The index count: what the entries of the readable shards record. */
  lemma IndexCountTotal(files: Files, paths: seq<Path>, manifest: Manifest, sum: bytes -> string)
    requires forall p <- paths :: p in files
    ensures Reconciled(files, paths, manifest, sum).indexCount ==
            Total(paths, map p | p in files && Readable(files[p]) && p in manifest :: manifest[p].recordCount)
  {
    hide Records, Reconciled, Total;
    ColumnTotal(files, paths, manifest, sum, (r: Report) => r.indexCount,
                map p | p in files && Readable(files[p]) && p in manifest :: manifest[p].recordCount);
  }

  method Reconcile(files: Files, paths: seq<Path>, manifest: Manifest, sum: bytes -> string) returns (report: Report)
    requires forall p <- paths :: p in files
    ensures report == Reconciled(files, paths, manifest, sum).(shards := |paths|)
    ensures report.missing ==
            Total(paths, map p | p in files && Readable(files[p]) && p in manifest
                                 && Held(files[p]) < manifest[p].recordCount ::
                    manifest[p].recordCount - Held(files[p]))
    ensures report.orphaned ==
            Total(paths, map p | p in files && Readable(files[p])
                                 && (p in manifest ==> Held(files[p]) > manifest[p].recordCount) ::
                    Held(files[p]) - if p in manifest then manifest[p].recordCount else 0)
    ensures report.mismatches ==
            Total(paths, map p | p in files && Readable(files[p]) && p in manifest
                                 && manifest[p].checksum != "" && manifest[p].checksum != sum(files[p]) :: 1)
    ensures report.indexCount ==
            Total(paths, map p | p in files && Readable(files[p]) && p in manifest :: manifest[p].recordCount)
  {
    hide Records;
    report := NOTHING.(shards := |paths|);
    for k := 0 to |paths|
      invariant report == Reconciled(files, paths[..k], manifest, sum).(shards := |paths|)
    {
      assert paths[k] in paths && paths[..k + 1][..k] == paths[..k];
      var content := files[paths[k]];
      var records := ReadAll(content);
      if records.Err? {
        continue;
      }
      var count := |records.value|;
      if paths[k] !in manifest {
        report := report.(orphaned := report.orphaned + count);
        continue;
      }
      var entry := manifest[paths[k]];
      if entry.recordCount != count {
        if count > entry.recordCount {
          report := report.(orphaned := report.orphaned + count - entry.recordCount);
        } else {
          report := report.(missing := report.missing + entry.recordCount - count);
        }
      }
      if entry.checksum != "" && entry.checksum != sum(content) {
        report := report.(mismatches := report.mismatches + 1);
      }
      report := report.(indexCount := report.indexCount + entry.recordCount);
    }
    assert paths[..|paths|] == paths;
    MissingTotal(files, paths, manifest, sum);
    OrphanedTotal(files, paths, manifest, sum);
    MismatchesTotal(files, paths, manifest, sum);
    IndexCountTotal(files, paths, manifest, sum);
  }

  /******* Appends since the rebuild *******/

  /** The records of a shard at the rebuild, and those appended since; a shard may be new since. */
  datatype Growth = Growth(earlier: seq<bytes>, since: seq<bytes>, isNew: bool)
  {
    predicate Valid() {
      (forall r <- earlier + since :: Frameable(r)) && (isNew ==> earlier == [])
    }
  }

  ghost predicate Grew(before: Files, now: Files, paths: seq<Path>, growth: map<Path, Growth>) {
    forall p <- paths ::
      p in growth && growth[p].Valid() && ContentOf(now, p) == Frame(growth[p].earlier + growth[p].since)
      && (!growth[p].isNew ==> ContentOf(before, p) == Frame(growth[p].earlier))
  }

  function TotalEarlier(paths: seq<Path>, growth: map<Path, Growth>): nat
    requires forall p <- paths :: p in growth
  {
    if paths == [] then 0 else TotalEarlier(paths[..|paths| - 1], growth) + |growth[paths[|paths| - 1]].earlier|
  }

  function TotalSince(paths: seq<Path>, growth: map<Path, Growth>): nat
    requires forall p <- paths :: p in growth
  {
    if paths == [] then 0 else TotalSince(paths[..|paths| - 1], growth) + |growth[paths[|paths| - 1]].since|
  }

  lemma OneShard(r: Report, before: bytes, now: bytes, g: Growth, sum: bytes -> string)
    requires g.Valid() && now == Frame(g.earlier + g.since) && (!g.isNew ==> before == Frame(g.earlier))
    ensures var entry := if g.isNew then None else Some(EntryFor(before, sum));
            var after := Compared(r, now, entry, sum);
            && after.orphaned == r.orphaned + |g.since| && after.missing == r.missing
            && after.indexCount == r.indexCount + |g.earlier|
            && (after.mismatches > r.mismatches ==> g.since != [])
  {
    hide Records, Frame;
    FramingRoundTrip(g.earlier + g.since);
    assert forall x <- g.earlier :: x in g.earlier + g.since;
    FramingRoundTrip(g.earlier);
    if g.since == [] {
      assert g.earlier + g.since == g.earlier;
    }
  }

  /** Between two rebuilds the shards only grow, and reconciliation measures by how much: the orphaned records
      are exactly those appended since, none is missing, and the index count is that of the rebuild. Without
      appends there is no checksum mismatch either. */
  lemma {:induction false} ReconcileCountsAppends(before: Files, now: Files, paths: seq<Path>,
                                                   growth: map<Path, Growth>, manifest: Manifest, sum: bytes -> string)
    requires Grew(before, now, paths, growth)
    requires forall p <- paths :: p in growth && (p in manifest <==> !growth[p].isNew)
                                  && (p in manifest ==> manifest[p] == EntryFor(ContentOf(before, p), sum))
    ensures var r := Reconciled(now, paths, manifest, sum);
            && r.orphaned == TotalSince(paths, growth) && r.missing == 0 && r.indexCount == TotalEarlier(paths, growth)
            && (TotalSince(paths, growth) == 0 ==> r.mismatches == 0)
  {
    hide Records, Frame, Compared, EntryFor, Growth.Valid;
    if paths != [] {
      var n := |paths| - 1;
      assert forall p <- paths[..n] :: p in paths;
      ReconcileCountsAppends(before, now, paths[..n], growth, manifest, sum);
      assert paths[n] in paths;
      OneShard(Reconciled(now, paths[..n], manifest, sum), ContentOf(before, paths[n]), ContentOf(now, paths[n]),
               growth[paths[n]], sum);
    }
  }

  /******* Records lost since the rebuild *******/

  lemma {:induction false} OnlyListedCount(files: Files, others: Files, paths: seq<Path>, manifest: Manifest,
                                           sum: bytes -> string)
    requires forall p <- paths :: ContentOf(files, p) == ContentOf(others, p)
    ensures Reconciled(files, paths, manifest, sum) == Reconciled(others, paths, manifest, sum)
  {
    hide Compared;
    if paths != [] {
      assert paths[|paths| - 1] in paths;
      assert forall p <- paths[..|paths| - 1] :: p in paths;
      OnlyListedCount(files, others, paths[..|paths| - 1], manifest, sum);
    }
  }

  /** A shard that the manifest counted in full and that has been cut since reports exactly what was cut off as
      missing, whatever the other shards hold. */
  lemma {:induction false} CutShardIsMissed(files: Files, paths: seq<Path>, manifest: Manifest, sum: bytes -> string,
                                            k: nat, records: seq<bytes>, m: nat)
    requires k < |paths| && paths[k] !in paths[..k] && paths[k] !in paths[k + 1..]
    requires (forall r <- records :: Frameable(r)) && m <= |records|
    requires paths[k] in manifest && manifest[paths[k]] == EntryFor(Frame(records), sum)
    ensures var whole := Reconciled(files[paths[k] := Frame(records)], paths, manifest, sum);
            var cut := Reconciled(files[paths[k] := Frame(records[..m])], paths, manifest, sum);
            && cut.missing == whole.missing + |records| - m
            && cut.orphaned == whole.orphaned && cut.indexCount == whole.indexCount
  {
    hide Records, Frame;
    var n := |paths| - 1;
    var p := paths[k];
    var whole, cut := files[p := Frame(records)], files[p := Frame(records[..m])];
    if k < n {
      hide Compared, EntryFor;
      assert paths[..n][..k] == paths[..k] && paths[..n][k + 1..] <= paths[k + 1..];
      assert paths[k + 1..][n - k - 1] == paths[n];
      CutShardIsMissed(files, paths[..n], manifest, sum, k, records, m);
    } else {
      OnlyListedCount(whole, cut, paths[..n], manifest, sum);
      FramingRoundTrip(records);
      FramingRoundTrip(records[..m]);
    }
  }
}
