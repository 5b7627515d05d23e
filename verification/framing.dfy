/** The JSONL frames of internal/shard: what the writer appends, what bufio.Scanner with ScanLines makes of
    it, and when the two are inverse. */
module Framing {
  import opened Outcomes

  type byte = x: int | 0 <= x < 256
  type bytes = seq<byte>

  const NEWLINE: byte := 10
  const CARRIAGE_RETURN: byte := 13
  /** The scanner's buffer: a line and its newline have to fit. */
  const MAX_TOKEN: nat := 16 * 1024 * 1024

  function Frame(records: seq<bytes>): bytes {
    if records == [] then [] else Frame(records[..|records| - 1]) + records[|records| - 1] + [NEWLINE]
  }

  /** The position of the first newline at or after `pos`, or the end of the data. */
  function LineEnd(data: bytes, pos: nat): (end: nat)
    requires pos <= |data|
    ensures pos <= end <= |data| && NEWLINE !in data[pos..end] && (end < |data| ==> data[end] == NEWLINE)
    decreases |data| - pos
  {
    if pos == |data| || data[pos] == NEWLINE then pos
    else
      assert data[pos..LineEnd(data, pos + 1)] == [data[pos]] + data[pos + 1..LineEnd(data, pos + 1)];
      LineEnd(data, pos + 1)
  }

  /** ScanLines drops one carriage return before the newline. */
  function DropCR(line: bytes): bytes {
    if |line| > 0 && line[|line| - 1] == CARRIAGE_RETURN then line[..|line| - 1] else line
  }

  datatype Scan = Token(line: bytes, next: nat) | TooLong | End

  /** One call of Scanner.Scan at `pos`. */
  function NextLine(data: bytes, pos: nat): (s: Scan)
    requires pos <= |data|
    ensures s.Token? ==> pos < s.next <= |data|
  {
    var end := LineEnd(data, pos);
    if end - pos >= MAX_TOKEN then TooLong
    else if end < |data| then Token(DropCR(data[pos..end]), end + 1)
    else if pos < end then Token(DropCR(data[pos..end]), end)
    else End
  }

  /** The records from `pos` on: the lines that are not empty; an overlong line spoils them all. */
  function Records(data: bytes, pos: nat): Result<seq<bytes>>
    requires pos <= |data|
    decreases |data| - pos
  {
    match NextLine(data, pos)
    case End => Ok([])
    case TooLong => Err(StorageFailure)
    case Token(line, next) =>
      var rest := Records(data, next);
      if rest.Err? then rest else Ok((if line == [] then [] else [line]) + rest.value)
  }

  /** Records that survive framing. */
  predicate Frameable(r: bytes) {
    0 < |r| < MAX_TOKEN && NEWLINE !in r && r[|r| - 1] != CARRIAGE_RETURN
  }

  lemma {:induction false} FrameConcat(a: seq<bytes>, b: seq<bytes>)
    ensures Frame(a + b) == Frame(a) + Frame(b)
  {
    if b == [] {
      assert a + b == a;
    } else {
      FrameConcat(a, b[..|b| - 1]);
      assert (a + b)[..|a + b| - 1] == a + b[..|b| - 1];
    }
  }

  lemma FrameOne(r: bytes)
    ensures Frame([r]) == r + [NEWLINE]
  {
    assert Frame([r][..0]) == [];
  }

  lemma FrameSplit(records: seq<bytes>, k: nat)
    requires k < |records|
    ensures Frame(records) == Frame(records[..k]) + (records[k] + [NEWLINE]) + Frame(records[k + 1..])
  {
    hide Frame;
    var head, one, rest := records[..k], [records[k]], records[k + 1..];
    assert records == head + one + rest;
    FrameConcat(head + one, rest);
    FrameConcat(head, one);
    FrameOne(records[k]);
  }

  lemma {:induction false} FirstNewline(data: bytes, pos: nat, end: nat)
    requires pos <= end < |data| && NEWLINE !in data[pos..end] && data[end] == NEWLINE
    ensures LineEnd(data, pos) == end
    decreases end - pos
  {
    if pos < end {
      assert data[pos..end] == [data[pos]] + data[pos + 1..end];
      FirstNewline(data, pos + 1, end);
    }
  }

  lemma NextLineOf(records: seq<bytes>, k: nat)
    requires k < |records| && NEWLINE !in records[k]
    ensures var data, pos := Frame(records), |Frame(records[..k])|;
            pos <= |data| && |Frame(records[..k + 1])| == pos + |records[k]| + 1
            && NextLine(data, pos)
               == if |records[k]| >= MAX_TOKEN then TooLong else Token(DropCR(records[k]), pos + |records[k]| + 1)
  {
    var data, pos, end := Frame(records), |Frame(records[..k])|, |Frame(records[..k])| + |records[k]|;
    FrameSplit(records, k);
    assert records[..k + 1][..k] == records[..k];
    assert data[pos..end] == records[k];
    assert data[end] == (records[k] + [NEWLINE])[|records[k]|];
    FirstNewline(data, pos, end);
  }

  lemma NextFramed(records: seq<bytes>, k: nat)
    requires k < |records| && Frameable(records[k])
    ensures var data, pos := Frame(records), |Frame(records[..k])|;
            pos < |data| && NextLine(data, pos) == Token(records[k], pos + |records[k]| + 1)
            && |Frame(records[..k + 1])| == pos + |records[k]| + 1
  {
    hide Frame, NextLine;
    NextLineOf(records, k);
    FrameSplit(records, k);
  }

  /** The scanner finds each framed record where the frame put it. */
  lemma {:induction false} FramedRecordsAreFound(records: seq<bytes>, k: nat)
    requires k <= |records| && forall r <- records :: Frameable(r)
    ensures |Frame(records[..k])| <= |Frame(records)|
    ensures Records(Frame(records), |Frame(records[..k])|) == Ok(records[k..])
    decreases |records| - k
  {
    hide Frame, Frameable, NextLine;
    if k == |records| {
      assert records[..k] == records;
      NothingAfter(Frame(records));
    } else {
      assert records[k] in records;
      NextFramed(records, k);
      NoEmptyRecord(records[k]);
      FramedRecordsAreFound(records, k + 1);
      assert records[k..] == [records[k]] + records[k + 1..];
    }
  }

  lemma {:induction false} OverlongFrom(records: seq<bytes>, k: nat)
    requires k <= |records| && forall r <- records :: NEWLINE !in r
    ensures |Frame(records[..k])| <= |Frame(records)|
    ensures Records(Frame(records), |Frame(records[..k])|).Err?
            <==> exists j :: k <= j < |records| && |records[j]| >= MAX_TOKEN
    decreases |records| - k
  {
    hide Frame, NextLine;
    if k == |records| {
      assert records[..k] == records;
      NothingAfter(Frame(records));
    } else {
      assert records[k] in records;
      NextLineOf(records, k);
      OverlongFrom(records, k + 1);
    }
  }

  /** One record that does not fit the buffer spoils the whole file, and for records without newlines nothing
      else does. */
  lemma OverlongIsFatal(records: seq<bytes>)
    requires forall r <- records :: NEWLINE !in r
    ensures Records(Frame(records), 0).Err? <==> exists r <- records :: |r| >= MAX_TOKEN
  {
    OverlongFrom(records, 0);
    assert records[..0] == [];
    if exists r <- records :: |r| >= MAX_TOKEN {
      var r :| r in records && |r| >= MAX_TOKEN;
      var j :| 0 <= j < |records| && records[j] == r;
    }
  }

  lemma {:induction false} OnlyOneError(data: bytes, pos: nat)
    requires pos <= |data|
    ensures Records(data, pos).Err? ==> Records(data, pos).error == StorageFailure
    decreases |data| - pos
  {
    match NextLine(data, pos)
    case Token(line, next) => OnlyOneError(data, next);
    case TooLong =>
    case End =>
  }

  lemma NothingAfter(data: bytes)
    ensures NextLine(data, |data|) == End
  {
  }

  lemma NoEmptyRecord(r: bytes)
    requires Frameable(r)
    ensures r != []
  {
  }

  /******* The converse, by counting bytes *******/

  lemma {:induction false} LastIsNewline(records: seq<bytes>)
    requires records != []
    ensures |Frame(records)| > 0 && Frame(records)[|Frame(records)| - 1] == NEWLINE
  {
  }

  /** On terminated data no record gains a byte; if none is lost either, all records are frameable. */
  lemma {:induction false} ScanningLosesBytes(data: bytes, pos: nat)
    requires pos <= |data| && (pos < |data| ==> data[|data| - 1] == NEWLINE) && Records(data, pos).Ok?
    ensures var out := Records(data, pos).value;
            |Frame(out)| <= |data| - pos && (|Frame(out)| == |data| - pos ==> forall r <- out :: Frameable(r))
    decreases |data| - pos
  {
    if pos < |data| {
      var line, next := TerminatedLine(data, pos);
      ScanningLosesBytes(data, next);
      var rest := Records(data, next).value;
      assert Records(data, pos).value == (if line == [] then [] else [line]) + rest;
      if line == [] {
        assert [] + rest == rest;
      } else {
        FrameConcat([line], rest);
        FrameOne(line);
      }
    }
  }

  lemma {:induction false} LineEndsBy(data: bytes, pos: nat, k: nat)
    requires pos <= k < |data| && data[k] == NEWLINE
    ensures LineEnd(data, pos) <= k
    decreases k - pos
  {
    if pos < k {
      LineEndsBy(data, pos + 1, k);
    }
  }

  lemma TerminatedLine(data: bytes, pos: nat) returns (line: bytes, next: nat)
    requires pos < |data| && data[|data| - 1] == NEWLINE && Records(data, pos).Ok?
    ensures NextLine(data, pos) == Token(line, next) && pos < next <= |data|
    ensures |line| + 1 <= next - pos && (|line| + 1 == next - pos && line != [] ==> Frameable(line))
  {
    var end := LineEnd(data, pos);
    LineEndsBy(data, pos, |data| - 1);
    line, next := DropCR(data[pos..end]), end + 1;
    if |line| == end - pos {
      assert line == data[pos..end];
    }
  }

  /** The round trip, exactly: what is read back is what was appended if and only if every record is
      non-empty, shorter than the buffer, free of newlines and does not end in a carriage return. */
  lemma FramingRoundTrip(records: seq<bytes>)
    ensures Records(Frame(records), 0) == Ok(records) <==> forall r <- records :: Frameable(r)
  {
    if forall r <- records :: Frameable(r) {
      FramedRecordsAreFound(records, 0);
      assert records[..0] == [] && records[0..] == records;
    }
    if Records(Frame(records), 0) == Ok(records) {
      if records != [] {
        LastIsNewline(records);
      }
      ScanningLosesBytes(Frame(records), 0);
    }
  }

  /******* The reader *******/

  /** bufio.Scanner over the bytes of an open file. */
  class LineScanner {
    const data: bytes
    var pos: nat
    var token: bytes
    var failed: bool

    ghost predicate Valid()
      reads this
    {
      pos <= |data|
    }

    constructor (data: bytes)
      ensures Valid() && this.data == data && pos == 0 && !failed
    {
      this.data, pos, token, failed := data, 0, [], false;
    }

    /** The next line, up to the first newline or the end of the data; `end` is where it ends. */
    method Scan() returns (more: bool, ghost end: nat)
      requires Valid() && !failed
      modifies this
      ensures Valid()
      ensures match NextLine(data, old(pos))
              case Token(line, next) => more && token == line && pos == next && !failed
              case TooLong => !more && failed && pos == old(pos)
              case End => !more && !failed && pos == old(pos)
      ensures old(pos) <= end <= |data| && NEWLINE !in data[old(pos)..end] && (end == |data| || data[end] == NEWLINE)
      ensures failed <==> end - old(pos) >= 16_777_216
      ensures more <==> !failed && old(pos) < |data|
      ensures more ==> pos == if end < |data| then end + 1 else end
      ensures more ==> token == if end > old(pos) && data[end - 1] == 13 then data[old(pos)..end - 1]
                                else data[old(pos)..end]
    {
      var e := pos;
      while e < |data| && data[e] != NEWLINE
        invariant pos <= e <= |data| && NEWLINE !in data[pos..e] && LineEnd(data, pos) == LineEnd(data, e)
      {
        assert data[pos..e + 1] == data[pos..e] + [data[e]];
        e := e + 1;
      }
      end := e;
      if e - pos >= MAX_TOKEN {
        failed := true;
        return false, end;
      }
      if pos == |data| {
        return false, end;
      }
      token := DropCR(data[pos..e]);
      pos := if e < |data| then e + 1 else e;
      return true, end;
    }
  }

  method ReadAll(data: bytes) returns (result: Result<seq<bytes>>)
    ensures result == Records(data, 0)
  {
    hide NextLine, LineEnd;
    var scanner := new LineScanner(data);
    var records: seq<bytes> := [];
    var more, end := scanner.Scan();
    NothingReadYet(Records(data, 0));
    ReadOneMore([], [], data, 0);
    assert records + [] == records;
    while more
      invariant scanner.Valid() && scanner.data == data && fresh(scanner)
      invariant more ==>
                  !scanner.failed && Records(data, 0) == Prepend(records, scanner.token, Records(data, scanner.pos))
      invariant !more ==> Records(data, 0) == if scanner.failed then Err(StorageFailure) else Ok(records)
      decreases more, |data| - scanner.pos
    {
      var line := scanner.token;
      ReadOneMore(records, line, data, scanner.pos);
      assert records + [] == records;
      if |line| != 0 {
        records := records + [line];
      }
      more, end := scanner.Scan();
    }
    return if scanner.failed then Err(StorageFailure) else Ok(records);
  }

  /** What the records are when `records` are read, `line` is the current token and `rest` is still to come. */
  function Prepend(records: seq<bytes>, line: bytes, rest: Result<seq<bytes>>): Result<seq<bytes>> {
    if rest.Err? then rest else Ok(records + (if line == [] then [] else [line]) + rest.value)
  }

  lemma ReadOneMore(records: seq<bytes>, line: bytes, data: bytes, pos: nat)
    requires pos <= |data|
    ensures var more := records + if line == [] then [] else [line];
            Prepend(records, line, Records(data, pos))
            == match NextLine(data, pos)
               case Token(l, next) => Prepend(more, l, Records(data, next))
               case TooLong => Err(StorageFailure)
               case End => Ok(more)
  {
    hide NextLine, LineEnd;
    match NextLine(data, pos)
    case Token(l, next) =>
      if Records(data, next).Ok? {
        var one, rest := if l == [] then [] else [l], Records(data, next).value;
        assert records + (if line == [] then [] else [line]) + (one + rest)
            == records + (if line == [] then [] else [line]) + one + rest;
      }
    case TooLong =>
    case End =>
      assert records + (if line == [] then [] else [line]) + [] == records + if line == [] then [] else [line];
  }

  lemma NothingReadYet(all: Result<seq<bytes>>)
    ensures Prepend([], [], all) == all
  {
    if all.Ok? {
      assert [] + [] + all.value == all.value;
    }
  }

  /** Counts what ReadAll would return, without keeping it. */
  method RecordCount(data: bytes) returns (result: Result<nat>)
    ensures match Records(data, 0) case Ok(records) => result == Ok(|records|) case Err(e) => result == Err(e)
  {
    hide NextLine, LineEnd;
    var scanner := new LineScanner(data);
    var count := 0;
    ghost var records: seq<bytes> := [];
    var more, end := scanner.Scan();
    NothingReadYet(Records(data, 0));
    ReadOneMore([], [], data, 0);
    assert records + [] == records;
    while more
      invariant scanner.Valid() && scanner.data == data && fresh(scanner) && count == |records|
      invariant more ==>
                  !scanner.failed && Records(data, 0) == Prepend(records, scanner.token, Records(data, scanner.pos))
      invariant !more ==> Records(data, 0) == if scanner.failed then Err(StorageFailure) else Ok(records)
      decreases more, |data| - scanner.pos
    {
      ReadOneMore(records, scanner.token, data, scanner.pos);
      assert records + [] == records;
      if |scanner.token| > 0 {
        count := count + 1;
        records := records + [scanner.token];
      }
      more, end := scanner.Scan();
    }
    return if scanner.failed then Err(StorageFailure) else Ok(count);
  }

  /** os.File.ReadAt, with the short read at the end of the file cut off. */
  function ReadAt(data: bytes, offset: nat, size: nat): bytes {
    if offset >= |data| then [] else if |data| - offset < size then data[offset..] else data[offset..offset + size]
  }

  /** Reading at the location of a record gives the record and its newline, whatever the record. */
  lemma ReadAtRecord(records: seq<bytes>, k: nat)
    requires k < |records|
    ensures ReadAt(Frame(records), |Frame(records[..k])|, |records[k]| + 1) == records[k] + [NEWLINE]
  {
    FrameSplit(records, k);
  }
}
