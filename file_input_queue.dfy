/**
 * The external input queue: an append-only JSON-lines file, one input per
 * line, consumed through a cursor that counts the lines already read.
 * `file` is the file's content, None while the file does not exist.
 */
module FileInputQueues {
  import opened Wrappers
  import opened Json
  import opened ExternalInputs
  import opened JsonLines

  /** A queue line `read_since` can read: text source, channel and name, data an object or absent, trace_id text, null or absent. */
  predicate WellFormedInput(d: Payload) {
    "source" in d && d["source"].JStr? &&
    "channel" in d && d["channel"].JStr? &&
    "name" in d && d["name"].JStr? &&
    ("data" in d ==> d["data"].JObj?) &&
    ("trace_id" in d ==> d["trace_id"].JStr? || d["trace_id"].JNull?)
  }

  /** The input `read_since` rebuilds from one line: missing data reads as {}, missing or null trace_id as None. */
  function FromRecord(d: Payload): (r: Option<ExternalInput>)
    ensures r.Some? <==> WellFormedInput(d)
    ensures r.Some? ==> r.value.source == d["source"].s && r.value.channel == d["channel"].s && r.value.name == d["name"].s
    ensures r.Some? ==> r.value.data == if "data" in d then d["data"].fields else map[]
    ensures r.Some? ==> r.value.traceId == if "trace_id" in d && d["trace_id"].JStr? then Some(d["trace_id"].s) else None
  {
    if !WellFormedInput(d) then None
    else
      var trace := Get(d, "trace_id", JNull);
      Some(ExternalInput(d["source"].s, d["channel"].s, d["name"].s,
                         Get(d, "data", JObj(map[])).fields,
                         if trace.JStr? then Some(trace.s) else None))
  }

  /** A line written by `append` reads back as an input with equal fields. */
  lemma InputRoundTrip(inp: ExternalInput)
    ensures FromRecord(Fields(inp)) == Some(inp)
  {
  }

  function DecodeInputs(rs: seq<Payload>): (inputs: seq<ExternalInput>)
    requires forall r :: r in rs ==> WellFormedInput(r)
    ensures |inputs| == |rs|
    ensures forall i :: 0 <= i < |rs| ==> Some(inputs[i]) == FromRecord(rs[i])
  {
    seq(|rs|, i requires 0 <= i < |rs| => FromRecord(rs[i]).value)
  }

  /** The inputs held by `lines`, in file order, blank lines skipped. */
  function QueuedInputs(lines: seq<Line>): seq<ExternalInput>
    requires EachRecord(lines, WellFormedInput)
  {
    EachRecordRecords(lines, WellFormedInput);
    DecodeInputs(Records(lines))
  }

  /**
   * What `read_since(cursor)` returns for a file content: on a missing file no
   * inputs and the cursor unchanged; otherwise the inputs on the lines with
   * index at least `cursor`, and the total number of lines, blanks included.
   */
  function ReadSinceResult(file: Option<seq<Line>>, cursor: int): (seq<ExternalInput>, int)
    requires file.Some? ==> EachRecord(From(file.value, cursor), WellFormedInput)
  {
    if file.None? then ([], cursor) else (QueuedInputs(From(file.value, cursor)), |file.value|)
  }

  class FileInputQueue {
    var file: Option<seq<Line>>

    /** A queue over a path whose current content is `content` (None: no file yet). */
    constructor (content: Option<seq<Line>>)
      ensures file == content
    {
      file := content;
    }

    function Lines(): seq<Line>
      reads this
    {
      if file.Some? then file.value else []
    }

    /** `append(inp)`: exactly one line more, at the end, holding the input's fields (trace_id only if set). */
    method Append(inp: ExternalInput)
      modifies this
      ensures file == Some(old(Lines()) + [Rec(Fields(inp))])
    {
      file := Some(Lines() + [Rec(Fields(inp))]);
    }

    /** `read_since(cursor) -> (inputs, total_lines)`. */
    method ReadSince(cursor: int) returns (inputs: seq<ExternalInput>, totalLines: int)
      requires EachRecord(From(Lines(), cursor), WellFormedInput)
      ensures (inputs, totalLines) == ReadSinceResult(file, cursor)
    {
      if file.None? {
        return [], cursor;
      }
      var lines := file.value;
      inputs := [];
      totalLines := 0;
      for idx := 0 to |lines|
        invariant totalLines == idx
        invariant EachRecord(From(lines[..idx], cursor), WellFormedInput)
        invariant inputs == QueuedInputs(From(lines[..idx], cursor))
      {
        QueuedInputsStep(lines, idx, cursor);
        totalLines := totalLines + 1;
        if idx < cursor {
          continue;
        }
        if lines[idx].Blank? {
          continue;
        }
        inputs := inputs + [FromRecord(lines[idx].obj).value];
      }
      assert lines[..|lines|] == lines;
    }
  }

  /** One more line read: the inputs grow by that line's input when it is at or after the cursor and not blank. */
  lemma QueuedInputsStep(lines: seq<Line>, idx: nat, cursor: int)
    requires idx < |lines|
    requires EachRecord(From(lines, cursor), WellFormedInput)
    ensures EachRecord(From(lines[..idx], cursor), WellFormedInput) && EachRecord(From(lines[..idx + 1], cursor), WellFormedInput)
    ensures idx >= cursor && lines[idx].Rec? ==> FromRecord(lines[idx].obj).Some?
    ensures QueuedInputs(From(lines[..idx + 1], cursor))
         == QueuedInputs(From(lines[..idx], cursor))
            + (if idx >= cursor && lines[idx].Rec? then [FromRecord(lines[idx].obj).value] else [])
  {
    RecordsStep(lines, idx, cursor, WellFormedInput);
    EachRecordRecords(From(lines[..idx], cursor), WellFormedInput);
    var before := Records(From(lines[..idx], cursor));
    if idx >= cursor && lines[idx].Rec? {
      DecodeInputsConcat(before, [lines[idx].obj]);
    }
  }

  /** Reading from the end of the file returns no inputs. */
  lemma ReadAtEnd(lines: seq<Line>)
    ensures ReadSinceResult(Some(lines), |lines|) == ([], |lines|)
  {
  }

  /** After `append(inp)` on an n-line file, `read_since(n)` returns exactly `[inp]` and n + 1. */
  lemma AppendThenReadSince(lines: seq<Line>, inp: ExternalInput)
    ensures EachRecord(From(lines + [Rec(Fields(inp))], |lines|), WellFormedInput)
    ensures ReadSinceResult(Some(lines + [Rec(Fields(inp))]), |lines|) == ([inp], |lines| + 1)
  {
    var lines' := lines + [Rec(Fields(inp))];
    assert From(lines', |lines|) == [Rec(Fields(inp))];
    assert [Rec(Fields(inp))][..0] == [];
    assert Records([Rec(Fields(inp))]) == [Fields(inp)];
    InputRoundTrip(inp);
    assert DecodeInputs([Fields(inp)]) == [inp];
  }

  /** Decoding two runs of records one after the other decodes each run. */
  lemma DecodeInputsConcat(ra: seq<Payload>, rb: seq<Payload>)
    requires forall r :: r in ra ==> WellFormedInput(r)
    requires forall r :: r in rb ==> WellFormedInput(r)
    ensures forall r :: r in ra + rb ==> WellFormedInput(r)
    ensures DecodeInputs(ra + rb) == DecodeInputs(ra) + DecodeInputs(rb)
  {
    assert DecodeInputs(ra + rb) == DecodeInputs(ra) + DecodeInputs(rb);
  }

  /** Reading a grown file from `c` is reading the old file from `c`, then the new lines. */
  lemma FromAppended(lines: seq<Line>, more: seq<Line>, c: int)
    requires c <= |lines|
    ensures From(lines + more, c) == From(lines, c) + more
    ensures From(lines + more, |lines|) == more
  {
    if c > 0 {
      assert (lines + more)[c..] == lines[c..] + more;
    }
  }

  /** A well-formed file split in two has two well-formed parts. */
  lemma EachRecordSplit(a: seq<Line>, b: seq<Line>)
    requires EachRecord(a + b, WellFormedInput)
    ensures EachRecord(a, WellFormedInput) && EachRecord(b, WellFormedInput)
  {
    forall i | 0 <= i < |a| && a[i].Rec?
      ensures WellFormedInput(a[i].obj)
    {
      assert a[i] == (a + b)[i];
    }
    forall i | 0 <= i < |b| && b[i].Rec?
      ensures WellFormedInput(b[i].obj)
    {
      assert b[i] == (a + b)[|a| + i];
    }
  }

  /**
   * The cursor neither repeats nor skips: a read from `c` on a file, followed
   * by a read from the returned cursor after the file has grown by appends,
   * together return what one read from `c` on the grown file returns.
   */
  lemma ReadSinceConcat(lines: seq<Line>, more: seq<Line>, c: int)
    requires c <= |lines|
    requires EachRecord(From(lines + more, c), WellFormedInput)
    ensures EachRecord(From(lines, c), WellFormedInput) && EachRecord(From(lines + more, |lines|), WellFormedInput)
    ensures ReadSinceResult(Some(lines), c).1 == |lines|
    ensures ReadSinceResult(Some(lines), c).0 + ReadSinceResult(Some(lines + more), |lines|).0
         == ReadSinceResult(Some(lines + more), c).0
  {
    FromAppended(lines, more, c);
    EachRecordSplit(From(lines, c), more);
    RecordsConcat(From(lines, c), more);
    EachRecordRecords(From(lines, c), WellFormedInput);
    EachRecordRecords(more, WellFormedInput);
    DecodeInputsConcat(Records(From(lines, c)), Records(more));
  }
}
