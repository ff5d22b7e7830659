/**
 * A JSON-lines file as the engine reads it: one line per record, where a line
 * is either blank (only whitespace, skipped by every reader) or one JSON
 * object. The text encoding is not modelled; a line holds the parsed object.
 */
module JsonLines {
  import opened Json

  datatype Line = Blank | Rec(obj: Payload)

  /**
   * `for idx, raw in enumerate(f): if idx < start: continue`: the lines whose
   * 0-based index is at least `start`. Blank lines count toward the index.
   */
  function From(lines: seq<Line>, start: int): (r: seq<Line>)
    ensures 0 <= start <= |lines| ==> r == lines[start..]
    ensures start <= 0 ==> r == lines
    ensures start >= |lines| ==> r == []
  {
    if start <= 0 then lines else if start >= |lines| then [] else lines[start..]
  }

  /** The objects of the non-blank lines, in file order. */
  function Records(lines: seq<Line>): seq<Payload>
    decreases |lines|
  {
    if lines == [] then []
    else Records(lines[..|lines| - 1]) + (if lines[|lines| - 1].Rec? then [lines[|lines| - 1].obj] else [])
  }

  predicate NoBlank(lines: seq<Line>) {
    forall i :: 0 <= i < |lines| ==> lines[i].Rec?
  }

  /** Every non-blank line holds an object that `ok` accepts. */
  predicate EachRecord(lines: seq<Line>, ok: Payload -> bool) {
    forall i :: 0 <= i < |lines| && lines[i].Rec? ==> ok(lines[i].obj)
  }

  /** Reading a file in two pieces gives the records of the whole file. */
  lemma {:induction false} RecordsConcat(a: seq<Line>, b: seq<Line>)
    ensures Records(a + b) == Records(a) + Records(b)
    decreases |b|
  {
    if b == [] {
      assert a + b == a;
    } else {
      var b' := b[..|b| - 1];
      assert (a + b)[..|a + b| - 1] == a + b';
      RecordsConcat(a, b');
    }
  }

  /** Without blank lines, record i is line i. */
  lemma {:induction false} RecordsNoBlank(lines: seq<Line>)
    requires NoBlank(lines)
    ensures |Records(lines)| == |lines|
    ensures forall i :: 0 <= i < |lines| ==> Records(lines)[i] == lines[i].obj
    decreases |lines|
  {
    if lines != [] {
      RecordsNoBlank(lines[..|lines| - 1]);
    }
  }

  /** Every record of a file whose non-blank lines satisfy `ok` satisfies `ok`. */
  lemma {:induction false} EachRecordRecords(lines: seq<Line>, ok: Payload -> bool)
    requires EachRecord(lines, ok)
    ensures forall r :: r in Records(lines) ==> ok(r)
    decreases |lines|
  {
    if lines != [] {
      EachRecordRecords(lines[..|lines| - 1], ok);
    }
  }

  /** One more line read: it joins the selection exactly when its index is at least `start`. */
  lemma FromSnoc(lines: seq<Line>, idx: nat, start: int)
    requires idx < |lines|
    ensures From(lines[..idx + 1], start) == From(lines[..idx], start) + (if idx >= start then [lines[idx]] else [])
  {
    if 0 < start <= idx {
      assert lines[..idx + 1][start..] == lines[..idx][start..] + [lines[idx]];
    }
  }

  /** Reading the first n lines selects a prefix of what reading the whole file selects. */
  lemma FromPrefix(lines: seq<Line>, n: nat, start: int)
    requires n <= |lines|
    ensures var s0 := if start <= 0 then 0 else start;
      From(lines[..n], start) == From(lines, start)[..if n <= s0 then 0 else n - s0]
  {
  }

  /**
   * One more line read by a reading loop: its object joins the records read so
   * far exactly when its index is at least `start` and it is not blank.
   */
  lemma RecordsStep(lines: seq<Line>, idx: nat, start: int, ok: Payload -> bool)
    requires idx < |lines|
    requires EachRecord(From(lines, start), ok)
    ensures EachRecord(From(lines[..idx], start), ok) && EachRecord(From(lines[..idx + 1], start), ok)
    ensures idx >= start && lines[idx].Rec? ==> ok(lines[idx].obj)
    ensures Records(From(lines[..idx + 1], start))
         == Records(From(lines[..idx], start)) + (if idx >= start && lines[idx].Rec? then [lines[idx].obj] else [])
  {
    FromPrefix(lines, idx, start);
    FromPrefix(lines, idx + 1, start);
    FromSnoc(lines, idx, start);
    RecordsConcat(From(lines[..idx], start), if idx >= start then [lines[idx]] else []);
    assert [lines[idx]][..0] == [];
  }
}
