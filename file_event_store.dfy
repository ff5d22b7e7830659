/**
 * The durable event store: a JSON-lines file with one event dictionary per
 * line. `file` is the file's content, None while the file does not exist.
 */
module FileEventStores {
  import opened Wrappers
  import opened Json
  import opened Events
  import opened JsonLines

  /** The events a sequence of well-formed stored records reads back as. */
  function DecodeEvents(rs: seq<Payload>): (es: seq<Event>)
    requires forall r :: r in rs ==> WellFormedRecord(r)
    ensures |es| == |rs|
    ensures forall i :: 0 <= i < |rs| ==> Some(es[i]) == FromDict(rs[i])
  {
    seq(|rs|, i requires 0 <= i < |rs| => FromDict(rs[i]).value)
  }

  /** The events stored in `lines`, in file order, blank lines skipped. */
  function StoredEvents(lines: seq<Line>): seq<Event>
    requires EachRecord(lines, WellFormedRecord)
  {
    EachRecordRecords(lines, WellFormedRecord);
    DecodeEvents(Records(lines))
  }

  class FileEventStore {
    var file: Option<seq<Line>>

    /** A store over a path whose current content is `content` (None: no file yet). */
    constructor (content: Option<seq<Line>>)
      ensures file == content
    {
      file := content;
    }

    /** The file's lines; a missing file has none. */
    function Lines(): seq<Line>
      reads this
    {
      if file.Some? then file.value else []
    }

    /** `append(e)`: creates the file if needed and adds exactly one record line at the end. */
    method Append(e: Event)
      modifies this
      ensures file == Some(old(Lines()) + [Rec(ToDict(e))])
    {
      file := Some(Lines() + [Rec(ToDict(e))]);
    }

    /**
     * `load_from_index(start)`: the events on the lines with index at least
     * `start`, in file order; blank lines are skipped but still count toward
     * the index. A missing file loads as no events. Only the lines that are
     * read must be well-formed.
     */
    method LoadFromIndex(start: int) returns (events: seq<Event>)
      requires EachRecord(From(Lines(), start), WellFormedRecord)
      ensures events == StoredEvents(From(Lines(), start))
      ensures file.None? ==> events == []
    {
      if file.None? {
        return [];
      }
      var lines := file.value;
      events := [];
      var idx := 0;
      while idx < |lines|
        invariant 0 <= idx <= |lines|
        invariant EachRecord(From(lines[..idx], start), WellFormedRecord)
        invariant events == StoredEvents(From(lines[..idx], start))
      {
        LoadStep(lines, idx, start);
        if idx < start {
          idx := idx + 1;
          continue;
        }
        if lines[idx].Blank? {
          idx := idx + 1;
          continue;
        }
        events := events + [FromDict(lines[idx].obj).value];
        idx := idx + 1;
      }
      assert lines[..idx] == lines;
    }

    /**
     * `load_from_index` as its documentation reads: the stored events after
     * the first `start`, however many blank lines the file holds.
     */
    method LoadFromEventIndex(start: int) returns (events: seq<Event>)
      requires EachRecord(Lines(), WellFormedRecord)
      ensures events == EventsFromIndex(Lines(), start)
    {
      var all := LoadAll();
      if start <= 0 {
        events := all;
      } else if start >= |all| {
        events := [];
      } else {
        events := all[start..];
      }
    }

    /** `load_all()` is `load_from_index(0)`: every stored event. */
    method LoadAll() returns (events: seq<Event>)
      requires EachRecord(Lines(), WellFormedRecord)
      ensures events == StoredEvents(Lines())
    {
      events := LoadFromIndex(0);
    }
  }

  /** One more line read by the loading loop: its event joins the result exactly when it is selected and not blank. */
  lemma LoadStep(lines: seq<Line>, idx: nat, start: int)
    requires idx < |lines|
    requires EachRecord(From(lines, start), WellFormedRecord)
    ensures EachRecord(From(lines[..idx + 1], start), WellFormedRecord)
    ensures idx >= start && lines[idx].Rec? ==> WellFormedRecord(lines[idx].obj)
    ensures EachRecord(From(lines[..idx], start), WellFormedRecord)
    ensures StoredEvents(From(lines[..idx + 1], start))
         == StoredEvents(From(lines[..idx], start))
            + (if idx >= start && lines[idx].Rec? then [FromDict(lines[idx].obj).value] else [])
  {
    RecordsStep(lines, idx, start, WellFormedRecord);
    var before := Records(From(lines[..idx], start));
    EachRecordRecords(From(lines[..idx], start), WellFormedRecord);
    if idx >= start && lines[idx].Rec? {
      assert DecodeEvents(before + [lines[idx].obj]) == DecodeEvents(before) + [FromDict(lines[idx].obj).value];
    }
  }

  /** Appending `e` and loading everything gives the old contents followed by `e`. */
  lemma AppendThenLoad(lines: seq<Line>, e: Event)
    requires EachRecord(lines, WellFormedRecord)
    ensures EachRecord(lines + [Rec(ToDict(e))], WellFormedRecord)
    ensures StoredEvents(lines + [Rec(ToDict(e))]) == StoredEvents(lines) + [e]
  {
    RoundTrip(e);
    var lines' := lines + [Rec(ToDict(e))];
    assert lines'[..|lines'| - 1] == lines;
    assert Records(lines') == Records(lines) + [ToDict(e)];
  }

  /** Loading from index k is the events of the lines before k followed by those from k on. */
  lemma {:induction false} LoadSplit(lines: seq<Line>, k: nat)
    requires k <= |lines|
    requires EachRecord(lines, WellFormedRecord)
    ensures EachRecord(lines[..k], WellFormedRecord) && EachRecord(From(lines, k), WellFormedRecord)
    ensures StoredEvents(lines) == StoredEvents(lines[..k]) + StoredEvents(From(lines, k))
  {
    assert lines == lines[..k] + lines[k..];
    RecordsConcat(lines[..k], lines[k..]);
    assert forall i :: 0 <= i < |lines| - k ==> lines[k..][i] == lines[k + i];
  }

  /** With no blank lines, `load_from_index(k)` is `load_all()[k:]`. */
  lemma LoadFromIndexNoBlank(lines: seq<Line>, k: nat)
    requires k <= |lines|
    requires NoBlank(lines) && EachRecord(lines, WellFormedRecord)
    ensures EachRecord(From(lines, k), WellFormedRecord)
    ensures |StoredEvents(lines)| == |lines|
    ensures StoredEvents(From(lines, k)) == StoredEvents(lines)[k..]
  {
    LoadSplit(lines, k);
    RecordsNoBlank(lines);
    RecordsNoBlank(lines[..k]);
  }

  /** A blank line at index k is skipped: loading from k and from k + 1 give the same events. */
  lemma BlankLineSkipped(lines: seq<Line>, k: nat)
    requires k < |lines| && lines[k].Blank?
    requires EachRecord(From(lines, k), WellFormedRecord)
    ensures EachRecord(From(lines, k + 1), WellFormedRecord)
    ensures StoredEvents(From(lines, k)) == StoredEvents(From(lines, k + 1))
  {
    assert From(lines, k) == [lines[k]] + From(lines, k + 1);
    RecordsConcat([lines[k]], From(lines, k + 1));
    assert [lines[k]][..0] == [];
  }

  /**
   * Loading from event index k as `load_from_index` documents it: the stored
   * events after the first k, blank lines playing no part in the count.
   */
  function EventsFromIndex(lines: seq<Line>, k: int): (es: seq<Event>)
    requires EachRecord(lines, WellFormedRecord)
    ensures var n := |StoredEvents(lines)|;
      |es| == (if k <= 0 then n else if k >= n then 0 else n - k)
    ensures StoredEvents(lines) == StoredEvents(lines)[..|StoredEvents(lines)| - |es|] + es
  {
    var all := StoredEvents(lines);
    if k <= 0 then all else if k >= |all| then [] else all[k..]
  }

  /** On a file without blank lines, line index and event index coincide. */
  lemma EventsFromIndexWithoutBlanks(lines: seq<Line>, k: nat)
    requires k <= |lines|
    requires NoBlank(lines) && EachRecord(lines, WellFormedRecord)
    ensures EachRecord(From(lines, k), WellFormedRecord)
    ensures StoredEvents(From(lines, k)) == EventsFromIndex(lines, k)
  {
    LoadFromIndexNoBlank(lines, k);
  }

  /**
   * With a blank first line, `load_from_index(1)` as written counts the blank
   * line and returns both stored events, where the documented reading skips
   * the first event.
   */
  lemma LineIndexIsNotEventIndex(a: Event, b: Event)
    ensures var lines := [Blank, Rec(ToDict(a)), Rec(ToDict(b))];
      && EachRecord(lines, WellFormedRecord)
      && StoredEvents(lines) == [a, b]
      && StoredEvents(From(lines, 1)) == [a, b]
      && EventsFromIndex(lines, 1) == [b]
  {
    var lines := [Blank, Rec(ToDict(a)), Rec(ToDict(b))];
    RoundTrip(a);
    RoundTrip(b);
    BlankLineSkipped(lines, 0);
    assert From(lines, 1) == [Rec(ToDict(a)), Rec(ToDict(b))];
    var two := [Rec(ToDict(a)), Rec(ToDict(b))];
    assert two[..1] == [Rec(ToDict(a))] && [Rec(ToDict(a))][..0] == [];
    assert Records([Rec(ToDict(a))]) == [ToDict(a)];
    assert Records(two) == [ToDict(a), ToDict(b)];
  }
}
