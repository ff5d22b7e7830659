/**
 * The file-backed plugin gateway: pulls new inputs from the input queue
 * through a cursor that it advances on every pull.
 */
module FileQueueGateways {
  import opened Wrappers
  import opened ExternalInputs
  import opened JsonLines
  import opened FileInputQueues

  class FileQueueGateway {
    const queue: FileInputQueue
    var cursor: int
    /** The cursor this gateway was built with, and everything it has returned since. */
    ghost const start: int
    ghost var pulled: seq<ExternalInput>

    /** A gateway over `queue` that resumes at `cursor` (0 for a fresh consumer). */
    constructor (queue: FileInputQueue, cursor: int)
      ensures this.queue == queue && this.cursor == cursor
      ensures start == cursor && pulled == []
    {
      this.queue := queue;
      this.cursor := cursor;
      start := cursor;
      pulled := [];
    }

    /**
     * The gateway's account of a queue content `lines`: the cursor is within
     * the file, and what it has returned so far is exactly the inputs on the
     * lines from its starting cursor up to its current cursor.
     */
    ghost predicate Accounts(lines: seq<Line>)
      reads this
    {
      0 <= start <= cursor <= |lines| &&
      EachRecord(From(lines, start), WellFormedInput) &&
      EachRecord(From(lines[..cursor], start), WellFormedInput) &&
      pulled == QueuedInputs(From(lines[..cursor], start))
    }

    /**
     * `pull_inputs()`: returns what `queue.read_since(cursor)` returns and
     * moves the cursor to the line count it reports.
     */
    method PullInputs() returns (items: seq<ExternalInput>)
      requires EachRecord(From(queue.Lines(), cursor), WellFormedInput)
      modifies this
      ensures (items, cursor) == ReadSinceResult(queue.file, old(cursor))
      ensures pulled == old(pulled) + items
      ensures old(queue.file.Some? && cursor == |queue.Lines()|) ==> items == []
      ensures queue.file.Some? && old(Accounts(queue.Lines())) ==> Accounts(queue.Lines())
    {
      ghost var lines := queue.Lines();
      ghost var wasAccounted := queue.file.Some? && Accounts(lines);
      var newCursor;
      items, newCursor := queue.ReadSince(cursor);
      if wasAccounted {
        PullExtendsAccount(lines, start, cursor);
      }
      cursor := newCursor;
      pulled := pulled + items;
    }
  }

  /**
   * The step behind "no duplicates, no gaps": the inputs between the starting
   * cursor and the current one, followed by the inputs a pull returns from the
   * current cursor, are the inputs from the starting cursor to the end.
   */
  lemma PullExtendsAccount(lines: seq<Line>, start: int, cursor: int)
    requires 0 <= start <= cursor <= |lines|
    requires EachRecord(From(lines, start), WellFormedInput)
    ensures EachRecord(From(lines[..cursor], start), WellFormedInput) && EachRecord(From(lines, cursor), WellFormedInput)
    ensures QueuedInputs(From(lines[..cursor], start)) + QueuedInputs(From(lines, cursor))
         == QueuedInputs(From(lines[..|lines|], start))
  {
    assert lines[..cursor] + lines[cursor..] == lines;
    assert lines[..|lines|] == lines;
    ReadSinceConcat(lines[..cursor], lines[cursor..], start);
  }

  /** A gateway that has not pulled yet accounts for any queue that reaches its cursor. */
  lemma AccountsAtStart(g: FileQueueGateway, lines: seq<Line>)
    requires g.pulled == [] && g.cursor == g.start && 0 <= g.start <= |lines|
    requires EachRecord(From(lines, g.start), WellFormedInput)
    ensures g.Accounts(lines)
  {
    assert From(lines[..g.cursor], g.start) == [];
    assert Records([]) == [];
  }

  /** The queue growing by appended lines keeps the gateway's account valid. */
  lemma AccountsAfterAppend(g: FileQueueGateway, lines: seq<Line>, more: seq<Line>)
    requires g.Accounts(lines)
    requires EachRecord(From(lines + more, g.start), WellFormedInput)
    ensures g.Accounts(lines + more)
  {
    assert (lines + more)[..g.cursor] == lines[..g.cursor];
  }

  /**
   * A gateway built with cursor c over a queue of n lines with no blank lines
   * (c <= n) returns exactly the inputs at positions c .. n - 1.
   */
  lemma FirstPullNoBlank(lines: seq<Line>, c: nat)
    requires c <= |lines|
    requires NoBlank(lines) && EachRecord(lines, WellFormedInput)
    ensures EachRecord(From(lines, c), WellFormedInput)
    ensures |QueuedInputs(lines)| == |lines|
    ensures ReadSinceResult(Some(lines), c) == (QueuedInputs(lines)[c..], |lines|)
  {
    assert lines == lines[..c] + lines[c..];
    ReadSinceConcat(lines[..c], lines[c..], 0);
    RecordsNoBlank(lines[..c]);
    RecordsNoBlank(lines);
  }
}
