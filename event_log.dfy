/**
 * The in-memory event log of one runtime: an append-only list of events.
 */
module EventLogs {
  import opened Wrappers
  import opened Events

  class EventLog {
    var events: seq<Event>

    /** A new log is empty. */
    constructor ()
      ensures events == []
    {
      events := [];
    }

    /** `append(e)`: exactly one event more, at the end; earlier entries unchanged. */
    method Append(e: Event)
      modifies this
      ensures events == old(events) + [e]
      ensures Len() == old(Len()) + 1 && Last() == Some(e)
      ensures All() == old(All()) + [e]
    {
      events := events + [e];
    }

    /** `all()`: the events in append order, as many as `len` counts, the last of them `last()`. */
    function All(): (r: seq<Event>)
      reads this
      ensures |r| == Len()
      ensures r == [] <==> Last().None?
      ensures r != [] ==> Last() == Some(r[|r| - 1])
    {
      events
    }

    /** `last()`: the most recently appended event, or None for an empty log. */
    function Last(): (r: Option<Event>)
      reads this
      ensures r.None? <==> events == []
      ensures r.Some? ==> r.value == events[|events| - 1]
    {
      if events == [] then None else Some(events[|events| - 1])
    }

    /** `len(log)`: the number of events appended; zero exactly when there is no last event. */
    function Len(): (n: nat)
      reads this
      ensures n == 0 <==> Last().None?
    {
      |events|
    }
  }
}
