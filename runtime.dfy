/**
 * The world runtime: the clock, the derived state, the in-memory log, and
 * optionally a durable event store and a plugin gateway. Every event enters
 * through `Record`, which logs it, persists it and reduces it into the state.
 */
module Runtime {
  import opened Wrappers
  import opened Json
  import opened Events
  import opened ExternalInputs
  import opened WorldStates
  import opened Reducer
  import opened EventLogs
  import opened JsonLines
  import opened FileEventStores
  import opened SnapshotStores
  import opened PluginGateways
  import opened Metrics

  /** The store lines that appending the events `es` one by one adds. */
  function EventLines(es: seq<Event>): (ls: seq<Line>)
    ensures |ls| == |es| && NoBlank(ls)
    ensures forall i :: 0 <= i < |es| ==> ls[i] == Rec(ToDict(es[i]))
  {
    seq(|es|, i requires 0 <= i < |es| => Rec(ToDict(es[i])))
  }

  lemma EventLinesSnoc(es: seq<Event>, e: Event)
    ensures EventLines(es + [e]) == EventLines(es) + [Rec(ToDict(e))]
  {
  }

  /** Appending to a concatenation appends to its second part. */
  lemma SnocAssoc<T>(a: seq<T>, b: seq<T>, x: T)
    ensures (a + b) + [x] == a + (b + [x])
  {
  }

  /** The lines appended for `es` read back as exactly `es`. */
  lemma StoredEventLines(es: seq<Event>)
    ensures EachRecord(EventLines(es), WellFormedRecord)
    ensures StoredEvents(EventLines(es)) == es
  {
    var ls := EventLines(es);
    RecordsNoBlank(ls);
    forall i | 0 <= i < |es|
      ensures WellFormedRecord(ToDict(es[i])) && FromDict(ToDict(es[i])) == Some(es[i])
    {
      RoundTrip(es[i]);
    }
  }

  /**
   * The events a recording loop makes of `inputs` when the clock reads `t0`
   * for the first and `t1` for every later one.
   */
  function Stamped(inputs: seq<ExternalInput>, t0: int, t1: int): (es: seq<Event>)
    ensures |es| == |inputs|
    ensures forall i :: 0 <= i < |es| ==> es[i].kind == ExternalInputType
  {
    if inputs == [] then [] else [ExternalInputs.ToEvent(inputs[0], t0)] + ToEvents(inputs[1..], t1)
  }

  lemma StampedSnoc(inputs: seq<ExternalInput>, i: nat, t0: int, t1: int)
    requires i < |inputs|
    ensures Stamped(inputs[..i + 1], t0, t1)
         == Stamped(inputs[..i], t0, t1) + [ExternalInputs.ToEvent(inputs[i], if i == 0 then t0 else t1)]
  {
    if i > 0 {
      var a, b := inputs[..i + 1], inputs[..i];
      assert a[1..] == b[1..] + [inputs[i]];
      assert ToEvents(a[1..], t1) == ToEvents(b[1..], t1) + [ExternalInputs.ToEvent(inputs[i], t1)];
    }
  }

  /** When the clock reads the same for every input, every event carries that time. */
  lemma StampedSameTime(inputs: seq<ExternalInput>, t: int)
    ensures Stamped(inputs, t, t) == ToEvents(inputs, t)
  {
  }

  /**
   * A snapshot `(s, idx)` covers the history `es` when it is the state after
   * the events up to and including index `idx`.
   */
  ghost predicate SnapshotCovers(s: WorldState, idx: int, es: seq<Event>) {
    0 <= idx < |es| && s == Replay(Initial(), es[..idx + 1])
  }

  /** A snapshot covering a history still covers it once more events follow. */
  lemma CoversExtends(s: WorldState, idx: int, a: seq<Event>, b: seq<Event>)
    requires SnapshotCovers(s, idx, a)
    ensures SnapshotCovers(s, idx, a + b)
  {
    assert (a + b)[..idx + 1] == a[..idx + 1];
  }

  /** Appending one event to the store keeps a snapshot of its history covering it. */
  lemma CoversAfterAppend(s: WorldState, idx: int, lines: seq<Line>, e: Event)
    requires EachRecord(lines, WellFormedRecord)
    requires SnapshotCovers(s, idx, StoredEvents(lines))
    ensures EachRecord(lines + [Rec(ToDict(e))], WellFormedRecord)
    ensures SnapshotCovers(s, idx, StoredEvents(lines + [Rec(ToDict(e))]))
  {
    AppendThenLoad(lines, e);
    CoversExtends(s, idx, StoredEvents(lines), [e]);
  }

  /** The log `log` is the tail of the events stored in `lines`. */
  ghost predicate MirroredIn(lines: seq<Line>, log: seq<Event>) {
    EachRecord(lines, WellFormedRecord)
    && |log| <= |StoredEvents(lines)|
    && StoredEvents(lines)[|StoredEvents(lines)| - |log|..] == log
  }

  /** Writing an event to the store and to the log keeps the log the store's tail. */
  lemma MirroredAppend(lines: seq<Line>, log: seq<Event>, e: Event)
    requires MirroredIn(lines, log)
    ensures MirroredIn(lines + [Rec(ToDict(e))], log + [e])
  {
    AppendThenLoad(lines, e);
    var se := StoredEvents(lines);
    assert (se + [e])[|se| + 1 - (|log| + 1)..] == se[|se| - |log|..] + [e];
  }

  /** A log holding everything the store holds mirrors it. */
  lemma MirroredWhole(lines: seq<Line>)
    requires EachRecord(lines, WellFormedRecord)
    ensures MirroredIn(lines, StoredEvents(lines))
  {
    assert StoredEvents(lines)[0..] == StoredEvents(lines);
  }

  class WorldRuntime {
    var t: int
    var state: WorldState
    const eventLog: EventLog
    const eventStore: Option<FileEventStore>
    const gateway: Option<PluginGateway>

    /**
     * `WorldRuntime(t, state, event_store=..., gateway=...)` with a fresh,
     * empty log. The default runtime is `new WorldRuntime(0, Initial(), ...)`.
     */
    constructor (t: int, state: WorldState, eventStore: Option<FileEventStore>, gateway: Option<PluginGateway>)
      ensures this.t == t && this.state == state
      ensures this.eventStore == eventStore && this.gateway == gateway
      ensures fresh(eventLog) && eventLog.events == []
      ensures Separate()
      ensures (eventStore.Some? ==> eventStore.value.Lines() == []) ==> Whole()
    {
      this.t := t;
      this.state := state;
      this.eventLog := new EventLog();
      this.eventStore := eventStore;
      this.gateway := gateway;
    }

    /** The store object a recorded event is written to, if any. */
    function StoreRepr(): set<object> {
      if eventStore.Some? then {eventStore.value} else {}
    }

    /** The objects a pull of the gateway changes, if there is a gateway. */
    function GatewayRepr(): set<object> {
      if gateway.Some? then gateway.value.Repr() else {}
    }

    /** A pull of the gateway touches neither the runtime, its log nor its store. */
    ghost predicate Separate()
      reads this
    {
      GatewayRepr() !! ({this, eventLog} + StoreRepr())
    }

    /** The state is the replay of the log from the initial state, and the clock is the state's. */
    ghost predicate Consistent()
      reads this, eventLog
    {
      state == Replay(Initial(), eventLog.events) && t == state.t
    }

    /** The clock counts the ticks: true of every runtime grown from the initial state. */
    ghost predicate Clocked()
      reads this
    {
      state.tickCount == state.t && t == state.t
    }

    /** Every logged event is persisted: the log is the tail of the events the store holds. */
    ghost predicate Mirrors()
      reads this, eventLog, StoreRepr()
    {
      eventStore.Some? ==> MirroredIn(eventStore.value.Lines(), eventLog.events)
    }

    /**
     * The log holds the store's whole history: true of a runtime built over
     * an empty store and of one replayed from its store, and kept by every
     * recorded event. `Mirrors` alone, a log that is only the store's tail,
     * does not make snapshots trustworthy (see `TailSnapshotMisleads`).
     */
    ghost predicate Whole()
      reads this, eventLog, StoreRepr()
    {
      eventStore.Some? ==>
        EachRecord(eventStore.value.Lines(), WellFormedRecord) && StoredEvents(eventStore.value.Lines()) == eventLog.events
    }

    /**
     * `snaps` holds no snapshot, or a readable one that covers the log; on a
     * whole runtime the log is the stored history, so it covers that too.
     */
    ghost predicate Trusts(snaps: SnapshotStore)
      reads this, eventLog, snaps
    {
      (snaps.file.Some? ==> WellFormedSnapshot(snaps.file.value)) &&
      (snaps.Saved().Some? ==> SnapshotCovers(snaps.Saved().value.0, snaps.Saved().value.1, eventLog.events))
    }

    /**
     * `_record(e)`: appends `e` to the log and, when there is a store, one
     * line to the store; then reduces `e` into the state and sets the clock
     * to the state's. Nothing else changes.
     */
    method Record(e: Event)
      modifies this, eventLog, StoreRepr()
      ensures eventLog.events == old(eventLog.events) + [e]
      ensures eventStore.Some? ==> eventStore.value.file == Some(old(eventStore.value.Lines()) + [Rec(ToDict(e))])
      ensures state == ApplyEvent(old(state), e) && t == state.t
      ensures old(Consistent()) ==> Consistent()
      ensures old(Mirrors()) ==> Mirrors()
      ensures old(Whole()) ==> Whole()
    {
      ghost var log0 := eventLog.events;
      ghost var mirrored := Mirrors();
      ghost var whole := Whole();
      ghost var lines0 := if eventStore.Some? then eventStore.value.Lines() else [];
      eventLog.Append(e);
      if eventStore.Some? {
        eventStore.value.Append(e);
      }
      state := ApplyEvent(state, e);
      t := state.t;
      ReplaySnoc(Initial(), log0, e);
      if mirrored && eventStore.Some? {
        MirroredAppend(lines0, log0, e);
      }
      if whole && eventStore.Some? {
        AppendThenLoad(lines0, e);
      }
    }

    /**
     * `tick(payload)`: records a WORLD_TICK one step after the current time,
     * carrying `payload` or {} when none is given, and returns it. The clock
     * and the tick counter rise by exactly one.
     */
    method Tick(payload: Option<Payload>) returns (e: Event)
      modifies this, eventLog, StoreRepr()
      ensures e == Event(old(t) + 1, WorldTickType, if payload.Some? then payload.value else map[])
      ensures t == old(t) + 1 && state.t == t
      ensures state.tickCount == old(state.tickCount) + 1
      ensures state.inputCount == old(state.inputCount) && state.lastInput == old(state.lastInput)
      ensures eventLog.events == old(eventLog.events) + [e] && eventLog.Last() == Some(e)
      ensures eventStore.Some? ==> eventStore.value.file == Some(old(eventStore.value.Lines()) + [Rec(ToDict(e))])
      ensures old(Consistent()) ==> Consistent()
      ensures old(Clocked()) ==> Clocked()
      ensures old(Mirrors()) ==> Mirrors()
      ensures old(Whole()) ==> Whole()
    {
      e := Event(t + 1, WorldTickType, if payload.Some? then payload.value else map[]);
      Record(e);
    }

    /**
     * `ingest_inputs()`: with no gateway, returns [] and changes nothing.
     * Otherwise pulls the pending inputs and records them (see
     * `RecordInputs`), returning exactly the recorded events; on a consistent
     * runtime they all carry the current time and the clock does not move.
     * The gateway is left with nothing pending.
     */
    method IngestInputs() returns (events: seq<Event>)
      requires gateway.Some? ==> gateway.value.CanPull()
      requires Separate()
      modifies this, eventLog, StoreRepr(), GatewayRepr()
      ensures gateway.None? ==> events == [] && t == old(t) && state == old(state)
      ensures gateway.None? ==> eventLog.events == old(eventLog.events)
      ensures gateway.None? && eventStore.Some? ==> eventStore.value.file == old(eventStore.value.file)
      ensures gateway.Some? ==> events == Stamped(old(gateway.value.Pending()), old(t), old(state.t))
      ensures gateway.Some? && old(t) == old(state.t) ==> events == ToEvents(old(gateway.value.Pending()), old(t)) && t == old(t)
      ensures gateway.Some? ==> gateway.value.CanPull() && gateway.value.Pending() == []
      ensures state == Replay(old(state), events) && state.t == old(state.t)
      ensures eventLog.events == old(eventLog.events) + events
      ensures eventStore.Some? ==> eventStore.value.Lines() == old(eventStore.value.Lines()) + EventLines(events)
      ensures old(Consistent()) ==> Consistent()
      ensures old(Clocked()) ==> Clocked()
      ensures old(Mirrors()) ==> Mirrors()
      ensures old(Whole()) ==> Whole()
    {
      if gateway.None? {
        return [];
      }
      var g := gateway.value;
      var inputs := Pull(g);
      events := RecordInputs(inputs);
    }

    /**
     * The recording loop of `ingest_inputs`: one EXTERNAL_INPUT per input, in
     * order, each stamped with the clock at the moment it is recorded. The
     * first carries the current time, the later ones the state's time, which
     * inputs never move; on a consistent runtime the two agree.
     */
    method RecordInputs(inputs: seq<ExternalInput>) returns (events: seq<Event>)
      modifies this, eventLog, StoreRepr()
      ensures events == Stamped(inputs, old(t), old(state.t))
      ensures old(t) == old(state.t) ==> events == ToEvents(inputs, old(t)) && t == old(t)
      ensures t == (if inputs == [] then old(t) else old(state.t))
      ensures state == Replay(old(state), events) && state.t == old(state.t)
      ensures eventLog.events == old(eventLog.events) + events
      ensures eventStore.Some? ==> eventStore.value.Lines() == old(eventStore.value.Lines()) + EventLines(events)
      ensures old(Consistent()) ==> Consistent()
      ensures old(Clocked()) ==> Clocked()
      ensures old(Mirrors()) ==> Mirrors()
      ensures old(Whole()) ==> Whole()
    {
      ghost var lines0 := if eventStore.Some? then eventStore.value.Lines() else [];
      ghost var consistent, mirrored, whole := Consistent(), Mirrors(), Whole();
      events := [];
      for i := 0 to |inputs|
        invariant events == Stamped(inputs[..i], old(t), old(state.t))
        invariant t == (if i == 0 then old(t) else old(state.t))
        invariant state == Replay(old(state), events) && state.t == old(state.t)
        invariant state.tickCount == old(state.tickCount)
        invariant eventLog.events == old(eventLog.events) + events
        invariant consistent ==> Consistent()
        invariant eventStore.Some? ==> eventStore.value.Lines() == lines0 + EventLines(events)
        invariant mirrored ==> Mirrors()
        invariant whole ==> Whole()
      {
        var e := ExternalInputs.ToEvent(inputs[i], t);
        Record(e);
        ReplaySnoc(old(state), events, e);
        StampedSnoc(inputs, i, old(t), old(state.t));
        SnocAssoc(old(eventLog.events), events, e);
        EventLinesSnoc(events, e);
        SnocAssoc(lines0, EventLines(events), Rec(ToDict(e)));
        events := events + [e];
      }
      assert inputs[..|inputs|] == inputs;
      if old(t) == old(state.t) {
        StampedSameTime(inputs, old(t));
      }
    }

    /** `metrics()`: the metrics of the current state and log; nothing changes. */
    method CurrentMetrics() returns (m: WorldMetrics)
      ensures m == MetricsOf(state, eventLog.events)
    {
      m := ComputeMetrics(state, eventLog);
    }

    /**
     * `maybe_snapshot(snapshot_store, every_n_events)`: saves `(state, n - 1)`
     * and answers true exactly when the log holds n > 0 events and n is a
     * multiple of every_n_events; otherwise the snapshot file is untouched.
     * A zero period raises ZeroDivisionError in `maybe_snapshot` on a
     * non-empty log, so it is excluded there. For a negative period Python's remainder and this one agree on
     * whether it is zero.
     */
    method MaybeSnapshot(snaps: SnapshotStore, everyN: int) returns (saved: bool)
      requires everyN != 0 || eventLog.Len() == 0
      modifies snaps
      ensures saved <==> eventLog.Len() > 0 && eventLog.Len() % everyN == 0
      ensures saved ==> snaps.file == Some(Encode(state, eventLog.Len() - 1))
      ensures saved ==> snaps.Saved() == Some((state, eventLog.Len() - 1))
      ensures !saved ==> snaps.file == old(snaps.file)
      ensures saved && Consistent() ==> SnapshotCovers(state, eventLog.Len() - 1, eventLog.events)
      ensures saved && Consistent() && Whole() && eventStore.Some? ==>
        SnapshotCovers(state, eventLog.Len() - 1, StoredEvents(eventStore.value.Lines()))
      ensures Consistent() && old(Trusts(snaps)) ==> Trusts(snaps)
    {
      var n := eventLog.Len();
      if n == 0 {
        return false;
      }
      if n % everyN != 0 {
        return false;
      }
      snaps.Save(state, n - 1);
      assert eventLog.events[..n - 1 + 1] == eventLog.events;
      return true;
    }

    /**
     * `replay_from_store(store)`: a runtime whose log holds every stored
     * event, whose state is their replay from the initial state, with the
     * store attached and no gateway.
     */
    static method ReplayFromStore(store: FileEventStore) returns (rt: WorldRuntime)
      requires EachRecord(store.Lines(), WellFormedRecord)
      ensures fresh(rt) && fresh(rt.eventLog)
      ensures rt.eventLog.events == StoredEvents(store.Lines())
      ensures rt.state == Replay(Initial(), StoredEvents(store.Lines())) && rt.t == rt.state.t
      ensures rt.eventStore == Some(store) && rt.gateway == None
      ensures rt.Consistent() && rt.Mirrors() && rt.Whole()
    {
      var events := store.LoadAll();
      var finalState := ApplyEvents(Initial(), events);
      rt := Restored(finalState, store, events);
      MirroredWhole(store.Lines());
    }

    /**
     * The runtime both replays build: clock and state from `state`, the store
     * attached, no gateway, and a fresh log into which `events` are appended
     * one by one.
     */
    static method Restored(state: WorldState, store: FileEventStore, events: seq<Event>) returns (rt: WorldRuntime)
      ensures fresh(rt) && fresh(rt.eventLog)
      ensures rt.state == state && rt.t == state.t && rt.eventLog.events == events
      ensures rt.eventStore == Some(store) && rt.gateway == None
    {
      rt := new WorldRuntime(state.t, state, Some(store), None);
      for i := 0 to |events|
        invariant rt.eventLog.events == events[..i]
        invariant rt.state == state && rt.t == state.t
      {
        rt.eventLog.Append(events[i]);
      }
      assert events[..|events|] == events;
    }

    /**
     * `replay_fast_from_store(store, snapshot_store)`: with no snapshot, a full
     * replay. With a snapshot `(s, idx)`, the state is `s` advanced by the
     * stored events after event index idx (see `LoadFromEventIndex`), while
     * the log still holds every stored event; when the snapshot covers the
     * stored history, the result is the full replay.
     */
    static method ReplayFastFromStore(store: FileEventStore, snaps: SnapshotStore) returns (rt: WorldRuntime)
      requires EachRecord(store.Lines(), WellFormedRecord)
      requires snaps.file.Some? ==> WellFormedSnapshot(snaps.file.value)
      ensures fresh(rt) && fresh(rt.eventLog)
      ensures rt.eventLog.events == StoredEvents(store.Lines())
      ensures rt.eventStore == Some(store) && rt.gateway == None && rt.t == rt.state.t
      ensures snaps.Saved().None? ==> rt.state == Replay(Initial(), StoredEvents(store.Lines()))
      ensures snaps.Saved().Some? ==>
        rt.state == Replay(snaps.Saved().value.0, EventsFromIndex(store.Lines(), snaps.Saved().value.1 + 1))
      ensures snaps.Saved().Some? && SnapshotCovers(snaps.Saved().value.0, snaps.Saved().value.1, StoredEvents(store.Lines())) ==>
        rt.state == Replay(Initial(), StoredEvents(store.Lines()))
      ensures rt.Mirrors() && rt.Whole()
    {
      ghost var lines := store.Lines();
      var snap := snaps.Load();
      if snap.None? {
        rt := ReplayFromStore(store);
      } else {
        rt := ReplayOnSnapshot(store, snap.value.0, snap.value.1);
      }
      assert snaps.Saved() == snap && store.Lines() == lines;
    }

    /**
     * The snapshot branch of `replay_fast_from_store`: the snapshot's state
     * advanced by the stored events after event index idx, with every stored
     * event in the log.
     */
    static method ReplayOnSnapshot(store: FileEventStore, baseState: WorldState, lastEventIndex: int) returns (rt: WorldRuntime)
      requires EachRecord(store.Lines(), WellFormedRecord)
      ensures fresh(rt) && fresh(rt.eventLog)
      ensures rt.eventLog.events == StoredEvents(store.Lines())
      ensures rt.eventStore == Some(store) && rt.gateway == None && rt.t == rt.state.t
      ensures rt.state == Replay(baseState, EventsFromIndex(store.Lines(), lastEventIndex + 1))
      ensures SnapshotCovers(baseState, lastEventIndex, StoredEvents(store.Lines())) ==>
        rt.state == Replay(Initial(), StoredEvents(store.Lines()))
      ensures rt.Mirrors() && rt.Whole()
    {
      ghost var lines := store.Lines();
      if SnapshotCovers(baseState, lastEventIndex, StoredEvents(lines)) {
        CorrectedFastReplayMatchesFull(lines, StoredEvents(lines), baseState, lastEventIndex);
      }
      var remaining := store.LoadFromEventIndex(lastEventIndex + 1);
      var finalState := ApplyEvents(baseState, remaining);
      var all := store.LoadAll();
      rt := Restored(finalState, store, all);
      MirroredWhole(store.Lines());
    }

    /** Records `later` one event after another, keeping the runtime consistent and whole. */
    method RecordAll(later: seq<Event>)
      requires Consistent() && Whole()
      modifies this, eventLog, StoreRepr()
      ensures Consistent() && Whole()
      ensures eventLog.events == old(eventLog.events) + later
    {
      for i := 0 to |later|
        invariant Consistent() && Whole()
        invariant eventLog.events == old(eventLog.events) + later[..i]
      {
        Record(later[i]);
        assert later[..i + 1] == later[..i] + [later[i]];
      }
      assert later[..|later|] == later;
    }

    /**
     * The snapshot promise end to end: on a runtime whose log holds its
     * store's whole history, `maybe_snapshot` followed by any further
     * recorded events leaves a snapshot from which `replay_fast_from_store`
     * rebuilds exactly the runtime's state, clock and log. A snapshot file
     * already present must cover the stored history, as one saved this way
     * does.
     */
    method SnapshotThenReplay(snaps: SnapshotStore, everyN: int, later: seq<Event>) returns (saved: bool, fast: WorldRuntime)
      requires eventStore.Some? && Consistent() && Whole() && Trusts(snaps)
      requires everyN != 0 || eventLog.Len() == 0
      modifies this, eventLog, StoreRepr(), snaps
      ensures saved <==> old(eventLog.Len()) > 0 && old(eventLog.Len()) % everyN == 0
      ensures saved ==> snaps.Saved() == Some((old(state), old(eventLog.Len()) - 1))
      ensures eventLog.events == old(eventLog.events) + later && state == Replay(Initial(), eventLog.events)
      ensures fast.state == state && fast.t == t && fast.eventLog.events == eventLog.events
    {
      saved := MaybeSnapshot(snaps, everyN);
      ghost var snap, before := snaps.Saved(), eventLog.events;
      if snap.Some? {
        CoversExtends(snap.value.0, snap.value.1, before, later);
      }
      RecordAll(later);
      assert snaps.Saved() == snap && Trusts(snaps);
      var store := eventStore.value;
      fast := ReplayFastFromStore(store, snaps);
    }
  }

  /**
   * A fresh runtime whose fake gateway holds `inputs`, after one `tick()` and
   * one `ingest_inputs()`: its log is the tick at t = 1 followed by the
   * inputs stamped 1, and `metrics()` reports the metrics of that history.
   */
  method TickThenIngest(inputs: seq<ExternalInput>) returns (m: WorldMetrics)
    ensures var log := [Event(1, WorldTickType, map[])] + ToEvents(inputs, 1);
      m == MetricsOf(Replay(Initial(), log), log)
  {
    var fake := new FakePluginGateway(inputs);
    var rt := new WorldRuntime(0, Initial(), None, Some(Fake(fake)));
    var tick := rt.Tick(None);
    var ingested := rt.IngestInputs();
    m := rt.CurrentMetrics();
  }

  /**
   * The metrics test driven through the runtime: two equipment inputs and
   * one order input behind one tick give equipment = 2, order = 1 and a
   * summary of NEW_ORDER.
   */
  method MetricsScenarioRun() returns (m: WorldMetrics)
    ensures m.t == 1 && m.tickCount == 1 && m.inputCount == 3
    ensures m.inputsByChannel == map["equipment" := 2, "order" := 1]
    ensures m.lastInputSummary.Some? && "channel" in m.lastInputSummary.value && "name" in m.lastInputSummary.value
      && m.lastInputSummary.value["channel"] == "order" && m.lastInputSummary.value["name"] == "NEW_ORDER"
  {
    var inputs := [ExternalInput("plugin", "equipment", "TEMP", map["v" := JInt(1)], None),
                   ExternalInput("plugin", "equipment", "PRESSURE", map["v" := JInt(2)], None),
                   ExternalInput("system", "order", "NEW_ORDER", map["id" := JStr("O1")], None)];
    m := TickThenIngest(inputs);
    assert [Event(1, WorldTickType, map[])] + ToEvents(inputs, 1) == ScenarioLog();
    ScenarioMetrics();
  }

  /**
   * A log that is only the store's tail does not make snapshots trustworthy.
   * A fresh runtime over a store that already holds three ticks records a
   * tick and an input and snapshots its own log at index 1: the log mirrors
   * the store and the snapshot covers the log, yet fast replay from it
   * counts two ticks where the store holds four events with three ticks.
   */
  lemma TailSnapshotMisleads(a: Event, b: Event)
    requires a.kind == WorldTickType && b.kind == ExternalInputType
    ensures var lines := EventLines([a, a, a, b]);
      var log := [a, b];
      var s := Replay(Initial(), log);
      && MirroredIn(lines, log)
      && SnapshotCovers(s, 1, log)
      && Replay(s, EventsFromIndex(lines, 2)).tickCount == 2
      && Replay(Initial(), StoredEvents(lines)).tickCount == 3
  {
    var es := [a, a, a, b];
    StoredEventLines(es);
    assert es[2..] == [a, b] && [a, b][..2] == [a, b];
    TickThenInput(Initial(), a, b);
    TickThenInput(Replay(Initial(), [a, b]), a, b);
    ThreeTicksThenInput(a, b);
  }

  /** A tick followed by an input raises the tick counter by exactly one. */
  lemma TickThenInput(s: WorldState, a: Event, b: Event)
    requires a.kind == WorldTickType && b.kind == ExternalInputType
    ensures Replay(s, [a, b]).tickCount == s.tickCount + 1
  {
    ReplaySnoc(s, [], a);
    ReplaySnoc(s, [a], b);
    assert [a] + [b] == [a, b];
  }

  /** Three ticks and an input from the initial state count three ticks. */
  lemma ThreeTicksThenInput(a: Event, b: Event)
    requires a.kind == WorldTickType && b.kind == ExternalInputType
    ensures Replay(Initial(), [a, a, a, b]).tickCount == 3
  {
    ReplaySnoc(Initial(), [], a);
    ReplaySnoc(Initial(), [a], a);
    assert [a] + [a] == [a, a] && [a, a] + [a, b] == [a, a, a, b];
    FoldSplit(Initial(), [a, a], [a, b]);
    TickThenInput(Replay(Initial(), [a, a]), a, b);
  }

  /**
   * Fast replay agrees with full replay: over a store without blank lines
   * holding the history `es`, a snapshot covering `es` up to `idx`, advanced
   * by the events from line idx + 1 on, is the replay of all of `es`.
   */
  lemma FastReplayMatchesFull(lines: seq<Line>, es: seq<Event>, s: WorldState, idx: int)
    requires NoBlank(lines) && EachRecord(lines, WellFormedRecord)
    requires StoredEvents(lines) == es
    requires SnapshotCovers(s, idx, es)
    ensures EachRecord(From(lines, idx + 1), WellFormedRecord)
    ensures Replay(s, StoredEvents(From(lines, idx + 1))) == Replay(Initial(), es)
  {
    assert idx + 1 <= |lines| by {
      RecordsNoBlank(lines);
    }
    LoadFromIndexNoBlank(lines, idx + 1);
    var done, rest := es[..idx + 1], es[idx + 1..];
    assert es == done + rest;
    FoldSplit(Initial(), done, rest);
  }

  /**
   * Fast replay as written, over a store whose first line is blank: two
   * ticks are stored and the snapshot covers the first, but loading from
   * line 1 returns both, so the first tick is applied twice.
   */
  lemma FastReplayCountsBlankLine()
    ensures var a, b := Event(1, WorldTickType, map[]), Event(2, WorldTickType, map[]);
      var lines := [Blank, Rec(ToDict(a)), Rec(ToDict(b))];
      var s := Replay(Initial(), [a]);
      && EachRecord(lines, WellFormedRecord)
      && SnapshotCovers(s, 0, StoredEvents(lines))
      && Replay(s, StoredEvents(From(lines, 1))).tickCount == 3
      && Replay(Initial(), StoredEvents(lines)).tickCount == 2
  {
    var a, b := Event(1, WorldTickType, map[]), Event(2, WorldTickType, map[]);
    var lines := [Blank, Rec(ToDict(a)), Rec(ToDict(b))];
    LineIndexIsNotEventIndex(a, b);
    var s := Replay(Initial(), [a]);
    ReplaySnoc(Initial(), [], a);
    assert [a][..1] == [a] && [a, b][..0 + 1] == [a];
    assert s.tickCount == 1;
    ReplayFromInitial([a, b]);
    assert OfKind([a, b], WorldTickType) == [a, b] by {
      assert [a, b][1..] == [b] && [b][1..] == [];
    }
    ReplayFacts(s, [a, b]);
  }

  /**
   * Fast replay reading the events after the snapshot's event index, as
   * `load_from_index` documents it, agrees with full replay on every store,
   * blank lines included.
   */
  lemma CorrectedFastReplayMatchesFull(lines: seq<Line>, es: seq<Event>, s: WorldState, idx: int)
    requires EachRecord(lines, WellFormedRecord)
    requires StoredEvents(lines) == es
    requires SnapshotCovers(s, idx, es)
    ensures Replay(s, EventsFromIndex(lines, idx + 1)) == Replay(Initial(), es)
  {
    assert es == es[..idx + 1] + es[idx + 1..];
    FoldSplit(Initial(), es[..idx + 1], es[idx + 1..]);
  }
}
