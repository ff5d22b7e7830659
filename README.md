# CIM WorldLab world engine — a Dafny model

CIM WorldLab simulates a factory "world" as an event-sourced system. Every
fact is an immutable `Event` (time, type tag, payload). The `WorldRuntime`
advances a clock with `WORLD_TICK` events and pulls `EXTERNAL_INPUT` events
from a plugin gateway. Every event is written to an in-memory `EventLog` and,
optionally, to an append-only JSON-lines `FileEventStore`. The current
`WorldState` is never edited by hand: it is always the reducer
(`apply_event`) folded over the history. The state can therefore be rebuilt
by replaying the store from the start, or from a saved snapshot plus the
events after it. Alongside this core sit a stateless policy rule
(temperature too high → PAUSE) and a metrics projection (counters plus the
number of inputs per channel).

The model follows the engine's own structure, one module per source file:

- `Events`, `ExternalInputs`, `PolicyDecisions`, `ActionExecutions`: the event
  records and their payloads.
- `WorldStates`, `Reducer`: the state and the reducer. `Replay` is the
  specification fold, and `ApplyEvents` is the loop proved against it.
- `EventLogs`, `FileEventStores`, `SnapshotStores`, `FileInputQueues`: the
  log and the files, as classes.
  - A file is `Option<seq<Line>>`, where None means the file does not exist.
  - A line is `Blank` or `Rec(object)`.
- `FileQueueGateways`, `PluginGateways`: the two gateway implementations, as
  classes, and the choice between them.
- `PolicyEngine`, `Metrics`: the rule and the metrics projection.
- `Runtime`: the `WorldRuntime` class.
  - It keeps four invariants:
    - `Consistent`: the state is the replay of the log, and the clock is the
      state's.
    - `Clocked`: the tick counter equals the clock.
    - `Mirrors`: the log is the tail of the store.
    - `Whole`: the log is the store's whole history.
  - It also has the fast-replay theorems, including the end-to-end one: a
    snapshot saved by a whole runtime lets fast replay rebuild exactly that
    runtime's state after any further events (`SnapshotThenReplay`).
- `Wrappers`, `Json`, `JsonLines`: the value space and line-level helpers
  shared by the files.

## Model

| member | source | states |
|---|---|---|
| Json.Str | src/cim_worldlab/world/metrics/compute.py:39-48 | Python `str()` of a payload value: text as itself, null as "None", ints in decimal |
| Json.NatTextDenotes | src/cim_worldlab/world/metrics/compute.py:39-48 | the digits `str()` writes for a natural number denote that number |
| JsonLines.From | src/cim_worldlab/world/persistence/file_event_store.py:50-52 | the lines a reader visits from `start`: all of them for start ≤ 0, none past the end, else the suffix |
| Events.ToDict | src/cim_worldlab/world/events/event.py:40-49 | the dict has exactly the keys t, type, payload holding the event's own values |
| Events.FromDict | src/cim_worldlab/world/persistence/file_event_store.py:56-62 | a record reads back iff it is well-formed, with t and type copied, a present payload copied and a missing one read as {} |
| Events.RoundTrip | src/cim_worldlab/world/persistence/file_event_store.py:28-64 | what `append` writes, loading reads back as an equal event |
| ExternalInputs.Fields | src/cim_worldlab/world/persistence/file_input_queue.py:53-60 | the written/payload object has source, channel, name, data, and trace_id exactly when it is set |
| ExternalInputs.ToEvent | src/cim_worldlab/world/events/external_input.py:54-70 | an EXTERNAL_INPUT at exactly `t`, payload the input's fields, trace_id present iff set |
| ExternalInputs.ToEvents | src/cim_worldlab/world/events/external_input.py:54-70 | one event per input, in order, each `to_event(t)` of its input |
| PolicyDecisions.ToEvent | src/cim_worldlab/world/events/policy_decision.py:45-62 | a POLICY_DECISION at `t` carrying the five fields unchanged, trace_id iff given, no other key |
| ActionExecutions.ToEvent | src/cim_worldlab/world/events/action_executed.py:47-55 | an ACTION_EXECUTED at `t`; action_type, reason, from_policy_t (null when absent) always present; trace_id iff set; 3 or 4 keys |
| WorldStates.Initial | src/cim_worldlab/world/state/world_state.py:45-55 | t = 0, both counters 0, no last input |
| Reducer.ApplyEvent | src/cim_worldlab/world/state/reducer.py:27-57 | a tick sets t and counts a tick; an input counts and keeps its payload; other kinds change nothing; counters never fall and their sum rises by at most one |
| Reducer.ApplyEvents | src/cim_worldlab/world/state/reducer.py:60-70 | the loop computes the fold `Replay` of the history |
| Reducer.FoldSplit | src/cim_worldlab/world/state/reducer.py:60-70 | replaying a + b is replaying b from the replay of a |
| Reducer.ReplayCons | src/cim_worldlab/world/state/reducer.py:60-70 | replaying e followed by es is replaying es from apply_event(s, e) |
| Reducer.ReplaySnoc | src/cim_worldlab/world/state/reducer.py:60-70 | one more event at the end is one more application of the reducer |
| Reducer.OfKind | src/cim_worldlab/world/state/reducer.py:36-53 | the events of one kind in log order: no longer than the log, all of that kind |
| Reducer.ReplayFacts | src/cim_worldlab/world/state/reducer.py:27-70 | after any replay: t is the last tick's time (else unchanged), counters rise by the number of ticks / inputs, last_input is the latest input's payload |
| Reducer.ReplayFromInitial | src/cim_worldlab/world/state/world_state.py:40-55 | from the initial state: t is the last tick's time or 0, tick_count counts ticks, input_count counts inputs, last_input is the latest input's payload |
| Reducer.ReplayCountersBounded | src/cim_worldlab/world/state/reducer.py:36-57 | over a whole history counters never decrease and rise by at most one per event |
| Reducer.OtherKindsInert | src/cim_worldlab/world/state/reducer.py:55-57 | an event of any other kind leaves the state as it is |
| Reducer.DecisionsAndActionsInert | src/cim_worldlab/world/state/reducer.py:55-57 | POLICY_DECISION and ACTION_EXECUTED events built by their `to_event` do not change the state |
| Reducer.ScenarioHistory | tests/test_state_reducer.py:15-35 | the test's four-event history, `data` entries included, gives t = 2, two ticks, two inputs, last input named PAUSE |
| EventLogs.EventLog.constructor | src/cim_worldlab/world/runtime/event_log.py:38 | a new log is empty |
| EventLogs.EventLog.Append | src/cim_worldlab/world/runtime/event_log.py:40-47 | exactly one event more at the end, earlier ones unchanged; len rises by one and last is the new event |
| EventLogs.EventLog.All | src/cim_worldlab/world/runtime/event_log.py:49-56 | the events in append order: as many as len counts, empty iff there is no last event, else ending with last; each append adds exactly its event at the end |
| EventLogs.EventLog.Len | src/cim_worldlab/world/runtime/event_log.py:66-71 | the number of events appended: zero iff there is no last event; each append raises it by one |
| EventLogs.EventLog.Last | src/cim_worldlab/world/runtime/event_log.py:58-64 | None iff the log is empty, else its final event |
| FileEventStores.DecodeEvents | src/cim_worldlab/world/persistence/file_event_store.py:56-63 | one event per record, each the reading of its record |
| FileEventStores.FileEventStore.Append | src/cim_worldlab/world/persistence/file_event_store.py:28-32 | the file (created if missing) gains exactly one record line, at the end, holding `to_dict(e)` |
| FileEventStores.FileEventStore.LoadFromIndex | src/cim_worldlab/world/persistence/file_event_store.py:37-64 | the loop returns the events on the lines with index ≥ start, in order, blanks skipped; a missing file gives [] |
| FileEventStores.FileEventStore.LoadFromEventIndex | src/cim_worldlab/world/persistence/file_event_store.py:37-44 | the documented `load_from_index`: the stored events after the first `start`, blank lines playing no part |
| FileEventStores.FileEventStore.LoadAll | src/cim_worldlab/world/persistence/file_event_store.py:34-35 | every stored event, as load_from_index(0) |
| FileEventStores.AppendThenLoad | src/cim_worldlab/world/persistence/file_event_store.py:28-64 | append(e) then load_all gives the old contents followed by e |
| FileEventStores.LoadSplit | src/cim_worldlab/world/persistence/file_event_store.py:37-64 | all events are those before line k followed by those from line k |
| FileEventStores.LoadFromIndexNoBlank | src/cim_worldlab/world/persistence/file_event_store.py:37-64 | without blank lines, load_from_index(k) is load_all()[k:] |
| FileEventStores.BlankLineSkipped | src/cim_worldlab/world/persistence/file_event_store.py:50-55 | a blank line counts toward the index but yields no event |
| FileEventStores.EventsFromIndex | src/cim_worldlab/world/persistence/file_event_store.py:38-43 | the documented reading: the stored events after the first k, a suffix of the right length |
| FileEventStores.EventsFromIndexWithoutBlanks | src/cim_worldlab/world/persistence/file_event_store.py:37-64 | without blank lines the code and the documented reading agree |
| FileEventStores.LineIndexIsNotEventIndex | src/cim_worldlab/world/persistence/file_event_store.py:37-64 | with a blank first line, load_from_index(1) returns both stored events where the documented reading returns only the second |
| SnapshotStores.Encode | src/cim_worldlab/world/persistence/snapshot_store.py:45-53 | the document holds last_event_index and a state object with exactly t, tick_count, input_count and last_input, each the state's own value, last_input null when absent |
| SnapshotStores.Decode | src/cim_worldlab/world/persistence/snapshot_store.py:68-78 | a document reads back iff well-formed, as its last_event_index and the state with its t, tick_count and input_count; last_input is the object when one is stored, None when it is null or missing |
| SnapshotStores.SnapshotRoundTrip | src/cim_worldlab/world/persistence/snapshot_store.py:35-78 | load after save returns the same state and index |
| SnapshotStores.SnapshotStore.constructor | src/cim_worldlab/world/persistence/snapshot_store.py:29-33 | a store over a path with the given current document |
| SnapshotStores.SnapshotStore.Save | src/cim_worldlab/world/persistence/snapshot_store.py:35-55 | overwrites the document; only the latest save is visible |
| SnapshotStores.SnapshotStore.Load | src/cim_worldlab/world/persistence/snapshot_store.py:57-78 | None iff no snapshot file exists, else the saved pair |
| FileInputQueues.FromRecord | src/cim_worldlab/world/persistence/file_input_queue.py:95-104 | a line reads as an input iff well-formed, with source, channel and name copied, data copied or {} when missing, trace_id copied when text and None when null or missing |
| FileInputQueues.InputRoundTrip | src/cim_worldlab/world/persistence/file_input_queue.py:43-104 | a line written by append reads back as an equal input |
| FileInputQueues.DecodeInputs | src/cim_worldlab/world/persistence/file_input_queue.py:95-104 | one input per record, each the reading of its record |
| FileInputQueues.FileInputQueue.Append | src/cim_worldlab/world/persistence/file_input_queue.py:43-65 | exactly one line more, at the end, holding the input's fields |
| FileInputQueues.FileInputQueue.ReadSince | src/cim_worldlab/world/persistence/file_input_queue.py:67-106 | missing file: no inputs and the cursor back; else the inputs on lines ≥ cursor, in order, and the total line count, blanks included |
| FileInputQueues.ReadAtEnd | src/cim_worldlab/world/persistence/file_input_queue.py:67-106 | reading from the total line count returns nothing |
| FileInputQueues.AppendThenReadSince | src/cim_worldlab/world/persistence/file_input_queue.py:43-106 | after append(inp) on an n-line file, read_since(n) returns [inp] and n + 1 |
| FileInputQueues.ReadSinceConcat | src/cim_worldlab/world/persistence/file_input_queue.py:67-106 | a read from c, then a read from the returned cursor after appends, together return one read from c on the grown file |
| FileQueueGateways.FileQueueGateway.constructor | src/cim_worldlab/world/gateway/file_queue_gateway.py:24-30 | a gateway over the queue resuming at the given cursor, nothing returned yet |
| FileQueueGateways.FileQueueGateway.PullInputs | src/cim_worldlab/world/gateway/file_queue_gateway.py:32-41 | returns what read_since(cursor) returns and moves the cursor to the reported count; a second pull with no growth returns []; keeps the no-duplicates/no-gaps account |
| FileQueueGateways.PullExtendsAccount | src/cim_worldlab/world/gateway/file_queue_gateway.py:32-41 | inputs already pulled followed by the next pull are the inputs from the starting cursor to the end |
| FileQueueGateways.AccountsAtStart | src/cim_worldlab/world/gateway/file_queue_gateway.py:24-30 | a fresh gateway's account holds on any queue reaching its cursor |
| FileQueueGateways.AccountsAfterAppend | src/cim_worldlab/world/persistence/file_input_queue.py:43-65 | appends to the queue keep the gateway's account valid |
| FileQueueGateways.FirstPullNoBlank | src/cim_worldlab/world/gateway/file_queue_gateway.py:30-41 | with cursor c over a blank-free n-line queue, a pull returns exactly the inputs c .. n - 1 |
| PluginGateways.FakePluginGateway.constructor | src/cim_worldlab/world/gateway/plugin_gateway.py:42-53 | a test double holding the given queued inputs |
| PluginGateways.FakePluginGateway.PullInputs | src/cim_worldlab/world/gateway/plugin_gateway.py:55-62 | returns everything queued, in order, and empties the queue |
| PluginGateways.Pull | src/cim_worldlab/world/gateway/plugin_gateway.py:23-62 | a pull through the interface returns what was pending and leaves nothing pending |
| PolicyEngine.ToFloat | src/cim_worldlab/world/policy/engine.py:65-68 | ints and floats convert to their value; null, lists and objects do not |
| PolicyEngine.ExtractTempC | src/cim_worldlab/world/policy/engine.py:44-68 | a reading only from payload.data.temp_c as converted; when present, non-null and data is an object, the conversion of it |
| PolicyEngine.EvaluateEvent | src/cim_worldlab/world/policy/engine.py:71-108 | at most one decision; exactly one iff an equipment TEMP_READING with a convertible temp_c strictly above the threshold, and then TEMP_HIGH_PAUSE / ALERT / PAUSE with both values as evidence |
| PolicyEngine.TemperatureInputRule | src/cim_worldlab/world/policy/engine.py:84-106 | an input with temp_c = v yields one decision iff v > threshold (strict), whatever the time |
| PolicyEngine.OnlyInputsDecide | src/cim_worldlab/world/policy/engine.py:77-78 | any event that is not an EXTERNAL_INPUT yields [] |
| PolicyEngine.DefaultThresholdScenarios | src/cim_worldlab/world/policy/engine.py:36-41 | with the default 92.0, a reading of 99.0 gives one PAUSE decision and 80.0 none |
| Metrics.ChannelCounts | src/cim_worldlab/world/metrics/compute.py:34-40 | every channel present in the counts has count at least one |
| Metrics.CountOnChannel | src/cim_worldlab/world/metrics/compute.py:36-40 | an independent count of the inputs on one channel, at most the log length |
| Metrics.ChannelCountsAreCounts | src/cim_worldlab/world/metrics/compute.py:36-40 | a channel appears iff it has an input, and its count is the number of its inputs |
| Metrics.OtherEventsNotCounted | src/cim_worldlab/world/metrics/compute.py:37-38 | non-input events never change the counts |
| Metrics.ChannelCountsTotal | src/cim_worldlab/world/metrics/compute.py:34-40 | the counts add up to the number of EXTERNAL_INPUT events in the log |
| Metrics.Summary | src/cim_worldlab/world/metrics/compute.py:43-49 | None iff there is no last input; else exactly source, channel and name as text, "" when missing |
| Metrics.ComputeMetrics | src/cim_worldlab/world/metrics/compute.py:29-57 | the loop yields the counts of the log; t and counters copied from the state; a pure function of state and log |
| Metrics.ChannelCountsMatchState | src/cim_worldlab/world/metrics/compute.py:29-57 | on a replayed state, the channel counts add up to input_count |
| Metrics.ScenarioMetrics | tests/test_metrics_compute.py:15-43 | a tick then TEMP, PRESSURE, NEW_ORDER at t = 1 give t = 1, one tick, three inputs, equipment = 2, order = 1, last summary order / NEW_ORDER |
| Runtime.EventLines | src/cim_worldlab/world/runtime/runtime.py:49-50 | the store lines a run of records adds: one record line per event, no blanks |
| Runtime.Stamped | src/cim_worldlab/world/runtime/runtime.py:68-72 | one EXTERNAL_INPUT per input, in order |
| Runtime.StampedSameTime | src/cim_worldlab/world/runtime/runtime.py:68-72 | when the clock reads t for every input, the events are [inp.to_event(t) for inp in inputs] |
| Runtime.MirroredAppend | src/cim_worldlab/world/runtime/runtime.py:48-50 | writing one event to both store and log keeps the log the store's tail |
| Runtime.StoredEventLines | src/cim_worldlab/world/persistence/file_event_store.py:28-64 | the lines appended for a list of events load back as exactly that list |
| Runtime.CoversExtends | src/cim_worldlab/world/runtime/runtime.py:144-160 | a snapshot covering a history still covers it after more events follow |
| Runtime.CoversAfterAppend | src/cim_worldlab/world/runtime/runtime.py:40-53 | appending one event to the store keeps a snapshot of the stored history covering it |
| Runtime.MirroredWhole | src/cim_worldlab/world/runtime/runtime.py:119-125 | a log holding every stored event mirrors the store |
| Runtime.WorldRuntime.constructor | src/cim_worldlab/world/runtime/runtime.py:33-38 | clock, state, store and gateway as given, a fresh empty log, gateway objects apart from the runtime's own |
| Runtime.WorldRuntime.Record | src/cim_worldlab/world/runtime/runtime.py:40-53 | log and store each gain e at the end; state := apply_event(state, e); t := state.t; keeps Consistent, Mirrors and Whole |
| Runtime.WorldRuntime.Tick | src/cim_worldlab/world/runtime/runtime.py:55-59 | records and returns WORLD_TICK at t + 1 with the payload or {}; t and tick_count rise by one; it is the log's last; keeps Consistent, Clocked, Mirrors and Whole |
| Runtime.WorldRuntime.IngestInputs | src/cim_worldlab/world/runtime/runtime.py:61-74 | no gateway: [] and nothing changes; else the pending inputs recorded in order and returned, all at the current t on a consistent runtime, clock unchanged, nothing left pending; Consistent, Clocked, Mirrors and Whole kept |
| Runtime.WorldRuntime.RecordInputs | src/cim_worldlab/world/runtime/runtime.py:66-74 | the recording loop: one event per input, stamped by the clock as it reads; state is their replay; log and store grow by exactly them |
| Runtime.WorldRuntime.CurrentMetrics | src/cim_worldlab/world/runtime/runtime.py:76-82 | the metrics of the current state and log |
| Runtime.WorldRuntime.MaybeSnapshot | src/cim_worldlab/world/runtime/runtime.py:88-112 | saves (state, n - 1) and answers true iff n > 0 and n is a multiple of the period; otherwise the snapshot is untouched; a saved snapshot covers the log and, on a whole runtime, the stored history; a snapshot the runtime trusted stays trusted |
| Runtime.WorldRuntime.ReplayFromStore | src/cim_worldlab/world/runtime/runtime.py:114-125 | the log is every stored event, the state their replay from initial, t = state.t, store attached, no gateway; Consistent, Mirrors and Whole hold |
| Runtime.WorldRuntime.Restored | src/cim_worldlab/world/runtime/runtime.py:122-125 | a fresh runtime with the given state and clock whose log is the given events |
| Runtime.WorldRuntime.ReplayFastFromStore | src/cim_worldlab/world/runtime/runtime.py:127-160 | no snapshot: the full replay; with (s, idx): s advanced by the stored events after event idx, and equal to the full replay whenever the snapshot covers the stored history; the log is every stored event |
| Runtime.WorldRuntime.ReplayOnSnapshot | src/cim_worldlab/world/runtime/runtime.py:148-160 | the snapshot branch: base state advanced by the stored events after event idx, the full replay when the snapshot covers the history; every stored event in the log |
| Runtime.FastReplayMatchesFull | src/cim_worldlab/world/runtime/runtime.py:144-160 | reading by line index as written, fast replay from a covering snapshot equals full replay on a blank-free store (every store `append` writes) |
| Runtime.FastReplayCountsBlankLine | src/cim_worldlab/world/runtime/runtime.py:150-151 | on a store with a blank first line, fast replay applies the covered tick again: 3 ticks against 2 |
| Runtime.CorrectedFastReplayMatchesFull | src/cim_worldlab/world/runtime/runtime.py:144-160 | reading by event index, fast replay equals full replay on every store |
| Runtime.WorldRuntime.RecordAll | src/cim_worldlab/world/runtime/runtime.py:40-53 | recording events one after another appends exactly them to the log and keeps the runtime consistent and whole |
| Runtime.WorldRuntime.SnapshotThenReplay | tests/test_snapshot_replay_fast.py:17-48 | on a whole, consistent runtime: maybe_snapshot, any further recorded events, then replay_fast_from_store rebuilds exactly the runtime's state, clock and log |
| Runtime.TailSnapshotMisleads | src/cim_worldlab/cli/commands.py:56-105 | a log that only mirrors the store's tail can snapshot itself so that fast replay counts 2 ticks where the store holds 3 |
| Runtime.TickThenIngest | tests/test_metrics_compute.py:15-34 | a fresh runtime over a fake gateway, after tick() and ingest_inputs(), reports the metrics of the tick at t = 1 followed by the inputs at t = 1 |
| Runtime.MetricsScenarioRun | tests/test_metrics_compute.py:15-43 | the metrics test run through the runtime: t = 1, one tick, three inputs, equipment = 2, order = 1, last summary order / NEW_ORDER |

## Left out

- The CLI (`cli/`, `__main__.py`), the HTTP ingest app and server, the plugin example scripts and the JSON-schema validation layer are not part of this model. The demo script is not part of it either.
- JSON text and its encoding are not modelled.
  - `json.dumps`/`json.loads` are replaced by parsed values: a file is a sequence of `Line`s, and a snapshot file is its parsed object.
  - A non-blank line that does not parse, or lacks a required field, makes the source raise. Here that is a precondition (`EachRecord(..., WellFormedRecord)`, `WellFormedInput`, `WellFormedSnapshot`).
  - Those preconditions are narrower than the source in one more way: they also fix the field types, which the source converts or takes as they come.
    - Events.FromDict: the source's `int(obj["t"])` also accepts `"3"`, `1.9` and `true`, and `str(obj["type"])` accepts any value. Here `t` must be an integer and `type` text. The source's `dict(obj.get("payload", {}))` also accepts a list of key/value pairs such as `[["k", 1]]`; here `payload` must be an object.
    - FileInputQueues.FromRecord: the source takes source, channel, name and trace_id unconverted. Here the first three must be text and trace_id text or null. The source's `dict(obj.get("data", {}))` also accepts a list of key/value pairs; here `data` must be an object.
    - SnapshotStores.Decode: the source passes the counters through `int()` and keeps any `last_input`. Here they must be integers and `last_input` an object or null.
  - `strip()` of whitespace-only lines is folded into `Blank`.
- Python's `float(text)` and the rendering of a float inside the f-string `reason` are host-language behaviour. Both are passed to the policy engine as `FloatText`.
- Json.Str: `str()` of a float, list or dict inside a payload (a channel or name that is not text) renders as a fixed stand-in, not Python's repr. So distinct non-text channels are merged under one key in `Metrics.ChannelCounts` (channels 1.5 and 2.5 both count as `"<float>"`), and a text channel spelt like a stand-in joins them.
- PolicyEngine.ToFloat converts every int exactly. Python's `float()` rounds ints beyond 2^53 and raises OverflowError beyond about 1.8e308, which engine.py:65-68 does not catch, so there the source's `evaluate` raises. Reals are unbounded here, not IEEE doubles.
- Durability the code does not claim is not modelled: no tolerance of a torn last line, and no atomic replacement of the snapshot file. Concurrent writers and file-system errors are also out.
- Two store objects on one path are not modelled: each file is owned by one object. A queue and a store never share a file.
- Runtime.WorldRuntime.IngestInputs requires `Separate()`: the gateway's objects are not the runtime, its log or its store. The constructor establishes it.
- EventLogs.EventLog.All returns the list itself in the source (an alias callers could mutate). Here it is a value.
- The copy made by `FakePluginGateway.pull_inputs` before clearing is automatic under value semantics.
- The policy/action hook that some tests expect inside `ingest_inputs` is absent from `runtime.py`. So are the `action_count`/`last_action` state fields and the action metrics those tests read. The model follows the source: `ingest_inputs` does not call the policy engine, and the reducer leaves decision and action events inert.
- PolicyEngine.EvaluateEvent: the `trace_id` read at engine.py:95 is never used in the decision, so it is not modelled.
- Runtime.WorldRuntime.MaybeSnapshot requires a non-zero period on a non-empty log: the source raises ZeroDivisionError there.
- Runtime.WorldRuntime.SnapshotThenReplay requires the runtime to be `Whole`: its log holds the store's entire history. Under `Mirrors` alone, a log that is only the store's tail, the promise fails (see Findings).
- Runtime.WorldRuntime.constructor takes the clock, state, store and gateway, and always makes a fresh, empty `EventLog`. The source's dataclass also accepts an `event_log` argument; a runtime over a passed-in or pre-filled log is not modelled (no caller in the source passes one). The source's defaults for the other fields are the instance `new WorldRuntime(0, Initial(), None, None)`.
- Runtime.WorldRuntime.MaybeSnapshot takes the period explicitly; the source's default `every_n_events=50` (runtime.py:88) is not modelled, and every caller in the source passes the period.
- Runtime.WorldRuntime.ReplayOnSnapshot, like its caller below, reads the events after the snapshot by event index, not by line index as runtime.py:150 does.
- Runtime.WorldRuntime.ReplayFastFromStore reads the events after the snapshot by event index (`LoadFromEventIndex`), not by line index as `load_from_index` does; see Findings. On every store that `append` writes the two agree (`FileEventStores.EventsFromIndexWithoutBlanks`). `FileEventStore.LoadFromIndex` itself is modelled as written.
- Wall-clock time and `time.sleep` play no part in the engine and are not modelled.

## Findings

| source | as written | input that shows it | evidently intended | confidence | as-written member | corrected member |
|---|---|---|---|---|---|---|
| src/cim_worldlab/world/persistence/file_event_store.py:37-52 | `load_from_index(k)` skips the first k LINES, blank lines included, while its docstring says the first k EVENTS. `replay_fast_from_store` passes an event index (`last_event_index + 1`). | A store whose lines are [blank, tick t=1, tick t=2], with a snapshot taken after the first tick (index 0): fast replay reads from line 1, gets both ticks and ends with tick_count 3, while full replay gives 2. | Skip the first k events, so that fast replay equals full replay on every store. | not executed; `append` never writes a blank line, so only a hand-edited or foreign store shows it | FileEventStores.LineIndexIsNotEventIndex, Runtime.FastReplayCountsBlankLine | FileEventStores.FileEventStore.LoadFromEventIndex, Runtime.CorrectedFastReplayMatchesFull |
| src/cim_worldlab/cli/commands.py:56-105 | Each `run-once` builds a fresh `WorldRuntime` (empty log, t = 0) over the existing event store. `maybe_snapshot` then saves this run's state at index `len(event_log) - 1`, which `replay_fast_from_store` reads as an index into the whole store. | Three runs with `snapshot_every=2`: the first two pull no input, the third pulls one. The store holds [tick, tick, tick, input], and the third run snapshots its log [tick, input] at index 1. Fast replay then counts 2 ticks and 2 inputs, full replay 3 ticks and 1 input. | The runtime that snapshots holds the store's whole history, as one replayed from the store does, so the snapshot index is a store index. | not executed; shown on the runtime invariants, the CLI itself is not modelled | Runtime.TailSnapshotMisleads | Runtime.WorldRuntime.SnapshotThenReplay |
