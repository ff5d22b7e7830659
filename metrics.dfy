/**
 * World metrics: a read-only projection of the current state and the event
 * history, for dashboards. Counters come from the state; the per-channel
 * input counts come from a scan of the log.
 */
module Metrics {
  import opened Wrappers
  import opened Json
  import opened Events
  import opened ExternalInputs
  import opened WorldStates
  import opened Reducer
  import opened EventLogs

  /** One metrics snapshot; every computation produces a fresh value. */
  datatype WorldMetrics = WorldMetrics(
    t: int,
    tickCount: int,
    inputCount: int,
    inputsByChannel: map<string, int>,
    lastInputSummary: Option<map<string, string>>)

  /** The channel an input is counted under: `str(payload.get("channel", "UNKNOWN"))`. */
  function ChannelOf(e: Event): string {
    Str(Get(e.payload, "channel", JStr("UNKNOWN")))
  }

  /**
   * The per-channel counts after scanning `es` in order: each EXTERNAL_INPUT
   * adds one under its channel; every other event is skipped. Every channel
   * present has been counted at least once.
   */
  function ChannelCounts(es: seq<Event>): (m: map<string, int>)
    ensures forall c :: c in m ==> m[c] >= 1
    decreases |es|
  {
    if es == [] then map[]
    else
      var m := ChannelCounts(es[..|es| - 1]);
      var e := es[|es| - 1];
      if e.kind != ExternalInputType then m
      else m[ChannelOf(e) := (if ChannelOf(e) in m then m[ChannelOf(e)] else 0) + 1]
  }

  /** One more event: an input adds one under its channel, anything else leaves the counts alone. */
  lemma ChannelCountsSnoc(es: seq<Event>, e: Event)
    ensures ChannelCounts(es + [e])
         == if e.kind != ExternalInputType then ChannelCounts(es)
            else ChannelCounts(es)[ChannelOf(e) := (if ChannelOf(e) in ChannelCounts(es) then ChannelCounts(es)[ChannelOf(e)] else 0) + 1]
  {
    assert (es + [e])[..|es|] == es;
  }

  /** An independent reading: how many EXTERNAL_INPUT events of `es` are on channel `c`. */
  function CountOnChannel(es: seq<Event>, c: string): (n: nat)
    ensures n <= |es|
  {
    if es == [] then 0
    else (if es[0].kind == ExternalInputType && ChannelOf(es[0]) == c then 1 else 0) + CountOnChannel(es[1..], c)
  }

  lemma {:induction false} CountOnChannelSnoc(es: seq<Event>, e: Event, c: string)
    ensures CountOnChannel(es + [e], c) == CountOnChannel(es, c) + (if e.kind == ExternalInputType && ChannelOf(e) == c then 1 else 0)
    decreases |es|
  {
    if es == [] {
      assert [e][1..] == [];
    } else {
      assert (es + [e])[1..] == es[1..] + [e];
      CountOnChannelSnoc(es[1..], e, c);
    }
  }

  /**
   * `inputs_by_channel[c]` is the number of EXTERNAL_INPUT events on channel
   * `c`, and a channel appears in the map exactly when it has at least one.
   */
  lemma {:induction false} ChannelCountsAreCounts(es: seq<Event>, c: string)
    ensures c in ChannelCounts(es) <==> CountOnChannel(es, c) > 0
    ensures c in ChannelCounts(es) ==> ChannelCounts(es)[c] == CountOnChannel(es, c)
    decreases |es|
  {
    if es != [] {
      var es', e := es[..|es| - 1], es[|es| - 1];
      assert es == es' + [e];
      ChannelCountsSnoc(es', e);
      ChannelCountsAreCounts(es', c);
      CountOnChannelSnoc(es', e, c);
    }
  }

  /** Events other than inputs never contribute: appending one leaves the counts unchanged. */
  lemma OtherEventsNotCounted(es: seq<Event>, e: Event)
    requires e.kind != ExternalInputType
    ensures ChannelCounts(es + [e]) == ChannelCounts(es)
  {
    assert (es + [e])[..|es + [e]| - 1] == es;
  }

  /** The total of the values of a map. */
  ghost function SumValues(m: map<string, int>): int
    decreases |m.Keys|
  {
    if m == map[] then 0
    else
      var k :| k in m;
      assert (m - {k}).Keys == m.Keys - {k};
      m[k] + SumValues(m - {k})
  }

  /** The total does not depend on which key is taken out first. */
  lemma {:induction false} SumValuesRemove(m: map<string, int>, k: string)
    requires k in m
    ensures SumValues(m) == m[k] + SumValues(m - {k})
    decreases |m.Keys|
  {
    var j :| j in m && SumValues(m) == m[j] + SumValues(m - {j});
    if j != k {
      assert (m - {j}).Keys == m.Keys - {j};
      assert (m - {k}).Keys == m.Keys - {k};
      SumValuesRemove(m - {j}, k);
      SumValuesRemove(m - {k}, j);
      assert m - {j} - {k} == m - {k} - {j};
    }
  }

  /** Adding one under a key raises the total by one. */
  lemma SumValuesIncrement(m: map<string, int>, k: string)
    ensures SumValues(m[k := (if k in m then m[k] else 0) + 1]) == SumValues(m) + 1
  {
    var m' := m[k := (if k in m then m[k] else 0) + 1];
    SumValuesRemove(m', k);
    if k in m {
      SumValuesRemove(m, k);
      assert m' - {k} == m - {k};
    } else {
      assert m' - {k} == m;
    }
  }

  /** The channel counts add up to the number of EXTERNAL_INPUT events in the history. */
  lemma {:induction false} ChannelCountsTotal(es: seq<Event>)
    ensures SumValues(ChannelCounts(es)) == |OfKind(es, ExternalInputType)|
    decreases |es|
  {
    if es == [] {
    } else {
      var es', e := es[..|es| - 1], es[|es| - 1];
      assert es == es' + [e];
      ChannelCountsSnoc(es', e);
      ChannelCountsTotal(es');
      OfKindSnoc(es', e, ExternalInputType);
      if e.kind == ExternalInputType {
        SumValuesIncrement(ChannelCounts(es'), ChannelOf(e));
      }
    }
  }

  /**
   * The dashboard summary of the latest input: None exactly when there is no
   * latest input; otherwise its source, channel and name as text, each ""
   * when the payload lacks it.
   */
  function Summary(lastInput: Option<Payload>): (r: Option<map<string, string>>)
    ensures r.None? <==> lastInput.None?
    ensures r.Some? ==> r.value.Keys == {"source", "channel", "name"}
    ensures r.Some? ==> forall k :: k in r.value ==> r.value[k] == Str(Get(lastInput.value, k, JStr("")))
  {
    if lastInput.None? then None
    else
      var p := lastInput.value;
      Some(map["source" := Str(Get(p, "source", JStr(""))),
               "channel" := Str(Get(p, "channel", JStr(""))),
               "name" := Str(Get(p, "name", JStr("")))])
  }

  /** The metrics of a state and a history. */
  function MetricsOf(state: WorldState, es: seq<Event>): WorldMetrics {
    WorldMetrics(state.t, state.tickCount, state.inputCount, ChannelCounts(es), Summary(state.lastInput))
  }

  /**
   * `compute_metrics(state, event_log)`: counters copied from the state, the
   * per-channel counts of the log, and the summary of the latest input. It
   * changes neither the state nor the log.
   */
  method ComputeMetrics(state: WorldState, log: EventLog) returns (m: WorldMetrics)
    ensures m == MetricsOf(state, log.events)
    ensures m.t == state.t && m.tickCount == state.tickCount && m.inputCount == state.inputCount
  {
    var es := log.All();
    var counts: map<string, int> := map[];
    for i := 0 to |es|
      invariant counts == ChannelCounts(es[..i])
    {
      assert es[..i + 1][..i] == es[..i];
      var e := es[i];
      if e.kind != ExternalInputType {
        continue;
      }
      var channel := ChannelOf(e);
      counts := counts[channel := (if channel in counts then counts[channel] else 0) + 1];
    }
    assert es[..|es|] == es;
    m := WorldMetrics(state.t, state.tickCount, state.inputCount, counts, Summary(state.lastInput));
  }

  /**
   * On a log the state was replayed from, the per-channel counts add up to the
   * state's input counter.
   */
  lemma ChannelCountsMatchState(es: seq<Event>)
    ensures SumValues(MetricsOf(Replay(Initial(), es), es).inputsByChannel) == MetricsOf(Replay(Initial(), es), es).inputCount
  {
    ChannelCountsTotal(es);
    ReplayFromInitial(es);
  }

  /** The history of the metrics test: one tick, then two equipment inputs and one order input at t = 1. */
  function ScenarioLog(): seq<Event> {
    [Event(1, WorldTickType, map[]),
     ToEvent(ExternalInput("plugin", "equipment", "TEMP", map["v" := JInt(1)], None), 1),
     ToEvent(ExternalInput("plugin", "equipment", "PRESSURE", map["v" := JInt(2)], None), 1),
     ToEvent(ExternalInput("system", "order", "NEW_ORDER", map["id" := JStr("O1")], None), 1)]
  }

  /** A non-input followed by two inputs on one channel and one on another. */
  lemma CountsOfTickThenThree(es: seq<Event>, c: string, d: string)
    requires |es| == 4 && c != d
    requires es[0].kind != ExternalInputType
    requires es[1].kind == ExternalInputType && es[2].kind == ExternalInputType && es[3].kind == ExternalInputType
    requires ChannelOf(es[1]) == c && ChannelOf(es[2]) == c && ChannelOf(es[3]) == d
    ensures ChannelCounts(es) == map[c := 2, d := 1]
  {
    var e0, e1, e2, e3 := es[0], es[1], es[2], es[3];
    assert es == [e0, e1, e2] + [e3];
    assert [e0, e1, e2] == [e0, e1] + [e2] && [e0, e1] == [e0] + [e1] && [e0] == [] + [e0];
    ChannelCountsSnoc([], e0);
    ChannelCountsSnoc([e0], e1);
    ChannelCountsSnoc([e0, e1], e2);
    ChannelCountsSnoc([e0, e1, e2], e3);
  }

  lemma ScenarioChannelCounts()
    ensures ChannelCounts(ScenarioLog()) == map["equipment" := 2, "order" := 1]
  {
    var es := ScenarioLog();
    assert WorldTickType != ExternalInputType by { assert WorldTickType[0] != ExternalInputType[0]; }
    assert ChannelOf(es[1]) == "equipment" && ChannelOf(es[2]) == "equipment" && ChannelOf(es[3]) == "order";
    CountsOfTickThenThree(es, "equipment", "order");
  }

  lemma ScenarioState()
    ensures Replay(Initial(), ScenarioLog()) == WorldState(1, 1, 3, Some(ScenarioLog()[3].payload))
  {
    var es := ScenarioLog();
    assert WorldTickType != ExternalInputType by { assert WorldTickType[0] != ExternalInputType[0]; }
    ReplaySnoc(Initial(), [], es[0]);
    ReplaySnoc(Initial(), es[..1], es[1]);
    ReplaySnoc(Initial(), es[..2], es[2]);
    ReplaySnoc(Initial(), es[..3], es[3]);
    assert [] + [es[0]] == es[..1] && es[..1] + [es[1]] == es[..2] && es[..2] + [es[2]] == es[..3] && es[..3] + [es[3]] == es;
  }

  /**
   * The metrics test: one tick, then two equipment inputs and one order input
   * at t = 1 give equipment = 2, order = 1, and a summary of NEW_ORDER.
   */
  lemma ScenarioMetrics()
    ensures var m := MetricsOf(Replay(Initial(), ScenarioLog()), ScenarioLog());
      && m.t == 1 && m.tickCount == 1 && m.inputCount == 3
      && m.inputsByChannel == map["equipment" := 2, "order" := 1]
      && m.lastInputSummary.Some?
      && m.lastInputSummary.value["channel"] == "order" && m.lastInputSummary.value["name"] == "NEW_ORDER"
  {
    ScenarioChannelCounts();
    ScenarioState();
  }
}
