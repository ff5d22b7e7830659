/**
 * The reducer: how one fact changes the world state (`ApplyEvent`), and the
 * replay of a history (`ApplyEvents`, specified by the fold `Replay`).
 */
module Reducer {
  import opened Wrappers
  import opened Json
  import opened Events
  import opened ExternalInputs
  import opened WorldStates
  import opened PolicyDecisions
  import opened ActionExecutions

  /**
   * `apply_event`: a WORLD_TICK moves the clock to the event's time and counts
   * a tick; an EXTERNAL_INPUT counts an input and keeps (a copy of) its
   * payload; every other kind leaves the state as it is.
   */
  function ApplyEvent(s: WorldState, e: Event): (r: WorldState)
    ensures e.kind == WorldTickType ==>
      r.t == e.t && r.tickCount == s.tickCount + 1 && r.inputCount == s.inputCount && r.lastInput == s.lastInput
    ensures e.kind == ExternalInputType ==>
      r.t == s.t && r.tickCount == s.tickCount && r.inputCount == s.inputCount + 1 && r.lastInput == Some(e.payload)
    ensures e.kind != WorldTickType && e.kind != ExternalInputType ==> r == s
    ensures s.tickCount <= r.tickCount && s.inputCount <= r.inputCount
    ensures r.tickCount + r.inputCount <= s.tickCount + s.inputCount + 1
  {
    if e.kind == WorldTickType then
      s.(t := e.t, tickCount := s.tickCount + 1)
    else if e.kind == ExternalInputType then
      s.(inputCount := s.inputCount + 1, lastInput := Some(e.payload))
    else
      s
  }

  /** The left fold of `ApplyEvent` over a history, oldest event first. */
  function Replay(s: WorldState, es: seq<Event>): WorldState
    decreases |es|
  {
    if es == [] then s else ApplyEvent(Replay(s, es[..|es| - 1]), es[|es| - 1])
  }

  /** `apply_events(initial, events)`: the loop that folds the history in order. */
  method ApplyEvents(initial: WorldState, events: seq<Event>) returns (s: WorldState)
    ensures s == Replay(initial, events)
  {
    s := initial;
    for i := 0 to |events|
      invariant s == Replay(initial, events[..i])
    {
      assert events[..i + 1][..i] == events[..i];
      s := ApplyEvent(s, events[i]);
    }
    assert events[..|events|] == events;
  }

  /** Replaying a concatenation is replaying the second part from the state the first part reached. */
  lemma {:induction false} FoldSplit(s: WorldState, a: seq<Event>, b: seq<Event>)
    ensures Replay(s, a + b) == Replay(Replay(s, a), b)
    decreases |b|
  {
    if b == [] {
      assert a + b == a;
    } else {
      var b' := b[..|b| - 1];
      FoldSplit(s, a, b');
      assert (a + b)[..|a + b| - 1] == a + b';
    }
  }

  /** Replaying a history that starts with `e` is replaying the rest from `ApplyEvent(s, e)`. */
  lemma ReplayCons(s: WorldState, e: Event, es: seq<Event>)
    ensures Replay(s, [e] + es) == Replay(ApplyEvent(s, e), es)
  {
    FoldSplit(s, [e], es);
    assert [e][..0] == [];
  }

  /** The events of one kind, in log order: an independent reading of a history. */
  function OfKind(es: seq<Event>, k: string): (r: seq<Event>)
    ensures |r| <= |es|
    ensures forall i :: 0 <= i < |r| ==> r[i].kind == k
  {
    if es == [] then [] else (if es[0].kind == k then [es[0]] else []) + OfKind(es[1..], k)
  }

  lemma {:induction false} OfKindSnoc(es: seq<Event>, e: Event, k: string)
    ensures OfKind(es + [e], k) == OfKind(es, k) + (if e.kind == k then [e] else [])
    decreases |es|
  {
    if es == [] {
      assert [e][1..] == [];
    } else {
      assert (es + [e])[1..] == es[1..] + [e];
      OfKindSnoc(es[1..], e, k);
    }
  }

  /**
   * What a replay computes, stated through the ticks and the inputs of the
   * history: the clock is the time of the last tick (unchanged if there is
   * none), the counters rise by the number of ticks and of inputs, and the
   * last input is the payload of the latest EXTERNAL_INPUT.
   */
  lemma {:induction false} ReplayFacts(s: WorldState, es: seq<Event>)
    ensures var ticks, ins, r := OfKind(es, WorldTickType), OfKind(es, ExternalInputType), Replay(s, es);
      && r.t == (if ticks == [] then s.t else ticks[|ticks| - 1].t)
      && r.tickCount == s.tickCount + |ticks|
      && r.inputCount == s.inputCount + |ins|
      && r.lastInput == (if ins == [] then s.lastInput else Some(ins[|ins| - 1].payload))
    decreases |es|
  {
    if es != [] {
      var es', e := es[..|es| - 1], es[|es| - 1];
      assert es == es' + [e];
      ReplayFacts(s, es');
      OfKindSnoc(es', e, WorldTickType);
      OfKindSnoc(es', e, ExternalInputType);
    }
  }

  /** From the initial state: t is the last tick's time or 0, and the counters count their events. */
  lemma ReplayFromInitial(es: seq<Event>)
    ensures var ticks, ins, r := OfKind(es, WorldTickType), OfKind(es, ExternalInputType), Replay(Initial(), es);
      && r.t == (if ticks == [] then 0 else ticks[|ticks| - 1].t)
      && r.tickCount == |ticks|
      && r.inputCount == |ins|
      && r.lastInput == (if ins == [] then None else Some(ins[|ins| - 1].payload))
  {
    ReplayFacts(Initial(), es);
  }

  /** Over a whole history the counters never decrease, and rise by at most one per event. */
  lemma {:induction false} ReplayCountersBounded(s: WorldState, es: seq<Event>)
    ensures s.tickCount <= Replay(s, es).tickCount && s.inputCount <= Replay(s, es).inputCount
    ensures Replay(s, es).tickCount + Replay(s, es).inputCount <= s.tickCount + s.inputCount + |es|
    decreases |es|
  {
    if es != [] {
      ReplayCountersBounded(s, es[..|es| - 1]);
    }
  }

  /** One more event at the end of a history is one more application of the reducer. */
  lemma ReplaySnoc(s: WorldState, es: seq<Event>, e: Event)
    ensures Replay(s, es + [e]) == ApplyEvent(Replay(s, es), e)
  {
    assert (es + [e])[..|es|] == es;
  }

  /** Decision and action facts are recorded but do not change the state. */
  lemma OtherKindsInert(s: WorldState, e: Event)
    requires e.kind != WorldTickType && e.kind != ExternalInputType
    ensures Replay(s, [e]) == s
  {
    assert [e][..0] == [];
  }

  /** Recording a policy decision or an executed action leaves the state as it was. */
  lemma DecisionsAndActionsInert(s: WorldState, d: PolicyDecision, a: ActionExecuted, t: int, traceId: Option<string>)
    ensures ApplyEvent(s, PolicyDecisions.ToEvent(d, t, traceId)) == s
    ensures ApplyEvent(s, ActionExecutions.ToEvent(a, t)) == s
  {
    assert PolicyDecisionType[0] != WorldTickType[0] && PolicyDecisionType[0] != ExternalInputType[0];
    assert ActionExecutedType[0] != WorldTickType[0] && ActionExecutedType[0] != ExternalInputType[0];
  }

  /** The four-event history of the reducer's own test. */
  lemma ScenarioHistory()
    ensures var history := [
        Event(1, WorldTickType, map[]),
        Event(1, ExternalInputType, map["source" := JStr("plugin"), "channel" := JStr("equipment"), "name" := JStr("TEMP"),
                                      "data" := JObj(map["temp" := JInt(90)])]),
        Event(2, WorldTickType, map[]),
        Event(2, ExternalInputType, map["source" := JStr("human"), "channel" := JStr("ops"), "name" := JStr("PAUSE"),
                                      "data" := JObj(map["reason" := JStr("check")])])];
      var r := Replay(Initial(), history);
      && r.t == 2 && r.tickCount == 2 && r.inputCount == 2
      && r.lastInput.Some? && "name" in r.lastInput.value && r.lastInput.value["name"] == JStr("PAUSE")
  {
    var h := [
        Event(1, WorldTickType, map[]),
        Event(1, ExternalInputType, map["source" := JStr("plugin"), "channel" := JStr("equipment"), "name" := JStr("TEMP"),
                                      "data" := JObj(map["temp" := JInt(90)])]),
        Event(2, WorldTickType, map[]),
        Event(2, ExternalInputType, map["source" := JStr("human"), "channel" := JStr("ops"), "name" := JStr("PAUSE"),
                                      "data" := JObj(map["reason" := JStr("check")])])];
    assert WorldTickType != ExternalInputType by { assert WorldTickType[0] != ExternalInputType[0]; }
    assert h[..1][..0] == [] && h[..2][..1] == h[..1] && h[..3][..2] == h[..2] && h[..4 - 1] == h[..3];
    assert Replay(Initial(), h[..1][..0]) == Initial();
    var s1 := Replay(Initial(), h[..1]);
    assert s1 == ApplyEvent(Initial(), h[0]);
    assert s1 == WorldState(1, 1, 0, None);
    var s2 := Replay(Initial(), h[..2]);
    assert s2.tickCount == 1 && s2.inputCount == 1;
  }
}
