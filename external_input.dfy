/**
 * `ExternalInput`: the agreed shape of an external fact (a sensor reading,
 * an order, an operator command) and its conversion to an `EXTERNAL_INPUT`
 * event.
 */
module ExternalInputs {
  import opened Wrappers
  import opened Json
  import opened Events

  const ExternalInputType: string := "EXTERNAL_INPUT"

  /** `source` is "plugin", "human" or "system" by convention only; nothing checks it. */
  datatype ExternalInput = ExternalInput(
    source: string,
    channel: string,
    name: string,
    data: Payload,
    traceId: Option<string>)

  /**
   * The input's fields as a payload: source, channel, name and data always,
   * trace_id only when the input carries one. The same shape is written to
   * the input queue file.
   */
  function Fields(inp: ExternalInput): (p: Payload)
    ensures p.Keys == {"source", "channel", "name", "data"} + (if inp.traceId.Some? then {"trace_id"} else {})
    ensures p["source"] == JStr(inp.source) && p["channel"] == JStr(inp.channel)
    ensures p["name"] == JStr(inp.name) && p["data"] == JObj(inp.data)
    ensures inp.traceId.Some? ==> p["trace_id"] == JStr(inp.traceId.value)
  {
    var base := map["source" := JStr(inp.source), "channel" := JStr(inp.channel),
                    "name" := JStr(inp.name), "data" := JObj(inp.data)];
    if inp.traceId.Some? then base["trace_id" := JStr(inp.traceId.value)] else base
  }

  /** `ExternalInput.to_event(t)`: an EXTERNAL_INPUT event at exactly time `t`. */
  function ToEvent(inp: ExternalInput, t: int): (e: Event)
    ensures e.t == t && e.kind == ExternalInputType
    ensures e.payload == Fields(inp)
    ensures "trace_id" in e.payload <==> inp.traceId.Some?
  {
    Event(t, ExternalInputType, Fields(inp))
  }

  /** `[inp.to_event(t) for inp in inputs]`: every input stamped with the same time. */
  function ToEvents(inputs: seq<ExternalInput>, t: int): (es: seq<Event>)
    ensures |es| == |inputs|
    ensures forall i :: 0 <= i < |inputs| ==> es[i] == ToEvent(inputs[i], t)
  {
    seq(|inputs|, i requires 0 <= i < |inputs| => ToEvent(inputs[i], t))
  }
}
