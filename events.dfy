/**
 * The basic fact record of the world (`Event`) and its dictionary form,
 * the shape in which the durable event store writes it.
 * The Python field `type` is named `kind` here (`type` is a Dafny keyword).
 */
module Events {
  import opened Wrappers
  import opened Json

  const WorldTickType: string := "WORLD_TICK"

  /** An immutable fact: world time, kind tag and payload; compared by value. */
  datatype Event = Event(t: int, kind: string, payload: Payload)

  /** `Event.to_dict`: a dictionary with exactly the keys t, type and payload. */
  function ToDict(e: Event): (d: Payload)
    ensures d.Keys == {"t", "type", "payload"}
    ensures d["t"] == JInt(e.t) && d["type"] == JStr(e.kind) && d["payload"] == JObj(e.payload)
  {
    map["t" := JInt(e.t), "type" := JStr(e.kind), "payload" := JObj(e.payload)]
  }

  /**
   * A stored record the store can turn back into an event: an integer `t`,
   * a text `type`, and a `payload` that is an object or absent.
   */
  predicate WellFormedRecord(d: Payload) {
    "t" in d && d["t"].JInt? &&
    "type" in d && d["type"].JStr? &&
    ("payload" in d ==> d["payload"].JObj?)
  }

  /**
   * The reading side of the event store: `Event(t=int(obj["t"]),
   * type=str(obj["type"]), payload=dict(obj.get("payload", {})))`.
   * A record without a payload reads as an empty payload.
   */
  function FromDict(d: Payload): (r: Option<Event>)
    ensures r.Some? <==> WellFormedRecord(d)
    ensures r.Some? ==> r.value.t == d["t"].i && r.value.kind == d["type"].s
    ensures r.Some? ==> r.value.payload == if "payload" in d then d["payload"].fields else map[]
  {
    if !WellFormedRecord(d) then None
    else
      var p := Get(d, "payload", JObj(map[]));
      Some(Event(d["t"].i, d["type"].s, p.fields))
  }

  /** What the store writes is what it reads back: an equal event. */
  lemma RoundTrip(e: Event)
    ensures WellFormedRecord(ToDict(e))
    ensures FromDict(ToDict(e)) == Some(e)
  {
  }
}
