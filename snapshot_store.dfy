/**
 * The snapshot store: one JSON document holding a world state and the index
 * of the last event it covers. Each save overwrites the document.
 * `file` is the document, None while no snapshot file exists.
 */
module SnapshotStores {
  import opened Wrappers
  import opened Json
  import opened WorldStates

  /** The document `save(state, last_event_index)` writes. */
  function Encode(state: WorldState, lastEventIndex: int): (doc: Payload)
    ensures doc.Keys == {"last_event_index", "state"} && doc["last_event_index"] == JInt(lastEventIndex)
    ensures doc["state"].JObj? && doc["state"].fields.Keys == {"t", "tick_count", "input_count", "last_input"}
    ensures doc["state"].fields["t"] == JInt(state.t)
    ensures doc["state"].fields["tick_count"] == JInt(state.tickCount)
    ensures doc["state"].fields["input_count"] == JInt(state.inputCount)
    ensures doc["state"].fields["last_input"] == if state.lastInput.Some? then JObj(state.lastInput.value) else JNull
  {
    map["last_event_index" := JInt(lastEventIndex),
        "state" := JObj(map["t" := JInt(state.t), "tick_count" := JInt(state.tickCount),
                            "input_count" := JInt(state.inputCount),
                            "last_input" := if state.lastInput.Some? then JObj(state.lastInput.value) else JNull])]
  }

  /** A document `load` can read: integer fields, and a last input that is an object, null or absent. */
  predicate WellFormedSnapshot(doc: Payload) {
    "last_event_index" in doc && doc["last_event_index"].JInt? &&
    "state" in doc && doc["state"].JObj? &&
    var s := doc["state"].fields;
    "t" in s && s["t"].JInt? && "tick_count" in s && s["tick_count"].JInt? &&
    "input_count" in s && s["input_count"].JInt? &&
    ("last_input" in s ==> s["last_input"].JObj? || s["last_input"].JNull?)
  }

  /** What `load` rebuilds from a document: a missing or null last input reads as None. */
  function Decode(doc: Payload): (r: Option<(WorldState, int)>)
    ensures r.Some? <==> WellFormedSnapshot(doc)
    ensures r.Some? ==> r.value.1 == doc["last_event_index"].i
    ensures r.Some? ==> r.value.0.t == doc["state"].fields["t"].i
    ensures r.Some? ==> r.value.0.tickCount == doc["state"].fields["tick_count"].i
    ensures r.Some? ==> r.value.0.inputCount == doc["state"].fields["input_count"].i
    ensures r.Some? && "last_input" in doc["state"].fields && doc["state"].fields["last_input"].JObj?
         ==> r.value.0.lastInput == Some(doc["state"].fields["last_input"].fields)
    ensures r.Some? && ("last_input" !in doc["state"].fields || doc["state"].fields["last_input"].JNull?)
         ==> r.value.0.lastInput.None?
  {
    if !WellFormedSnapshot(doc) then None
    else
      var s := doc["state"].fields;
      var last := Get(s, "last_input", JNull);
      Some((WorldState(s["t"].i, s["tick_count"].i, s["input_count"].i,
                       if last.JObj? then Some(last.fields) else None),
            doc["last_event_index"].i))
  }

  /** A saved snapshot loads back with every state field and the index equal. */
  lemma SnapshotRoundTrip(state: WorldState, lastEventIndex: int)
    ensures Decode(Encode(state, lastEventIndex)) == Some((state, lastEventIndex))
  {
  }

  class SnapshotStore {
    var file: Option<Payload>

    /** A snapshot store over a path whose current document is `content` (None: no file). */
    constructor (content: Option<Payload>)
      ensures file == content
    {
      file := content;
    }

    /** The snapshot the file currently holds, if any. */
    function Saved(): Option<(WorldState, int)>
      reads this
    {
      if file.None? then None else Decode(file.value)
    }

    /** `save(state, last_event_index)`: overwrites the document; only the latest save is visible. */
    method Save(state: WorldState, lastEventIndex: int)
      modifies this
      ensures file == Some(Encode(state, lastEventIndex))
      ensures Saved() == Some((state, lastEventIndex))
    {
      file := Some(Encode(state, lastEventIndex));
      SnapshotRoundTrip(state, lastEventIndex);
    }

    /** `load()`: None when no snapshot file exists, otherwise the saved pair. */
    method Load() returns (r: Option<(WorldState, int)>)
      requires file.Some? ==> WellFormedSnapshot(file.value)
      ensures r == Saved()
      ensures r.None? <==> file.None?
    {
      if file.None? {
        return None;
      }
      var s := file.value["state"].fields;
      var last := Get(s, "last_input", JNull);
      var state := WorldState(s["t"].i, s["tick_count"].i, s["input_count"].i,
                              if last.JObj? then Some(last.fields) else None);
      r := Some((state, file.value["last_event_index"].i));
    }
  }
}
