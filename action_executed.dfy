/**
 * `ActionExecuted`: the record that an action was carried out, and its
 * conversion to an `ACTION_EXECUTED` event.
 */
module ActionExecutions {
  import opened Wrappers
  import opened Json
  import opened Events

  const ActionExecutedType: string := "ACTION_EXECUTED"

  datatype ActionExecuted = ActionExecuted(
    actionType: string,
    reason: string,
    fromPolicyT: Option<int>,
    traceId: Option<string>)

  /**
   * `ActionExecuted.to_event(t)`: an ACTION_EXECUTED event at `t`. The keys
   * action_type, reason and from_policy_t are always present (the last one
   * as null when there is no originating decision time); trace_id only when
   * the record has one.
   */
  function ToEvent(a: ActionExecuted, t: int): (e: Event)
    ensures e.t == t && e.kind == ActionExecutedType
    ensures e.payload.Keys == {"action_type", "reason", "from_policy_t"}
                              + (if a.traceId.Some? then {"trace_id"} else {})
    ensures |e.payload| == if a.traceId.Some? then 4 else 3
    ensures e.payload["action_type"] == JStr(a.actionType) && e.payload["reason"] == JStr(a.reason)
    ensures e.payload["from_policy_t"] == if a.fromPolicyT.Some? then JInt(a.fromPolicyT.value) else JNull
    ensures a.traceId.Some? ==> e.payload["trace_id"] == JStr(a.traceId.value)
  {
    var fromT := if a.fromPolicyT.Some? then JInt(a.fromPolicyT.value) else JNull;
    var base := map["action_type" := JStr(a.actionType), "reason" := JStr(a.reason), "from_policy_t" := fromT];
    Event(t, ActionExecutedType, if a.traceId.Some? then base["trace_id" := JStr(a.traceId.value)] else base)
  }
}
