/**
 * `PolicyDecision`: the policy engine's judgement about a fact, and its
 * conversion to a `POLICY_DECISION` event.
 */
module PolicyDecisions {
  import opened Wrappers
  import opened Json
  import opened Events

  const PolicyDecisionType: string := "POLICY_DECISION"

  datatype PolicyDecision = PolicyDecision(
    ruleId: string,
    severity: string,
    recommendedAction: string,
    reason: string,
    evidence: Payload)

  /**
   * `PolicyDecision.to_event(t, trace_id)`: a POLICY_DECISION event at `t`
   * whose payload carries the five decision fields unchanged, plus trace_id
   * exactly when one is given, and nothing else.
   */
  function ToEvent(d: PolicyDecision, t: int, traceId: Option<string>): (e: Event)
    ensures e.t == t && e.kind == PolicyDecisionType
    ensures e.payload.Keys == {"rule_id", "severity", "recommended_action", "reason", "evidence"}
                              + (if traceId.Some? then {"trace_id"} else {})
    ensures e.payload["rule_id"] == JStr(d.ruleId) && e.payload["severity"] == JStr(d.severity)
    ensures e.payload["recommended_action"] == JStr(d.recommendedAction)
    ensures e.payload["reason"] == JStr(d.reason) && e.payload["evidence"] == JObj(d.evidence)
    ensures traceId.Some? ==> e.payload["trace_id"] == JStr(traceId.value)
  {
    var base := map["rule_id" := JStr(d.ruleId), "severity" := JStr(d.severity),
                    "recommended_action" := JStr(d.recommendedAction),
                    "reason" := JStr(d.reason), "evidence" := JObj(d.evidence)];
    Event(t, PolicyDecisionType, if traceId.Some? then base["trace_id" := JStr(traceId.value)] else base)
  }
}
