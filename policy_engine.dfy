/**
 * The policy engine: a stateless rule that reacts to an equipment
 * temperature reading above a threshold with one TEMP_HIGH_PAUSE decision.
 */
module PolicyEngine {
  import opened Wrappers
  import opened Json
  import opened Events
  import opened ExternalInputs
  import opened PolicyDecisions

  /** Tunable parameters of the rules. */
  datatype PolicyConfig = PolicyConfig(tempHighThresholdC: real)

  /** The default configuration: 92.0 degrees Celsius. */
  const DefaultConfig: PolicyConfig := PolicyConfig(92.0)

  /**
   * Python's conversion of text to a float (`float("95.5")`) and its rendering
   * of a float inside an f-string. Both belong to the host language and are
   * given to the engine rather than modelled.
   */
  datatype FloatText = FloatText(parse: string -> Option<real>, show: real -> string)

  /**
   * `float(v)`: ints and booleans convert, floats are themselves, text goes
   * through the host parser, and lists, objects and null cannot be converted.
   */
  function ToFloat(v: Json, ft: FloatText): (r: Option<real>)
    ensures v.JInt? ==> r == Some(v.i as real)
    ensures v.JReal? ==> r == Some(v.r)
    ensures v.JNull? || v.JArr? || v.JObj? ==> r == None
  {
    match v
    case JInt(i) => Some(i as real)
    case JReal(x) => Some(x)
    case JBool(b) => Some(if b then 1.0 else 0.0)
    case JStr(s) => ft.parse(s)
    case _ => None
  }

  /**
   * `_extract_temp_c(payload)`: the reading at payload["data"]["temp_c"], or
   * None when data is missing or not an object, or temp_c is missing, null or
   * not convertible. It never fails.
   */
  function ExtractTempC(payload: Payload, ft: FloatText): (r: Option<real>)
    ensures r.Some? ==> "data" in payload && payload["data"].JObj?
                        && "temp_c" in payload["data"].fields
                        && ToFloat(payload["data"].fields["temp_c"], ft) == r
    ensures "data" in payload && payload["data"].JObj? && "temp_c" in payload["data"].fields
            && !payload["data"].fields["temp_c"].JNull?
            ==> r == ToFloat(payload["data"].fields["temp_c"], ft)
  {
    var data := Get(payload, "data", JObj(map[]));
    if !data.JObj? then None
    else
      var v := Get(data.fields, "temp_c", JNull);
      if v.JNull? then None else ToFloat(v, ft)
  }

  /** An EXTERNAL_INPUT on channel "equipment" named "TEMP_READING". */
  predicate IsTempReading(e: Event) {
    e.kind == ExternalInputType
    && Get(e.payload, "channel", JNull) == JStr("equipment")
    && Get(e.payload, "name", JNull) == JStr("TEMP_READING")
  }

  /** The one decision the rule emits for reading `temp` over `threshold`. */
  function TempHighDecision(temp: real, threshold: real, ft: FloatText): PolicyDecision {
    PolicyDecision(
      "TEMP_HIGH_PAUSE", "ALERT", "PAUSE",
      "TEMP too high: temp_c=" + ft.show(temp) + " > threshold=" + ft.show(threshold) + ". Recommend PAUSE.",
      map["temp_c" := JReal(temp), "threshold_c" := JReal(threshold)])
  }

  /**
   * `evaluate_event(e, config)`: at most one decision; exactly one precisely
   * when `e` is an equipment temperature reading whose temp_c converts to a
   * value strictly above the threshold, and then it is TEMP_HIGH_PAUSE /
   * ALERT / PAUSE with the reading and the threshold as evidence.
   */
  function EvaluateEvent(e: Event, config: PolicyConfig, ft: FloatText): (ds: seq<PolicyDecision>)
    ensures |ds| <= 1
    ensures |ds| == 1 <==> (IsTempReading(e) && ExtractTempC(e.payload, ft).Some?
                            && ExtractTempC(e.payload, ft).value > config.tempHighThresholdC)
    ensures |ds| == 1 ==> ds[0] == TempHighDecision(ExtractTempC(e.payload, ft).value, config.tempHighThresholdC, ft)
  {
    if e.kind != ExternalInputType then []
    else
      var channel := Get(e.payload, "channel", JNull);
      var name := Get(e.payload, "name", JNull);
      if channel != JStr("equipment") || name != JStr("TEMP_READING") then []
      else
        var temp := ExtractTempC(e.payload, ft);
        if temp.None? then []
        else
          var threshold := config.tempHighThresholdC;
          if temp.value > threshold then [TempHighDecision(temp.value, threshold, ft)] else []
  }

  /**
   * The rule on inputs built by `ExternalInput.to_event`: an equipment
   * TEMP_READING whose data holds temp_c = v yields a decision exactly when
   * v > threshold, whatever the time and trace id; the comparison is strict.
   */
  lemma TemperatureInputRule(inp: ExternalInput, t: int, v: real, config: PolicyConfig, ft: FloatText)
    requires inp.channel == "equipment" && inp.name == "TEMP_READING"
    requires "temp_c" in inp.data && inp.data["temp_c"] == JReal(v)
    ensures |EvaluateEvent(ExternalInputs.ToEvent(inp, t), config, ft)| == (if v > config.tempHighThresholdC then 1 else 0)
    ensures v > config.tempHighThresholdC ==>
      EvaluateEvent(ExternalInputs.ToEvent(inp, t), config, ft) == [TempHighDecision(v, config.tempHighThresholdC, ft)]
  {
    var e := ExternalInputs.ToEvent(inp, t);
    assert ExtractTempC(e.payload, ft) == Some(v);
  }

  /** Only inputs can trigger the rule: ticks, decisions and actions yield nothing. */
  lemma OnlyInputsDecide(e: Event, config: PolicyConfig, ft: FloatText)
    requires e.kind != ExternalInputType
    ensures EvaluateEvent(e, config, ft) == []
  {
  }

  /** With the default threshold, 99.0 yields one PAUSE decision and 80.0 yields none. */
  lemma DefaultThresholdScenarios(inp: ExternalInput, t: int, ft: FloatText)
    requires inp.channel == "equipment" && inp.name == "TEMP_READING"
    ensures var hot := inp.(data := inp.data["temp_c" := JReal(99.0)]);
      var ds := EvaluateEvent(ExternalInputs.ToEvent(hot, t), DefaultConfig, ft);
      |ds| == 1 && ds[0].recommendedAction == "PAUSE" && ds[0].ruleId == "TEMP_HIGH_PAUSE"
    ensures var cold := inp.(data := inp.data["temp_c" := JReal(80.0)]);
      EvaluateEvent(ExternalInputs.ToEvent(cold, t), DefaultConfig, ft) == []
  {
    TemperatureInputRule(inp.(data := inp.data["temp_c" := JReal(99.0)]), t, 99.0, DefaultConfig, ft);
    TemperatureInputRule(inp.(data := inp.data["temp_c" := JReal(80.0)]), t, 80.0, DefaultConfig, ft);
  }
}
