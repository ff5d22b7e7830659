/**
 * Values that the world engine stores in payloads, files and snapshots.
 * The engine works on parsed JSON: `Json` is that value space, and a
 * payload (a Python `Dict[str, Any]`) is a map from text keys to it.
 * Python's `None` inside a payload is the JSON `null`.
 */
module Wrappers {
  datatype Option<+T> = None | Some(value: T)
}

module Json {
  import opened Wrappers

  datatype Json =
    | JNull
    | JBool(b: bool)
    | JInt(i: int)
    | JReal(r: real)
    | JStr(s: string)
    | JArr(items: seq<Json>)
    | JObj(fields: map<string, Json>)

  type Payload = map<string, Json>

  /** Python's `d.get(k, default)` on a payload. */
  function Get(m: Payload, k: string, default: Json): (v: Json)
    ensures k in m ==> v == m[k]
    ensures k !in m ==> v == default
  {
    if k in m then m[k] else default
  }

  /** Decimal digits of a natural number, most significant first. */
  function NatText(n: nat): (s: string)
    ensures |s| >= 1
    ensures forall i :: 0 <= i < |s| ==> '0' <= s[i] <= '9'
    decreases n
  {
    if n < 10 then [Digit(n)] else NatText(n / 10) + [Digit(n % 10)]
  }

  function Digit(d: nat): (c: char)
    requires d < 10
    ensures '0' <= c <= '9' && c as int - '0' as int == d
  {
    ('0' as int + d) as char
  }

  /** The number a string of decimal digits denotes, most significant digit first. */
  function DigitsValue(s: string): nat
    requires forall i :: 0 <= i < |s| ==> '0' <= s[i] <= '9'
  {
    if s == [] then 0 else 10 * DigitsValue(s[..|s| - 1]) + (s[|s| - 1] as int - '0' as int)
  }

  /** `NatText(n)` is the decimal form of n: its digits denote n. */
  lemma {:induction false} NatTextDenotes(n: nat)
    ensures DigitsValue(NatText(n)) == n
  {
    if n >= 10 {
      NatTextDenotes(n / 10);
      var s := NatText(n);
      assert s[..|s| - 1] == NatText(n / 10);
    }
  }

  /** Python's `str(i)` for an int. */
  function IntText(i: int): (s: string)
    ensures i >= 0 ==> s == NatText(i)
    ensures i < 0 ==> |s| >= 2 && s[0] == '-' && s[1..] == NatText(-i)
  {
    if i < 0 then "-" + NatText(-i) else NatText(i)
  }

  /**
   * Python's `str(v)` of a JSON value: the text itself for a string,
   * "None", "True"/"False" and the decimal form for null, booleans and ints.
   * Floats, lists and objects get a stand-in rendering (see README).
   */
  function Str(v: Json): (s: string)
    ensures v.JStr? ==> s == v.s
    ensures v.JNull? ==> s == "None"
    ensures v.JInt? ==> s == IntText(v.i)
  {
    match v
    case JStr(t) => t
    case JNull => "None"
    case JBool(b) => if b then "True" else "False"
    case JInt(i) => IntText(i)
    case JReal(_) => "<float>"
    case JArr(_) => "<list>"
    case JObj(_) => "<dict>"
  }
}
