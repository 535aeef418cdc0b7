/**
 * The JavaScript values that index.js inspects: option values, settings
 * fields, resolution and rejection values.  Numbers are integers here.
 */
module Js {

  datatype JsValue =
    | Undefined
    | Null
    | Bool(b: bool)
    | Num(n: int)
    | Str(s: string)
    | Func(name: string)              // any callable
    | Array(items: seq<JsValue>)
    | Object(props: map<string, JsValue>)

  /** An exception object thrown by JavaScript code, e.g. a TypeError. */
  datatype Thrown = Thrown(name: string, what: string)

  /** The function the source substitutes for `true` log settings. */
  const ConsoleLog: JsValue := Func("console.log")

  /** JavaScript truthiness (NaN is not an integer and so is not modelled). */
  predicate Truthy(v: JsValue)
  {
    match v
    case Undefined => false
    case Null => false
    case Bool(b) => b
    case Num(n) => n != 0
    case Str(s) => s != ""
    case _ => true
  }

  /**
   * `v == 'auto'` under loose equality: a string compares by content, an
   * array by its `join(',')` form, which is "auto" only for a one-element
   * array whose element itself reads "auto"; every other value differs.
   */
  predicate LooselyEqualsAuto(v: JsValue)
    decreases v
  {
    match v
    case Str(s) => s == "auto"
    case Array(items) => |items| == 1 && LooselyEqualsAuto(items[0])
    case _ => false
  }

  /** Property read on an object: a missing key reads as undefined. */
  function Get(props: map<string, JsValue>, key: string): (v: JsValue)
    ensures key !in props ==> v == Undefined
    ensures key in props ==> v == props[key]
  {
    if key in props then props[key] else Undefined
  }

  /** Decimal digits of a natural number, as `String(n)` writes them. */
  function NatToString(n: nat): (r: string)
    ensures |r| >= 1
    ensures forall i :: 0 <= i < |r| ==> '0' <= r[i] <= '9'
    decreases n
  {
    var d := ['0' + (n % 10) as char];
    if n < 10 then d else NatToString(n / 10) + d
  }

  /** `String(n)` for an integer. */
  function IntToString(n: int): string
  {
    if n < 0 then "-" + NatToString(-n) else NatToString(n)
  }

  /** `big.includes(small)` on strings. */
  predicate ContainsText(big: string, small: string)
  {
    exists i | 0 <= i <= |big| :: OccursAt(big, small, i)
  }

  predicate OccursAt(big: string, small: string, i: int)
  {
    0 <= i <= |big| - |small| && big[i..i + |small|] == small
  }
}
