/**
 * The JavaScript values the request handler reads, forwards or answers with,
 * and the few language operations it applies to them: truthiness, property
 * reads, conversion inside a template literal, and the property assignment
 * `data.error = true` of the rejection handlers.
 */
module Js {
  import opened Wrappers

  /** A JavaScript value. Numbers are integers; objects are maps from keys to values. */
  datatype Value =
    | Undefined
    | Null
    | Bool(b: bool)
    | Num(n: int)
    | Str(s: string)
    | Arr(items: seq<Value>)
    | Obj(fields: map<string, Value>)

  /** JavaScript truthiness: undefined, null, false, 0 and "" are falsy, everything else is truthy. */
  predicate Truthy(v: Value)
  {
    match v
    case Undefined => false
    case Null => false
    case Bool(b) => b
    case Num(n) => n != 0
    case Str(s) => s != ""
    case Arr(_) => true
    case Obj(_) => true
  }

  /**
   * `v.key` for a value that is not undefined or null. Only plain objects carry
   * the keys the handler reads ("method", "params", "body", "status", "data");
   * on every other value they read as undefined.
   */
  function Get(v: Value, key: string): Value
  {
    if v.Obj? && key in v.fields then v.fields[key] else Undefined
  }

  /**
   * The value left behind by `v.error = true` in a script that is not in strict
   * mode: an object gains (or overwrites) its "error" key; the assignment is
   * ignored on a primitive; on an array it adds a non-index property that JSON
   * serialization drops, so the array as sent is unchanged.
   */
  function WithErrorFlag(v: Value): (r: Value)
    ensures v.Obj? ==> r.Obj? && r.fields.Keys == v.fields.Keys + {"error"}
    ensures v.Obj? ==> r.fields["error"] == Bool(true)
    ensures v.Obj? ==> forall k :: k in v.fields && k != "error" ==> r.fields[k] == v.fields[k]
    ensures !v.Obj? ==> r == v
  {
    match v
    case Obj(fields) => Obj(fields["error" := Bool(true)])
    case _ => v
  }

  function DigitChar(d: nat): char
    requires d < 10
  {
    ('0' as int + d) as char
  }

  /** The number a non-empty string of decimal digits denotes, most significant digit first. */
  function NumeralValue(s: string): nat
    requires forall i :: 0 <= i < |s| ==> '0' <= s[i] <= '9'
  {
    if |s| == 0 then 0 else 10 * NumeralValue(s[..|s| - 1]) + (s[|s| - 1] as int - '0' as int)
  }

  /** The decimal numeral of a natural number, most significant digit first, without a leading zero: it reads back as `n`. */
  function Digits(n: nat): (r: string)
    ensures |r| > 0
    ensures forall i :: 0 <= i < |r| ==> '0' <= r[i] <= '9'
    ensures NumeralValue(r) == n
    ensures r[0] == '0' ==> n == 0
    decreases n
  {
    if n < 10 then [DigitChar(n)]
    else
      var init := Digits(n / 10);
      var r := init + [DigitChar(n % 10)];
      assert r[..|r| - 1] == init;
      r
  }

  /** `String(n)` for an integer `n`. */
  function IntToString(n: int): string
  {
    if n < 0 then "-" + Digits(-n) else Digits(n)
  }

  /**
   * `String(v)`, the conversion a template literal `${v}` applies, absent when
   * it throws a TypeError. Arrays are joined with "," (undefined and null
   * elements become ""). A plain object prints as "[object Object]", unless it
   * has an own "toString" key: a parsed value is never callable, so the
   * conversion falls through to `valueOf`, which returns the object itself,
   * and throws.
   */
  function ToJsString(v: Value): (r: Option<string>)
    ensures v.Str? ==> r == Some(v.s)
    ensures v.Obj? ==> (r.None? <==> "toString" in v.fields)
    ensures !v.Arr? && !v.Obj? ==> r.Some?
    decreases v, 1
  {
    match v
    case Undefined => Some("undefined")
    case Null => Some("null")
    case Bool(b) => Some(if b then "true" else "false")
    case Num(n) => Some(IntToString(n))
    case Str(s) => Some(s)
    case Arr(items) => JoinElements(items, v)
    case Obj(fields) => if "toString" in fields then None else Some("[object Object]")
  }

  /** `items.join(",")`, where `items` are the elements of the array `whole`; it throws when an element's conversion does. */
  function JoinElements(items: seq<Value>, ghost whole: Value): Option<string>
    requires forall i :: 0 <= i < |items| ==> items[i] < whole
    decreases whole, 0, |items|
  {
    if |items| == 0 then Some("")
    else
      var first := if items[0].Undefined? || items[0].Null? then Some("") else ToJsString(items[0]);
      match first
      case None => None
      case Some(f) =>
        if |items| == 1 then Some(f)
        else
          match JoinElements(items[1..], whole)
          case None => None
          case Some(rest) => Some(f + "," + rest)
  }
}
