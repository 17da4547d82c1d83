/** JavaScript values and the few built-in operations the modelled code relies on:
    absent values, truthiness as `||`, `??` and `!!` see it, Array.prototype.find and
    Array.prototype.map, String.prototype.replace with a one-character pattern, and
    Number() on a string. */
module Js {

  /** `undefined` versus a present value (`null` is not modelled). */
  datatype Option<T> = None | Some(value: T) {
    /** `x ?? d` */
    function GetOr(default: T): T {
      if Some? then value else default
    }
  }

  /** The exceptions the modelled code can raise. */
  datatype JsError =
    | TypeError(message: string)
    | FrameworkError(message: string)

  /** A call that either returns a value or throws. */
  datatype Result<T> = Ok(value: T) | Err(error: JsError)

  /** An arbitrary JavaScript value, as far as its truthiness goes (no NaN: numbers are integers). */
  datatype JsValue = Undefined | Null | Bool(b: bool) | Num(n: int) | Str(s: string) | Object

  predicate Truthy(v: JsValue) {
    match v
    case Undefined => false
    case Null => false
    case Bool(b) => b
    case Num(n) => n != 0
    case Str(s) => s != ""
    case Object => true
  }

  /** An optional string is truthy when present and not empty. */
  predicate TruthyString(s: Option<string>) {
    s.Some? && s.value != ""
  }

  /** `a || b` on optional strings. */
  function OrString(a: Option<string>, b: Option<string>): Option<string> {
    if TruthyString(a) then a else b
  }

  /** `a || b` on optional booleans. */
  function OrBool(a: Option<bool>, b: Option<bool>): Option<bool> {
    if a == Some(true) then a else b
  }

  /** `a || b` on optional objects, arrays or functions, which are truthy whenever present. */
  function OrObject<T>(a: Option<T>, b: Option<T>): Option<T> {
    if a.Some? then a else b
  }

  /** `s || ''` */
  function StringOrEmpty(s: Option<string>): (r: string)
    ensures r == "" <==> !TruthyString(s)
    ensures r != "" ==> s == Some(r)
  {
    if TruthyString(s) then s.value else ""
  }

  /** i is the first index of xs whose element satisfies p. */
  ghost predicate IsFirstMatch<T>(xs: seq<T>, p: T -> bool, i: int) {
    0 <= i < |xs| && p(xs[i]) && forall j :: 0 <= j < i ==> !p(xs[j])
  }

  /** Array.prototype.findIndex, with None for -1. */
  function FindIndex<T>(xs: seq<T>, p: T -> bool): (r: Option<nat>)
    ensures r.Some? ==> IsFirstMatch(xs, p, r.value)
    ensures r.None? <==> forall i :: 0 <= i < |xs| ==> !p(xs[i])
  {
    if xs == [] then None
    else if p(xs[0]) then Some(0)
    else
      match FindIndex(xs[1..], p)
      case None => None
      case Some(k) => Some(k + 1)
  }

  /** Array.prototype.find: the first element that satisfies p, or undefined. */
  function Find<T>(xs: seq<T>, p: T -> bool): (r: Option<T>)
    ensures r.None? <==> forall i :: 0 <= i < |xs| ==> !p(xs[i])
    ensures r.Some? ==> exists i :: IsFirstMatch(xs, p, i) && r.value == xs[i]
  {
    match FindIndex(xs, p)
    case None => None
    case Some(i) => Some(xs[i])
  }

  /** Array.prototype.map */
  function Map<T, U>(xs: seq<T>, f: T -> U): (r: seq<U>)
    ensures |r| == |xs|
    ensures forall i :: 0 <= i < |xs| ==> r[i] == f(xs[i])
  {
    if xs == [] then [] else [f(xs[0])] + Map(xs[1..], f)
  }

  /** `s.startsWith(prefix)` */
  predicate StartsWith(s: string, prefix: string) {
    |prefix| <= |s| && s[..|prefix|] == prefix
  }

  /** `s.indexOf(c)`, with None for -1. */
  function IndexOf(s: string, c: char): (r: Option<nat>)
    ensures r.None? <==> c !in s
    ensures r.Some? ==> r.value < |s| && s[r.value] == c && c !in s[..r.value]
  {
    if s == [] then None
    else if s[0] == c then Some(0)
    else
      match IndexOf(s[1..], c)
      case None => None
      case Some(k) => Some(k + 1)
  }

  /** `s.replace(c, '')` with a one-character string pattern: only the first occurrence goes. */
  function RemoveFirst(s: string, c: char): (r: string)
    ensures c !in s ==> r == s
    ensures c in s ==> exists i :: 0 <= i < |s| && s[i] == c && c !in s[..i] && r == s[..i] + s[i + 1..]
  {
    match IndexOf(s, c)
    case None => s
    case Some(i) => s[..i] + s[i + 1..]
  }

  /** A number as `Number(...)` produces it: exact for a string of decimal digits,
      otherwise the conversion of the given text, left unevaluated. */
  datatype JsNumber = Int(value: int) | NumberOf(text: string)

  predicate IsDigits(s: string) {
    |s| > 0 && forall i :: 0 <= i < |s| ==> '0' <= s[i] <= '9'
  }

  /** The value of a string of decimal digits. */
  function DecimalValue(s: string): nat
    requires forall i :: 0 <= i < |s| ==> '0' <= s[i] <= '9'
  {
    if s == [] then 0 else DecimalValue(s[..|s| - 1]) * 10 + (s[|s| - 1] as int - '0' as int)
  }

  /** `Number(s)` */
  function ToNumber(s: string): JsNumber {
    if IsDigits(s) then Int(DecimalValue(s)) else NumberOf(s)
  }
}
