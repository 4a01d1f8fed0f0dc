/**
 * The fragment of JavaScript value semantics the webhook handler relies on:
 * JSON-like values, truthiness, strict equality, Array.prototype.indexOf,
 * String.prototype.slice, property and index access, and the string
 * conversion a template literal applies to an interpolated value.
 *
 * Numbers are safe integers here (|n| <= 2^53 - 1, the integers a JSON
 * document parses to exactly): the handler never computes with them, it only
 * tests them for truthiness, compares them with `===` (through `indexOf`) and
 * interpolates them into a path.
 */
module Js {

  datatype Option<+T> = None | Some(value: T)

  /** `Number.MAX_SAFE_INTEGER`. */
  const MaxSafeInteger := 9007199254740991

  /** The integers a JavaScript number holds exactly. */
  type SafeInteger = n: int | -MaxSafeInteger <= n <= MaxSafeInteger

  /** A value as it arrives in a parsed request body or API response. */
  datatype Json =
    | JUndefined
    | JNull
    | JBool(b: bool)
    | JNumber(n: SafeInteger)
    | JString(s: string)
    | JArray(items: seq<Json>)
    | JObject(fields: map<string, Json>)

  /** `undefined` and `null`: the values whose property access throws a TypeError. */
  predicate IsNullish(v: Json) {
    v.JUndefined? || v.JNull?
  }

  /**
   * What `if (v)` and `v && …` test. Arrays and objects are truthy even when
   * empty; a truthy value is never `undefined` or `null`, so reading a
   * property or an index of it does not throw.
   */
  predicate Truthy(v: Json)
    ensures Truthy(v) ==> !IsNullish(v)
    ensures v.JArray? || v.JObject? ==> Truthy(v)
  {
    match v
    case JUndefined => false
    case JNull => false
    case JBool(b) => b
    case JNumber(n) => n != 0
    case JString(s) => |s| > 0
    case JArray(_) => true
    case JObject(_) => true
  }

  /**
   * `a === b`. Arrays and objects compare by identity; the values compared by
   * the handler come from separately parsed documents, so two of them are
   * never the same object.
   */
  predicate StrictEquals(a: Json, b: Json)
    ensures StrictEquals(a, b) ==> a == b
    ensures a == b && !a.JArray? && !a.JObject? ==> StrictEquals(a, b)
  {
    match (a, b)
    case (JUndefined, JUndefined) => true
    case (JNull, JNull) => true
    case (JBool(x), JBool(y)) => x == y
    case (JNumber(x), JNumber(y)) => x == y
    case (JString(x), JString(y)) => x == y
    case _ => false
  }

  /** `xs.indexOf(x)`: the first position holding a value `=== x`, or -1. */
  function IndexOf(xs: seq<Json>, x: Json): (r: int)
    ensures -1 <= r < |xs|
    ensures r >= 0 ==> StrictEquals(xs[r], x)
    ensures r >= 0 ==> forall j :: 0 <= j < r ==> !StrictEquals(xs[j], x)
    ensures r == -1 <==> forall j :: 0 <= j < |xs| ==> !StrictEquals(xs[j], x)
  {
    if |xs| == 0 then -1
    else if StrictEquals(xs[0], x) then 0
    else
      var k := IndexOf(xs[1..], x);
      if k == -1 then -1 else k + 1
  }

  /** `obj.name` on an object held in a map: absent keys read as `undefined`. */
  function Get(m: map<string, Json>, name: string): Json {
    if name in m then m[name] else JUndefined
  }

  /**
   * `v.name` (or `const { name } = v`) for a name that is neither an array
   * index nor a built-in property: None stands for the TypeError thrown on
   * `undefined` and `null`.
   */
  function Prop(v: Json, name: string): (r: Option<Json>)
    ensures r.None? <==> IsNullish(v)
    ensures v.JObject? ==> r == Some(Get(v.fields, name))
  {
    match v
    case JUndefined => None
    case JNull => None
    case JObject(m) => Some(Get(m, name))
    case _ => Some(JUndefined)
  }

  /** `v[i]` on a value that is not `undefined` or `null`. */
  function At(v: Json, i: nat): (r: Json)
    requires !IsNullish(v)
    ensures v.JArray? && i < |v.items| ==> r == v.items[i]
  {
    match v
    case JArray(items) => if i < |items| then items[i] else JUndefined
    case JString(s) => if i < |s| then JString([s[i]]) else JUndefined
    case JObject(m) => Get(m, NatToDecimal(i))
    case _ => JUndefined
  }

  /** Clamps a `slice` argument: negative positions count back from the end. */
  function SliceBound(k: int, len: nat): (r: nat)
    ensures r <= len
  {
    if k < 0 then (if len + k > 0 then len + k else 0)
    else if k < len then k else len
  }

  /** `s.slice(start, end)`. */
  function Slice(s: string, start: int, end: int): (r: string)
    ensures |r| <= |s|
  {
    var from := SliceBound(start, |s|);
    var to := SliceBound(end, |s|);
    if from < to then s[from..to] else ""
  }

  /** `s.slice(0, -1)` is `s` without its last character, and "" for "". */
  lemma SliceDropsLast(s: string)
    ensures |s| > 0 ==> Slice(s, 0, -1) + [s[|s| - 1]] == s
    ensures |s| == 0 ==> Slice(s, 0, -1) == ""
  {
    if |s| > 0 {
      assert Slice(s, 0, -1) == s[..|s| - 1];
    }
  }

  function DigitChar(d: nat): (c: char)
    requires d < 10
    ensures '0' <= c <= '9'
  {
    "0123456789"[d]
  }

  function DigitValue(c: char): nat
    requires '0' <= c <= '9'
  {
    (c as int - '0' as int) as nat
  }

  predicate IsDecimal(s: string) {
    |s| > 0 && forall k :: 0 <= k < |s| ==> '0' <= s[k] <= '9'
  }

  /** The decimal spelling of a natural number, as `String(n)` writes it. */
  function NatToDecimal(n: nat): (r: string)
    ensures IsDecimal(r)
    ensures |r| > 1 ==> r[0] != '0'
  {
    if n < 10 then [DigitChar(n)]
    else NatToDecimal(n / 10) + [DigitChar(n % 10)]
  }

  /** The number a string of decimal digits denotes. */
  function DecimalValue(s: string): nat
    requires forall k :: 0 <= k < |s| ==> '0' <= s[k] <= '9'
  {
    if |s| == 0 then 0
    else DecimalValue(s[..|s| - 1]) * 10 + DigitValue(s[|s| - 1])
  }

  /** Reading back the spelling of `n` gives `n`: the spelling loses nothing. */
  lemma {:induction false} DecimalRoundTrip(n: nat)
    ensures DecimalValue(NatToDecimal(n)) == n
  {
    var r := NatToDecimal(n);
    if n < 10 {
      assert r == [DigitChar(n)];
      assert DigitValue("0123456789"[n]) == n;
    } else {
      DecimalRoundTrip(n / 10);
      assert r[..|r| - 1] == NatToDecimal(n / 10);
      assert DigitValue("0123456789"[n % 10]) == n % 10;
    }
  }

  /** Two different numbers never get the same spelling. */
  lemma DecimalInjective(m: nat, n: nat)
    requires NatToDecimal(m) == NatToDecimal(n)
    ensures m == n
  {
    DecimalRoundTrip(m);
    DecimalRoundTrip(n);
  }

  function IntToDecimal(n: int): (r: string)
    ensures |r| > 0
    ensures n >= 0 <==> r[0] != '-'
  {
    if n < 0 then "-" + NatToDecimal(-n) else NatToDecimal(n)
  }

  /** Two different integers never get the same spelling, whatever their signs. */
  lemma IntDecimalInjective(m: int, n: int)
    requires IntToDecimal(m) == IntToDecimal(n)
    ensures m == n
  {
    if m < 0 && n < 0 {
      assert NatToDecimal(-m) == IntToDecimal(m)[1..];
      assert NatToDecimal(-n) == IntToDecimal(n)[1..];
      DecimalInjective(-m, -n);
    } else if m >= 0 && n >= 0 {
      DecimalInjective(m, n);
    }
  }

  /** Joins strings with a separator, as `Array.prototype.join` does. */
  function Join(parts: seq<string>, sep: string): string {
    if |parts| == 0 then ""
    else if |parts| == 1 then parts[0]
    else parts[0] + sep + Join(parts[1..], sep)
  }

  /** The strings held by parts that are all present. */
  function Values(parts: seq<Option<string>>): (vs: seq<string>)
    requires forall i :: 0 <= i < |parts| ==> parts[i].Some?
    ensures |vs| == |parts|
    ensures forall i :: 0 <= i < |parts| ==> vs[i] == parts[i].value
  {
    if |parts| == 0 then [] else [parts[0].value] + Values(parts[1..])
  }

  /**
   * Joins the parts when every one of them is present; a missing part is a
   * conversion that threw, and the whole join throws with it.
   */
  function JoinAll(parts: seq<Option<string>>, sep: string): (r: Option<string>)
    ensures r.None? <==> exists i :: 0 <= i < |parts| && parts[i].None?
    ensures r.Some? ==> r.value == Join(Values(parts), sep)
  {
    if |parts| == 0 then Some("")
    else if parts[0].None? then None
    else if |parts| == 1 then parts[0]
    else match JoinAll(parts[1..], sep)
      case None => None
      case Some(rest) => Some(parts[0].value + sep + rest)
  }

  /**
   * A value whose conversion to a string throws a TypeError. A parsed object
   * with its own "toString" key shadows `Object.prototype.toString` with a
   * value that is not callable; `valueOf` then yields the object itself, which
   * is not a primitive. An array throws when one of its elements does.
   */
  predicate Unprintable(v: Json) {
    match v
    case JObject(m) => "toString" in m
    case JArray(items) => exists i :: 0 <= i < |items| && Unprintable(items[i])
    case _ => false
  }

  /**
   * The text `${v}` produces, or None when the conversion throws: strings as
   * they are, numbers in decimal (`Number.prototype.toString` writes every
   * integer below 10^21, so every safe integer, in plain digits), arrays
   * joined by commas with `undefined` and `null` elements left empty, and
   * other objects as "[object Object]".
   */
  function ToJsString(v: Json): (r: Option<string>)
    ensures r.None? <==> Unprintable(v)
    ensures v.JString? ==> r == Some(v.s)
    ensures v.JNumber? ==> r == Some(IntToDecimal(v.n))
    ensures v.JObject? && !Unprintable(v) ==> r == Some("[object Object]")
  {
    match v
    case JUndefined => Some("undefined")
    case JNull => Some("null")
    case JBool(b) => Some(if b then "true" else "false")
    case JNumber(n) => Some(IntToDecimal(n))
    case JString(s) => Some(s)
    case JArray(items) =>
      var parts := seq(|items|, i requires 0 <= i < |items| =>
                     if IsNullish(items[i]) then Some("") else ToJsString(items[i]));
      assert forall i :: 0 <= i < |items| ==> (parts[i].None? <==> Unprintable(items[i]));
      JoinAll(parts, ",")
    case JObject(m) => if "toString" in m then None else Some("[object Object]")
  }
}
