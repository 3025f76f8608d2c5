/**
 * The untyped JavaScript values that cross the process boundary, and the few
 * built-in operations of the language the core relies on: property reads,
 * truthiness, `typeof`, conversion to a string, and a handful of string tests.
 *
 * Numbers are integers plus NaN; fractional numbers are not modelled.
 */
module Js {
  import opened Wrappers

  /** A JavaScript value as it appears in a message: JSON plus `undefined` and `NaN`. */
  datatype JsValue =
    | Undefined
    | Null
    | Bool(b: bool)
    | Num(n: int)
    | NaN
    | Str(s: string)
    | Arr(items: seq<JsValue>)
    | Obj(props: seq<Prop>)

  /** One own property of an object, in insertion order. */
  datatype Prop = Prop(key: string, value: JsValue)

  /** An object literal built from property pairs. */
  function Object(props: seq<Prop>): JsValue { Obj(props) }

  // ---------------------------------------------------------------- typeof

  /** `typeof v === "object"`, which includes `null`. */
  predicate IsTypeofObject(v: JsValue) { v.Null? || v.Arr? || v.Obj? }

  /** `typeof v === "object" && v !== null`. */
  predicate IsObject(v: JsValue) { v.Arr? || v.Obj? }

  /** `typeof v === "number"`, which includes NaN. */
  predicate IsNumber(v: JsValue) { v.Num? || v.NaN? }

  /** `v === null || v === undefined`: the values whose properties cannot be read. */
  predicate IsNullish(v: JsValue) { v.Null? || v.Undefined? }

  /** JavaScript truthiness (`!!v`). */
  predicate Truthy(v: JsValue)
  {
    match v
    case Undefined => false
    case Null => false
    case Bool(b) => b
    case Num(n) => n != 0
    case NaN => false
    case Str(s) => s != ""
    case Arr(_) => true
    case Obj(_) => true
  }

  // ---------------------------------------------------------------- properties

  /** The value of the first property named `k`, if there is one. */
  function Lookup(props: seq<Prop>, k: string): Option<JsValue>
  {
    if props == [] then None
    else if props[0].key == k then Some(props[0].value)
    else Lookup(props[1..], k)
  }

  /** `Lookup` finds a value exactly when some property has the key, and what it finds is that property's value. */
  lemma {:induction false} LookupFinds(props: seq<Prop>, k: string)
    ensures Lookup(props, k).Some? <==> exists i :: 0 <= i < |props| && props[i].key == k
    ensures Lookup(props, k).Some? ==> exists i :: 0 <= i < |props| && props[i] == Prop(k, Lookup(props, k).value)
  {
    if props != [] && props[0].key != k {
      LookupFinds(props[1..], k);
      assert forall i :: 1 <= i < |props| ==> props[i] == props[1..][i - 1];
      if Lookup(props, k).Some? {
        var i :| 0 <= i < |props[1..]| && props[1..][i] == Prop(k, Lookup(props, k).value);
        assert props[i + 1] == props[1..][i];
      }
    } else if props != [] {
      assert props[0] == Prop(k, Lookup(props, k).value);
    }
  }

  /** `v[k]` on a value whose properties can be read: an absent property reads as `undefined`. */
  function Get(v: JsValue, k: string): (r: JsValue)
    ensures !v.Obj? ==> r == Undefined
  {
    if v.Obj? then
      match Lookup(v.props, k)
      case Some(x) => x
      case None => Undefined
    else Undefined
  }

  /** The own keys of an object or array, as `Object.keys` lists them, paired with their values. */
  function Entries(v: JsValue): (r: seq<Prop>)
    ensures v.Obj? ==> r == v.props
    ensures v.Arr? ==> |r| == |v.items|
  {
    match v
    case Obj(props) => props
    case Arr(items) => seq(|items|, i requires 0 <= i < |items| => Prop(NatToString(i), items[i]))
    case _ => []
  }

  // ---------------------------------------------------------------- decimal numerals

  /** The ASCII digit for `d`. */
  function DigitChar(d: nat): (c: char)
    requires d < 10
    ensures IsDigit(c)
  {
    ('0' as int + d) as char
  }

  /** `\d` in a regular expression: an ASCII digit. */
  predicate IsDigit(c: char) { '0' <= c <= '9' }

  /** The value of an ASCII digit. */
  function DigitValue(c: char): (d: nat)
    requires IsDigit(c)
    ensures d < 10
  {
    c as int - '0' as int
  }

  /** `String(n)` for a non-negative integer: its decimal numeral without leading zeros. */
  function NatToString(n: nat): (r: string)
    decreases n
  {
    if n < 10 then [DigitChar(n)] else NatToString(n / 10) + [DigitChar(n % 10)]
  }

  /** `String(i)` for an integer. */
  function IntToString(i: int): string
  {
    if i < 0 then "-" + NatToString(-i) else NatToString(i)
  }

  predicate AllDigits(s: string) { forall k :: 0 <= k < |s| ==> IsDigit(s[k]) }

  /** The value of a decimal numeral, read left to right. */
  function ParseNat(s: string): nat
    requires AllDigits(s)
  {
    if s == [] then 0 else 10 * ParseNat(s[..|s| - 1]) + DigitValue(s[|s| - 1])
  }

  /** A decimal numeral reads back as the number it was printed from. */
  lemma {:induction false} ParseNatToString(n: nat)
    ensures NatToString(n) != [] && AllDigits(NatToString(n))
    ensures ParseNat(NatToString(n)) == n
    decreases n
  {
    if n >= 10 {
      ParseNatToString(n / 10);
      var s := NatToString(n);
      var prefix := NatToString(n / 10);
      assert s == prefix + [DigitChar(n % 10)];
      assert s[..|s| - 1] == prefix;
    }
  }

  /** Two different numbers never print alike. */
  lemma NatToStringInjective(a: nat, b: nat)
    requires NatToString(a) == NatToString(b)
    ensures a == b
  {
    ParseNatToString(a);
    ParseNatToString(b);
  }

  // ---------------------------------------------------------------- String(v)

  /** Joins strings with a separator, as `Array.prototype.join` does. */
  function Join(parts: seq<string>, sep: string): (r: string)
    ensures parts == [] ==> r == ""
    ensures |parts| == 1 ==> r == parts[0]
  {
    if parts == [] then "" else if |parts| == 1 then parts[0] else parts[0] + sep + Join(parts[1..], sep)
  }

  /** Joining one more part adds the separator and that part at the end. */
  lemma {:induction false} JoinSnoc(parts: seq<string>, p: string, sep: string)
    requires parts != []
    ensures Join(parts + [p], sep) == Join(parts, sep) + sep + p
  {
    if |parts| > 1 {
      assert (parts + [p])[1..] == parts[1..] + [p];
      JoinSnoc(parts[1..], p, sep);
    }
  }

  /** `String(v)`, the conversion a regular expression test applies to its argument. */
  function ToJsString(v: JsValue): string
  {
    match v
    case Undefined => "undefined"
    case Null => "null"
    case Bool(b) => if b then "true" else "false"
    case Num(n) => IntToString(n)
    case NaN => "NaN"
    case Str(s) => s
    case Arr(items) =>
      // `Array.prototype.join(",")`, which prints null and undefined elements as empty strings
      Join(seq(|items|, i requires 0 <= i < |items| =>
                 if IsNullish(items[i]) then "" else ToJsString(items[i])), ",")
    case Obj(_) => "[object Object]"
  }

  // ---------------------------------------------------------------- string tests

  predicate StartsWith(s: string, prefix: string)
  {
    |prefix| <= |s| && s[..|prefix|] == prefix
  }

  /** `s.endsWith(suffix)`. */
  predicate EndsWith(s: string, suffix: string)
  {
    |suffix| <= |s| && s[|s| - |suffix|..] == suffix
  }

  /** The characters `String.prototype.trim` removes: white space and line terminators. */
  predicate IsTrimmable(c: char)
  {
    var k := c as int;
    k == 0x09 || k == 0x0A || k == 0x0B || k == 0x0C || k == 0x0D || k == 0x20 || k == 0xA0
    || k == 0x1680 || (0x2000 <= k <= 0x200A) || k == 0x2028 || k == 0x2029 || k == 0x202F
    || k == 0x205F || k == 0x3000 || k == 0xFEFF
  }

  /** `s.trim().length === 0`. */
  predicate IsBlank(s: string)
  {
    forall k :: 0 <= k < |s| ==> IsTrimmable(s[k])
  }

  /** `[0-9a-f]` under the case-insensitive flag. */
  predicate IsHexDigit(c: char)
  {
    ('0' <= c <= '9') || ('a' <= c <= 'f') || ('A' <= c <= 'F')
  }

  predicate AllHex(s: string) { forall k :: 0 <= k < |s| ==> IsHexDigit(s[k]) }
}
