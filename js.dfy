/** JavaScript values as the adapter layer sees them: the records it receives
    from the storage SDK, the `raw` payload of an entry, and the arguments it
    passes back. Only the operations the adapter performs on them are modelled:
    truthiness, property access, `||` and `&&`, `Object.values`, `.length`,
    `String(v)` and the string tests used by its error classifiers. */
module Js {

  /** A JavaScript value. Numbers are integers; an object keeps its own
      enumerable properties in insertion order, which is the order
      `Object.values` reports them in. */
  datatype JsVal =
    | Undefined
    | Null
    | Bool(b: bool)
    | Num(n: int)
    | Str(s: string)
    | Arr(items: seq<JsVal>)
    | Obj(fields: seq<(string, JsVal)>)

  /** JavaScript's `!!v`. */
  predicate Truthy(v: JsVal) {
    match v
    case Undefined => false
    case Null => false
    case Bool(b) => b
    case Num(n) => n != 0
    case Str(s) => s != ""
    case Arr(_) => true
    case Obj(_) => true
  }

  predicate Nullish(v: JsVal) {
    v.Undefined? || v.Null?
  }

  function Lookup(fields: seq<(string, JsVal)>, key: string): JsVal {
    if fields == [] then Undefined
    else if fields[0].0 == key then fields[0].1
    else Lookup(fields[1..], key)
  }

  /** The value of the first field named `key`. */
  lemma LookupFirst(fields: seq<(string, JsVal)>, key: string, i: nat)
    requires i < |fields| && fields[i].0 == key
    requires forall j :: 0 <= j < i ==> fields[j].0 != key
    ensures Lookup(fields, key) == fields[i].1
  {
    if i > 0 {
      LookupFirst(fields[1..], key, i - 1);
    }
  }

  /** A key no field carries reads as `undefined`. */
  lemma LookupAbsent(fields: seq<(string, JsVal)>, key: string)
    requires forall j :: 0 <= j < |fields| ==> fields[j].0 != key
    ensures Lookup(fields, key) == Undefined
  {
    if fields != [] {
      LookupAbsent(fields[1..], key);
    }
  }

  /** `v?.key`: a property that is absent, or read from something that is not
      an object, is `undefined`. */
  function Get(v: JsVal, key: string): JsVal {
    if v.Obj? then Lookup(v.fields, key) else Undefined
  }

  /** `v?.k1?.k2…`, one property read per key. */
  function PathGet(v: JsVal, path: seq<string>): JsVal
    decreases |path|
  {
    if path == [] then v else PathGet(Get(v, path[0]), path[1..])
  }

  /** `a || b` */
  function Or(a: JsVal, b: JsVal): JsVal {
    if Truthy(a) then a else b
  }

  /** `a && b` */
  function And(a: JsVal, b: JsVal): JsVal {
    if Truthy(a) then b else a
  }

  /** `Object.values(v)` for the shapes the SDK produces. */
  function Values(v: JsVal): seq<JsVal> {
    match v
    case Obj(fields) => seq(|fields|, i requires 0 <= i < |fields| => fields[i].1)
    case Arr(items) => items
    case Str(s) => seq(|s|, i requires 0 <= i < |s| => Str([s[i]]))
    case _ => []
  }

  /** `v.length` of a non-nullish value. */
  function Length(v: JsVal): JsVal {
    match v
    case Arr(items) => Num(|items|)
    case Str(s) => Num(|s|)
    case Obj(_) => Get(v, "length")
    case _ => Undefined
  }

  /** `v.length > 0`, for a length that is a number. */
  predicate NonEmpty(v: JsVal) {
    var len := Length(v);
    len.Num? && len.n > 0
  }

  /** `v.length === 0` */
  predicate LengthIsZero(v: JsVal) {
    Length(v) == Num(0)
  }

  function DigitChar(d: nat): char
    requires d < 10
  {
    "0123456789"[d]
  }

  function NatToDecimal(n: nat): (s: string)
    ensures |s| >= 1
    decreases n
  {
    if n < 10 then [DigitChar(n)] else NatToDecimal(n / 10) + [DigitChar(n % 10)]
  }

  function IntToDecimal(n: int): string {
    if n < 0 then "-" + NatToDecimal(-n) else NatToDecimal(n)
  }

  /** `String(v)` (and `v.toString()` on a non-nullish value), with the
      default conversions of the language. */
  function ToStr(v: JsVal): string
    decreases v
  {
    match v
    case Undefined => "undefined"
    case Null => "null"
    case Bool(b) => if b then "true" else "false"
    case Num(n) => IntToDecimal(n)
    case Str(s) => s
    case Arr(items) => JoinElements(items)
    case Obj(_) => "[object Object]"
  }

  /** `Array.prototype.join(",")`, which is what `String` does to an array. */
  function JoinElements(items: seq<JsVal>): string
    decreases items, 1
  {
    JoinWith(items, ",")
  }

  /** `items.join(sep)`: nullish elements become empty strings. */
  function JoinWith(items: seq<JsVal>, sep: string): string
    decreases items, 0
  {
    if items == [] then ""
    else
      var head := if Nullish(items[0]) then "" else ToStr(items[0]);
      if |items| == 1 then head else head + sep + JoinWith(items[1..], sep)
  }

  /** `v?.toString()`: undefined for a nullish value, `String(v)` otherwise. */
  function ToStringOpt(v: JsVal): JsVal {
    if Nullish(v) then Undefined else Str(ToStr(v))
  }

  /** `a === b` for the values the adapter compares (names): primitives are
      equal when their values are; two arrays or objects built separately
      are never the same object. */
  predicate StrictEquals(a: JsVal, b: JsVal) {
    a == b && !a.Arr? && !a.Obj?
  }

  // ---------------------------------------------------------------------
  // Substring tests, as used by the error classifiers and the account check.

  /** `s.includes(sub)` */
  predicate Contains(s: string, sub: string)
    decreases |s|
  {
    |sub| <= |s| && (s[..|sub|] == sub || Contains(s[1..], sub))
  }

  /** `sub` occurs in `s` starting at index `i`. */
  predicate OccursAt(s: string, sub: string, i: int) {
    0 <= i <= |s| - |sub| && s[i..i + |sub|] == sub
  }

  /** A text that lacks one of the characters of `sub` has no occurrence of `sub`. */
  lemma MissingCharNoOccurrence(s: string, sub: string, c: char)
    requires c in sub && forall k :: 0 <= k < |s| ==> s[k] != c
    ensures forall i :: !OccursAt(s, sub, i)
  {
    var k :| 0 <= k < |sub| && sub[k] == c;
    forall i
      ensures !OccursAt(s, sub, i)
    {
      if 0 <= i <= |s| - |sub| {
        assert s[i..i + |sub|][k] == s[i + k] != c;
      }
    }
  }

  /** The recursive definition of `Contains` agrees with "occurs somewhere". */
  lemma {:induction false} ContainsAt(s: string, sub: string)
    ensures Contains(s, sub) <==> exists i :: OccursAt(s, sub, i)
    decreases |s|
  {
    if |sub| <= |s| && s[..|sub|] != sub {
      ContainsAt(s[1..], sub);
      if Contains(s, sub) {
        var i :| OccursAt(s[1..], sub, i);
        assert s[i + 1..i + 1 + |sub|] == s[1..][i..i + |sub|];
        assert OccursAt(s, sub, i + 1);
      } else if exists i :: OccursAt(s, sub, i) {
        var i :| OccursAt(s, sub, i);
        assert i != 0;
        assert s[1..][i - 1..i - 1 + |sub|] == s[i..i + |sub|];
        assert OccursAt(s[1..], sub, i - 1);
      }
    } else if |sub| <= |s| {
      assert OccursAt(s, sub, 0);
    } else {
      assert forall i :: !OccursAt(s, sub, i);
    }
  }

  function LowerChar(c: char): char {
    if 'A' <= c <= 'Z' then (c as int + 32) as char else c
  }

  function Lower(s: string): (r: string)
    ensures |r| == |s|
  {
    seq(|s|, i requires 0 <= i < |s| => LowerChar(s[i]))
  }

  /** A case-insensitive regular-expression test for a literal pattern
      (`/pattern/i.test(s)`), or `s.toLowerCase().includes(pattern)` for a
      lower-case pattern. */
  predicate ContainsIgnoringCase(s: string, pattern: string) {
    Contains(Lower(s), Lower(pattern))
  }
}
