/**
 * The slice of JavaScript semantics the client depends on: values, truthiness,
 * property lookup, string conversion, decimal rendering of integers and the
 * whitespace / case helpers used on option strings and content types.
 */
module Js {

  datatype Option<+T> = None | Some(value: T)

  /**
   * A JavaScript value as far as the client inspects it. Numbers are integers.
   * Objects handed in by a caller (options, forms) live in the caller's heap and
   * are referred to by address, so that a write into one is seen by every holder
   * of the reference; objects produced by JSON.parse are plain, unaliased values.
   */
  datatype Value =
    | Undefined
    | Null
    | Bool(b: bool)
    | Num(n: int)
    | Str(s: string)
    | Arr(items: seq<Value>)
    | Obj(fields: map<string, Value>)
    | Ref(addr: nat)
    | Fn(id: nat)

  /** The objects callers have created, indexed by address. */
  type Heap = seq<map<string, Value>>

  datatype ThrowKind = TypeError | SyntaxError

  /**
   * How a synchronous step of the client ends: normally, by throwing, or by
   * handing a value to a library this model does not describe (moment on a
   * non-integer date, parseInt on a non-integer limit, a non-object request body).
   */
  datatype Completion = Normal | Threw(kind: ThrowKind) | OutsideModel

  /** `if (v)` */
  predicate Truthy(v: Value) {
    match v
    case Undefined => false
    case Null => false
    case Bool(b) => b
    case Num(n) => n != 0
    case Str(s) => s != ""
    case _ => true
  }

  /** `v == null`, loose equality: true of undefined and null only. */
  predicate Nullish(v: Value) {
    v.Undefined? || v.Null?
  }

  /** `v[key]` on a value that is not a heap reference. */
  function Field(v: Value, key: string): (r: Value)
    ensures !v.Obj? ==> r == Undefined
    ensures v.Obj? && key !in v.fields ==> r == Undefined
  {
    if v.Obj? && key in v.fields then v.fields[key] else Undefined
  }

  predicate Allocated(heap: Heap, v: Value) {
    v.Ref? ==> v.addr < |heap|
  }

  /** A value a caller may pass: its objects are heap references. */
  predicate CallerValue(heap: Heap, v: Value) {
    Allocated(heap, v) && !v.Obj?
  }

  /** `v[key]`, following a heap reference. */
  function Get(heap: Heap, v: Value, key: string): Value
    requires Allocated(heap, v)
  {
    if v.Ref? then (if key in heap[v.addr] then heap[v.addr][key] else Undefined)
    else Field(v, key)
  }

  // ---------------------------------------------------------------------------
  // Decimal rendering

  predicate IsDigit(c: char) {
    '0' <= c <= '9'
  }

  predicate AllDigits(s: string) {
    forall i :: 0 <= i < |s| ==> IsDigit(s[i])
  }

  function DigitChar(d: nat): (c: char)
    requires d < 10
    ensures IsDigit(c) && (c as int) - ('0' as int) == d
  {
    "0123456789"[d]
  }

  /** The decimal text of n, as `String(n)` renders a non-negative integer. */
  function NatToDecimal(n: nat): (r: string)
    ensures |r| > 0 && AllDigits(r)
    ensures r[0] == '0' ==> n == 0
  {
    if n < 10 then [DigitChar(n)] else NatToDecimal(n / 10) + [DigitChar(n % 10)]
  }

  /** The number a string of decimal digits denotes. */
  function DecimalValue(s: string): nat
    requires AllDigits(s)
  {
    if s == [] then 0
    else DecimalValue(s[..|s| - 1]) * 10 + ((s[|s| - 1] as int) - ('0' as int))
  }

  lemma {:induction false} DecimalRoundTrip(n: nat)
    ensures DecimalValue(NatToDecimal(n)) == n
  {
    if n >= 10 {
      var r := NatToDecimal(n);
      assert r[..|r| - 1] == NatToDecimal(n / 10);
      DecimalRoundTrip(n / 10);
    }
  }

  /** `String(n)` for an integer. */
  function IntToDecimal(n: int): (r: string)
    ensures |r| > 0
  {
    if n < 0 then "-" + NatToDecimal(-n) else NatToDecimal(n)
  }

  // ---------------------------------------------------------------------------
  // String conversion

  /** `a.join(',')` on already converted parts. */
  function JoinWithCommas(parts: seq<string>): string {
    if |parts| == 0 then ""
    else if |parts| == 1 then parts[0]
    else parts[0] + "," + JoinWithCommas(parts[1..])
  }

  /**
   * `String(v)`. Array elements that are undefined or null become empty, as in
   * `Array.prototype.join`. A function's source text is not modelled.
   */
  function ToJsString(v: Value): string
    decreases v
  {
    match v
    case Undefined => "undefined"
    case Null => "null"
    case Bool(b) => if b then "true" else "false"
    case Num(n) => IntToDecimal(n)
    case Str(s) => s
    case Arr(items) =>
      JoinWithCommas(seq(|items|, i requires 0 <= i < |items| =>
        if Nullish(items[i]) then "" else ToJsString(items[i])))
    case Obj(_) => "[object Object]"
    case Ref(_) => "[object Object]"
    case Fn(_) => "[function]"
  }

  // ---------------------------------------------------------------------------
  // Whitespace and case

  /** The characters JavaScript's `\s` class and `String.prototype.trim` treat as white space. */
  predicate IsJsSpace(c: char) {
    var k := c as int;
    (9 <= k <= 13) || k == 32 || k == 0xA0 || k == 0x1680 || (0x2000 <= k <= 0x200A)
    || k == 0x2028 || k == 0x2029 || k == 0x202F || k == 0x205F || k == 0x3000 || k == 0xFEFF
  }

  /** `s.replace(/\s/g, '')` */
  function StripSpaces(s: string): (r: string)
    ensures |r| <= |s|
    ensures forall i :: 0 <= i < |r| ==> !IsJsSpace(r[i])
  {
    if s == [] then []
    else if IsJsSpace(s[0]) then StripSpaces(s[1..])
    else [s[0]] + StripSpaces(s[1..])
  }

  function LowerChar(c: char): char {
    if 'A' <= c <= 'Z' then ((c as int) + 32) as char else c
  }

  /** `s.toLowerCase()` on the ASCII letters. */
  function LowerAscii(s: string): (r: string)
    ensures |r| == |s|
    ensures forall i :: 0 <= i < |s| ==> r[i] == LowerChar(s[i])
  {
    if s == [] then [] else [LowerChar(s[0])] + LowerAscii(s[1..])
  }

  function TrimStart(s: string): string {
    if s != [] && IsJsSpace(s[0]) then TrimStart(s[1..]) else s
  }

  function TrimEnd(s: string): string {
    if s != [] && IsJsSpace(s[|s| - 1]) then TrimEnd(s[..|s| - 1]) else s
  }

  /** `s.trim()` */
  function Trim(s: string): string {
    TrimEnd(TrimStart(s))
  }

  /** `s.indexOf(sub) !== -1` */
  predicate Contains(s: string, sub: string) {
    sub <= s || (s != [] && Contains(s[1..], sub))
  }

  // ---------------------------------------------------------------------------
  // Properties of the string helpers

  lemma {:induction false} StripSpacesIdempotent(s: string)
    ensures StripSpaces(StripSpaces(s)) == StripSpaces(s)
  {
    if s != [] {
      StripSpacesIdempotent(s[1..]);
      if !IsJsSpace(s[0]) {
        assert ([s[0]] + StripSpaces(s[1..]))[1..] == StripSpaces(s[1..]);
      }
    }
  }

  lemma {:induction false} LowerAsciiIdempotent(s: string)
    ensures LowerAscii(LowerAscii(s)) == LowerAscii(s)
  {
    var l := LowerAscii(s);
    var ll := LowerAscii(l);
    assert |ll| == |l|;
    forall i | 0 <= i < |l| ensures ll[i] == l[i] {
    }
  }

  /** Lower-casing neither creates nor removes white space, so the two steps commute. */
  lemma {:induction false} StripLowerCommute(s: string)
    ensures StripSpaces(LowerAscii(s)) == LowerAscii(StripSpaces(s))
  {
    if s != [] {
      StripLowerCommute(s[1..]);
      assert LowerAscii(s)[1..] == LowerAscii(s[1..]);
      assert IsJsSpace(LowerChar(s[0])) == IsJsSpace(s[0]);
      if !IsJsSpace(s[0]) {
        assert LowerAscii([s[0]] + StripSpaces(s[1..]))[1..] == LowerAscii(StripSpaces(s[1..]));
      }
    }
  }

  /** `s.replace(/\s/g, '').toLowerCase()` applied a second time changes nothing. */
  lemma NormalizeTextIdempotent(s: string)
    ensures LowerAscii(StripSpaces(LowerAscii(StripSpaces(s)))) == LowerAscii(StripSpaces(s))
  {
    StripLowerCommute(StripSpaces(s));
    StripSpacesIdempotent(s);
    LowerAsciiIdempotent(StripSpaces(s));
  }
}
