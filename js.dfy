/** The JavaScript value semantics the handlers and screens depend on:
    dynamic values, truthiness, `== null`, `typeof ... === "number"`,
    `Number(v)` (with `StringToNumber`), `Number(x.toFixed(2))` and
    `Math.round`. Finite numbers are exact reals; binary floating-point
    rounding is not modelled. */
module Js {
  import opened Wrappers
  import opened Text

  /** A JavaScript number: finite, NaN, or an infinity. */
  datatype Num = Finite(x: real) | NaN | Inf(negative: bool)

  /** A JavaScript value as it arrives in a request body, a route parameter
      or a parsed JSON document ("undefined" stands for an absent key). */
  datatype Value =
    | Undefined
    | Null
    | Bool(b: bool)
    | Number(n: Num)
    | Str(s: string)
    | Array(items: seq<Value>)
    | Object(fields: map<string, Value>)

  function Real(x: real): Value {
    Number(Finite(x))
  }

  /** `Boolean(v)`: `false`, `0`, `NaN`, `""`, `null` and `undefined` are
      the falsy values. */
  predicate Truthy(v: Value) {
    match v
    case Undefined | Null => false
    case Bool(b) => b
    case Number(n) => n.Inf? || (n.Finite? && n.x != 0.0)
    case Str(s) => s != ""
    case Array(_) | Object(_) => true
  }

  /** `v == null` (loose equality): `null` and `undefined` only. */
  predicate IsNullish(v: Value) {
    v.Undefined? || v.Null?
  }

  /** `typeof v === "number"`, which holds of NaN and the infinities too. */
  predicate IsNumber(v: Value) {
    v.Number?
  }

  /** `a || b` on values. */
  function Or(a: Value, b: Value): Value {
    if Truthy(a) then a else b
  }

  /** Reading a property of a plain object; an absent key reads as `undefined`. */
  function Get(m: map<string, Value>, key: string): Value {
    if key in m then m[key] else Undefined
  }

  /** `v?.key`: the property of an object, undefined for anything else. */
  function Prop(v: Value, key: string): Value {
    if v.Object? then Get(v.fields, key) else Undefined
  }

  // ---------------------------------------------------------------------
  // Number(v)
  // ---------------------------------------------------------------------

  /** The value of `c` as a digit in bases up to 16, or -1. */
  function DigitValue(c: char): int {
    if '0' <= c <= '9' then c as int - '0' as int
    else if 'a' <= c <= 'f' then c as int - 'a' as int + 10
    else if 'A' <= c <= 'F' then c as int - 'A' as int + 10
    else -1
  }

  predicate IsDigitIn(c: char, base: nat) {
    0 <= DigitValue(c) < base
  }

  predicate AllDigitsIn(s: string, base: nat) {
    forall i :: 0 <= i < |s| ==> IsDigitIn(s[i], base)
  }

  predicate IsDecimalDigit(c: char) {
    '0' <= c <= '9'
  }

  predicate HasDecimalDigit(s: string) {
    exists i :: 0 <= i < |s| && IsDecimalDigit(s[i])
  }

  /** The number a run of digits in `base` denotes. */
  function DigitsValue(s: string, base: nat): nat
    requires AllDigitsIn(s, base)
  {
    if s == [] then 0
    else DigitsValue(s[..|s| - 1], base) * base + DigitValue(s[|s| - 1])
  }

  function Pow10(k: nat): (p: nat)
    ensures p >= 1
  {
    if k == 0 then 1 else 10 * Pow10(k - 1)
  }

  /** m * 10^e for an integer exponent. */
  function Scale(m: real, e: int): real {
    if e >= 0 then m * Pow10(e) as real else m / Pow10(-e) as real
  }

  /** The index of the first 'e' or 'E' in `s`, or |s|. */
  function ExponentMark(s: string): (k: nat)
    ensures k <= |s|
    ensures forall i :: 0 <= i < k ==> s[i] != 'e' && s[i] != 'E'
    ensures k < |s| ==> s[k] == 'e' || s[k] == 'E'
  {
    if s == [] || s[0] == 'e' || s[0] == 'E' then 0 else 1 + ExponentMark(s[1..])
  }

  /** DecimalDigits [ "." [DecimalDigits] ] or "." DecimalDigits. */
  function Mantissa(s: string): Option<real> {
    var whole := BeforeFirst(s, '.');
    if |whole| == |s| then
      if s != [] && AllDigitsIn(s, 10) then Some(DigitsValue(s, 10) as real) else None
    else
      var frac := s[|whole| + 1..];
      if AllDigitsIn(whole, 10) && AllDigitsIn(frac, 10) && (whole != [] || frac != []) then
        Some(DigitsValue(whole, 10) as real + DigitsValue(frac, 10) as real / Pow10(|frac|) as real)
      else None
  }

  /** SignedInteger of an exponent part. */
  function ExponentValue(s: string): Option<int> {
    if s != [] && (s[0] == '+' || s[0] == '-') then
      var d := s[1..];
      if d != [] && AllDigitsIn(d, 10) then
        Some(if s[0] == '-' then -(DigitsValue(d, 10) as int) else DigitsValue(d, 10))
      else None
    else if s != [] && AllDigitsIn(s, 10) then Some(DigitsValue(s, 10))
    else None
  }

  /** StrUnsignedDecimalLiteral: "Infinity", or a mantissa with an optional
      exponent part. */
  function UnsignedDecimal(s: string): Option<Num> {
    if s == "Infinity" then Some(Inf(false))
    else
      var k := ExponentMark(s);
      var m :- Mantissa(s[..k]);
      if k == |s| then Some(Finite(m))
      else
        var e :- ExponentValue(s[k + 1..]);
        Some(Finite(Scale(m, e)))
  }

  /** A NonDecimalIntegerLiteral ("0x1F", "0o17", "0b101"), or None. */
  function RadixInteger(t: string): Option<Num> {
    if |t| > 2 && t[0] == '0' then
      var base := if t[1] in "xX" then 16 else if t[1] in "oO" then 8 else if t[1] in "bB" then 2 else 0;
      if base != 0 && AllDigitsIn(t[2..], base) then Some(Finite(DigitsValue(t[2..], base) as real))
      else None
    else None
  }

  function Negate(n: Num): Num {
    match n
    case Finite(x) => Finite(-x)
    case NaN => NaN
    case Inf(neg) => Inf(!neg)
  }

  /** `Number(s)` for a string (StringToNumber): surrounding white space is
      ignored, the empty string is 0, anything that is not a numeric literal
      is NaN. */
  function StringToNumber(s: string): Num {
    var t := Trim(s);
    if t == "" then Finite(0.0)
    else if RadixInteger(t).Some? then RadixInteger(t).value
    else if t[0] == '+' then UnsignedDecimal(t[1..]).GetOr(NaN)
    else if t[0] == '-' then Negate(UnsignedDecimal(t[1..]).GetOr(NaN))
    else UnsignedDecimal(t).GetOr(NaN)
  }

  /** `Number(v)`. An array converts through its joined string form: `[]`
      is 0, a one-element array converts its element, longer ones are NaN
      (their text holds a comma); a plain object is NaN. */
  function ToNumber(v: Value): Num {
    match v
    case Undefined => NaN
    case Null => Finite(0.0)
    case Bool(b) => Finite(if b then 1.0 else 0.0)
    case Number(n) => n
    case Str(s) => StringToNumber(s)
    case Array(items) =>
      if |items| == 0 then Finite(0.0)
      else if |items| == 1 then
        (match items[0]
         case Undefined | Null => Finite(0.0)
         case Bool(_) => NaN
         case Object(_) => NaN
         case _ => ToNumber(items[0]))
      else NaN
    case Object(_) => NaN
  }

  // ---------------------------------------------------------------------
  // Arithmetic and comparison on numbers
  // ---------------------------------------------------------------------

  function Add(a: Num, b: Num): Num {
    match (a, b)
    case (Finite(x), Finite(y)) => Finite(x + y)
    case (Inf(p), Inf(q)) => if p == q then a else NaN
    case (Inf(_), Finite(_)) => a
    case (Finite(_), Inf(_)) => b
    case _ => NaN
  }

  /** `n / 2`. */
  function Half(n: Num): Num {
    match n
    case Finite(x) => Finite(x / 2.0)
    case _ => n
  }

  /** `n >= c` for a finite constant `c`; false for NaN. */
  predicate AtLeast(n: Num, c: real) {
    match n
    case Finite(x) => x >= c
    case NaN => false
    case Inf(neg) => !neg
  }

  /** `Math.max(lo, Math.min(hi, n))`: NaN stays NaN. */
  function Clamp(n: Num, lo: real, hi: real): Num
    requires lo <= hi
  {
    match n
    case Finite(x) => Finite(if x < lo then lo else if x > hi then hi else x)
    case NaN => NaN
    case Inf(neg) => Finite(if neg then lo else hi)
  }

  /** `Number(n.toFixed(2))`: round half away from zero to two decimals;
      magnitudes of 10^21 and more are printed, and so kept, unchanged. */
  function Fixed2(n: Num): Num {
    match n
    case Finite(x) =>
      var a := if x < 0.0 then -x else x;
      if a >= Pow10(21) as real then n
      else
        var r := (a * 100.0 + 0.5).Floor as real / 100.0;
        Finite(if x < 0.0 then -r else r)
    case _ => n
  }

  /** `Math.round(n)`: the nearest integer, halves rounded up. */
  function Round(n: Num): Num {
    match n
    case Finite(x) => Finite((x + 0.5).Floor as real)
    case _ => n
  }

  // ---------------------------------------------------------------------
  // Properties
  // ---------------------------------------------------------------------

  /** Every mantissa contains a decimal digit. */
  lemma MantissaHasDigit(s: string)
    requires Mantissa(s).Some?
    ensures HasDecimalDigit(s)
  {
    var whole := BeforeFirst(s, '.');
    if |whole| == |s| {
      assert IsDecimalDigit(s[0]);
    } else if whole != [] {
      assert IsDecimalDigit(s[0]) by { assert s[0] == whole[0]; }
    } else {
      var frac := s[|whole| + 1..];
      assert IsDecimalDigit(s[|whole| + 1]) by { assert frac[0] == s[|whole| + 1]; }
    }
  }

  lemma HasDigitOfPart(s: string, i: nat, j: nat)
    requires i <= j <= |s|
    requires HasDecimalDigit(s[i..j])
    ensures HasDecimalDigit(s)
  {
    var k :| 0 <= k < j - i && IsDecimalDigit(s[i..j][k]);
    assert s[i + k] == s[i..j][k];
  }

  lemma UnsignedFiniteHasDigit(s: string)
    requires UnsignedDecimal(s).Some? && UnsignedDecimal(s).value.Finite?
    ensures HasDecimalDigit(s)
  {
    var k := ExponentMark(s);
    MantissaHasDigit(s[..k]);
    HasDigitOfPart(s, 0, k);
  }

  /** Trimming adds no digit. */
  lemma TrimKeepsNoDigit(s: string)
    requires !HasDecimalDigit(s)
    ensures !HasDecimalDigit(Trim(s))
  {
    var a := TrimStart(s);
    var off := |s| - |a|;
    var t := TrimEnd(a);
    forall k | 0 <= k < |t|
      ensures !IsDecimalDigit(t[k])
    {
      assert t[k] == a[k] == s[off + k];
    }
  }

  /** Text without a decimal digit never converts to a finite number other
      than 0 (the empty or all-blank string). */
  lemma NoDigitNoFiniteValue(s: string)
    requires !HasDecimalDigit(s)
    ensures StringToNumber(s).Finite? ==> StringToNumber(s) == Finite(0.0)
  {
    var t := Trim(s);
    TrimKeepsNoDigit(s);
    if t != "" && RadixInteger(t).None? {
      if t[0] == '+' || t[0] == '-' {
        if UnsignedDecimal(t[1..]).Some? && UnsignedDecimal(t[1..]).value.Finite? {
          UnsignedFiniteHasDigit(t[1..]);
        }
      } else if UnsignedDecimal(t).Some? && UnsignedDecimal(t).value.Finite? {
        UnsignedFiniteHasDigit(t);
      }
    }
  }

  /** Decimal text of a natural number, as `String(n)` prints it. */
  function NatText(n: nat): (s: string)
    ensures s != [] && AllDigitsIn(s, 10)
    ensures DigitsValue(s, 10) == n
    ensures n > 0 ==> s[0] != '0'
  {
    var last := [('0' as int + n % 10) as char];
    if n < 10 then last
    else
      var prefix := NatText(n / 10);
      assert (prefix + last)[..|prefix + last| - 1] == prefix;
      prefix + last
  }

  /** `Number(String(n))` gives back the natural number `n`. */
  lemma {:induction false} NatTextRoundTrip(n: nat)
    ensures StringToNumber(NatText(n)) == Finite(n as real)
  {
    var s := NatText(n);
    assert forall i :: 0 <= i < |s| ==> !IsSpace(s[i]) by {
      forall i | 0 <= i < |s| ensures !IsSpace(s[i]) { assert IsDigitIn(s[i], 10); }
    }
    assert TrimStart(s) == s;
    assert Trim(s) == s;
    assert RadixInteger(s).None?;
    assert s != "Infinity" by { assert IsDigitIn(s[0], 10); }
    assert s[0] != '+' && s[0] != '-' by { assert IsDigitIn(s[0], 10); }
    assert ExponentMark(s) == |s|;
    assert s[..|s|] == s;
    assert |BeforeFirst(s, '.')| == |s|;
  }
}
