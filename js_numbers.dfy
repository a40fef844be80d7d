/** JavaScript's conversion of a value to a number, as a relational
    comparison such as `confidence >= 0.7` applies it. A finite number is
    an exact real; rounding to the nearest double is not modelled. */
module JsNumbers {
  import opened Wrappers
  import opened Text
  import opened JsValues

  /** A number as comparisons see it. */
  datatype Number = NaN | Finite(value: real) | Infinite(negative: bool)

  function Pow10(e: nat): (r: real)
    ensures r >= 1.0
  {
    if e == 0 then 1.0 else 10.0 * Pow10(e - 1)
  }

  /** `m` times ten to the power `e`. */
  function Scale(m: real, e: int): real {
    if e >= 0 then m * Pow10(e) else m / Pow10(-e)
  }

  predicate IsHexDigit(c: char) {
    IsDigit(c) || 'a' <= c <= 'f' || 'A' <= c <= 'F'
  }

  function HexDigitValue(c: char): (d: nat)
    requires IsHexDigit(c)
    ensures d < 16
  {
    if IsDigit(c) then DigitValue(c)
    else if 'a' <= c <= 'f' then (c as int) - ('a' as int) + 10
    else (c as int) - ('A' as int) + 10
  }

  /** The value of `s` as digits in `radix` (2, 8 or 16); `None` when a
      character is not such a digit. The empty text reads as 0. */
  function RadixDigits(s: string, radix: nat): Option<nat> {
    if s == [] then Some(0)
    else
      var last := s[|s| - 1];
      match RadixDigits(s[..|s| - 1], radix)
      case None => None
      case Some(v) =>
        if IsHexDigit(last) && HexDigitValue(last) < radix then Some(v * radix + HexDigitValue(last)) else None
  }

  /** The exponent part of a decimal literal: empty, or `e`/`E`, an
      optional sign and at least one digit. */
  function Exponent(s: string): Option<int> {
    if s == [] then Some(0)
    else if s[0] != 'e' && s[0] != 'E' then None
    else
      var t := s[1..];
      var negative := t != [] && t[0] == '-';
      var d := if t != [] && (t[0] == '-' || t[0] == '+') then t[1..] else t;
      if d == [] || !AllDigits(d) then None
      else Some(if negative then -(DecimalValue(d) as int) else DecimalValue(d))
  }

  lemma {:induction false} AllDigitsAppend(a: string, b: string)
    requires AllDigits(a) && AllDigits(b)
    ensures AllDigits(a + b)
  {
    assert forall i :: 0 <= i < |a + b| ==> (a + b)[i] == if i < |a| then a[i] else b[i - |a|];
  }

  /** An unsigned decimal literal: digits, then an optional `.` and
      digits, with at least one digit in all, then an optional exponent;
      `None` when the text is anything else. */
  function UnsignedDecimal(u: string): Option<real> {
    var a := DigitRun(u, 0);
    var f := if a < |u| && u[a] == '.' then a + 1 else a;
    DecimalOf(u, a, f, DigitRun(u, f))
  }

  /** The literal whose integer digits are `u[..a]`, whose fraction digits
      are `u[f..f + b]` and whose exponent part is the rest. */
  function DecimalOf(u: string, a: nat, f: nat, b: nat): Option<real>
    requires a <= f && f + b <= |u| && AllDigits(u[..a]) && AllDigits(u[f..f + b])
  {
    if a + b == 0 then None
    else
      AllDigitsAppend(u[..a], u[f..f + b]);
      match Exponent(u[f + b..])
      case None => None
      case Some(x) => Some(Scale(DecimalValue(u[..a] + u[f..f + b]) as real, x - b))
  }

  /** The radix a `0x`, `0o` or `0b` prefix names, if `t` has one. */
  function RadixPrefix(t: string): Option<nat> {
    if |t| < 2 || t[0] != '0' then None
    else if t[1] == 'x' || t[1] == 'X' then Some(16)
    else if t[1] == 'o' || t[1] == 'O' then Some(8)
    else if t[1] == 'b' || t[1] == 'B' then Some(2)
    else None
  }

  /** `Number(s)`: white space around the literal is ignored and an empty
      text is 0; a `0x`/`0o`/`0b` literal takes no sign; a decimal literal
      or `Infinity` may carry one; anything else is `NaN`. */
  function StringToNumber(s: string): Number {
    TrimmedToNumber(Trim(s))
  }

  /** The number of a text already trimmed. */
  function TrimmedToNumber(t: string): Number {
    if t == [] then Finite(0.0)
    else match RadixPrefix(t)
      case Some(radix) =>
        var digits := t[2..];
        if digits == [] then NaN
        else (match RadixDigits(digits, radix)
          case None => NaN
          case Some(v) => Finite(v as real))
      case None =>
        var negative := t[0] == '-';
        var u := if t[0] == '-' || t[0] == '+' then t[1..] else t;
        if u == "Infinity" then Infinite(negative)
        else match UnsignedDecimal(u)
          case None => NaN
          case Some(v) => Finite(if negative then -v else v)
  }

  /** `ToNumber(v)` of a value compared with a number. An object becomes
      "[object Object]", which is `NaN`; an array becomes its joined
      elements. */
  function ToNumber(v: Json): Number {
    match v
    case Undefined => NaN
    case Null => Finite(0.0)
    case Bool(b) => Finite(if b then 1.0 else 0.0)
    case Num(n) => Finite(n)
    case Str(s) => StringToNumber(s)
    case Obj(_) => NaN
    case Arr(_) => ArrayToNumber(v)
  }

  /** An array's joined text as a number: the empty array joins to "" (0);
      two or more elements join with a comma, which no numeric literal
      holds (`NaN`); one element joins to its own text, which for a number
      reads back as that number, for `null` and `undefined` is "" and for
      a boolean or an object is not numeric. */
  function ArrayToNumber(v: Json): Number
    requires v.Arr?
    decreases v
  {
    if |v.items| == 0 then Finite(0.0)
    else if |v.items| > 1 then NaN
    else match v.items[0]
      case Undefined => Finite(0.0)
      case Null => Finite(0.0)
      case Bool(_) => NaN
      case Num(n) => Finite(n)
      case Str(s) => StringToNumber(s)
      case Obj(_) => NaN
      case Arr(_) => ArrayToNumber(v.items[0])
  }

  /** `v >= x` against a number `x`. */
  predicate AtLeast(v: Json, x: real) {
    match ToNumber(v)
    case NaN => false
    case Finite(r) => r >= x
    case Infinite(negative) => !negative
  }

  /** `v > x` against a number `x`. */
  predicate Above(v: Json, x: real) {
    match ToNumber(v)
    case NaN => false
    case Finite(r) => r > x
    case Infinite(negative) => !negative
  }

  // ---------------------------------------------------------------------
  // Properties

  /** White space around a numeric text does not change its number. */
  lemma {:induction false} StringToNumberPadding(front: string, s: string, back: string)
    requires AllSpace(front) && AllSpace(back)
    ensures StringToNumber(front + s + back) == StringToNumber(s)
  {
    TrimPadding(front, s, back);
  }

  /** A text of white space only is 0. */
  lemma {:induction false} BlankIsZero(s: string)
    requires AllSpace(s)
    ensures StringToNumber(s) == Finite(0.0)
  {
    StringToNumberPadding(s, [], []);
    assert s + [] + [] == s;
  }

  /** A trimmed text that starts with a digit and has no radix prefix is
      read as an unsigned decimal literal. */
  lemma {:induction false} UnsignedText(u: string)
    requires u != [] && IsDigit(u[0]) && !IsSpace(u[|u| - 1]) && RadixPrefix(u).None?
    ensures StringToNumber(u) == match UnsignedDecimal(u) case None => NaN case Some(v) => Finite(v)
  {
    TrimNoSpace(u);
    assert u != "Infinity" by { assert u[0] != 'I'; }
  }

  /** `d1.d2` as an unsigned decimal literal. */
  lemma {:induction false} UnsignedFraction(d1: string, d2: string)
    requires d1 != [] && AllDigits(d1) && AllDigits(d2)
    ensures AllDigits(d1 + d2)
    ensures UnsignedDecimal(d1 + "." + d2) == Some(Scale(DecimalValue(d1 + d2) as real, -|d2|))
  {
    AllDigitsAppend(d1, d2);
    var u := d1 + "." + d2;
    var a := |d1|;
    FractionRuns(d1, d2);
    FractionParts(d1, d2);
    assert AllDigits(u[..a]) && AllDigits(u[a + 1..a + 1 + |d2|]);
    DecimalOfWhole(u, a, a + 1, |d2|, d1 + d2);
  }

  /** A literal with no exponent part is its digits scaled down by the
      number of fraction digits. */
  lemma {:induction false} DecimalOfWhole(u: string, a: nat, f: nat, b: nat, digits: string)
    requires a <= f && f + b == |u| && AllDigits(u[..a]) && AllDigits(u[f..f + b])
    requires u[..a] + u[f..f + b] == digits && a + b > 0
    ensures AllDigits(digits)
    ensures DecimalOf(u, a, f, b) == Some(Scale(DecimalValue(digits) as real, -(b as int)))
  {
    AllDigitsAppend(u[..a], u[f..f + b]);
    assert u[f + b..] == [];
  }

  /** The digit runs of `d1.d2`: the integer part, then the fraction part. */
  lemma {:induction false} FractionRuns(d1: string, d2: string)
    requires AllDigits(d1) && AllDigits(d2)
    ensures |d1| < |d1 + "." + d2| && (d1 + "." + d2)[|d1|] == '.'
    ensures DigitRun(d1 + "." + d2, 0) == |d1|
    ensures DigitRun(d1 + "." + d2, |d1| + 1) == |d2|
  {
    FractionDigits(d1, d2);
    var u := d1 + "." + d2;
    DigitRunWithin(u, 0, |d1|);
    DigitRunWithin(u, |d1| + 1, |u|);
  }

  /** Where the digits of `d1.d2` are. */
  lemma {:induction false} FractionDigits(d1: string, d2: string)
    requires AllDigits(d1) && AllDigits(d2)
    ensures |d1 + "." + d2| == |d1| + 1 + |d2| && (d1 + "." + d2)[|d1|] == '.'
    ensures forall k :: 0 <= k < |d1| ==> IsDigit((d1 + "." + d2)[k])
    ensures forall k :: |d1| < k < |d1 + "." + d2| ==> IsDigit((d1 + "." + d2)[k])
  {
    var u := d1 + "." + d2;
    forall k | 0 <= k < |d1| ensures IsDigit(u[k]) {
      assert u[k] == d1[k];
    }
    forall k | |d1| < k < |u| ensures IsDigit(u[k]) {
      assert u[k] == d2[k - |d1| - 1];
    }
  }

  /** The pieces of `d1.d2` that make up its digits and its exponent. */
  lemma {:induction false} FractionParts(d1: string, d2: string)
    ensures (d1 + "." + d2)[..|d1|] == d1
    ensures (d1 + "." + d2)[|d1| + 1..|d1| + 1 + |d2|] == d2
  {
  }

  /** A run of digits as an unsigned decimal literal. */
  lemma {:induction false} UnsignedInteger(d: string)
    requires d != [] && AllDigits(d)
    ensures UnsignedDecimal(d) == Some(DecimalValue(d) as real)
  {
    DigitRunTail(d, 0, d);
    assert d[..|d|] == d && d[|d|..] == [] && d[|d|..|d|] == [] && d + [] == d;
    assert Scale(DecimalValue(d) as real, 0) == DecimalValue(d) as real;
  }

  /** The digits of a decimal fraction `d1.d2` read as their value
      divided by ten to the number of fraction digits. */
  lemma {:induction false} DecimalFraction(d1: string, d2: string)
    requires d1 != [] && AllDigits(d1) && AllDigits(d2)
    ensures AllDigits(d1 + d2)
    ensures StringToNumber(d1 + "." + d2) == Finite(DecimalValue(d1 + d2) as real / Pow10(|d2|))
  {
    var u := d1 + "." + d2;
    assert u[0] == d1[0];
    assert u[|u| - 1] == if |d2| > 0 then d2[|d2| - 1] else '.';
    assert RadixPrefix(u).None? by {
      if |u| >= 2 {
        assert u[1] == if |d1| > 1 then d1[1] else '.';
      }
    }
    UnsignedFraction(d1, d2);
    var m := DecimalValue(d1 + d2) as real;
    assert Scale(m, -|d2|) == m / Pow10(|d2|);
    UnsignedText(u);
  }

  /** The digit run over a text's digit tail is the whole tail. */
  lemma {:induction false} DigitRunTail(u: string, i: nat, d: string)
    requires i <= |u| && u[i..] == d && AllDigits(d)
    ensures DigitRun(u, i) == |d|
  {
    forall k | i <= k < |u| ensures IsDigit(u[k]) {
      assert u[k] == d[k - i];
    }
    DigitRunWithin(u, i, |u|);
  }

  /** A natural number's decimal text reads back as that number. */
  lemma {:induction false} NatTextRoundTrip(n: nat)
    ensures StringToNumber(NatToString(n)) == Finite(n as real)
  {
    var u := NatToString(n);
    assert RadixPrefix(u).None? by {
      if |u| >= 2 {
        assert IsDigit(u[1]);
      }
    }
    UnsignedInteger(u);
    UnsignedText(u);
    DecimalOfNatToString(n);
  }

  /** A one-element array compares as its element when that is a number,
      a string, `null` or an array; a boolean or an object in it is `NaN`. */
  lemma {:induction false} SingletonArray(x: Json)
    ensures x.Num? || x.Str? || x.Null? || x.Arr? ==> ToNumber(Arr([x])) == ToNumber(x)
    ensures x.Bool? || x.Obj? ==> ToNumber(Arr([x])) == NaN
  {
  }

  /** An array of two or more elements is `NaN`. */
  lemma {:induction false} LongArrayNaN(items: seq<Json>)
    requires |items| >= 2
    ensures ToNumber(Arr(items)) == NaN
  {
  }
}
