/**
 * The parts of PHP's value semantics that the ViaBill client depends on:
 * truthiness (`empty`, `if ($x)`), conversion to string, numeric strings,
 * loose comparison (`==`) against a literal, and the string built-ins
 * `trim`, `strtoupper`, `str_replace`, `rtrim`/`ltrim` with a character
 * and `implode`, all on `seq<char>`.
 */
module Php {
  import opened Wrappers

  /**
   * A PHP value. Arrays are associative arrays whose keys are kept as
   * strings (an integer key is its decimal text); their order is not modelled.
   * A float is held as an exact real.
   */
  datatype Value =
    | Null
    | Bool(b: bool)
    | Int(i: int)
    | Float(f: real)
    | Str(s: string)
    | Arr(entries: map<string, Value>)

  /** The result of a PHP call that either returns a value or throws. */
  datatype Outcome<+T> = Returns(value: T) | Throws(message: string)

  /** PHP's conversion to boolean; `empty($v)` is its negation. */
  predicate Truthy(v: Value) {
    match v
    case Null => false
    case Bool(b) => b
    case Int(i) => i != 0
    case Float(f) => f != 0.0
    case Str(s) => s != "" && s != "0"
    case Arr(m) => |m| > 0
  }

  /** `$v[$key] ?? NULL`: a missing key, or a value that is not an array, gives NULL. */
  function Lookup(v: Value, key: string): Value {
    if v.Arr? && key in v.entries then v.entries[key] else Null
  }

  // ---------------------------------------------------------------------
  // Decimal text

  predicate IsDigit(c: char) {
    '0' <= c <= '9'
  }

  predicate AllDigits(s: string) {
    forall i :: 0 <= i < |s| ==> IsDigit(s[i])
  }

  function DigitChar(d: nat): (c: char)
    requires d < 10
    ensures IsDigit(c) && c as int - '0' as int == d
  {
    ('0' as int + d) as char
  }

  /** The decimal text of a natural number, without leading zeros. */
  function NatToStr(n: nat): (s: string)
    decreases n
    ensures |s| > 0 && AllDigits(s)
  {
    if n < 10 then [DigitChar(n)] else NatToStr(n / 10) + [DigitChar(n % 10)]
  }

  /** The number a string of decimal digits denotes. */
  function DigitsValue(s: string): nat
    requires AllDigits(s)
  {
    if s == [] then 0 else DigitsValue(s[..|s| - 1]) * 10 + (s[|s| - 1] as int - '0' as int)
  }

  lemma {:induction false} NatToStrRoundTrip(n: nat)
    ensures DigitsValue(NatToStr(n)) == n
    decreases n
  {
    if n >= 10 {
      var a := NatToStr(n / 10);
      var s := a + [DigitChar(n % 10)];
      assert s[..|s| - 1] == a;
      NatToStrRoundTrip(n / 10);
    }
  }

  /** PHP's conversion of an integer to string. */
  function IntToStr(i: int): string {
    if i < 0 then "-" + NatToStr(-i) else NatToStr(i)
  }

  function Pow10(n: nat): (p: nat)
    ensures p >= 1
  {
    if n == 0 then 1 else 10 * Pow10(n - 1)
  }

  function IndexOf(s: string, c: char): (r: Option<nat>)
    ensures r.Some? ==> r.value < |s| && s[r.value] == c && c !in s[..r.value]
    ensures r.None? ==> c !in s
  {
    if s == [] then None
    else if s[0] == c then Some(0)
    else match IndexOf(s[1..], c)
      case None => None
      case Some(k) => assert s[1..][..k] == s[1..k + 1]; Some(k + 1)
  }

  /** Digits with an optional fraction: `12`, `12.5`, `12.`, `.5`. */
  function UnsignedValue(s: string): Option<real> {
    match IndexOf(s, '.')
    case None => if s != [] && AllDigits(s) then Some(DigitsValue(s) as real) else None
    case Some(k) => PartsValue(s[..k], s[k + 1..])
  }

  /** The value of `whole.frac`, given the text either side of the point. */
  function PartsValue(whole: string, frac: string): Option<real> {
    if AllDigits(whole) && AllDigits(frac) && |whole| + |frac| > 0
    then Some(DigitsValue(whole) as real + DigitsValue(frac) as real / Pow10(|frac|) as real)
    else None
  }

  /**
   * The value of a numeric string (`is_numeric`): an optional sign followed by
   * decimal digits with an optional fraction. PHP also admits surrounding
   * whitespace and an exponent; those forms are not modelled.
   */
  function NumericValue(s: string): Option<real> {
    if |s| > 0 && (s[0] == '-' || s[0] == '+') then
      match UnsignedValue(s[1..])
      case Some(x) => Some(if s[0] == '-' then -x else x)
      case None => None
    else UnsignedValue(s)
  }

  predicate IsNumericString(s: string) {
    NumericValue(s).Some?
  }

  /** `is_numeric($v)` together with the number it denotes. */
  function NumberOf(v: Value): Option<real> {
    match v
    case Int(i) => Some(i as real)
    case Float(f) => Some(f)
    case Str(s) => NumericValue(s)
    case _ => None
  }

  /** Rounding to hundredths, half away from zero (PHP's `round` mode). */
  function RoundToCents(x: real): int {
    if x >= 0.0 then (x * 100.0 + 0.5).Floor else -((-x * 100.0 + 0.5).Floor)
  }

  function TwoDigits(r: nat): (s: string)
    requires r < 100
    ensures |s| == 2 && AllDigits(s)
  {
    [DigitChar(r / 10), DigitChar(r % 10)]
  }

  /** A number of hundredths as decimal text with two fraction digits. */
  function CentsText(c: int): string {
    var m := if c < 0 then -c else c;
    (if c < 0 then "-" else "") + NatToStr(m / 100) + "." + TwoDigits(m % 100)
  }

  lemma TwoDigitsValue(r: nat)
    requires r < 100
    ensures DigitsValue(TwoDigits(r)) == r
  {
    var s := TwoDigits(r);
    var d := [DigitChar(r / 10)];
    assert s[..|s| - 1] == d;
    assert d[..|d| - 1] == [];
    assert DigitsValue(d) == r / 10;
  }

  lemma {:induction false} IndexOfAfterDigits(whole: string, rest: string)
    requires AllDigits(whole)
    ensures IndexOf(whole + "." + rest, '.') == Some(|whole|)
    decreases |whole|
  {
    var u := whole + "." + rest;
    if whole != [] {
      assert u[0] == whole[0] && IsDigit(whole[0]);
      assert u[1..] == whole[1..] + "." + rest;
      IndexOfAfterDigits(whole[1..], rest);
    }
  }

  lemma UnsignedOfParts(whole: string, frac: string)
    requires AllDigits(whole) && AllDigits(frac) && |whole| > 0
    ensures UnsignedValue(whole + "." + frac) == PartsValue(whole, frac)
  {
    var u := whole + "." + frac;
    IndexOfAfterDigits(whole, frac);
    var k := |whole|;
    assert u[..k] == whole;
    assert u[k + 1..] == frac;
  }

  lemma CentsSplit(m: nat)
    ensures (m / 100) as real + (m % 100) as real / 100.0 == m as real / 100.0
  {
    assert m == (m / 100) * 100 + m % 100;
  }

  lemma UnsignedCents(m: nat)
    ensures UnsignedValue(NatToStr(m / 100) + "." + TwoDigits(m % 100)) == Some(m as real / 100.0)
  {
    var whole, frac := NatToStr(m / 100), TwoDigits(m % 100);
    NatToStrRoundTrip(m / 100);
    TwoDigitsValue(m % 100);
    assert Pow10(2) == 100;
    UnsignedOfParts(whole, frac);
    assert PartsValue(whole, frac) == Some((m / 100) as real + (m % 100) as real / 100.0);
    CentsSplit(m);
  }

  /** Two-decimal text reads back as the number of hundredths it was made from. */
  lemma CentsTextRoundTrip(c: int)
    ensures NumericValue(CentsText(c)) == Some(c as real / 100.0)
  {
    var m := if c < 0 then -c else c;
    var whole := NatToStr(m / 100);
    var u := whole + "." + TwoDigits(m % 100);
    UnsignedCents(m);
    if c < 0 {
      assert CentsText(c) == "-" + u;
      NegatedText(u, m as real / 100.0);
    } else {
      assert CentsText(c) == u;
      assert u[0] == whole[0];
      PlainText(u);
    }
  }

  /** A leading minus negates an unsigned number. */
  lemma NegatedText(u: string, x: real)
    requires UnsignedValue(u) == Some(x)
    ensures NumericValue("-" + u) == Some(-x)
  {
    var t := "-" + u;
    assert t[0] == '-' && t[1..] == u;
  }

  /** Text that starts with a digit is read without a sign. */
  lemma PlainText(u: string)
    requires |u| > 0 && IsDigit(u[0])
    ensures NumericValue(u) == UnsignedValue(u)
  {
  }

  /** A float with at most two decimals and a magnitude below 10^15, which PHP prints in plain decimal. */
  predicate IsPlainCents(f: real) {
    RoundToCents(f) as real / 100.0 == f && -1000000000000000.0 < f < 1000000000000000.0
  }

  /** A symbol of PHP's text of a finite float: a digit, the point, a sign or the exponent mark. */
  datatype FloatSymbol = Digit(d: nat) | Point | Minus | Plus | Exponent

  function SymbolChar(x: FloatSymbol): (c: char)
    ensures !('a' <= c <= 'z')
  {
    match x
    case Digit(d) => "0123456789"[d % 10]
    case Point => '.'
    case Minus => '-'
    case Plus => '+'
    case Exponent => 'E'
  }

  function SymbolsText(xs: seq<FloatSymbol>): string {
    seq(|xs|, i requires 0 <= i < |xs| => SymbolChar(xs[i]))
  }

  /**
   * PHP's text of any other float (more decimals, or an exponent form such
   * as `1.0E+15`). Its symbols are left unspecified; only its alphabet is
   * known.
   */
  const OtherFloatSymbols: real -> seq<FloatSymbol>

  function OtherFloatText(f: real): string {
    SymbolsText(OtherFloatSymbols(f))
  }

  /**
   * PHP 8's conversion of a float to string: for a float with at most two
   * decimals below 10^15 in magnitude, the shortest decimal text (no
   * trailing zeros, no trailing point); any other float's text is
   * `OtherFloatText`.
   */
  function FloatToStr(f: real): (r: string)
    ensures !IsPlainCents(f) ==> r == OtherFloatText(f)
  {
    if IsPlainCents(f) then ShortCentsText(CentsText(RoundToCents(f))) else OtherFloatText(f)
  }

  /** Two-decimal text without a `.00` or a final `0` of the fraction. */
  function ShortCentsText(t: string): string {
    if |t| >= 3 && t[|t| - 3..] == ".00" then t[..|t| - 3]
    else if |t| >= 1 && t[|t| - 1] == '0' then t[..|t| - 1]
    else t
  }

  /** Whole floats print without a fraction, and other cents without trailing zeros. */
  lemma FloatTextExamples()
    ensures FloatToStr(1.0) == "1" && FloatToStr(12.5) == "12.5" && FloatToStr(0.25) == "0.25"
    ensures FloatToStr(-3.1) == "-3.1"
  {
    PlainFloatText(1.0, 100, "1.00", "1");
    PlainFloatText(12.5, 1250, "12.50", "12.5");
    PlainFloatText(0.25, 25, "0.25", "0.25");
    PlainFloatText(-3.1, -310, "-3.10", "-3.1");
  }

  /** Rounding a number of hundredths back to cents gives that number. */
  lemma RoundExact(c: int)
    ensures RoundToCents(c as real / 100.0) == c
  {
    var x := c as real / 100.0;
    assert x * 100.0 == c as real;
    if x >= 0.0 {
      assert (c as real + 0.5).Floor == c;
    } else {
      assert -x * 100.0 == (-c) as real;
      assert ((-c) as real + 0.5).Floor == -c;
    }
  }

  lemma PlainFloatText(f: real, c: int, t: string, r: string)
    requires c as real / 100.0 == f && -100000000000000000 < c < 100000000000000000
    requires CentsText(c) == t && ShortCentsText(t) == r
    ensures FloatToStr(f) == r
  {
    RoundExact(c);
    assert RoundToCents(f) == c;
    assert IsPlainCents(f);
  }

  /** PHP's `(string)` conversion. */
  function ToStr(v: Value): string {
    match v
    case Null => ""
    case Bool(b) => if b then "1" else ""
    case Int(i) => IntToStr(i)
    case Float(f) => FloatToStr(f)
    case Str(s) => s
    case Arr(_) => "Array"  // PHP's text of an array; `str_replace` raises a TypeError instead
  }

  /**
   * PHP 8 loose comparison `$v == 'lit'`: two numeric strings compare as
   * numbers, a number against a non-numeric string compares as strings, and a
   * boolean or NULL is compared through its truthiness or as ''.
   */
  predicate LooseEqualsString(v: Value, lit: string) {
    match v
    case Null => lit == ""
    case Bool(b) => b == Truthy(Str(lit))
    case Int(_) =>
      if IsNumericString(lit) then NumberOf(v) == NumericValue(lit) else ToStr(v) == lit
    case Float(_) =>
      if IsNumericString(lit) then NumberOf(v) == NumericValue(lit) else ToStr(v) == lit
    case Str(s) =>
      if IsNumericString(s) && IsNumericString(lit) then NumericValue(s) == NumericValue(lit) else s == lit
    case Arr(_) => false
  }

  /** PHP 8 loose comparison `$v == n` against an integer literal. */
  predicate LooseEqualsInt(v: Value, n: int) {
    match v
    case Null => n == 0
    case Bool(b) => b == (n != 0)
    case Int(i) => i == n
    case Float(f) => f == n as real
    case Str(s) => if IsNumericString(s) then NumericValue(s) == Some(n as real) else s == IntToStr(n)
    case Arr(_) => false
  }

  // ---------------------------------------------------------------------
  // String built-ins

  /** The characters PHP's `trim` strips by default: space, \t, \n, \r, NUL and \x0B. */
  predicate IsTrimChar(c: char) {
    c == ' ' || c == '\t' || c == '\n' || c == '\r' || c == 0 as char || c == 11 as char
  }

  function TrimLeft(s: string): (r: string)
    ensures |r| <= |s| && r == s[|s| - |r|..]
    ensures r == [] || !IsTrimChar(r[0])
  {
    if s != [] && IsTrimChar(s[0]) then TrimLeft(s[1..]) else s
  }

  function TrimRight(s: string): (r: string)
    ensures |r| <= |s| && r == s[..|r|]
    ensures r == [] || !IsTrimChar(r[|r| - 1])
  {
    if s != [] && IsTrimChar(s[|s| - 1]) then TrimRight(s[..|s| - 1]) else s
  }

  /** PHP's `trim` with its default character list. */
  function Trim(s: string): string {
    TrimRight(TrimLeft(s))
  }

  function UpperChar(c: char): char {
    if 'a' <= c <= 'z' then (c as int - 32) as char else c
  }

  /** PHP's `strtoupper`: ASCII letters only. */
  function ToUpper(s: string): (r: string)
    ensures |r| == |s|
  {
    if s == [] then [] else [UpperChar(s[0])] + ToUpper(s[1..])
  }

  /** `rtrim($s, $c)` for a single character. */
  function RTrimChar(s: string, c: char): (r: string)
    ensures |r| <= |s| && r == s[..|r|]
    ensures r == [] || r[|r| - 1] != c
    ensures forall i :: |r| <= i < |s| ==> s[i] == c
  {
    if s != [] && s[|s| - 1] == c then RTrimChar(s[..|s| - 1], c) else s
  }

  /** `ltrim($s, $c)` for a single character. */
  function LTrimChar(s: string, c: char): (r: string)
    ensures |r| <= |s| && r == s[|s| - |r|..]
    ensures r == [] || r[0] != c
    ensures forall i :: 0 <= i < |s| - |r| ==> s[i] == c
  {
    if s != [] && s[0] == c then LTrimChar(s[1..], c) else s
  }

  /** `str_replace($pat, $rep, $s)`: left to right, non-overlapping, replacements not rescanned. */
  function ReplaceAll(s: string, pat: string, rep: string): string
    requires |pat| > 0
    decreases |s|
  {
    if |s| < |pat| then s
    else if s[..|pat|] == pat then rep + ReplaceAll(s[|pat|..], pat, rep)
    else [s[0]] + ReplaceAll(s[1..], pat, rep)
  }

  lemma {:induction false} ReplaceAllAbsent(s: string, pat: string, rep: string)
    requires |pat| > 0 && pat[0] !in s
    ensures ReplaceAll(s, pat, rep) == s
    decreases |s|
  {
    if |s| >= |pat| {
      assert s[..|pat|][0] == s[0];
      assert s[..|pat|] != pat;
      assert s[1..] == s[1..] && (forall c :: c in s[1..] ==> c in s);
      ReplaceAllAbsent(s[1..], pat, rep);
    }
  }

  lemma {:induction false} ReplaceAllSkip(a: string, t: string, pat: string, rep: string)
    requires |pat| > 0 && pat[0] !in a
    ensures ReplaceAll(a + t, pat, rep) == a + ReplaceAll(t, pat, rep)
    decreases |a|
  {
    if a != [] {
      var s := a + t;
      assert s[0] == a[0];
      assert s[1..] == a[1..] + t;
      assert forall c :: c in a[1..] ==> c in a;
      ReplaceAllSkip(a[1..], t, pat, rep);
      assert [a[0]] + a[1..] == a;
      assert a + ReplaceAll(t, pat, rep) == [a[0]] + (a[1..] + ReplaceAll(t, pat, rep));
      if |s| >= |pat| {
        assert s[..|pat|][0] == a[0];
        assert ReplaceAll(s, pat, rep) == [a[0]] + ReplaceAll(a[1..] + t, pat, rep);
      } else {
        assert ReplaceAll(t, pat, rep) == t;
      }
    } else {
      assert a + t == t;
    }
  }

  /** The one occurrence of the pattern is replaced and nothing else changes. */
  lemma ReplaceAllOnce(a: string, b: string, pat: string, rep: string)
    requires |pat| > 0 && pat[0] !in a && pat[0] !in b
    ensures ReplaceAll(a + pat + b, pat, rep) == a + rep + b
  {
    ReplaceAllSkip(a, pat + b, pat, rep);
    assert (pat + b)[..|pat|] == pat && (pat + b)[|pat|..] == b;
    ReplaceAllAbsent(b, pat, rep);
    assert a + pat + b == a + (pat + b);
  }

  /** `implode($sep, $parts)`. */
  function Implode(sep: string, parts: seq<string>): string {
    if parts == [] then ""
    else if |parts| == 1 then parts[0]
    else parts[0] + sep + Implode(sep, parts[1..])
  }
}
