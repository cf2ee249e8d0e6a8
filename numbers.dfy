/**
 * Numbers as JavaScript produces them from text: `parseFloat` and `parseInt`
 * (without a radix), which read the longest numeric prefix of a string, and
 * the sums, minima and maxima the dashboard takes of number arrays.
 * Values are exact reals: IEEE rounding and overflow are not modelled.
 */
module Numbers {
  import opened Wrappers
  import opened Text

  /** A JavaScript number as far as parsing can produce one. */
  datatype JsNumber = NaN | PosInf | NegInf | Finite(value: real)

  /** Number of decimal digits at the start of `s`. */
  function LeadingDigits(s: string): (n: nat)
    ensures n <= |s| && AllDigits(s[..n]) && (n < |s| ==> !IsDigit(s[n]))
  {
    if s != [] && IsDigit(s[0]) then
      var n := 1 + LeadingDigits(s[1..]);
      assert s[..n] == [s[0]] + s[1..][..n - 1];
      n
    else 0
  }

  lemma {:induction false} LeadingDigitsAll(s: string)
    requires AllDigits(s)
    ensures LeadingDigits(s) == |s|
  {
    if s != [] { LeadingDigitsAll(s[1..]); }
  }

  /** The digit run stops at the first character that is not a digit. */
  lemma {:induction false} LeadingDigitsPrefix(w: string, rest: string)
    requires AllDigits(w) && (rest == [] || !IsDigit(rest[0]))
    ensures LeadingDigits(w + rest) == |w|
  {
    if w != [] {
      assert (w + rest)[1..] == w[1..] + rest;
      LeadingDigitsPrefix(w[1..], rest);
    } else {
      assert w + rest == rest;
    }
  }

  function Pow10(n: nat): (r: nat)
    ensures r >= 1
  {
    if n == 0 then 1 else 10 * Pow10(n - 1)
  }

  /** 10 raised to a possibly negative exponent. */
  function Scale(e: int): (r: real)
    ensures r > 0.0
  {
    if e >= 0 then Pow10(e) as real else 1.0 / Pow10(-e) as real
  }

  /** An ExponentPart (`e`, optional sign, digits) at the start of `s`: its length and value, (0, 0) if there is none. */
  function ExponentPrefix(s: string): (r: (nat, int))
    ensures r.0 <= |s|
  {
    if |s| >= 2 && (s[0] == 'e' || s[0] == 'E') then
      var start := if s[1] == '+' || s[1] == '-' then 2 else 1;
      var k := LeadingDigits(s[start..]);
      if k == 0 then (0, 0)
      else
        assert s[start..][..k] == s[start..start + k];
        var v: int := DigitsValue(s[start..start + k]);
        (start + k, if s[1] == '-' then -v else v)
    else (0, 0)
  }

  /** The value of a decimal literal with integer digits `w`, fraction digits `ds` and exponent `e`. */
  function LiteralValue(w: string, ds: string, e: int): real
    requires AllDigits(w) && AllDigits(ds)
  {
    DecimalValue(w, ds) * Scale(e)
  }

  /** The value of `w.ds` written in decimal. */
  function DecimalValue(w: string, ds: string): real
    requires AllDigits(w) && AllDigits(ds)
  {
    DigitsValue(w) as real + DigitsValue(ds) as real / Pow10(|ds|) as real
  }

  /** Number of fraction digits after the integer digits `t[..a]`: those after a `.`, none without one. */
  function FractionDigits(t: string, a: nat): (b: nat)
    requires a <= |t|
    ensures b > 0 ==> a < |t| && t[a] == '.'
    ensures a + 1 + b <= |t| || b == 0
    ensures AllDigits(t[(if b > 0 then a + 1 else a)..][..b])
  {
    if a < |t| && t[a] == '.' then LeadingDigits(t[a + 1..]) else 0
  }

  /** The value of the longest unsigned decimal literal (`12`, `12.`, `12.5`, `.5`, each with an optional exponent) that starts `t`. */
  function UnsignedDecimalPrefix(t: string): Option<real> {
    var a := LeadingDigits(t);
    var hasDot := a < |t| && t[a] == '.';
    var b := FractionDigits(t, a);
    if a == 0 && b == 0 then None
    else
      var start := if hasDot then a + 1 else a;
      assert b > 0 ==> start == a + 1;
      Some(LiteralValue(t[..a], t[start..][..b], ExponentPrefix(t[start + b..]).1))
  }

  /** `parseFloat(s)`: leading white space skipped, then a signed number. */
  function ParseFloat(s: string): JsNumber {
    ParseSignedFloat(TrimStart(s))
  }

  /** The text after an optional leading sign. */
  function Unsigned(u: string): (t: string)
    ensures |t| <= |u|
  {
    if u != [] && (u[0] == '-' || u[0] == '+') then u[1..] else u
  }

  predicate IsNegative(u: string) { u != [] && u[0] == '-' }

  /** An optional sign, then `Infinity` or the longest decimal literal. */
  function ParseSignedFloat(u: string): JsNumber {
    var t := Unsigned(u);
    if StartsWith(t, "Infinity") then (if IsNegative(u) then NegInf else PosInf)
    else
      match UnsignedDecimalPrefix(t)
      case None => NaN
      case Some(v) => Finite(if IsNegative(u) then -v else v)
  }

  predicate IsHexDigit(c: char) { IsDigit(c) || 'a' <= c <= 'f' || 'A' <= c <= 'F' }

  function HexDigitValue(c: char): nat
    requires IsHexDigit(c)
  {
    if IsDigit(c) then c as int - '0' as int
    else if 'a' <= c <= 'f' then c as int - 'a' as int + 10
    else c as int - 'A' as int + 10
  }

  function LeadingHexDigits(s: string): (n: nat)
    ensures n <= |s| && forall i :: 0 <= i < n ==> IsHexDigit(s[i])
  {
    if s != [] && IsHexDigit(s[0]) then 1 + LeadingHexDigits(s[1..]) else 0
  }

  function HexValue(s: string): nat
    requires forall i :: 0 <= i < |s| ==> IsHexDigit(s[i])
  {
    if s == [] then 0 else HexValue(s[..|s| - 1]) * 16 + HexDigitValue(s[|s| - 1])
  }

  /** `parseInt(s)` with no radix: white space, an optional sign, then hexadecimal digits after `0x`/`0X` or decimal digits; None stands for NaN. */
  function ParseInt(s: string): Option<int> {
    ParseSignedInt(TrimStart(s))
  }

  /** An optional sign, then hexadecimal digits after `0x`/`0X` or decimal digits. */
  function ParseSignedInt(u: string): Option<int> {
    var t := Unsigned(u);
    var magnitude: Option<int> :=
      if |t| >= 2 && t[0] == '0' && (t[1] == 'x' || t[1] == 'X') then
        var k := LeadingHexDigits(t[2..]);
        if k == 0 then None else Some(HexValue(t[2..2 + k]))
      else
        var k := LeadingDigits(t);
        if k == 0 then None else Some(DigitsValue(t[..k]));
    match magnitude
    case None => None
    case Some(m) => Some(if IsNegative(u) then -m else m)
  }

  /** A string of decimal digits parses to the number it writes. */
  lemma DigitStringParses(t: string)
    requires |t| >= 1 && AllDigits(t)
    ensures UnsignedDecimalPrefix(t) == Some(DigitsValue(t) as real)
  {
    LeadingDigitsAll(t);
    assert t[..|t|] == t;
    assert t[|t|..] == [];
    assert ExponentPrefix([]) == (0, 0);
    DecimalValueWhole(t);
    LiteralWithoutExponent(t, []);
  }

  /** Without fraction digits the value is the integer the digits write. */
  lemma DecimalValueWhole(w: string)
    requires AllDigits(w)
    ensures DecimalValue(w, []) == DigitsValue(w) as real
  {
    assert DigitsValue([]) == 0;
    assert Pow10(0) == 1;
    assert 0 as real / 1 as real == 0.0;
  }

  /** Text that starts "digits.digits" and goes on with neither a digit nor an exponent reads as that decimal number. */
  lemma DecimalPrefix(w: string, ds: string, rest: string)
    requires |w| >= 1 && AllDigits(w) && AllDigits(ds)
    requires rest == [] || (!IsDigit(rest[0]) && rest[0] != 'e' && rest[0] != 'E')
    ensures UnsignedDecimalPrefix(w + "." + ds + rest) == Some(LiteralValue(w, ds, 0))
  {
    var t := w + "." + ds + rest;
    DecimalShape(w, ds, rest);
    NoExponent(rest);
    var a, b := |w|, |ds|;
    assert t[a + 1..][..b] == ds;
  }

  /** How the literal reader splits "w.ds" + rest: `w` before the point, `ds` after it, `rest` for the exponent. */
  lemma DecimalShape(w: string, ds: string, rest: string)
    requires AllDigits(w) && AllDigits(ds)
    requires rest == [] || !IsDigit(rest[0])
    ensures var t := w + "." + ds + rest;
      LeadingDigits(t) == |w| && |w| < |t| && t[|w|] == '.' && FractionDigits(t, |w|) == |ds|
      && t[..|w|] == w && t[|w| + 1..] == ds + rest && t[|w| + 1 + |ds|..] == rest
  {
    var fraction := ds + rest;
    assert w + "." + ds + rest == w + ("." + fraction);
    IntegerPartOf(w, "." + fraction);
    FractionPartOf(ds, rest);
  }

  /** Digits followed by a point: the digits are the integer part, the point comes next. */
  lemma IntegerPartOf(w: string, tail: string)
    requires AllDigits(w) && tail != [] && tail[0] == '.'
    ensures var t := w + tail;
      LeadingDigits(t) == |w| && t[..|w|] == w && t[|w|] == '.' && t[|w| + 1..] == tail[1..]
  {
    LeadingDigitsPrefix(w, tail);
    assert (w + tail)[|w|..] == tail;
  }

  /** Digits followed by text that does not start with a digit. */
  lemma FractionPartOf(ds: string, rest: string)
    requires AllDigits(ds) && (rest == [] || !IsDigit(rest[0]))
    ensures LeadingDigits(ds + rest) == |ds| && (ds + rest)[..|ds|] == ds && (ds + rest)[|ds|..] == rest
  {
    LeadingDigitsPrefix(ds, rest);
  }

  lemma NoExponent(rest: string)
    requires rest == [] || (rest[0] != 'e' && rest[0] != 'E')
    ensures ExponentPrefix(rest) == (0, 0)
  {
  }

  /** Text that starts with a digit has no white space to skip, no sign and no `Infinity`: parseFloat reads the decimal literal. */
  lemma ParseFloatDigitStart(t: string)
    requires t != [] && IsDigit(t[0])
    ensures ParseFloat(t) == if UnsignedDecimalPrefix(t).Some? then Finite(UnsignedDecimalPrefix(t).value) else NaN
  {
    NoWhiteSpaceToSkip(t);
    assert !StartsWith(t, "Infinity") by { assert "Infinity"[0] == 'I'; }
  }

  lemma NoWhiteSpaceToSkip(t: string)
    requires t != [] && !IsJsWhitespace(t[0])
    ensures TrimStart(t) == t
  {
  }

  /** Text with no white space and no `I` cannot spell `Infinity`: parseFloat gives a finite number or NaN. */
  lemma ParseFloatWithoutLetters(c: string)
    requires forall i :: 0 <= i < |c| ==> c[i] != 'I' && !IsJsWhitespace(c[i])
    ensures ParseFloat(c).Finite? || ParseFloat(c).NaN?
  {
    if c != [] { NoWhiteSpaceToSkip(c); }
    var t := Unsigned(c);
    assert forall i :: 0 <= i < |t| ==> t[i] != 'I' by {
      if t != c { assert forall i :: 0 <= i < |t| ==> t[i] == c[i + 1]; }
    }
    if |t| >= 8 { assert t[..8][0] != "Infinity"[0]; }
  }

  /** `parseFloat` of "digits.digits" followed by neither a digit nor an exponent. */
  lemma ParseFloatDecimal(w: string, ds: string, rest: string)
    requires |w| >= 1 && AllDigits(w) && AllDigits(ds)
    requires rest == [] || (!IsDigit(rest[0]) && rest[0] != 'e' && rest[0] != 'E')
    ensures ParseFloat(w + "." + ds + rest) == Finite(DecimalValue(w, ds))
  {
    var t := w + "." + ds + rest;
    assert t[0] == w[0];
    ParseFloatDigitStart(t);
    DecimalPrefix(w, ds, rest);
    LiteralWithoutExponent(w, ds);
  }

  lemma LiteralWithoutExponent(w: string, ds: string)
    requires AllDigits(w) && AllDigits(ds)
    ensures LiteralValue(w, ds, 0) == DecimalValue(w, ds)
  {
    assert Scale(0) == 1.0;
  }

  /** The sign handling shared by parseFloat and parseInt: for text that starts with a sign or a digit, no white space is skipped and the sign is split off. */
  lemma SignSplit(s: string, digits: string)
    requires |digits| >= 1 && AllDigits(digits)
    requires s == digits || s == "-" + digits
    ensures TrimStart(s) == s
    ensures Unsigned(s) == digits
    ensures IsNegative(s) <==> s != digits
  {
    assert IsDigit(digits[0]);
    if s == digits {
      assert s[0] != '-' && s[0] != '+';
    } else {
      assert s[0] == '-' && s[1..] == digits;
    }
    TrimStartKeeps(s);
  }

  /** Text that starts with a character other than white space is not trimmed. */
  lemma TrimStartKeeps(s: string)
    requires s != [] && !IsJsWhitespace(s[0])
    ensures TrimStart(s) == s
  {
  }

  /** `parseFloat` reads back the decimal rendering of every integer. */
  lemma ParseFloatOfIntToString(i: int)
    ensures ParseFloat(IntToString(i)) == Finite(i as real)
  {
    var m: nat := if i < 0 then -i else i;
    var digits := NatToString(m);
    var s := IntToString(i);
    NatToStringRoundTrip(m);
    DigitStringParses(digits);
    IntToStringShape(i);
    SignSplit(s, digits);
    assert !StartsWith(digits, "Infinity") by {
      assert IsDigit(digits[0]);
      assert "Infinity"[0] == 'I';
    }
    assert ParseFloat(s) == ParseSignedFloat(s);
  }

  /** The rendering of `i` is the digits of |i|, after a minus sign exactly when i < 0. */
  lemma IntToStringShape(i: int)
    ensures var m: nat := if i < 0 then -i else i;
      |NatToString(m)| >= 1 && AllDigits(NatToString(m))
      && (i < 0 ==> IntToString(i) == "-" + NatToString(m) != NatToString(m))
      && (i >= 0 ==> IntToString(i) == NatToString(m))
  {
  }

  /** `parseInt` reads back the decimal rendering of every integer. */
  lemma ParseIntOfIntToString(i: int)
    ensures ParseInt(IntToString(i)) == Some(i)
  {
    var m: nat := if i < 0 then -i else i;
    var digits := NatToString(m);
    NatToStringRoundTrip(m);
    LeadingDigitsAll(digits);
    assert digits[..|digits|] == digits;
    IntToStringShape(i);
    SignSplit(IntToString(i), digits);
    assert ParseInt(IntToString(i)) == ParseSignedInt(IntToString(i));
  }

  /** `n || 0` for a number that may be null: null and 0 both give 0. */
  function OrZero(n: Option<int>): int {
    if n.Some? then n.value else 0
  }

  /** `s.reduce((sum, v) => sum + v, 0)`. */
  function Sum(s: seq<real>): real {
    if s == [] then 0.0 else Sum(s[..|s| - 1]) + s[|s| - 1]
  }

  lemma {:induction false} SumAppend(a: seq<real>, b: seq<real>)
    ensures Sum(a + b) == Sum(a) + Sum(b)
  {
    if b != [] {
      assert (a + b)[..|a + b| - 1] == a + b[..|b| - 1];
      SumAppend(a, b[..|b| - 1]);
    } else {
      assert a + b == a;
    }
  }

  /** The sum of a sequence split around position `i`. */
  lemma SumSplitAt(s: seq<real>, i: nat)
    requires i < |s|
    ensures Sum(s) == Sum(s[..i]) + s[i] + Sum(s[i + 1..])
  {
    var a, x, b := s[..i], s[i], s[i + 1..];
    assert s == a + ([x] + b);
    SumAppend(a, [x] + b);
    SumAppend([x], b);
    assert [x][..0] == [];
  }

  /** Removing one element takes exactly its value off the sum. */
  lemma SumRemoveAt(s: seq<real>, i: nat)
    requires i < |s|
    ensures Sum(s[..i] + s[i + 1..]) == Sum(s) - s[i]
  {
    SumSplitAt(s, i);
    SumAppend(s[..i], s[i + 1..]);
  }

  /** A sum of values that all lie in [lo, hi] lies between |s|·lo and |s|·hi. */
  lemma {:induction false} SumBounds(s: seq<real>, lo: real, hi: real)
    requires forall i :: 0 <= i < |s| ==> lo <= s[i] <= hi
    ensures |s| as real * lo <= Sum(s) <= |s| as real * hi
  {
    if s != [] {
      SumBounds(s[..|s| - 1], lo, hi);
    }
  }

  /** Dividing by a positive number keeps the order. */
  lemma DivideMonotone(a: real, b: real, m: real)
    requires a <= b && m > 0.0
    ensures a / m <= b / m
  {
    assert (b - a) / m >= 0.0;
    assert b / m - a / m == (b - a) / m;
  }

  lemma ScaleDivide(x: real, m: real)
    requires m > 0.0
    ensures m * x / m == x
  {
  }

  /** The mean of values within [lo, hi] is within [lo, hi]. */
  lemma MeanWithin(s: seq<real>, lo: real, hi: real)
    requires |s| > 0
    requires forall i :: 0 <= i < |s| ==> lo <= s[i] <= hi
    ensures lo <= Sum(s) / |s| as real <= hi
  {
    SumBounds(s, lo, hi);
    var n := |s| as real;
    DivideMonotone(n * lo, Sum(s), n);
    DivideMonotone(Sum(s), n * hi, n);
    ScaleDivide(lo, n);
    ScaleDivide(hi, n);
  }

  /** The smallest element (the first element of the ascending sort). */
  function Min(s: seq<real>): real
    requires |s| > 0
  {
    if |s| == 1 then s[0]
    else
      var m := Min(s[1..]);
      if s[0] <= m then s[0] else m
  }

  /** The largest element (the last element of the ascending sort). */
  function Max(s: seq<real>): real
    requires |s| > 0
  {
    if |s| == 1 then s[0]
    else
      var m := Max(s[1..]);
      if s[0] >= m then s[0] else m
  }

  /** Min is an element no other element is below. */
  lemma {:induction false} MinIsLeast(s: seq<real>)
    requires |s| > 0
    ensures Min(s) in s && forall i :: 0 <= i < |s| ==> Min(s) <= s[i]
  {
    if |s| > 1 {
      MinIsLeast(s[1..]);
      assert forall i :: 1 <= i < |s| ==> s[i] == s[1..][i - 1];
    }
  }

  /** Max is an element no other element is above. */
  lemma {:induction false} MaxIsGreatest(s: seq<real>)
    requires |s| > 0
    ensures Max(s) in s && forall i :: 0 <= i < |s| ==> s[i] <= Max(s)
  {
    if |s| > 1 {
      MaxIsGreatest(s[1..]);
      assert forall i :: 1 <= i < |s| ==> s[i] == s[1..][i - 1];
    }
  }
}
