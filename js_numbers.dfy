/**
 * `parseInt(s, 10)`, `parseFloat(s)` and `Number.isInteger`, over exact
 * decimal values instead of IEEE doubles. A finite number is `num / den`
 * with `den` a power of ten, which every decimal literal is.
 */
module JsNumbers {
  import opened Wrappers
  import opened JsText

  type Positive = n: nat | n > 0 witness 1

  /** The values `parseFloat` can produce. */
  datatype Number = NaN | Infinity(negative: bool) | Finite(num: int, den: Positive)

  function Pow10(k: nat): (p: Positive) {
    if k == 0 then 1 else 10 * Pow10(k - 1)
  }

  /** `Number.isInteger(x)`: finite and without fractional part. */
  predicate IsInteger(x: Number)
    ensures IsInteger(x) ==> x.Finite? && x.num == (x.num / x.den) * x.den
  {
    x.Finite? && x.num % x.den == 0
  }

  /** `lo <= x && x <= hi` for integer bounds; false for NaN and both infinities. */
  predicate Between(x: Number, lo: int, hi: int)
    ensures Between(x, lo, hi) ==> x.Finite? && lo <= hi
    ensures x.Finite? && x.den == 1 ==> (Between(x, lo, hi) <==> lo <= x.num <= hi)
  {
    x.Finite? && lo * x.den <= x.num <= hi * x.den
  }

  /** Drops one leading sign character and tells whether it was a minus. */
  function SplitSign(t: string): (split: (string, bool)) {
    if t != [] && (t[0] == '-' || t[0] == '+') then (t[1..], t[0] == '-') else (t, false)
  }

  /** What is left after the start-trim and the sign is a suffix of `s`. */
  lemma SplitSignSuffix(s: string)
    ensures var u := SplitSign(TrimStart(s)).0; |u| <= |s| && u == s[|s| - |u|..]
  {
    var t := TrimStart(s);
    if t != [] && (t[0] == '-' || t[0] == '+') {
      assert t[1..] == s[|s| - |t| + 1..];
    }
  }

  /**
   * `parseInt(s, 10)`: skip leading whitespace, take an optional sign and
   * the longest run of decimal digits after it; no digits gives NaN (`None`).
   */
  function ParseInt(s: string): (r: Option<int>)
    ensures r.Some? ==> exists i :: 0 <= i < |s| && IsDigit(s[i])
  {
    var (u, negative) := SplitSign(TrimStart(s));
    var digits := DigitRun(u);
    SplitSignSuffix(s);
    if digits == [] then None
    else
      var magnitude: int := DigitsValue(digits);
      Some(if negative then -magnitude else magnitude)
  }

  /** The exponent of an ExponentPart at the start of `r`, or 0 when `r` does not start with one. */
  function ExponentAt(r: string): (exponent: int) {
    if r != [] && (r[0] == 'e' || r[0] == 'E') then
      var (u, negative) := SplitSign(r[1..]);
      var digits := DigitRun(u);
      var magnitude: int := if digits == [] then 0 else DigitsValue(digits);
      if negative then -magnitude else magnitude
    else 0
  }

  /** `m * 10^scale`, negated when `negative`. */
  function Scaled(negative: bool, m: nat, scale: int): (x: Number) {
    var signed: int := if negative then -(m as int) else m;
    if scale >= 0 then Finite(signed * Pow10(scale), 1) else Finite(signed, Pow10(-scale))
  }

  /**
   * `parseFloat(s)`: skip leading whitespace and read the longest prefix that
   * is a StrDecimalLiteral: an optional sign, then `Infinity`, or digits with
   * an optional `.` and fraction digits (at least one digit in all), then an
   * optional exponent. No such prefix gives NaN.
   */
  function ParseFloat(s: string): (r: Number)
    ensures r.Finite? ==> exists i :: 0 <= i < |s| && IsDigit(s[i])
  {
    var (u, negative) := SplitSign(TrimStart(s));
    SplitSignSuffix(s);
    if IsPrefix("Infinity", u) then Infinity(negative) else ParseDecimal(negative, u)
  }

  /** The decimal-digits branch of `parseFloat`, after the sign. */
  function ParseDecimal(negative: bool, u: string): (r: Number)
    ensures r.Finite? ==> exists i :: 0 <= i < |u| && IsDigit(u[i])
  {
    var whole := DigitRun(u);
    var rest := u[|whole|..];
    var dot := rest != [] && rest[0] == '.';
    var fraction := if dot then DigitRun(rest[1..]) else [];
    if whole == [] && fraction == [] then NaN
    else
      var after := if dot then rest[1 + |fraction|..] else rest;
      Scaled(negative, DigitsValue(whole + fraction), ExponentAt(after) - |fraction|)
  }

  /** `parseInt` of a string that starts with `k` digits followed by a non-digit (or nothing) is their value. */
  lemma ParseIntStops(s: string, k: nat)
    requires 0 < k <= |s| && AllDigits(s[..k])
    requires k == |s| || !IsDigit(s[k])
    ensures ParseInt(s) == Some(DigitsValue(s[..k]))
  {
    assert IsDigit(s[..k][0]);
    assert !IsWhiteSpace(s[0]);
    TrimStartKeeps(s);
    assert SplitSign(s) == (s, false);
    DigitRunUpTo(s, k);
  }

  /** After a whole-number run with no `.` behind it, the decimal branch reads that run and the exponent. */
  lemma {:induction false} ParseDecimalWhole(negative: bool, u: string, k: nat)
    requires 0 < k <= |u| && AllDigits(u[..k])
    requires k == |u| || (!IsDigit(u[k]) && u[k] != '.')
    ensures ParseDecimal(negative, u) == Scaled(negative, DigitsValue(u[..k]), ExponentAt(u[k..]))
  {
    DigitRunUpTo(u, k);
    var rest := u[k..];
    assert rest == [] || rest[0] == u[k];
    assert u[..k] + [] == u[..k];
  }

  /** A string that starts with a digit is read by the decimal branch of `parseFloat`, unsigned. */
  lemma {:induction false} ParseFloatDecimal(s: string)
    requires s != [] && IsDigit(s[0])
    ensures ParseFloat(s) == ParseDecimal(false, s)
  {
    assert !IsWhiteSpace(s[0]);
    TrimStartKeeps(s);
    assert SplitSign(s) == (s, false);
    assert "Infinity"[0] == 'I';
  }

  /**
   * `parseFloat` of a string that starts with `k` digits followed by neither
   * a digit nor a `.`: that integer scaled by the exponent that follows, if any.
   */
  lemma {:induction false} ParseFloatStops(s: string, k: nat)
    requires 0 < k <= |s| && AllDigits(s[..k])
    requires k == |s| || (!IsDigit(s[k]) && s[k] != '.')
    ensures ParseFloat(s) == Scaled(false, DigitsValue(s[..k]), ExponentAt(s[k..]))
  {
    assert IsDigit(s[..k][0]);
    ParseFloatDecimal(s);
    ParseDecimalWhole(false, s, k);
  }

  /** Scaling by one power of ten up or down. */
  lemma ScaledByTen(m: nat)
    ensures Scaled(false, m, 1) == Finite(10 * m, 1)
    ensures Scaled(false, m, -1) == Finite(m, 10)
  {
    assert Pow10(1) == 10 * Pow10(0) == 10;
  }

  /** Appending a digit multiplies the value of the digits before it by ten and adds the digit. */
  lemma AppendDigit(w: string, c: char)
    requires AllDigits(w) && IsDigit(c)
    ensures AllDigits(w + [c]) && DigitsValue(w + [c]) == 10 * DigitsValue(w) + DigitValue(c)
  {
    assert (w + [c])[..|w|] == w;
  }

  /** The decimal branch reads `k` whole digits, a `.` and one fraction digit as that many tenths. */
  lemma {:induction false} FractionDecimal(u: string, k: nat)
    requires 0 < k && |u| == k + 2 && AllDigits(u[..k]) && u[k] == '.' && IsDigit(u[k + 1])
    ensures ParseDecimal(false, u) == Finite(10 * DigitsValue(u[..k]) + DigitValue(u[k + 1]), 10)
  {
    DigitRunUpTo(u, k);
    var rest := u[k..];
    assert rest == ['.', u[k + 1]];
    DigitRunOfDigits([u[k + 1]]);
    assert rest[1..] == [u[k + 1]] && rest[2..] == [];
    AppendDigit(u[..k], u[k + 1]);
    assert u[..k] + [u[k + 1]] == u[..k] + rest[1..];
    assert ExponentAt([]) == 0;
    ScaledByTen(10 * DigitsValue(u[..k]) + DigitValue(u[k + 1]));
  }

  /** `parseFloat` reads `k` whole digits, a `.` and one fraction digit as that many tenths. */
  lemma {:induction false} ParseFloatFraction(s: string, k: nat)
    requires 0 < k && |s| == k + 2 && AllDigits(s[..k]) && s[k] == '.' && IsDigit(s[k + 1])
    ensures ParseFloat(s) == Finite(10 * DigitsValue(s[..k]) + DigitValue(s[k + 1]), 10)
  {
    assert IsDigit(s[..k][0]);
    ParseFloatDecimal(s);
    FractionDecimal(s, k);
  }

  /** `parseInt` reads a non-empty string of digits as its value. */
  lemma ParseIntDigits(s: string)
    requires s != [] && AllDigits(s)
    ensures ParseInt(s) == Some(DigitsValue(s))
  {
    assert s[..|s|] == s;
    ParseIntStops(s, |s|);
  }

  /** `parseFloat` reads a non-empty string of digits as that integer. */
  lemma ParseFloatDigits(s: string)
    requires s != [] && AllDigits(s)
    ensures ParseFloat(s) == Finite(DigitsValue(s), 1)
  {
    assert s[..|s|] == s;
    ParseFloatStops(s, |s|);
    assert ExponentAt(s[|s|..]) == 0;
  }

  /** Both parsers read a rendered natural number back as that number. */
  lemma ParseNatString(n: nat)
    ensures ParseInt(NatToString(n)) == Some(n)
    ensures ParseFloat(NatToString(n)) == Finite(n, 1)
    ensures IsInteger(ParseFloat(NatToString(n)))
  {
    NatToStringRoundTrip(n);
    ParseIntDigits(NatToString(n));
    ParseFloatDigits(NatToString(n));
  }

  /** `parseInt` reads a minus sign followed by the rendering of `m` as `-m`. */
  lemma ParseNegativeString(m: nat)
    ensures ParseInt("-" + NatToString(m)) == Some(-(m as int))
  {
    var d := NatToString(m);
    var s := "-" + d;
    assert s[0] == '-' && s[1..] == d;
    TrimStartKeeps(s);
    assert SplitSign(s) == (d, true);
    DigitRunOfDigits(d);
    NatToStringRoundTrip(m);
  }

  /** `parseInt` reads the rendering of every integer, negative ones included, back as that integer. */
  lemma ParseIntToString(i: int)
    ensures ParseInt(IntToString(i)) == Some(i)
  {
    if i >= 0 {
      assert IntToString(i) == NatToString(i);
      ParseNatString(i);
    } else {
      assert IntToString(i) == "-" + NatToString(-i);
      ParseNegativeString(-i);
    }
  }
}
