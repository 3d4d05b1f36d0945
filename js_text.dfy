/**
 * The JavaScript string built-ins the core relies on: `String.prototype.trim`
 * (and the start-only trim that `parseInt`/`parseFloat` apply), `includes`,
 * and the decimal rendering of integers used by template strings and
 * `Number.prototype.toString`.
 */
module JsText {

  // ---------------------------------------------------------------- whitespace

  /** The code points ECMA-262 calls WhiteSpace or LineTerminator: what `trim` strips. */
  const WhiteSpaceChars: set<char> := {
    '\t', '\U{000B}', '\U{000C}', ' ', '\U{00A0}', '\U{FEFF}', '\U{1680}',
    '\U{2000}', '\U{2001}', '\U{2002}', '\U{2003}', '\U{2004}', '\U{2005}',
    '\U{2006}', '\U{2007}', '\U{2008}', '\U{2009}', '\U{200A}',
    '\U{202F}', '\U{205F}', '\U{3000}',
    '\n', '\r', '\U{2028}', '\U{2029}'
  }

  predicate IsWhiteSpace(c: char) {
    c in WhiteSpaceChars
  }

  predicate AllWhiteSpace(s: string) {
    forall i :: 0 <= i < |s| ==> IsWhiteSpace(s[i])
  }

  /** Neither end of `s` is whitespace. */
  predicate IsTrimmed(s: string) {
    s == [] || (!IsWhiteSpace(s[0]) && !IsWhiteSpace(s[|s| - 1]))
  }

  /** Removes leading whitespace: the result is the longest suffix of `s` not starting with whitespace. */
  function TrimStart(s: string): (r: string)
    ensures |r| <= |s| && r == s[|s| - |r|..]
    ensures AllWhiteSpace(s[..|s| - |r|])
    ensures r == [] || !IsWhiteSpace(r[0])
  {
    if s != [] && IsWhiteSpace(s[0]) then
      var r := TrimStart(s[1..]);
      assert s[..|s| - |r|] == [s[0]] + s[1..][..|s| - 1 - |r|];
      r
    else
      s
  }

  /** Removes trailing whitespace: the result is the longest prefix of `s` not ending with whitespace. */
  function TrimEnd(s: string): (r: string)
    ensures |r| <= |s| && r == s[..|r|]
    ensures AllWhiteSpace(s[|r|..])
    ensures r == [] || !IsWhiteSpace(r[|r| - 1])
  {
    if s != [] && IsWhiteSpace(s[|s| - 1]) then
      var r := TrimEnd(s[..|s| - 1]);
      assert s[|r|..] == s[..|s| - 1][|r|..] + [s[|s| - 1]];
      r
    else
      s
  }

  /** A string that does not start with whitespace is its own start-trim. */
  lemma TrimStartKeeps(s: string)
    requires s != [] && !IsWhiteSpace(s[0])
    ensures TrimStart(s) == s
  {
  }

  /** `r` is `s` from position `i` on, and the rest of `s` is whitespace. */
  predicate IsMiddle(s: string, i: int, r: string) {
    0 <= i && i + |r| <= |s| &&
    (forall k :: 0 <= k < |r| ==> r[k] == s[i + k]) &&
    (forall k :: 0 <= k < i ==> IsWhiteSpace(s[k])) &&
    (forall k :: i + |r| <= k < |s| ==> IsWhiteSpace(s[k]))
  }

  /** The start-trim is `s` after its leading whitespace run. */
  lemma TrimStartMiddle(s: string)
    ensures IsMiddle(s, |s| - |TrimStart(s)|, TrimStart(s))
  {
    var t := TrimStart(s);
    var i := |s| - |t|;
    forall k | 0 <= k < i ensures IsWhiteSpace(s[k]) {
      assert s[..i][k] == s[k];
    }
  }

  /** The end-trim is `s` before its trailing whitespace run. */
  lemma TrimEndMiddle(s: string)
    ensures IsMiddle(s, 0, TrimEnd(s))
  {
    var r := TrimEnd(s);
    forall k | |r| <= k < |s| ensures IsWhiteSpace(s[k]) {
      assert s[|r|..][k - |r|] == s[k];
    }
  }

  /** A middle part of a suffix's middle part is a middle part of the whole. */
  lemma MiddleOfSuffix(s: string, i: int, t: string, r: string)
    requires IsMiddle(s, i, t) && i + |t| == |s| && IsMiddle(t, 0, r)
    ensures IsMiddle(s, i, r)
  {
    forall k | i + |r| <= k < |s| ensures IsWhiteSpace(s[k]) {
      assert IsWhiteSpace(t[k - i]);
    }
  }

  /** Trimming both ends leaves the slice of `s` between its leading and its trailing whitespace run. */
  lemma TrimSlice(s: string)
    ensures IsMiddle(s, |s| - |TrimStart(s)|, TrimEnd(TrimStart(s)))
  {
    TrimStartMiddle(s);
    TrimEndMiddle(TrimStart(s));
    MiddleOfSuffix(s, |s| - |TrimStart(s)|, TrimStart(s), TrimEnd(TrimStart(s)));
  }

  /** Trimming both ends leaves nothing exactly when `s` is all whitespace. */
  lemma TrimEmpty(s: string)
    ensures TrimEnd(TrimStart(s)) == [] <==> AllWhiteSpace(s)
  {
    var t := TrimStart(s);
    TrimStartMiddle(s);
    TrimSlice(s);
  }

  /** A string without whitespace at either end is left as it is. */
  lemma TrimKeeps(s: string)
    ensures IsTrimmed(s) ==> TrimEnd(TrimStart(s)) == s
  {
    if s != [] && IsTrimmed(s) {
      TrimStartKeeps(s);
    }
  }

  /**
   * `String.prototype.trim`: the result is the slice of `s` between its
   * leading and its trailing whitespace run, it is trimmed, it is empty
   * exactly when `s` is all whitespace, and a string that is already trimmed
   * is its own trim.
   */
  function Trim(s: string): (r: string)
    ensures IsTrimmed(r)
    ensures IsMiddle(s, |s| - |TrimStart(s)|, r)
    ensures r == [] <==> AllWhiteSpace(s)
    ensures IsTrimmed(s) ==> r == s
  {
    TrimSlice(s);
    TrimEmpty(s);
    TrimKeeps(s);
    TrimEnd(TrimStart(s))
  }

  // ---------------------------------------------------------------- includes

  predicate IsPrefix(p: string, s: string) {
    |p| <= |s| && s[..|p|] == p
  }

  /** `s.includes(t)`, as a scan over the start positions of `s`. */
  predicate Contains(s: string, t: string)
    ensures Contains(s, t) ==> |t| <= |s|
    decreases |s|
  {
    IsPrefix(t, s) || (s != [] && Contains(s[1..], t))
  }

  /** `t` occurs in `s` at position `i`. */
  predicate OccursAt(s: string, t: string, i: int) {
    0 <= i && i + |t| <= |s| && s[i..i + |t|] == t
  }

  /** The scan finds `t` exactly when `t` occurs somewhere in `s`. */
  lemma {:induction false} ContainsIffOccurs(s: string, t: string)
    ensures Contains(s, t) <==> exists i :: OccursAt(s, t, i)
    decreases |s|
  {
    if IsPrefix(t, s) {
      assert OccursAt(s, t, 0);
    } else if s == [] {
    } else {
      ContainsIffOccurs(s[1..], t);
      if Contains(s[1..], t) {
        var i :| OccursAt(s[1..], t, i);
        assert s[i + 1..i + 1 + |t|] == s[1..][i..i + |t|];
        assert OccursAt(s, t, i + 1);
      } else {
        forall i | OccursAt(s, t, i) ensures i >= 1 && OccursAt(s[1..], t, i - 1) {
          assert i != 0 by { assert s[..|t|] == s[0..0 + |t|]; }
          assert s[1..][i - 1..i - 1 + |t|] == s[i..i + |t|];
        }
      }
    }
  }

  // ---------------------------------------------------------------- decimal digits

  predicate IsDigit(c: char) {
    '0' <= c <= '9'
  }

  predicate AllDigits(s: string) {
    forall i :: 0 <= i < |s| ==> IsDigit(s[i])
  }

  function DigitValue(c: char): (d: nat)
    requires IsDigit(c)
    ensures d < 10
  {
    c as int - '0' as int
  }

  /** The digit worth 0 is `'0'`. */
  lemma DigitZero(c: char)
    requires IsDigit(c)
    ensures DigitValue(c) == 0 <==> c == '0'
  {
  }

  function DigitChar(d: nat): (c: char)
    requires d < 10
    ensures IsDigit(c) && DigitValue(c) == d
  {
    ('0' as int + d) as char
  }

  /** The value of a string of decimal digits, most significant first (`""` reads as 0). */
  function DigitsValue(s: string): (n: nat)
    requires AllDigits(s)
  {
    if s == [] then 0 else 10 * DigitsValue(s[..|s| - 1]) + DigitValue(s[|s| - 1])
  }

  /** The longest prefix of `s` made of decimal digits. */
  function DigitRun(s: string): (r: string)
    ensures |r| <= |s| && r == s[..|r|] && AllDigits(r)
    ensures |r| == |s| || !IsDigit(s[|r|])
  {
    if s != [] && IsDigit(s[0]) then [s[0]] + DigitRun(s[1..]) else []
  }

  /** The decimal rendering of a natural number, as `${n}` and `n.toString()` produce it. */
  function NatToString(n: nat): (r: string)
    ensures r != [] && AllDigits(r)
    ensures r[0] == '0' ==> r == "0"
  {
    if n < 10 then [DigitChar(n)] else NatToString(n / 10) + [DigitChar(n % 10)]
  }

  /** The decimal rendering of an integer, with a leading `-` when it is negative. */
  function IntToString(i: int): (r: string)
    ensures r != []
    ensures r[0] == '-' <==> i < 0
    ensures i >= 0 ==> AllDigits(r) && DigitsValue(r) == i
    ensures i < 0 ==> AllDigits(r[1..]) && DigitsValue(r[1..]) == -i
    ensures var digits := if i < 0 then r[1..] else r; digits[0] == '0' ==> digits == "0"
  {
    NatToStringRoundTrip(if i < 0 then -i else i);
    assert i < 0 ==> ("-" + NatToString(-i))[1..] == NatToString(-i);
    if i < 0 then "-" + NatToString(-i) else NatToString(i)
  }

  /** Reading back a rendered natural number gives the number. */
  lemma {:induction false} NatToStringRoundTrip(n: nat)
    ensures DigitsValue(NatToString(n)) == n
  {
    if n >= 10 {
      NatToStringRoundTrip(n / 10);
      var s := NatToString(n);
      assert s[..|s| - 1] == NatToString(n / 10);
    }
  }

  /** When the first `k` characters are digits and the next is not (or there is none), they are the digit run. */
  lemma {:induction false} DigitRunUpTo(s: string, k: nat)
    requires k <= |s| && AllDigits(s[..k])
    requires k == |s| || !IsDigit(s[k])
    ensures DigitRun(s) == s[..k]
  {
    if k > 0 {
      assert IsDigit(s[..k][0]);
      assert s[1..][..k - 1] == s[..k][1..];
      DigitRunUpTo(s[1..], k - 1);
      assert s[..k] == [s[0]] + s[..k][1..];
    }
  }

  /** A string of digits is its own digit run. */
  lemma {:induction false} DigitRunOfDigits(s: string)
    requires AllDigits(s)
    ensures DigitRun(s) == s
  {
    if s != [] {
      DigitRunOfDigits(s[1..]);
    }
  }
}
