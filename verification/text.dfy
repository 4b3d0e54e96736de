/** String helpers: Python's `str(int)` and `"sep".join`, and JavaScript's `String.prototype.trim`. */
module Text {

  function DigitChar(d: nat): char
    requires d < 10
  {
    "0123456789"[d]
  }

  predicate IsDigit(c: char) {
    '0' <= c <= '9'
  }

  /** Decimal digits of a natural number, as Python's `str` prints it. */
  function NatToString(n: nat): (s: string)
    ensures |s| >= 1
    ensures forall i :: 0 <= i < |s| ==> IsDigit(s[i])
    ensures |s| > 1 ==> s[0] != '0'
  {
    if n < 10 then [DigitChar(n)] else NatToString(n / 10) + [DigitChar(n % 10)]
  }

  /** The number a string of decimal digits denotes (the partner of `NatToString`). */
  function DigitsValue(s: string): nat
    requires forall i :: 0 <= i < |s| ==> IsDigit(s[i])
  {
    if |s| == 0 then 0 else var d := s[|s| - 1] as int - '0' as int;
    assert IsDigit(s[|s| - 1]);
    10 * DigitsValue(s[..|s| - 1]) + d
  }

  lemma {:induction false} NatToStringRoundTrip(n: nat)
    ensures DigitsValue(NatToString(n)) == n
  {
    if n >= 10 {
      var s := NatToString(n);
      assert s[..|s| - 1] == NatToString(n / 10);
      NatToStringRoundTrip(n / 10);
    }
  }

  /** Python's `str` of an `int`. */
  function IntToString(i: int): (s: string)
    ensures |s| >= 1
    ensures (s[0] == '-') <==> i < 0
  {
    if i < 0 then "-" + NatToString(-i) else NatToString(i)
  }

  /** Python's `sep.join(parts)`. */
  function Join(parts: seq<string>, sep: string): string
  {
    if |parts| == 0 then ""
    else if |parts| == 1 then parts[0]
    else parts[0] + sep + Join(parts[1..], sep)
  }

  /** `a` occurs in `b` starting at position `i`. */
  predicate OccursAt(a: string, b: string, i: nat) {
    i + |a| <= |b| && b[i..i + |a|] == a
  }

  ghost predicate IsInfix(a: string, b: string) {
    exists i: nat :: OccursAt(a, b, i)
  }

  lemma InfixOfConcat(a: string, x: string, y: string)
    requires IsInfix(a, y)
    ensures IsInfix(a, x + y) && IsInfix(a, y + x)
  {
    var i: nat :| OccursAt(a, y, i);
    assert (x + y)[|x| + i..|x| + i + |a|] == y[i..i + |a|];
    assert OccursAt(a, x + y, |x| + i);
    assert (y + x)[i..i + |a|] == y[i..i + |a|];
    assert OccursAt(a, y + x, i);
  }

  /** A string occurs in anything built around it. */
  lemma InfixOfMiddle(a: string, x: string, y: string)
    ensures IsInfix(a, x + a + y)
  {
    assert (x + a + y)[|x|..|x| + |a|] == a;
    assert OccursAt(a, x + a + y, |x|);
  }

  lemma InfixOfSelf(a: string)
    ensures IsInfix(a, a)
  {
    assert a[0..|a|] == a;
    assert OccursAt(a, a, 0);
  }

  /** Every part of a joined string appears in it. */
  lemma {:induction false} JoinContainsParts(parts: seq<string>, sep: string, k: nat)
    requires k < |parts|
    ensures IsInfix(parts[k], Join(parts, sep))
  {
    if |parts| == 1 {
      InfixOfSelf(parts[0]);
    } else if k == 0 {
      var j := Join(parts, sep);
      assert j == parts[0] + (sep + Join(parts[1..], sep));
      assert j[0..|parts[0]|] == parts[0];
      assert OccursAt(parts[0], j, 0);
    } else {
      JoinContainsParts(parts[1..], sep, k - 1);
      InfixOfConcat(parts[k], parts[0] + sep, Join(parts[1..], sep));
      assert parts[0] + sep + Join(parts[1..], sep) == (parts[0] + sep) + Join(parts[1..], sep);
    }
  }

  /** The characters JavaScript's `trim` removes: WhiteSpace and LineTerminator of ECMA-262. */
  predicate IsJsWhitespace(c: char) {
    || c == '\t' || c == '\n' || c == '\U{000B}' || c == '\U{000C}' || c == '\r' || c == ' '
    || c == '\U{00A0}' || c == '\U{1680}' || ('\U{2000}' <= c <= '\U{200A}')
    || c == '\U{2028}' || c == '\U{2029}' || c == '\U{202F}' || c == '\U{205F}'
    || c == '\U{3000}' || c == '\U{FEFF}'
  }

  /** Every character of `s[a..b]` is whitespace. */
  ghost predicate WhitespaceBetween(s: string, a: int, b: int)
    requires 0 <= a <= b <= |s|
  {
    forall m :: a <= m < b ==> IsJsWhitespace(s[m])
  }

  /** The first index at or after `k` that does not hold whitespace. */
  function SkipForward(s: string, k: nat): (r: nat)
    requires k <= |s|
    ensures k <= r <= |s| && WhitespaceBetween(s, k, r)
    ensures r < |s| ==> !IsJsWhitespace(s[r])
    decreases |s| - k
  {
    if k < |s| && IsJsWhitespace(s[k]) then SkipForward(s, k + 1) else k
  }

  /** The least end index, not below `lo`, such that `s[r..j]` is whitespace. */
  function SkipBackward(s: string, lo: nat, j: nat): (r: nat)
    requires lo <= j <= |s|
    ensures lo <= r <= j && WhitespaceBetween(s, r, j)
    ensures r > lo ==> !IsJsWhitespace(s[r - 1])
  {
    if j > lo && IsJsWhitespace(s[j - 1]) then SkipBackward(s, lo, j - 1) else j
  }

  /** JavaScript's `s.trim()`: the input without its leading and trailing whitespace. */
  function Trim(s: string): (r: string)
    ensures exists i, j :: 0 <= i <= j <= |s| && r == s[i..j] && WhitespaceBetween(s, 0, i) && WhitespaceBetween(s, j, |s|)
    ensures |r| > 0 ==> !IsJsWhitespace(r[0]) && !IsJsWhitespace(r[|r| - 1])
    ensures r == "" <==> WhitespaceBetween(s, 0, |s|)
  {
    var i := SkipForward(s, 0);
    var j := SkipBackward(s, i, |s|);
    assert j == i ==> WhitespaceBetween(s, 0, |s|);
    assert j > i ==> !IsJsWhitespace(s[i]);
    s[i..j]
  }
}
