/**
 * The string operations the components use: `String.prototype.includes` (MIME and control-name
 * checks) and the decimal rendering of a whole number inside a template literal.
 */
module Strings {

  predicate OccursAt(s: string, t: string, i: nat)
    requires i + |t| <= |s|
  {
    s[i..i + |t|] == t
  }

  /** `s.includes(t)`: `t` occurs somewhere in `s`. */
  predicate Contains(s: string, t: string) {
    exists i: nat :: i + |t| <= |s| && OccursAt(s, t, i)
  }

  /** A character of `t` (the one at index `j`) that `s` lacks rules out every occurrence of `t` in `s`. */
  lemma NotContainsIfAbsent(s: string, t: string, j: nat)
    requires j < |t| && forall k :: 0 <= k < |s| ==> s[k] != t[j]
    ensures !Contains(s, t)
  {
    forall i: nat | i + |t| <= |s|
      ensures !OccursAt(s, t, i)
    {
      assert s[i..i + |t|][j] != t[j];
    }
  }

  /** `t` occurs in any string that has it in the middle. */
  lemma ContainsMiddle(u: string, t: string, v: string)
    ensures Contains(u + t + v, t)
  {
    assert (u + t + v)[|u|..|u| + |t|] == t;
    assert OccursAt(u + t + v, t, |u|);
  }

  predicate IsDigit(c: char) {
    '0' <= c <= '9'
  }

  /** The decimal text of a whole number, as a template literal renders it. */
  function Decimal(n: nat): (s: string)
    ensures |s| >= 1 && forall i :: 0 <= i < |s| ==> IsDigit(s[i])
    ensures n < 10 <==> |s| == 1
  {
    if n < 10 then [('0' as int + n) as char]
    else Decimal(n / 10) + [('0' as int + n % 10) as char]
  }

  /** The number a string of decimal digits denotes. */
  function DigitsValue(s: string): nat
    requires forall i :: 0 <= i < |s| ==> IsDigit(s[i])
  {
    if s == [] then 0
    else
      assert IsDigit(s[|s| - 1]);
      DigitsValue(s[..|s| - 1]) * 10 + (s[|s| - 1] as int - '0' as int)
  }

  /** Reading the decimal text back gives the number. */
  lemma {:induction false} DecimalRoundTrip(n: nat)
    ensures DigitsValue(Decimal(n)) == n
  {
    if n >= 10 {
      DecimalRoundTrip(n / 10);
      var s := Decimal(n);
      assert s[..|s| - 1] == Decimal(n / 10);
    }
  }
}
