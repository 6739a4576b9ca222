/** Python 2 three-way comparison (`cmp`) on the attribute types a Note holds. */
module Ordering {

  /** `cmp` on integers: the sign of `x - y`. */
  function IntCmp(x: int, y: int): (c: int)
    ensures -1 <= c <= 1
    ensures c == 0 <==> x == y
    ensures c < 0 <==> x < y
  {
    if x < y then -1 else if x > y then 1 else 0
  }

  /** `cmp` on strings: lexicographic by character code, a proper prefix first. */
  function StrCmp(s: string, t: string): (c: int)
    ensures -1 <= c <= 1
  {
    if |s| == 0 && |t| == 0 then 0
    else if |s| == 0 then -1
    else if |t| == 0 then 1
    else if s[0] < t[0] then -1
    else if s[0] > t[0] then 1
    else StrCmp(s[1..], t[1..])
  }

  /** Swapping the operands negates the comparison. */
  lemma {:induction false} StrCmpAntisymmetric(s: string, t: string)
    ensures StrCmp(s, t) == -StrCmp(t, s)
  {
    if |s| > 0 && |t| > 0 && s[0] == t[0] {
      StrCmpAntisymmetric(s[1..], t[1..]);
    }
  }

  /** Two strings compare equal exactly when they are the same string. */
  lemma {:induction false} StrCmpZero(s: string, t: string)
    ensures StrCmp(s, t) == 0 <==> s == t
  {
    if |s| > 0 && |t| > 0 && s[0] == t[0] {
      StrCmpZero(s[1..], t[1..]);
      assert s == [s[0]] + s[1..] && t == [t[0]] + t[1..];
    }
  }

  /** "Not after" is transitive. */
  lemma {:induction false} StrCmpTransitive(s: string, t: string, u: string)
    requires StrCmp(s, t) <= 0 && StrCmp(t, u) <= 0
    ensures StrCmp(s, u) <= 0
  {
    if |s| > 0 && |t| > 0 && |u| > 0 && s[0] == t[0] && t[0] == u[0] {
      StrCmpTransitive(s[1..], t[1..], u[1..]);
    }
  }
}
