/**
 * The string operations the collections rely on, with Python's meaning:
 * `q in s` (substring test), `a <= b` on `str` (lexicographic order of code
 * points, a proper prefix coming first) and `str(i)` for an integer.
 */
module Strings {

  /** `needle` occurs in `s` starting at position `k`. */
  ghost predicate OccursAt(needle: string, s: string, k: int)
  {
    0 <= k <= |s| - |needle| && s[k..k + |needle|] == needle
  }

  /** `needle` occurs in `s` at some position. */
  ghost predicate IsSubstring(needle: string, s: string)
  {
    exists k :: OccursAt(needle, s, k)
  }

  /** Python's `needle in s`: scan the positions of `s` left to right for a prefix match. */
  function Contains(s: string, needle: string): bool
    decreases |s|
  {
    needle <= s || (s != [] && Contains(s[1..], needle))
  }

  /** The scan finds `needle` exactly when it occurs somewhere in `s`. */
  lemma {:induction false} ContainsIsSubstring(s: string, needle: string)
    ensures Contains(s, needle) <==> IsSubstring(needle, s)
    decreases |s|
  {
    if needle <= s {
      assert OccursAt(needle, s, 0);
    } else if s == [] {
      assert forall k :: !OccursAt(needle, s, k);
    } else {
      ContainsIsSubstring(s[1..], needle);
      if IsSubstring(needle, s) {
        assert !OccursAt(needle, s, 0);
        var k :| OccursAt(needle, s, k);
        assert OccursAt(needle, s[1..], k - 1) by {
          assert s[1..][k - 1..k - 1 + |needle|] == s[k..k + |needle|];
        }
      }
      if IsSubstring(needle, s[1..]) {
        var k :| OccursAt(needle, s[1..], k);
        assert OccursAt(needle, s, k + 1) by {
          assert s[k + 1..k + 1 + |needle|] == s[1..][k..k + |needle|];
        }
      }
    }
  }

  /** The empty string is in every string, as in Python. */
  lemma EmptyIsEverywhere(s: string)
    ensures Contains(s, "")
  {
  }

  /** Python's `a <= b` on `str`: compare code points left to right; a prefix comes first. */
  function LexLe(a: string, b: string): bool
    decreases |a|
  {
    if a == [] then true
    else if b == [] then false
    else if a[0] != b[0] then a[0] < b[0]
    else LexLe(a[1..], b[1..])
  }

  lemma {:induction false} LexLeReflexive(a: string)
    ensures LexLe(a, a)
    decreases |a|
  {
    if a != [] { LexLeReflexive(a[1..]); }
  }

  lemma {:induction false} LexLeTotal(a: string, b: string)
    ensures LexLe(a, b) || LexLe(b, a)
    decreases |a|
  {
    if a != [] && b != [] && a[0] == b[0] { LexLeTotal(a[1..], b[1..]); }
  }

  lemma {:induction false} LexLeAntisymmetric(a: string, b: string)
    requires LexLe(a, b) && LexLe(b, a)
    ensures a == b
    decreases |a|
  {
    if a != [] {
      LexLeAntisymmetric(a[1..], b[1..]);
      assert a == [a[0]] + a[1..] && b == [b[0]] + b[1..];
    }
  }

  lemma {:induction false} LexLeTransitive(a: string, b: string, c: string)
    requires LexLe(a, b) && LexLe(b, c)
    ensures LexLe(a, c)
    decreases |a|
  {
    if a != [] && a[0] == b[0] && b[0] == c[0] {
      LexLeTransitive(a[1..], b[1..], c[1..]);
    }
  }

  /** The decimal digit for `d`. */
  function Digit(d: nat): char
    requires d < 10
  {
    "0123456789"[d]
  }

  /** Python's `str(n)` for a natural number. */
  function NatToString(n: nat): (r: string)
    ensures |r| >= 1
    ensures forall k :: 0 <= k < |r| ==> '0' <= r[k] <= '9'
    decreases n
  {
    if n < 10 then [Digit(n)] else NatToString(n / 10) + [Digit(n % 10)]
  }

  /** Python's `str(i)` for an integer: a leading minus sign for negative values. */
  function IntToString(i: int): (r: string)
    ensures |r| >= 1
    ensures (r[0] == '-') <==> i < 0
  {
    if i < 0 then "-" + NatToString(-i) else NatToString(i)
  }
}
