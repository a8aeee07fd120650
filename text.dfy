/**
 * The string primitives the validation engine and the route rely on:
 * lower-casing, `String.prototype.includes`, and the decimal rendering
 * of a non-negative integer that template literals such as `qty-${idx}`
 * perform.
 */
module Text {

  /** Lower-casing of one character, restricted to the ASCII letters. */
  function LowerChar(c: char): char {
    if 'A' <= c <= 'Z' then (c as int + 32) as char else c
  }

  /** `s.toLowerCase()`, character by character (ASCII letters only). */
  function Lower(s: string): (r: string)
    ensures |r| == |s|
  {
    seq(|s|, i requires 0 <= i < |s| => LowerChar(s[i]))
  }

  /** `s.includes(t)`: t occurs in s as a contiguous block, starting at some offset. */
  predicate Includes(s: string, t: string)
    decreases |s|
  {
    |t| <= |s| && (s[..|t|] == t || Includes(s[1..], t))
  }

  /** The offset-based reading of `includes`: Includes agrees with it. */
  ghost predicate OccursAt(s: string, t: string, k: int) {
    0 <= k && k + |t| <= |s| && s[k..k + |t|] == t
  }

  lemma {:induction false} IncludesIffOccurs(s: string, t: string)
    ensures Includes(s, t) <==> exists k :: OccursAt(s, t, k)
    decreases |s|
  {
    if |t| <= |s| && s[..|t|] != t {
      IncludesIffOccurs(s[1..], t);
      if Includes(s[1..], t) {
        var k :| OccursAt(s[1..], t, k);
        OccursShift(s, t, k + 1);
      } else {
        forall k ensures !OccursAt(s, t, k) {
          if 0 < k {
            OccursShift(s, t, k);
          }
        }
      }
    } else if |t| <= |s| {
      assert OccursAt(s, t, 0);
    }
  }

  /** An occurrence past the first character is an occurrence in the rest of the string. */
  lemma OccursShift(s: string, t: string, k: int)
    requires 0 < k && |s| > 0
    ensures OccursAt(s, t, k) <==> OccursAt(s[1..], t, k - 1)
  {
    if k + |t| <= |s| {
      assert s[1..][k - 1..k - 1 + |t|] == s[k..k + |t|];
    }
  }

  /** The empty string is included in every string, and every string includes itself. */
  lemma IncludesTrivial(s: string)
    ensures Includes(s, "")
    ensures Includes(s, s)
  {
    assert s[..0] == "";
    assert s[..|s|] == s;
  }

  /** A character of t that s lacks rules out every occurrence of t in s. */
  lemma {:induction false} AbsentCharExcludes(s: string, t: string, j: nat)
    requires j < |t| && t[j] !in s
    ensures !Includes(s, t)
    decreases |s|
  {
    if |t| <= |s| {
      assert s[..|t|][j] == s[j];
      AbsentCharExcludes(s[1..], t, j);
    }
  }

  predicate IsDigits(s: string) {
    forall i :: 0 <= i < |s| ==> '0' <= s[i] <= '9'
  }

  function DigitChar(d: nat): (c: char)
    requires d < 10
    ensures '0' <= c <= '9'
  {
    ('0' as int + d) as char
  }

  /** The decimal text of n that `${n}` yields for a non-negative integer. */
  function NatToString(n: nat): (s: string)
    ensures |s| >= 1 && IsDigits(s)
    decreases n
  {
    if n < 10 then [DigitChar(n)] else NatToString(n / 10) + [DigitChar(n % 10)]
  }

  /** Reads a string of decimal digits back as a number. */
  function DigitsValue(s: string): nat
    requires IsDigits(s)
  {
    if s == [] then 0 else DigitsValue(s[..|s| - 1]) * 10 + (s[|s| - 1] as int - '0' as int)
  }

  lemma {:induction false} DigitsValueOfNatToString(n: nat)
    ensures DigitsValue(NatToString(n)) == n
    decreases n
  {
    if n >= 10 {
      var s := NatToString(n);
      assert s[..|s| - 1] == NatToString(n / 10);
      DigitsValueOfNatToString(n / 10);
    }
  }

  /** Different numbers render as different texts. */
  lemma NatToStringInjective(m: nat, n: nat)
    requires NatToString(m) == NatToString(n)
    ensures m == n
  {
    DigitsValueOfNatToString(m);
    DigitsValueOfNatToString(n);
  }

  /** Identifiers built as a fixed tag followed by a number differ when the numbers do. */
  lemma TaggedNumberInjective(tag: string, m: nat, n: nat)
    requires tag + NatToString(m) == tag + NatToString(n)
    ensures m == n
  {
    assert (tag + NatToString(m))[|tag|..] == NatToString(m);
    assert (tag + NatToString(n))[|tag|..] == NatToString(n);
    NatToStringInjective(m, n);
  }
}
