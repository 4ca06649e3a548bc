/**
 * Character-level helpers the source uses implicitly: decimal rendering of
 * integers inside template strings and f-strings, ASCII lower-casing and
 * substring search (`pat in s` in Python).
 */
module Text {

  predicate IsDigit(c: char) {
    '0' <= c <= '9'
  }

  function DigitChar(d: nat): (c: char)
    requires d < 10
    ensures IsDigit(c) && DigitValue(c) == d
  {
    (d + '0' as int) as char
  }

  function DigitValue(c: char): int {
    c as int - '0' as int
  }

  /** The decimal rendering of `n`, as `${n}` in JavaScript and f"{n}" in Python. */
  function NatToString(n: nat): (s: string)
    ensures 1 <= |s|
    ensures forall i :: 0 <= i < |s| ==> IsDigit(s[i])
    ensures s[0] == '0' ==> n == 0
  {
    if n < 10 then [DigitChar(n)] else NatToString(n / 10) + [DigitChar(n % 10)]
  }

  /** Reads a string of decimal digits back as a number. */
  function DigitsToNat(s: string): int {
    if |s| == 0 then 0 else DigitsToNat(s[..|s| - 1]) * 10 + DigitValue(s[|s| - 1])
  }

  lemma {:induction false} DigitsToNatOfNatToString(n: nat)
    ensures DigitsToNat(NatToString(n)) == n
  {
    if n >= 10 {
      var s := NatToString(n / 10);
      DigitsToNatOfNatToString(n / 10);
      assert NatToString(n)[..|NatToString(n)| - 1] == s;
    }
  }

  /** Distinct numbers render to distinct strings. */
  lemma NatToStringInjective(a: nat, b: nat)
    requires NatToString(a) == NatToString(b)
    ensures a == b
  {
    DigitsToNatOfNatToString(a);
    DigitsToNatOfNatToString(b);
  }

  /** `prefix + NatToString(n) + suffix` determines `n`. */
  lemma NumberedNameInjective(prefix: string, suffix: string, a: nat, b: nat)
    requires prefix + NatToString(a) + suffix == prefix + NatToString(b) + suffix
    ensures a == b
  {
    var x, y := prefix + NatToString(a) + suffix, prefix + NatToString(b) + suffix;
    assert |NatToString(a)| == |NatToString(b)|;
    assert NatToString(a) == x[|prefix|..|x| - |suffix|];
    assert NatToString(b) == y[|prefix|..|y| - |suffix|];
    NatToStringInjective(a, b);
  }

  function LowerChar(c: char): char {
    if 'A' <= c <= 'Z' then (c as int + 32) as char else c
  }

  /** `str.lower()`, restricted to the ASCII letters. */
  function Lower(s: string): string {
    seq(|s|, i requires 0 <= i < |s| => LowerChar(s[i]))
  }

  /** Python's `pat in s` for strings: `pat` occurs in `s` at some offset. */
  predicate Contains(s: string, pat: string)
    decreases |s|
  {
    if |s| < |pat| then false
    else s[..|pat|] == pat || Contains(s[1..], pat)
  }

  /** `pat` occurs in `s` starting at offset `i`. */
  predicate OccursAt(s: string, pat: string, i: int) {
    0 <= i && i + |pat| <= |s| && s[i..i + |pat|] == pat
  }

  /** The recursive search finds exactly the occurrences at some offset. */
  lemma {:induction false} ContainsIff(s: string, pat: string)
    ensures Contains(s, pat) <==> exists i :: OccursAt(s, pat, i)
    decreases |s|
  {
    if |s| >= |pat| && |s| > 0 {
      ContainsIff(s[1..], pat);
      if s[..|pat|] == pat {
        assert OccursAt(s, pat, 0);
      }
      if Contains(s[1..], pat) {
        var i :| OccursAt(s[1..], pat, i);
        assert OccursAt(s, pat, i + 1);
      }
      if exists i :: OccursAt(s, pat, i) {
        var i :| OccursAt(s, pat, i);
        if i > 0 {
          assert OccursAt(s[1..], pat, i - 1);
        } else {
          assert s[..|pat|] == s[i..i + |pat|];
        }
      }
    } else if |s| >= |pat| {
      assert OccursAt(s, pat, 0);
    }
  }
}
