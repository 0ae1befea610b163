/** Text primitives of the support bot: the string operations that the agents'
    keyword tests, pattern scans and reply templates are built from. */
module Text {

  datatype Option<+T> = None | Some(value: T)

  predicate IsDigit(c: char) {
    '0' <= c <= '9'
  }

  /** Case folding of one character, as `str.lower` treats the ASCII letters. */
  function LowerChar(c: char): char {
    if 'A' <= c <= 'Z' then (c as int + 32) as char else c
  }

  /** `s.lower()`, character by character. */
  function Lower(s: string): (r: string)
    ensures |r| == |s|
  {
    seq(|s|, k requires 0 <= k < |s| => LowerChar(s[k]))
  }

  /** `t` sits in `s` starting at index `i`. */
  predicate OccursAt(t: string, s: string, i: nat) {
    i + |t| <= |s| && s[i..i + |t|] == t
  }

  /** Python's `t in s` on strings. */
  predicate IsSubstring(t: string, s: string) {
    exists i :: 0 <= i <= |s| && OccursAt(t, s, i)
  }

  /** Python's `any(w in s for w in words)`. */
  predicate ContainsAny(s: string, words: seq<string>) {
    exists w :: w in words && IsSubstring(w, s)
  }

  lemma OccursInConcat(a: string, t: string, b: string)
    ensures OccursAt(t, a + t + b, |a|)
    ensures IsSubstring(t, a + t + b)
  {
    assert (a + t + b)[|a|..|a| + |t|] == t;
    assert OccursAt(t, a + t + b, |a|);
  }

  /** A string that lacks one of the characters of `t` cannot contain `t`. */
  lemma MissingCharNotSubstring(t: string, s: string, c: char)
    requires c in t && c !in s
    ensures !IsSubstring(t, s)
  {
  }

  /** In `p + [c] + q`, where neither `p` nor `q` holds `c`, no index but
      `|p|` holds `c`. */
  lemma OnlyIndexOf(s: string, p: string, q: string, c: char, k: nat)
    requires s == p + [c] + q && c !in p && c !in q
    requires k < |s| && k != |p|
    ensures s[k] != c
  {
    if k < |p| {
      assert s[k] == p[k];
    } else {
      assert s[k] == q[k - |p| - 1];
    }
  }

  /** A string with a single `c` cannot contain a `t` that holds `c` twice. */
  lemma RepeatedCharNotSubstring(t: string, s: string, p: string, q: string, c: char, a: nat, b: nat)
    requires s == p + [c] + q && c !in p && c !in q
    requires a < b < |t| && t[a] == c && t[b] == c
    ensures !IsSubstring(t, s)
  {
    forall i | 0 <= i <= |s|
      ensures !OccursAt(t, s, i)
    {
      if i + |t| <= |s| {
        var k := if i + a == |p| then i + b else i + a;
        OnlyIndexOf(s, p, q, c, k);
        assert s[i..i + |t|][k - i] == s[k];
      }
    }
  }

  /** Lowering commutes with taking a slice. */
  lemma LowerSlice(s: string, i: nat, j: nat)
    requires i <= j <= |s|
    ensures Lower(s)[i..j] == Lower(s[i..j])
  {
  }

  /** A case variant of `w` inside `s` is `w` lowered inside `s` lowered. */
  lemma {:induction false} SubstringSurvivesLower(w: string, s: string)
    requires IsSubstring(w, s)
    ensures IsSubstring(Lower(w), Lower(s))
  {
    var i :| 0 <= i <= |s| && OccursAt(w, s, i);
    LowerSlice(s, i, i + |w|);
    assert OccursAt(Lower(w), Lower(s), i);
  }

  lemma LowerIdempotent(s: string)
    ensures Lower(Lower(s)) == Lower(s)
  {
  }

  // ---------------------------------------------------------------------
  // Decimal numerals, as an f-string renders a non-negative int.

  function DigitChar(d: nat): (c: char)
    requires d < 10
    ensures IsDigit(c)
  {
    ('0' as int + d) as char
  }

  function DigitValue(c: char): (d: nat)
    requires IsDigit(c)
    ensures d < 10
  {
    c as int - '0' as int
  }

  predicate AllDigits(s: string) {
    forall k :: 0 <= k < |s| ==> IsDigit(s[k])
  }

  /** The decimal numeral of `n`: digits only, and no leading zero. */
  function DecimalString(n: nat): (r: string)
    ensures |r| >= 1 && AllDigits(r)
    ensures r[0] == '0' <==> n == 0
    decreases n
  {
    if n < 10 then [DigitChar(n)] else DecimalString(n / 10) + [DigitChar(n % 10)]
  }

  /** The value of a numeral, most significant digit first. */
  function ParseDecimal(s: string): nat
    requires AllDigits(s)
  {
    if s == [] then 0 else 10 * ParseDecimal(s[..|s| - 1]) + DigitValue(s[|s| - 1])
  }

  lemma {:induction false} DecimalRoundTrip(n: nat)
    ensures ParseDecimal(DecimalString(n)) == n
    decreases n
  {
    if n >= 10 {
      DecimalRoundTrip(n / 10);
      var r := DecimalString(n);
      assert r[..|r| - 1] == DecimalString(n / 10);
    }
  }

  function Pow10(k: nat): nat {
    if k == 0 then 1 else 10 * Pow10(k - 1)
  }

  /** A number with k + 1 significant digits has a numeral of length k + 1. */
  lemma {:induction false} DecimalLength(n: nat, k: nat)
    requires Pow10(k) <= n < Pow10(k + 1)
    ensures |DecimalString(n)| == k + 1
    decreases k
  {
    if k > 0 {
      DecimalLength(n / 10, k - 1);
    }
  }
}
