/** The string operations the services rely on: decimal rendering of numbers,
    ASCII lower-casing, joining with a separator and substring search. */
module Strings {

  predicate IsDigit(c: char) {
    '0' <= c <= '9'
  }

  predicate IsLowerAlnum(c: char) {
    IsDigit(c) || 'a' <= c <= 'z'
  }

  predicate AllDigits(s: string) {
    forall i :: 0 <= i < |s| ==> IsDigit(s[i])
  }

  function DigitChar(d: nat): (c: char)
    requires d < 10
    ensures IsDigit(c) && c as int - '0' as int == d
  {
    ('0' as int + d) as char
  }

  /** `String(n)` for a non-negative integer: its decimal digits, no leading zero. */
  function NatToString(n: nat): (s: string)
    ensures |s| > 0 && AllDigits(s)
    ensures |s| > 1 ==> s[0] != '0'
    decreases n
  {
    if n < 10 then [DigitChar(n)] else NatToString(n / 10) + [DigitChar(n % 10)]
  }

  /** The number a string of decimal digits denotes. */
  function DigitsValue(s: string): nat
    requires AllDigits(s)
  {
    if s == [] then 0
    else DigitsValue(s[..|s| - 1]) * 10 + (s[|s| - 1] as int - '0' as int)
  }

  /** Reading back the decimal rendering of `n` gives `n`. */
  lemma {:induction false} DigitsValueOfNatToString(n: nat)
    ensures DigitsValue(NatToString(n)) == n
    decreases n
  {
    if n >= 10 {
      var s := NatToString(n);
      assert s[..|s| - 1] == NatToString(n / 10);
      DigitsValueOfNatToString(n / 10);
    }
  }

  /** Distinct numbers have distinct decimal renderings. */
  lemma NatToStringInjective(a: nat, b: nat)
    requires NatToString(a) == NatToString(b)
    ensures a == b
  {
    DigitsValueOfNatToString(a);
    DigitsValueOfNatToString(b);
  }

  function ToLowerChar(c: char): char {
    if 'A' <= c <= 'Z' then (c as int + 32) as char else c
  }

  /** `toLowerCase()` restricted to ASCII letters. */
  function ToLower(s: string): (r: string)
    ensures |r| == |s|
    ensures forall i :: 0 <= i < |s| ==> r[i] == ToLowerChar(s[i])
  {
    seq(|s|, i requires 0 <= i < |s| => ToLowerChar(s[i]))
  }

  /** `s.length`: the number of UTF-16 code units, one for a character of the Basic
      Multilingual Plane and two (a surrogate pair) for any other. */
  function Utf16Length(s: string): (n: nat)
    ensures |s| <= n <= 2 * |s|
  {
    if s == [] then 0
    else (if s[0] as int < 0x1_0000 then 1 else 2) + Utf16Length(s[1..])
  }

  /** The UTF-16 length is the number of characters exactly when no character lies
      beyond the Basic Multilingual Plane. */
  lemma {:induction false} Utf16LengthIsLength(s: string)
    ensures Utf16Length(s) == |s| <==> forall i :: 0 <= i < |s| ==> s[i] as int < 0x1_0000
    decreases |s|
  {
    if s != [] {
      Utf16LengthIsLength(s[1..]);
      assert forall i :: 0 < i < |s| ==> s[i] == s[1..][i - 1];
    }
  }

  /** `xs.join(sep)`. */
  function Join(xs: seq<string>, sep: string): string
  {
    if xs == [] then ""
    else if |xs| == 1 then xs[0]
    else xs[0] + sep + Join(xs[1..], sep)
  }

  /** Every joined string occurs in the result. */
  lemma {:induction false} JoinHoldsEach(xs: seq<string>, sep: string, i: nat)
    requires i < |xs|
    ensures Contains(Join(xs, sep), xs[i])
    decreases |xs|
  {
    var s := Join(xs, sep);
    if |xs| == 1 {
      assert s[0..|xs[0]|] == xs[0];
      ContainsAt(s, xs[0], 0);
    } else if i == 0 {
      assert s[0..|xs[0]|] == xs[0];
      ContainsAt(s, xs[0], 0);
    } else {
      JoinHoldsEach(xs[1..], sep, i - 1);
      ContainsAfter(xs[0] + sep, Join(xs[1..], sep), xs[i]);
    }
  }

  predicate IsPrefix(p: string, s: string) {
    |p| <= |s| && s[..|p|] == p
  }

  /** `s.includes(sub)`: `sub` occurs in `s` at some position. */
  predicate Contains(s: string, sub: string)
    decreases |s|
  {
    IsPrefix(sub, s) || (|s| > 0 && Contains(s[1..], sub))
  }

  /** An occurrence of `sub` at any position makes `Contains` hold. */
  lemma {:induction false} ContainsAt(s: string, sub: string, k: nat)
    requires k + |sub| <= |s| && s[k..k + |sub|] == sub
    ensures Contains(s, sub)
    decreases k
  {
    if k > 0 {
      assert s[1..][k - 1..k - 1 + |sub|] == s[k..k + |sub|];
      ContainsAt(s[1..], sub, k - 1);
    }
  }

  /** `sub` occurs in `s` starting at position `k`. */
  predicate OccursAt(s: string, sub: string, k: nat) {
    k + |sub| <= |s| && s[k..k + |sub|] == sub
  }

  /** `Contains` holds only when `sub` occurs at some position of `s`. */
  lemma {:induction false} ContainsHasPosition(s: string, sub: string)
    requires Contains(s, sub)
    ensures exists k: nat :: OccursAt(s, sub, k)
    decreases |s|
  {
    if IsPrefix(sub, s) {
      assert OccursAt(s, sub, 0);
    } else {
      ContainsHasPosition(s[1..], sub);
      var k: nat :| OccursAt(s[1..], sub, k);
      assert s[k + 1..k + 1 + |sub|] == s[1..][k..k + |sub|];
      assert OccursAt(s, sub, k + 1);
    }
  }

  /** What `t` contains, any string ending in `t` contains. */
  lemma ContainsAfter(a: string, t: string, sub: string)
    requires Contains(t, sub)
    ensures Contains(a + t, sub)
  {
    ContainsHasPosition(t, sub);
    var k: nat :| OccursAt(t, sub, k);
    assert (a + t)[|a| + k..|a| + k + |sub|] == t[k..k + |sub|];
    ContainsAt(a + t, sub, |a| + k);
  }

  /** A string in which the first character of `sub` never appears does not
      contain `sub`. */
  lemma {:induction false} FirstCharAbsent(s: string, sub: string)
    requires sub != [] && sub[0] !in s
    ensures !Contains(s, sub)
    decreases |s|
  {
    if |sub| <= |s| {
      assert s[..|sub|][0] == s[0];
    }
    if |s| > 0 {
      assert s[0] in s;
      assert forall c :: c in s[1..] ==> c in s;
      FirstCharAbsent(s[1..], sub);
    }
  }
}
