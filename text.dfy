/**
 * Text helpers shared by the model: decimal rendering of numbers (JavaScript's
 * `Number.prototype.toString` on integers), parsing it back, `padStart`,
 * `join`, `slice` from the start, and literal substring search.
 */
module Text {

  predicate IsDigit(c: char) { '0' <= c <= '9' }
  predicate IsLower(c: char) { 'a' <= c <= 'z' }
  predicate IsUpper(c: char) { 'A' <= c <= 'Z' }
  predicate IsLetter(c: char) { IsLower(c) || IsUpper(c) }
  predicate IsAlnum(c: char) { IsLetter(c) || IsDigit(c) }

  predicate AllDigits(s: string) { forall i :: 0 <= i < |s| ==> IsDigit(s[i]) }

  function Pow10(k: nat): (p: nat)
    ensures p >= 1
  {
    if k == 0 then 1 else 10 * Pow10(k - 1)
  }

  function DigitChar(d: nat): (c: char)
    requires d < 10
    ensures IsDigit(c)
  {
    (48 + d) as char
  }

  function DigitValue(c: char): (d: nat)
    requires IsDigit(c)
    ensures d < 10 && DigitChar(d) == c
  {
    c as int - 48
  }

  /** The decimal text of a natural number, as JavaScript prints an integer. */
  function NatToString(n: nat): (s: string)
    ensures |s| >= 1 && AllDigits(s)
    ensures s[|s| - 1] == DigitChar(n % 10)
  {
    if n < 10 then [DigitChar(n)] else NatToString(n / 10) + [DigitChar(n % 10)]
  }

  /** The decimal text of an integer; negative numbers get a leading minus. */
  function IntToString(i: int): (s: string)
    ensures |s| >= 1
    ensures i >= 0 <==> IsDigit(s[0])
    ensures i < 0 ==> s[0] == '-'
  {
    if i < 0 then "-" + NatToString(-i) else NatToString(i)
  }

  /** Reads a string of decimal digits as a number (the inverse of NatToString). */
  function ParseNat(s: string): nat
    requires AllDigits(s)
  {
    if s == [] then 0 else ParseNat(s[..|s| - 1]) * 10 + DigitValue(s[|s| - 1])
  }

  lemma {:induction false} NatToStringFirst(n: nat)
    ensures n >= 10 ==> NatToString(n)[0] != '0'
    ensures n < 10 ==> NatToString(n) == [DigitChar(n)]
  {
    if n >= 10 {
      NatToStringFirst(n / 10);
    }
  }

  /** Parsing the decimal text of n gives n back. */
  lemma {:induction false} ParseNatToString(n: nat)
    ensures ParseNat(NatToString(n)) == n
  {
    if n >= 10 {
      var t := NatToString(n / 10);
      var s := t + [DigitChar(n % 10)];
      assert s[..|s| - 1] == t;
      ParseNatToString(n / 10);
    }
  }

  /** A string of k digits reads as a number below 10^k. */
  lemma {:induction false} ParseNatUpper(d: string)
    requires AllDigits(d)
    ensures ParseNat(d) < Pow10(|d|)
  {
    if d != [] {
      ParseNatUpper(d[..|d| - 1]);
    }
  }

  /** A string of k > 1 digits without a leading zero reads as a number of at
      least 10^(k-1). */
  lemma {:induction false} ParseNatLower(d: string)
    requires |d| > 1 && AllDigits(d) && d[0] != '0'
    ensures Pow10(|d| - 1) <= ParseNat(d)
  {
    var t := d[..|d| - 1];
    assert t[0] == d[0];
    if |t| == 1 {
      assert t[..0] == [];
      assert ParseNat(t) == DigitValue(t[0]);
    } else {
      ParseNatLower(t);
    }
  }

  /** A digit string without a leading zero is the decimal text of its value,
      and its length fixes the range the value lies in. */
  lemma {:induction false} NatToStringParse(d: string)
    requires |d| >= 1 && AllDigits(d) && (|d| > 1 ==> d[0] != '0')
    ensures NatToString(ParseNat(d)) == d
    ensures ParseNat(d) < Pow10(|d|)
    ensures |d| > 1 ==> Pow10(|d| - 1) <= ParseNat(d)
  {
    ParseNatUpper(d);
    if |d| == 1 {
      assert d[..0] == [];
      assert d == [d[0]];
    } else {
      ParseNatLower(d);
      var t := d[..|d| - 1];
      assert t[0] == d[0];
      NatToStringParse(t);
      var p := ParseNat(t);
      var v := DigitValue(d[|d| - 1]);
      assert (p * 10 + v) / 10 == p && (p * 10 + v) % 10 == v;
      assert d == t + [d[|d| - 1]];
    }
  }

  lemma {:induction false} Pow10Monotone(j: nat, k: nat)
    requires j <= k
    ensures Pow10(j) <= Pow10(k)
    decreases k
  {
    if j < k {
      Pow10Monotone(j, k - 1);
    }
  }

  lemma Pow10Below(j: nat, k: nat)
    requires Pow10(j) < Pow10(k)
    ensures j < k
  {
    if j >= k {
      Pow10Monotone(k, j);
    }
  }

  /** A decimal text of more than k digits denotes at least 10^k. */
  lemma DigitCountAbove(n: nat, k: nat)
    requires Pow10(k) <= n
    ensures |NatToString(n)| > k
  {
    NatToStringLength(n);
    Pow10Below(k, |NatToString(n)|);
  }

  /** A number below 10^k, k >= 1, has at most k digits. */
  lemma DigitCountBelow(n: nat, k: nat)
    requires 1 <= k && n < Pow10(k)
    ensures |NatToString(n)| <= k
  {
    NatToStringLength(n);
    if |NatToString(n)| > 1 {
      Pow10Below(|NatToString(n)| - 1, k);
    }
  }

  /** The number of digits of n determines the range n lies in. */
  lemma {:induction false} NatToStringLength(n: nat)
    ensures n < Pow10(|NatToString(n)|)
    ensures |NatToString(n)| > 1 ==> Pow10(|NatToString(n)| - 1) <= n
  {
    NatToStringFirst(n);
    NatToStringParse(NatToString(n));
    ParseNatToString(n);
  }

  function Repeat(c: char, n: nat): (s: string)
    ensures |s| == n && forall i :: 0 <= i < n ==> s[i] == c
  {
    if n == 0 then [] else Repeat(c, n - 1) + [c]
  }

  /** JavaScript `s.padStart(width, fill)` for a one-character fill string. */
  function PadStart(s: string, width: nat, fill: char): (r: string)
    ensures |r| == if |s| >= width then |s| else width
    ensures r[|r| - |s|..] == s
    ensures forall i :: 0 <= i < |r| - |s| ==> r[i] == fill
  {
    if |s| >= width then s else Repeat(fill, width - |s|) + s
  }

  /** Two-digit zero padding of a number below 100 is its tens and units digits. */
  lemma TwoDigits(n: nat)
    requires n < 100
    ensures PadStart(NatToString(n), 2, '0') == [DigitChar(n / 10), DigitChar(n % 10)]
  {
    NatToStringFirst(n);
    if n >= 10 {
      NatToStringFirst(n / 10);
    }
  }

  /** JavaScript `parts.join(sep)`. */
  function Join(parts: seq<string>, sep: string): (r: string)
    ensures parts == [] ==> r == ""
    ensures |parts| == 1 ==> r == parts[0]
  {
    if parts == [] then ""
    else if |parts| == 1 then parts[0]
    else parts[0] + sep + Join(parts[1..], sep)
  }

  /** JavaScript `s.slice(0, n)`: the first n characters, or all of s if shorter. */
  function Prefix(s: string, n: nat): (r: string)
    ensures |r| == if |s| < n then |s| else n
    ensures r <= s
  {
    if |s| < n then s else s[..n]
  }

  predicate StartsWith(s: string, p: string) { p <= s }

  /** A character outside the Basic Multilingual Plane, which UTF-16 writes
      as a surrogate pair. */
  predicate Astral(c: char) { c >= '\U{10000}' }

  /** JavaScript's `s.length`: the number of UTF-16 code units, two for each
      astral character and one for every other. */
  function Utf16Length(s: string): (n: nat)
    ensures |s| <= n <= 2 * |s|
  {
    if s == [] then 0
    else Utf16Length(s[..|s| - 1]) + (if Astral(s[|s| - 1]) then 2 else 1)
  }

  /** Inside the Basic Multilingual Plane the JavaScript length is the
      number of characters. */
  lemma {:induction false} Utf16LengthBmp(s: string)
    requires forall i :: 0 <= i < |s| ==> !Astral(s[i])
    ensures Utf16Length(s) == |s|
  {
    if s != [] {
      Utf16LengthBmp(s[..|s| - 1]);
    }
  }

  /** Each astral character adds two to the JavaScript length. */
  lemma {:induction false} Utf16LengthAstral(s: string)
    requires forall i :: 0 <= i < |s| ==> Astral(s[i])
    ensures Utf16Length(s) == 2 * |s|
  {
    if s != [] {
      Utf16LengthAstral(s[..|s| - 1]);
    }
  }

  /** `pat` occurs in `s` starting at index i. */
  predicate OccursAt(s: string, pat: string, i: nat)
  {
    i + |pat| <= |s| && s[i..i + |pat|] == pat
  }

  predicate Contains(s: string, pat: string)
  {
    exists i: nat | i + |pat| <= |s| :: OccursAt(s, pat, i)
  }
}
