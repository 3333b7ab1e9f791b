/** Rendering of a 64-bit request fingerprint as a store key: `strconv.FormatUint(hash, 16)`
    gives lower-case base-16 digits with no leading zeros ("0" for zero). */
module Hex {

  newtype uint64 = x: int | 0 <= x < 0x1_0000_0000_0000_0000

  predicate IsHexDigit(c: char) {
    '0' <= c <= '9' || 'a' <= c <= 'f'
  }

  predicate AllHexDigits(s: string) {
    forall i :: 0 <= i < |s| ==> IsHexDigit(s[i])
  }

  /** A key as FormatUint writes it: non-empty, hex digits only, no leading zero except "0" itself. */
  predicate Canonical(s: string) {
    |s| > 0 && AllHexDigits(s) && (s[0] == '0' ==> |s| == 1)
  }

  function DigitChar(d: nat): (c: char)
    requires d < 16
    ensures IsHexDigit(c)
    ensures c == '0' <==> d == 0
  {
    if d < 10 then ('0' as int + d) as char else ('a' as int + (d - 10)) as char
  }

  function DigitValue(c: char): (d: nat)
    requires IsHexDigit(c)
    ensures d < 16 && DigitChar(d) == c
    ensures d == 0 <==> c == '0'
  {
    if c <= '9' then c as int - '0' as int else c as int - 'a' as int + 10
  }

  lemma DigitRoundTrip(d: nat)
    requires d < 16
    ensures DigitValue(DigitChar(d)) == d
  {
  }

  /** FormatUint(n, 16): most significant digit first. */
  function FormatHex(n: nat): (s: string)
    ensures |s| > 0 && AllHexDigits(s)
    decreases n
  {
    if n < 16 then [DigitChar(n)] else FormatHex(n / 16) + [DigitChar(n % 16)]
  }

  /** The reference reading of a string of hex digits as a number (ParseUint(s, 16) without its range check). */
  function ParseHex(s: string): (n: nat)
    requires AllHexDigits(s)
  {
    if s == [] then 0 else ParseHex(s[..|s| - 1]) * 16 + DigitValue(s[|s| - 1])
  }

  lemma {:induction false} ParseFormat(n: nat)
    ensures ParseHex(FormatHex(n)) == n
    decreases n
  {
    var s := FormatHex(n);
    if n < 16 {
      assert s[..0] == [];
    } else {
      ParseFormat(n / 16);
      assert s[..|s| - 1] == FormatHex(n / 16);
      DigitRoundTrip(n % 16);
    }
  }

  lemma {:induction false} FormatCanonical(n: nat)
    ensures Canonical(FormatHex(n))
    ensures FormatHex(n)[0] == '0' <==> n == 0
    decreases n
  {
    if n >= 16 {
      FormatCanonical(n / 16);
    }
  }

  lemma {:induction false} ParsePositive(s: string)
    requires |s| > 0 && AllHexDigits(s) && s[0] != '0'
    ensures ParseHex(s) > 0
    decreases |s|
  {
    if |s| > 1 {
      var p := s[..|s| - 1];
      assert p[0] == s[0];
      ParsePositive(p);
    }
  }

  /** The other direction of the round trip: every canonical key is the rendering of the number it denotes. */
  lemma {:induction false} FormatParse(s: string)
    requires Canonical(s)
    ensures FormatHex(ParseHex(s)) == s
    decreases |s|
  {
    if |s| == 1 {
      assert s[..0] == [];
      assert s == [s[0]];
    } else {
      var p := s[..|s| - 1];
      assert p[0] == s[0];
      ParsePositive(p);
      FormatParse(p);
      var d := DigitValue(s[|s| - 1]);
      var n := ParseHex(s);
      assert n == ParseHex(p) * 16 + d;
      assert n / 16 == ParseHex(p) && n % 16 == d;
      assert s == p + [s[|s| - 1]];
    }
  }

  lemma FormatInjective(a: nat, b: nat)
    ensures FormatHex(a) == FormatHex(b) ==> a == b
  {
    ParseFormat(a);
    ParseFormat(b);
  }

  function Pow16(k: nat): (p: nat)
    ensures p >= 1
  {
    if k == 0 then 1 else 16 * Pow16(k - 1)
  }

  /** No leading zeros means the rendering is as short as possible: at most k digits exactly when n < 16^k. */
  lemma {:induction false} FormatLength(n: nat, k: nat)
    requires k >= 1
    ensures |FormatHex(n)| <= k <==> n < Pow16(k)
    decreases n
  {
    if n >= 16 {
      if k == 1 {
        assert Pow16(1) == 16;
      } else {
        FormatLength(n / 16, k - 1);
        assert Pow16(k) == 16 * Pow16(k - 1);
        assert n / 16 < Pow16(k - 1) <==> n < 16 * Pow16(k - 1);
      }
    } else {
      assert Pow16(k) == 16 * Pow16(k - 1);
    }
  }

  lemma {:induction false} Pow16Add(a: nat, b: nat)
    ensures Pow16(a + b) == Pow16(a) * Pow16(b)
    decreases a
  {
    if a > 0 {
      Pow16Add(a - 1, b);
    }
  }

  lemma Pow16At16()
    ensures Pow16(16) == 0x1_0000_0000_0000_0000
  {
    assert Pow16(2) == 256;
    Pow16Add(2, 2);
    Pow16Add(4, 4);
    Pow16Add(8, 8);
  }

  /** hashToStr: the store key of a fingerprint. */
  function HashToStr(hash: uint64): (key: string)
    ensures Canonical(key)
    ensures 1 <= |key| <= 16
    ensures ParseHex(key) == hash as nat
  {
    FormatCanonical(hash as nat);
    ParseFormat(hash as nat);
    Pow16At16();
    FormatLength(hash as nat, 16);
    FormatHex(hash as nat)
  }

  /** Distinct fingerprints never share a store key. */
  lemma HashToStrInjective(a: uint64, b: uint64)
    ensures HashToStr(a) == HashToStr(b) <==> a == b
  {
    FormatInjective(a as nat, b as nat);
  }
}
