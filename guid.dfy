/**
 * The pseudo-GUID given to a model that is created without an id. The
 * random number behind each four-digit group is a parameter: `n` stands for
 * `((1 + Math.random()) * 0x10000 | 0) - 0x10000`.
 */
module Guids {

  /** The digits `Number.prototype.toString(16)` writes, lower case. */
  const HexDigits: string := "0123456789abcdef"

  /** `m.toString(16)` for a non-negative integer `m`. */
  function ToHex(m: nat): (r: string)
    ensures |r| >= 1
    ensures forall i :: 0 <= i < |r| ==> r[i] in HexDigits
  {
    if m < 16 then [HexDigits[m]]
    else ToHex(m / 16) + [HexDigits[m % 16]]
  }

  /** The value of a hexadecimal digit. */
  function DigitValue(c: char): nat
  {
    if '0' <= c <= '9' then (c - '0') as nat
    else if 'a' <= c <= 'f' then (c - 'a') as nat + 10
    else 0
  }

  /** The number a string of hexadecimal digits denotes (`parseInt(s, 16)`). */
  function HexValue(s: string): nat
  {
    if |s| == 0 then 0 else HexValue(s[..|s| - 1]) * 16 + DigitValue(s[|s| - 1])
  }

  lemma DigitValueOf(k: nat)
    requires k < 16
    ensures DigitValue(HexDigits[k]) == k
  {
  }

  /** `parseInt(m.toString(16), 16) == m`. */
  lemma {:induction false} HexRoundTrip(m: nat)
    ensures HexValue(ToHex(m)) == m
  {
    var s := ToHex(m);
    if m < 16 {
      DigitValueOf(m);
    } else {
      HexRoundTrip(m / 16);
      DigitValueOf(m % 16);
      assert s[..|s| - 1] == ToHex(m / 16);
    }
  }

  /** Between 0x10000 and 0x1ffff, `toString(16)` has five digits and starts with `1`. */
  lemma FiveHexDigits(n: nat)
    requires n < 0x10000
    ensures |ToHex(0x10000 + n)| == 5 && ToHex(0x10000 + n)[0] == '1'
  {
    var m0 := 0x10000 + n;
    var m1 := m0 / 16;
    var m2 := m1 / 16;
    var m3 := m2 / 16;
    var m4 := m3 / 16;
    assert m4 == 1 && 16 <= m3;
    assert ToHex(m4) == "1";
    assert ToHex(m3) == ToHex(m4) + [HexDigits[m3 % 16]];
    assert ToHex(m2) == ToHex(m3) + [HexDigits[m2 % 16]];
    assert ToHex(m1) == ToHex(m2) + [HexDigits[m1 % 16]];
    assert ToHex(m0) == ToHex(m1) + [HexDigits[m0 % 16]];
  }

  /** Dropping a leading `1` from five hexadecimal digits subtracts 0x10000. */
  lemma DropLeadingOne(s: string)
    requires |s| == 5 && s[0] == '1'
    ensures HexValue(s[1..]) + 0x10000 == HexValue(s)
  {
    var t := s[1..];
    var d1, d2, d3, d4 := DigitValue(s[1]), DigitValue(s[2]), DigitValue(s[3]), DigitValue(s[4]);
    assert s[..4][..3] == s[..3] && s[..3][..2] == s[..2] && s[..2][..1] == s[..1];
    assert s[..1][..0] == [];
    assert t[..3][..2] == t[..2] && t[..2][..1] == t[..1] && t[..1][..0] == [];
    assert t[..3] == s[1..4] && t[..2] == s[1..3] && t[..1] == s[1..2];
    assert HexValue(s[..1]) == 1;
    assert HexValue(s[..2]) == 1 * 16 + d1;
    assert HexValue(s[..3]) == (1 * 16 + d1) * 16 + d2;
    assert HexValue(s[..4]) == ((1 * 16 + d1) * 16 + d2) * 16 + d3;
    assert s[..5] == s;
    assert HexValue(s) == (((1 * 16 + d1) * 16 + d2) * 16 + d3) * 16 + d4;
    assert HexValue(t) == ((d1 * 16 + d2) * 16 + d3) * 16 + d4;
  }

  /** `_S4`: four lower-case hexadecimal digits that spell `n`, leading zeros kept. */
  function S4(n: nat): (r: string)
    requires n < 0x10000
    ensures |r| == 4
    ensures forall i :: 0 <= i < 4 ==> r[i] in HexDigits
  {
    FiveHexDigits(n);
    ToHex(0x10000 + n)[1..]
  }

  /** The digits `_S4` produces denote the random number they were made from. */
  lemma S4Value(n: nat)
    requires n < 0x10000
    ensures HexValue(S4(n)) == n
  {
    FiveHexDigits(n);
    HexRoundTrip(0x10000 + n);
    DropLeadingOne(ToHex(0x10000 + n));
  }

  /** Eight numbers, each one a valid `_S4` input. */
  predicate ValidParts(parts: seq<nat>)
  {
    |parts| == 8 && forall i :: 0 <= i < 8 ==> parts[i] < 0x10000
  }

  /** `_guid`: eight `_S4` groups laid out 8-4-4-4-12 with hyphens. */
  function Guid(parts: seq<nat>): (g: string)
    requires ValidParts(parts)
    ensures |g| == 36
    ensures forall i :: 0 <= i < 36 ==> (g[i] == '-' <==> i == 8 || i == 13 || i == 18 || i == 23)
    ensures forall i :: 0 <= i < 36 && g[i] != '-' ==> g[i] in HexDigits
  {
    S4(parts[0]) + S4(parts[1]) + "-" + S4(parts[2]) + "-" + S4(parts[3]) + "-" + S4(parts[4]) + "-"
      + S4(parts[5]) + S4(parts[6]) + S4(parts[7])
  }
}
