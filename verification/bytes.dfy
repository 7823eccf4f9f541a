/** Bytes, fixed-width integers as bytes, and hexadecimal text. */
module Bytes {

  type Byte = b: nat | b < 256

  /** `n` as `k` bytes, least significant first; higher bits are lost. */
  function LittleEndian(n: nat, k: nat): (s: seq<Byte>)
    ensures |s| == k
  {
    if k == 0 then [] else [n % 256] + LittleEndian(n / 256, k - 1)
  }

  function FromLittleEndian(s: seq<Byte>): nat {
    if s == [] then 0 else s[0] + 256 * FromLittleEndian(s[1..])
  }

  function Pow256(k: nat): (p: nat)
    ensures p >= 1
  {
    if k == 0 then 1 else 256 * Pow256(k - 1)
  }

  lemma QuotientBelow(n: nat, p: nat)
    requires p >= 1 && n < 256 * p
    ensures n / 256 < p
  {
  }

  lemma {:induction false} LittleEndianBack(n: nat, k: nat)
    requires n < Pow256(k)
    ensures FromLittleEndian(LittleEndian(n, k)) == n
  {
    if k > 0 {
      QuotientBelow(n, Pow256(k - 1));
      LittleEndianBack(n / 256, k - 1);
      assert LittleEndian(n, k)[1..] == LittleEndian(n / 256, k - 1);
    }
  }

  lemma LittleEndianInjective(a: nat, b: nat, k: nat)
    requires a < Pow256(k) && b < Pow256(k) && LittleEndian(a, k) == LittleEndian(b, k)
    ensures a == b
  {
    LittleEndianBack(a, k);
    LittleEndianBack(b, k);
  }

  function Reversed(s: seq<Byte>): (r: seq<Byte>)
    ensures |r| == |s|
  {
    if s == [] then [] else Reversed(s[1..]) + [s[0]]
  }

  lemma {:induction false} ReversedSnoc(s: seq<Byte>, b: Byte)
    ensures Reversed(s + [b]) == [b] + Reversed(s)
  {
    if s != [] {
      assert (s + [b])[1..] == s[1..] + [b];
      ReversedSnoc(s[1..], b);
    }
  }

  lemma {:induction false} ReversedTwice(s: seq<Byte>)
    ensures Reversed(Reversed(s)) == s
  {
    if s != [] {
      ReversedTwice(s[1..]);
      ReversedSnoc(Reversed(s[1..]), s[0]);
    }
  }

  /** `n` as `k` bytes, most significant first. */
  function BigEndian(n: nat, k: nat): (s: seq<Byte>)
    ensures |s| == k
  {
    Reversed(LittleEndian(n, k))
  }

  function FromBigEndian(s: seq<Byte>): nat {
    FromLittleEndian(Reversed(s))
  }

  lemma BigEndianBack(n: nat, k: nat)
    requires n < Pow256(k)
    ensures FromBigEndian(BigEndian(n, k)) == n
  {
    ReversedTwice(LittleEndian(n, k));
    LittleEndianBack(n, k);
  }

  /** Equal concatenations whose first parts have equal length have equal parts. */
  lemma CutEqual<T>(a: seq<T>, x: seq<T>, b: seq<T>, y: seq<T>)
    requires |a| == |b| && a + x == b + y
    ensures a == b && x == y
  {
    assert a == (a + x)[..|a|] && b == (b + y)[..|b|];
    assert x == (a + x)[|a|..] && y == (b + y)[|b|..];
  }

  // ---- hexadecimal ----

  function Digit(n: nat): char
    requires n < 16
  {
    if n < 10 then '0' + n as char else 'a' + (n - 10) as char
  }

  /** Both cases are read. */
  function DigitValue(c: char): int {
    if '0' <= c <= '9' then (c - '0') as int
    else if 'a' <= c <= 'f' then (c - 'a') as int + 10
    else if 'A' <= c <= 'F' then (c - 'A') as int + 10
    else -1
  }

  function HexEncode(s: seq<Byte>): (r: string)
    ensures |r| == 2 * |s|
  {
    if s == [] then "" else [Digit(s[0] / 16), Digit(s[0] % 16)] + HexEncode(s[1..])
  }

  datatype Decoded = Malformed | Value(bytes: seq<Byte>)

  function HexDecode(s: string): Decoded {
    if s == "" then Value([])
    else if |s| == 1 || DigitValue(s[0]) < 0 || DigitValue(s[1]) < 0 then Malformed
    else
      match HexDecode(s[2..])
      case Malformed => Malformed
      case Value(rest) => Value([DigitValue(s[0]) * 16 + DigitValue(s[1])] + rest)
  }

  lemma DigitBack(n: nat)
    requires n < 16
    ensures DigitValue(Digit(n)) == n
  {
  }

  lemma {:induction false} HexBack(s: seq<Byte>)
    ensures HexDecode(HexEncode(s)) == Value(s)
  {
    if s != [] {
      HexBack(s[1..]);
      DigitBack(s[0] / 16);
      DigitBack(s[0] % 16);
      assert HexEncode(s)[2..] == HexEncode(s[1..]);
    }
  }

  predicate LowerCase(s: string) {
    forall i | 0 <= i < |s| :: !('A' <= s[i] <= 'F')
  }

  lemma {:induction false} HexIsLower(s: seq<Byte>)
    ensures LowerCase(HexEncode(s))
  {
    if s != [] { HexIsLower(s[1..]); }
  }

  lemma DigitOfLower(c: char)
    requires DigitValue(c) >= 0 && !('A' <= c <= 'F')
    ensures 0 <= DigitValue(c) < 16 && Digit(DigitValue(c)) == c
  {
  }

  /** Lower-case text that decodes is the encoding of what it decodes to. */
  lemma {:induction false} LowerIsCanonical(s: string)
    requires LowerCase(s) && HexDecode(s).Value?
    ensures HexEncode(HexDecode(s).bytes) == s
  {
    if s != "" {
      DigitOfLower(s[0]);
      DigitOfLower(s[1]);
      LowerIsCanonical(s[2..]);
      var b := HexDecode(s).bytes;
      assert b[1..] == HexDecode(s[2..]).bytes;
      assert b[0] / 16 == DigitValue(s[0]) && b[0] % 16 == DigitValue(s[1]);
      assert s == [s[0], s[1]] + s[2..];
    }
  }
}
