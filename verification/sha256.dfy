/** The build script's own SHA-256, and the functions of FIPS 180-4 it computes. */
module Sha256 {
  import opened Bytes
  import opened Sha256Constants

  function Constant(t: nat): Word
    requires t < 64
  {
    K[t]
  }

  /** Addition modulo 2^32. */
  function Plus(x: Word, y: Word): Word {
    (x + y) % U32
  }

  function Bits(x: Word): bv32 {
    x as bv32
  }

  function Number(b: bv32): Word {
    b as nat
  }

  function Rotr(n: nat, x: Word): bv32
    requires n <= 32
  {
    Bits(x).RotateRight(n)
  }

  // ---- section 4.1.2 ----

  function Ch(x: Word, y: Word, z: Word): Word {
    Number((Bits(x) & Bits(y)) ^ (!Bits(x) & Bits(z)))
  }

  function Maj(x: Word, y: Word, z: Word): Word {
    Number((Bits(x) & Bits(y)) ^ (Bits(x) & Bits(z)) ^ (Bits(y) & Bits(z)))
  }

  function BigSigma0(x: Word): Word {
    Number(Rotr(2, x) ^ Rotr(13, x) ^ Rotr(22, x))
  }

  function BigSigma1(x: Word): Word {
    Number(Rotr(6, x) ^ Rotr(11, x) ^ Rotr(25, x))
  }

  function SmallSigma0(x: Word): Word {
    Number(Rotr(7, x) ^ Rotr(18, x) ^ (Bits(x) >> 3))
  }

  function SmallSigma1(x: Word): Word {
    Number(Rotr(17, x) ^ Rotr(19, x) ^ (Bits(x) >> 10))
  }

  // ---- section 5.1.1: padding ----

  const U64: nat := 0x1_0000_0000_0000_0000

  /** The smallest number of zero bytes that leaves room for the length at the end of a 64-byte block. */
  function ZeroCount(n: nat): nat {
    (119 - n % 64) % 64
  }

  function Zeros(k: nat): (s: seq<Byte>)
    ensures |s| == k
  {
    seq(k, _ => 0)
  }

  function Pad(data: seq<Byte>): seq<Byte> {
    data + [0x80] + Zeros(ZeroCount(|data|)) + BigEndian(|data| * 8 % U64, 8)
  }

  lemma ZeroCountLeast(n: nat, z: nat)
    requires z <= ZeroCount(n)
    ensures (n + 1 + z) % 64 == 56 <==> z == ZeroCount(n)
    ensures ZeroCount(n) < 64
  {
  }

  /** The padding loop. */
  method PadMessage(data: seq<Byte>) returns (msg: seq<Byte>)
    ensures msg == Pad(data)
  {
    msg := data + [0x80];
    ghost var z := 0;
    assert Zeros(0) == [];
    while |msg| % 64 != 56
      invariant z <= ZeroCount(|data|) && msg == data + [0x80] + Zeros(z)
      decreases ZeroCount(|data|) - z
    {
      ZeroCountLeast(|data|, z);
      msg := msg + [0];
      z := z + 1;
      assert Zeros(z) == Zeros(z - 1) + [0];
    }
    ZeroCountLeast(|data|, z);
    msg := msg + BigEndian(|data| * 8 % U64, 8);
  }

  /** The padded length is the least multiple of 64 that fits the message, the marker and the length. */
  lemma PadLength(data: seq<Byte>)
    ensures |Pad(data)| % 64 == 0
    ensures |data| + 9 <= |Pad(data)| < |data| + 9 + 64
  {
    hide Pad, ZeroCount;
    PadSize(data);
    ZeroCountLeast(|data|, ZeroCount(|data|));
    EightMore(|data| + 1 + ZeroCount(|data|));
  }

  lemma EightMore(n: nat)
    requires n % 64 == 56
    ensures (n + 8) % 64 == 0
  {
  }

  lemma PadSize(data: seq<Byte>)
    ensures |Pad(data)| == |data| + 1 + ZeroCount(|data|) + 8
  {
    hide ZeroCount, BigEndian;
  }

  /** Read the length from the last eight bytes and take that many bits. */
  function Unpad(msg: seq<Byte>): seq<Byte> {
    if |msg| < 8 then []
    else
      var n := FromBigEndian(msg[|msg| - 8..]) / 8;
      if n <= |msg| then msg[..n] else []
  }

  /** The message is recoverable from its padding. */
  lemma PadRecoverable(data: seq<Byte>)
    requires |data| < 0x2000_0000_0000_0000
    ensures Unpad(Pad(data)) == data
  {
    var n := |data| * 8;
    assert n % U64 == n;
    assert Pow256(8) == U64;
    BigEndianBack(n, 8);
    var msg := Pad(data);
    assert msg[|msg| - 8..] == BigEndian(n, 8);
    assert msg[..|data|] == data;
  }

  lemma PadInjective(a: seq<Byte>, b: seq<Byte>)
    requires |a| < 0x2000_0000_0000_0000 && |b| < 0x2000_0000_0000_0000 && Pad(a) == Pad(b)
    ensures a == b
  {
    PadRecoverable(a);
    PadRecoverable(b);
  }

  // ---- section 6.2.2: message schedule ----

  function WordOf(b0: Byte, b1: Byte, b2: Byte, b3: Byte): Word {
    b0 * 0x100_0000 + b1 * 0x1_0000 + b2 * 0x100 + b3
  }

  /** Word `t` of the schedule of a 64-byte block. */
  function W(chunk: seq<Byte>, t: nat): Word
    requires |chunk| == 64
  {
    if t < 16 then WordOf(chunk[t * 4], chunk[t * 4 + 1], chunk[t * 4 + 2], chunk[t * 4 + 3])
    else Plus(Plus(Plus(SmallSigma1(W(chunk, t - 2)), W(chunk, t - 7)), SmallSigma0(W(chunk, t - 15))),
      W(chunk, t - 16))
  }

  lemma PlusCommutes(x: Word, y: Word)
    ensures Plus(x, y) == Plus(y, x)
  {
  }

  lemma PlusAssociates(x: Word, y: Word, z: Word)
    ensures Plus(Plus(x, y), z) == Plus(x, Plus(y, z))
  {
  }

  lemma SumOrder(a: Word, b: Word, c: Word, d: Word)
    ensures Plus(Plus(Plus(a, b), c), d) == Plus(Plus(Plus(d, c), b), a)
  {
    hide Plus;
    calc {
      Plus(Plus(Plus(a, b), c), d);
      { PlusCommutes(Plus(Plus(a, b), c), d); PlusCommutes(Plus(a, b), c); PlusCommutes(a, b); }
      Plus(d, Plus(c, Plus(b, a)));
      { PlusAssociates(d, c, Plus(b, a)); PlusAssociates(Plus(d, c), b, a); }
      Plus(Plus(Plus(d, c), b), a);
    }
  }

  lemma ScheduleStart(chunk: seq<Byte>, t: nat)
    requires |chunk| == 64 && t < 16
    ensures W(chunk, t) == WordOf(chunk[t * 4], chunk[t * 4 + 1], chunk[t * 4 + 2], chunk[t * 4 + 3])
  {
  }

  lemma ScheduleStep(chunk: seq<Byte>, t: nat)
    requires |chunk| == 64 && 16 <= t
    ensures W(chunk, t)
         == Plus(Plus(Plus(W(chunk, t - 16), SmallSigma0(W(chunk, t - 15))), W(chunk, t - 7)),
           SmallSigma1(W(chunk, t - 2)))
  {
    hide SmallSigma0, SmallSigma1, WordOf, Plus;
    SumOrder(W(chunk, t - 16), SmallSigma0(W(chunk, t - 15)), W(chunk, t - 7), SmallSigma1(W(chunk, t - 2)));
  }

  /** The schedule array, filled in place. */
  method Schedule(chunk: seq<Byte>) returns (w: array<Word>)
    requires |chunk| == 64
    ensures fresh(w) && w.Length == 64 && forall t | 0 <= t < 64 :: w[t] == W(chunk, t)
  {
    hide SmallSigma0, SmallSigma1, WordOf, W, Plus;
    w := new Word[64](_ => 0);
    var i := 0;
    while i < 16
      invariant 0 <= i <= 16 && forall t | 0 <= t < i :: w[t] == W(chunk, t)
    {
      ScheduleStart(chunk, i);
      w[i] := WordOf(chunk[i * 4], chunk[i * 4 + 1], chunk[i * 4 + 2], chunk[i * 4 + 3]);
      i := i + 1;
    }
    while i < 64
      invariant 16 <= i <= 64 && forall t | 0 <= t < i :: w[t] == W(chunk, t)
    {
      var s0 := SmallSigma0(w[i - 15]);
      var s1 := SmallSigma1(w[i - 2]);
      ScheduleStep(chunk, i);
      w[i] := Plus(Plus(Plus(w[i - 16], s0), w[i - 7]), s1);
      i := i + 1;
    }
  }

  // ---- section 6.2.2: compression ----

  datatype Working = Working(a: Word, b: Word, c: Word, d: Word, e: Word, f: Word, g: Word, h: Word)

  function Round(s: Working, k: Word, w: Word): Working {
    var t1 := Plus(Plus(Plus(Plus(s.h, BigSigma1(s.e)), Ch(s.e, s.f, s.g)), k), w);
    var t2 := Plus(BigSigma0(s.a), Maj(s.a, s.b, s.c));
    Working(Plus(t1, t2), s.a, s.b, s.c, Plus(s.d, t1), s.e, s.f, s.g)
  }

  /** The first `n` rounds on a block. */
  function Rounds(s: Working, chunk: seq<Byte>, n: nat): Working
    requires |chunk| == 64 && n <= 64
  {
    if n == 0 then s else Round(Rounds(s, chunk, n - 1), Constant(n - 1), W(chunk, n - 1))
  }

  function Load(h: seq<Word>): Working
    requires |h| == 8
  {
    Working(h[0], h[1], h[2], h[3], h[4], h[5], h[6], h[7])
  }

  /** One block: 64 rounds, then add the old hash value. */
  function Compressed(h: seq<Word>, chunk: seq<Byte>): (r: seq<Word>)
    requires |h| == 8 && |chunk| == 64
    ensures |r| == 8
  {
    var s := Rounds(Load(h), chunk, 64);
    [Plus(h[0], s.a), Plus(h[1], s.b), Plus(h[2], s.c), Plus(h[3], s.d),
     Plus(h[4], s.e), Plus(h[5], s.f), Plus(h[6], s.g), Plus(h[7], s.h)]
  }

  /** Sixty-four rounds on eight variables that shift along in place. */
  method RunRounds(h: seq<Word>, chunk: seq<Byte>, w: array<Word>) returns (s: Working)
    requires |h| == 8 && |chunk| == 64 && w.Length == 64 && forall t | 0 <= t < 64 :: w[t] == W(chunk, t)
    ensures s == Rounds(Load(h), chunk, 64)
  {
    hide BigSigma0, BigSigma1, Ch, Maj, W, Plus, Constant;
    var a, b, c, d, e, f, g, hh := h[0], h[1], h[2], h[3], h[4], h[5], h[6], h[7];
    var i := 0;
    while i < 64
      invariant 0 <= i <= 64 && Working(a, b, c, d, e, f, g, hh) == Rounds(Load(h), chunk, i)
    {
      var t1 := Plus(Plus(Plus(Plus(hh, BigSigma1(e)), Ch(e, f, g)), Constant(i)), w[i]);
      var t2 := Plus(BigSigma0(a), Maj(a, b, c));
      hh := g;
      g := f;
      f := e;
      e := Plus(d, t1);
      d := c;
      c := b;
      b := a;
      a := Plus(t1, t2);
      i := i + 1;
    }
    s := Working(a, b, c, d, e, f, g, hh);
  }

  method Compress(h: array<Word>, chunk: seq<Byte>)
    requires h.Length == 8 && |chunk| == 64
    modifies h
    ensures h[..] == Compressed(old(h[..]), chunk)
  {
    hide Rounds, W, Plus;
    var w := Schedule(chunk);
    var s := RunRounds(h[..], chunk, w);
    h[0] := Plus(h[0], s.a);
    h[1] := Plus(h[1], s.b);
    h[2] := Plus(h[2], s.c);
    h[3] := Plus(h[3], s.d);
    h[4] := Plus(h[4], s.e);
    h[5] := Plus(h[5], s.f);
    h[6] := Plus(h[6], s.g);
    h[7] := Plus(h[7], s.h);
  }

  /** The hash value after the first `n` blocks. */
  function HashAfter(msg: seq<Byte>, n: nat): (h: seq<Word>)
    requires 64 * n <= |msg|
    ensures |h| == 8
  {
    if n == 0 then INITIAL else Compressed(HashAfter(msg, n - 1), msg[64 * n - 64..64 * n])
  }

  function WordBytes(w: Word): (s: seq<Byte>)
    ensures |s| == 4
  {
    BigEndian(w, 4)
  }

  function Serialized(h: seq<Word>): (s: seq<Byte>)
    ensures |s| == 4 * |h|
  {
    if h == [] then [] else Serialized(h[..|h| - 1]) + WordBytes(h[|h| - 1])
  }

  /** SHA-256 as the standard defines it. */
  function Digest(data: seq<Byte>): (d: seq<Byte>)
    ensures |d| == 32
  {
    PadLength(data);
    Serialized(HashAfter(Pad(data), |Pad(data)| / 64))
  }

  /** SHA-256 as the build script computes it. */
  method Hash(data: seq<Byte>) returns (r: array<Byte>)
    ensures fresh(r) && r.Length == 32 && r[..] == Digest(data)
  {
    hide Compressed, Pad;
    var h := new Word[8](i requires 0 <= i < 8 => INITIAL[i]);
    assert h[..] == INITIAL;
    var msg := PadMessage(data);
    PadLength(data);
    var n := 0;
    while n < |msg| / 64
      invariant 0 <= n <= |msg| / 64 && h[..] == HashAfter(msg, n)
    {
      Compress(h, msg[64 * n..64 * n + 64]);
      n := n + 1;
    }
    r := Output(h);
  }

  lemma SerializedNone(h: seq<Word>)
    requires h == []
    ensures Serialized(h) == []
  {
  }

  lemma SerializedNext(h: seq<Word>, i: nat)
    requires i < |h|
    ensures Serialized(h[..i + 1]) == Serialized(h[..i]) + WordBytes(h[i])
  {
    assert h[..i + 1][..i] == h[..i];
  }

  /** Write the words out, most significant byte first. */
  method Output(h: array<Word>) returns (r: array<Byte>)
    requires h.Length == 8
    ensures fresh(r) && r.Length == 32 && r[..] == Serialized(h[..])
  {
    hide Serialized, BigEndian;
    r := new Byte[32](_ => 0);
    var i := 0;
    SerializedNone(h[..0]);
    while i < 8
      invariant 0 <= i <= 8 && r[..4 * i] == Serialized(h[..i])
    {
      var b := WordBytes(h[i]);
      ghost var done := r[..4 * i];
      r[4 * i], r[4 * i + 1], r[4 * i + 2], r[4 * i + 3] := b[0], b[1], b[2], b[3];
      assert r[..4 * i + 4] == done + b;
      SerializedNext(h[..], i);
      i := i + 1;
    }
    assert h[..8] == h[..] && r[..32] == r[..];
  }

  // ---- line endings ----

  const CR: Byte := 13
  const LF: Byte := 10

  /** Every CR LF pair becomes LF. */
  function Normalised(s: seq<Byte>): seq<Byte> {
    if s == [] then []
    else if |s| >= 2 && s[0] == CR && s[1] == LF then [LF] + Normalised(s[2..])
    else [s[0]] + Normalised(s[1..])
  }

  /** The same text with CR LF line ends. */
  function WithCrLf(s: seq<Byte>): seq<Byte> {
    if s == [] then []
    else (if s[0] == LF then [CR, LF] else [s[0]]) + WithCrLf(s[1..])
  }

  lemma {:induction false} LineEndsAgree(s: seq<Byte>)
    requires CR !in s
    ensures Normalised(s) == s && Normalised(WithCrLf(s)) == s
  {
    if s != [] {
      LineEndsAgree(s[1..]);
      var t := WithCrLf(s);
      if s[0] == LF {
        assert t[2..] == WithCrLf(s[1..]);
      } else {
        assert t[1..] == WithCrLf(s[1..]);
      }
    }
  }

  function FileHash(contents: seq<Byte>): string {
    HexEncode(Digest(Normalised(contents)))
  }

  /** A file hashes alike with either line ending. */
  lemma LineEndingsHashAlike(s: seq<Byte>)
    requires CR !in s
    ensures FileHash(WithCrLf(s)) == FileHash(s)
  {
    LineEndsAgree(s);
  }
}
