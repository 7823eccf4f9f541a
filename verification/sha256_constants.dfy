/** The constants of SHA-256 and where they come from: sections 4.2.2 and 5.3.3 of FIPS 180-4. */
module Sha256Constants {

  const U32: nat := 0x1_0000_0000

  /** A 32-bit word; sums are taken modulo 2^32, bitwise operations on its bits. */
  type Word = w: nat | w < U32

  const INITIAL: seq<Word> := [
    0x6a09e667, 0xbb67ae85, 0x3c6ef372, 0xa54ff53a, 0x510e527f, 0x9b05688c, 0x1f83d9ab, 0x5be0cd19]

  const K0: seq<Word> := [
    0x428a2f98, 0x71374491, 0xb5c0fbcf, 0xe9b5dba5, 0x3956c25b, 0x59f111f1, 0x923f82a4, 0xab1c5ed5]
  const K1: seq<Word> := [
    0xd807aa98, 0x12835b01, 0x243185be, 0x550c7dc3, 0x72be5d74, 0x80deb1fe, 0x9bdc06a7, 0xc19bf174]
  const K2: seq<Word> := [
    0xe49b69c1, 0xefbe4786, 0x0fc19dc6, 0x240ca1cc, 0x2de92c6f, 0x4a7484aa, 0x5cb0a9dc, 0x76f988da]
  const K3: seq<Word> := [
    0x983e5152, 0xa831c66d, 0xb00327c8, 0xbf597fc7, 0xc6e00bf3, 0xd5a79147, 0x06ca6351, 0x14292967]
  const K4: seq<Word> := [
    0x27b70a85, 0x2e1b2138, 0x4d2c6dfc, 0x53380d13, 0x650a7354, 0x766a0abb, 0x81c2c92e, 0x92722c85]
  const K5: seq<Word> := [
    0xa2bfe8a1, 0xa81a664b, 0xc24b8b70, 0xc76c51a3, 0xd192e819, 0xd6990624, 0xf40e3585, 0x106aa070]
  const K6: seq<Word> := [
    0x19a4c116, 0x1e376c08, 0x2748774c, 0x34b0bcb5, 0x391c0cb3, 0x4ed8aa4a, 0x5b9cca4f, 0x682e6ff3]
  const K7: seq<Word> := [
    0x748f82ee, 0x78a5636f, 0x84c87814, 0x8cc70208, 0x90befffa, 0xa4506ceb, 0xbef9a3f7, 0xc67178f2]

  /** The table of the rounds. */
  const K: seq<Word> := K0 + K1 + K2 + K3 + K4 + K5 + K6 + K7

  const P0: seq<nat> := [2, 3, 5, 7, 11, 13, 17, 19]
  const P1: seq<nat> := [23, 29, 31, 37, 41, 43, 47, 53]
  const P2: seq<nat> := [59, 61, 67, 71, 73, 79, 83, 89]
  const P3: seq<nat> := [97, 101, 103, 107, 109, 113, 127, 131]
  const P4: seq<nat> := [137, 139, 149, 151, 157, 163, 167, 173]
  const P5: seq<nat> := [179, 181, 191, 193, 197, 199, 211, 223]
  const P6: seq<nat> := [227, 229, 233, 239, 241, 251, 257, 263]
  const P7: seq<nat> := [269, 271, 277, 281, 283, 293, 307, 311]

  /** The first sixty-four primes, as `Sha256Primes.FirstPrimes` shows. */
  const PRIMES: seq<nat> := P0 + P1 + P2 + P3 + P4 + P5 + P6 + P7

  /** `k` is the first 32 bits of the fraction of the square root of `p`, whose whole part is `c`. */
  predicate SquareRootBits(p: nat, c: nat, k: Word) {
    var x := c * U32 + k;
    x * x <= p * U32 * U32 < (x + 1) * (x + 1)
  }

  /** `k` is the first 32 bits of the fraction of the cube root of `p`, whose whole part is `c`. */
  predicate CubeRootBits(p: nat, c: nat, k: Word) {
    var x := c * U32 + k;
    x * x * x <= p * U32 * U32 * U32 < (x + 1) * (x + 1) * (x + 1)
  }

  function WholeSquareRoot(p: nat): nat {
    if p < 4 then 1 else if p < 9 then 2 else if p < 16 then 3 else 4
  }

  function WholeCubeRoot(p: nat): nat {
    if p < 8 then 1 else if p < 27 then 2 else if p < 64 then 3 else if p < 125 then 4 else if p < 216 then 5 else 6
  }

  predicate Rooted(p: nat, k: Word) {
    CubeRootBits(p, WholeCubeRoot(p), k)
  }

  /** Each constant comes from the cube root of the prime at its place. */
  predicate AllRooted(ps: seq<nat>, ks: seq<Word>) {
    |ps| == |ks| && forall i | 0 <= i < |ps| :: Rooted(ps[i], ks[i])
  }

  /** The initial hash value comes from the square roots of the first eight primes. */
  lemma InitialFromRoots()
    ensures |INITIAL| == 8 && forall i | 0 <= i < 8 :: SquareRootBits(P0[i], WholeSquareRoot(P0[i]), INITIAL[i])
  {
    assert SquareRootBits(P0[0], WholeSquareRoot(P0[0]), INITIAL[0]);
    assert SquareRootBits(P0[1], WholeSquareRoot(P0[1]), INITIAL[1]);
    assert SquareRootBits(P0[2], WholeSquareRoot(P0[2]), INITIAL[2]);
    assert SquareRootBits(P0[3], WholeSquareRoot(P0[3]), INITIAL[3]);
    assert SquareRootBits(P0[4], WholeSquareRoot(P0[4]), INITIAL[4]);
    assert SquareRootBits(P0[5], WholeSquareRoot(P0[5]), INITIAL[5]);
    assert SquareRootBits(P0[6], WholeSquareRoot(P0[6]), INITIAL[6]);
    assert SquareRootBits(P0[7], WholeSquareRoot(P0[7]), INITIAL[7]);
  }

  lemma Row0()
    ensures AllRooted(P0, K0)
  {
    assert Rooted(P0[0], K0[0]);
    assert Rooted(P0[1], K0[1]);
    assert Rooted(P0[2], K0[2]);
    assert Rooted(P0[3], K0[3]);
    assert Rooted(P0[4], K0[4]);
    assert Rooted(P0[5], K0[5]);
    assert Rooted(P0[6], K0[6]);
    assert Rooted(P0[7], K0[7]);
  }

  lemma Row1()
    ensures AllRooted(P1, K1)
  {
    assert Rooted(P1[0], K1[0]);
    assert Rooted(P1[1], K1[1]);
    assert Rooted(P1[2], K1[2]);
    assert Rooted(P1[3], K1[3]);
    assert Rooted(P1[4], K1[4]);
    assert Rooted(P1[5], K1[5]);
    assert Rooted(P1[6], K1[6]);
    assert Rooted(P1[7], K1[7]);
  }

  lemma Row2()
    ensures AllRooted(P2, K2)
  {
    assert Rooted(P2[0], K2[0]);
    assert Rooted(P2[1], K2[1]);
    assert Rooted(P2[2], K2[2]);
    assert Rooted(P2[3], K2[3]);
    assert Rooted(P2[4], K2[4]);
    assert Rooted(P2[5], K2[5]);
    assert Rooted(P2[6], K2[6]);
    assert Rooted(P2[7], K2[7]);
  }

  lemma Row3()
    ensures AllRooted(P3, K3)
  {
    assert Rooted(P3[0], K3[0]);
    assert Rooted(P3[1], K3[1]);
    assert Rooted(P3[2], K3[2]);
    assert Rooted(P3[3], K3[3]);
    assert Rooted(P3[4], K3[4]);
    assert Rooted(P3[5], K3[5]);
    assert Rooted(P3[6], K3[6]);
    assert Rooted(P3[7], K3[7]);
  }

  lemma Row4()
    ensures AllRooted(P4, K4)
  {
    assert Rooted(P4[0], K4[0]);
    assert Rooted(P4[1], K4[1]);
    assert Rooted(P4[2], K4[2]);
    assert Rooted(P4[3], K4[3]);
    assert Rooted(P4[4], K4[4]);
    assert Rooted(P4[5], K4[5]);
    assert Rooted(P4[6], K4[6]);
    assert Rooted(P4[7], K4[7]);
  }

  lemma Row5()
    ensures AllRooted(P5, K5)
  {
    assert Rooted(P5[0], K5[0]);
    assert Rooted(P5[1], K5[1]);
    assert Rooted(P5[2], K5[2]);
    assert Rooted(P5[3], K5[3]);
    assert Rooted(P5[4], K5[4]);
    assert Rooted(P5[5], K5[5]);
    assert Rooted(P5[6], K5[6]);
    assert Rooted(P5[7], K5[7]);
  }

  lemma Row6()
    ensures AllRooted(P6, K6)
  {
    assert Rooted(P6[0], K6[0]);
    assert Rooted(P6[1], K6[1]);
    assert Rooted(P6[2], K6[2]);
    assert Rooted(P6[3], K6[3]);
    assert Rooted(P6[4], K6[4]);
    assert Rooted(P6[5], K6[5]);
    assert Rooted(P6[6], K6[6]);
    assert Rooted(P6[7], K6[7]);
  }

  lemma Row7()
    ensures AllRooted(P7, K7)
  {
    assert Rooted(P7[0], K7[0]);
    assert Rooted(P7[1], K7[1]);
    assert Rooted(P7[2], K7[2]);
    assert Rooted(P7[3], K7[3]);
    assert Rooted(P7[4], K7[4]);
    assert Rooted(P7[5], K7[5]);
    assert Rooted(P7[6], K7[6]);
    assert Rooted(P7[7], K7[7]);
  }

  lemma Joined(ps: seq<nat>, ks: seq<Word>, qs: seq<nat>, ls: seq<Word>)
    requires AllRooted(ps, ks) && AllRooted(qs, ls)
    ensures AllRooted(ps + qs, ks + ls)
  {
    hide Rooted;
  }

  /** The round constants come from the cube roots of the first sixty-four primes. */
  lemma ConstantsFromRoots()
    ensures |K| == 64 && AllRooted(PRIMES, K)
  {
    hide AllRooted;
    Row0();
    Row1();
    Row2();
    Row3();
    Row4();
    Row5();
    Row6();
    Row7();
    Joined(P0, K0, P1, K1);
    Joined(P0 + P1, K0 + K1, P2, K2);
    Joined(P0 + P1 + P2, K0 + K1 + K2, P3, K3);
    Joined(P0 + P1 + P2 + P3, K0 + K1 + K2 + K3, P4, K4);
    Joined(P0 + P1 + P2 + P3 + P4, K0 + K1 + K2 + K3 + K4, P5, K5);
    Joined(P0 + P1 + P2 + P3 + P4 + P5, K0 + K1 + K2 + K3 + K4 + K5, P6, K6);
    Joined(P0 + P1 + P2 + P3 + P4 + P5 + P6, K0 + K1 + K2 + K3 + K4 + K5 + K6, P7, K7);
  }
}
