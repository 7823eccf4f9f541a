/** The table of primes behind the constants of SHA-256 lists the first sixty-four primes. */
module Sha256Primes {
  import opened Sha256Constants

  ghost predicate IsPrime(n: nat) {
    n >= 2 && forall d | 1 < d < n :: n % d != 0
  }

  /** No prime up to 17 divides `n`, unless it is `n`. */
  predicate Sieved(n: nat) {
    && n >= 2
    && (n == 2 || n % 2 != 0) && (n == 3 || n % 3 != 0) && (n == 5 || n % 5 != 0) && (n == 7 || n % 7 != 0)
    && (n == 11 || n % 11 != 0) && (n == 13 || n % 13 != 0) && (n == 17 || n % 17 != 0)
  }

  /** A divisor of a divisor divides. */
  lemma DividesOn(n: nat, m: nat, q: nat)
    requires q > 0 && m > 0 && n % m == 0 && m % q == 0
    ensures n % q == 0
  {
    var e, j := n / m, m / q;
    assert n == m * e && m == q * j;
    assert q * j * e == q * (j * e);
    MultipleHasNoRest(q, j * e);
  }

  lemma MultipleHasNoRest(q: nat, k: nat)
    requires q > 0
    ensures (q * k) % q == 0
  {
    RestIsUnique(q * k, q, k, 0);
  }

  lemma Doubling(q: nat, k: nat)
    requires k >= 1
    ensures q * k >= q
  {
    assert q * k == q + q * (k - 1);
  }

  /** Quotient and rest are determined. */
  lemma RestIsUnique(n: nat, q: nat, k: nat, r: nat)
    requires q > 0 && n == q * k + r && r < q
    ensures n % q == r
  {
    var e, d := n / q, n % q;
    assert n == q * e + d && 0 <= d < q;
    assert q * (k - e) == d - r;
    assert k > e ==> q * (k - e) >= q by { if k > e { Doubling(q, k - e); } }
    assert k < e ==> q * (e - k) >= q by { if k < e { Doubling(q, e - k); } }
  }

  /** A small divisor shows in the sieve. */
  lemma SmallDivisor(n: nat, m: nat)
    requires 2 <= m <= 18 && m < n && n % m == 0
    ensures !Sieved(n)
  {
    var q := SmallFactor(m);
    DividesOn(n, m, q);
  }

  /** The least prime factor of a number up to 18. */
  function SmallFactor(m: nat): (q: nat)
    requires 2 <= m <= 18
    ensures q in {2, 3, 5, 7, 11, 13, 17} && q <= m && m % q == 0
  {
    if m % 2 == 0 then 2 else if m % 3 == 0 then 3 else if m % 5 == 0 then 5 else m
  }

  /** Below 361 the sieve finds exactly the primes. */
  lemma SieveIsPrime(n: nat)
    requires n < 361
    ensures Sieved(n) <==> IsPrime(n)
  {
    if Sieved(n) {
      forall d | 1 < d < n ensures n % d != 0 {
        if n % d == 0 {
          var e := n / d;
          assert n == d * e;
          Cofactor(n, d, e);
          SmallDivisor(n, if d <= e then d else e);
        }
      }
    }
  }

  /** One of two factors of a number below 361 is at most 18. */
  lemma Cofactor(n: nat, d: nat, e: nat)
    requires n == d * e && 1 < d < n < 361
    ensures 1 < e < n && n % e == 0 && (d <= 18 || e <= 18)
  {
    Doubles(d, e);
    if d >= 19 && e >= 19 { LargeProduct(d, e); }
    assert n == e * d;
    MultipleHasNoRest(e, d);
  }

  lemma Doubles(d: nat, e: nat)
    requires d >= 2
    ensures d * e >= 2 * e && (e <= 1 ==> d * e <= d)
  {
    assert (d - 2) * e >= 0;
    assert e <= 1 ==> e == 0 || e == 1;
  }

  lemma LargeProduct(d: nat, e: nat)
    requires d >= 19 && e >= 19
    ensures d * e >= 361
  {
    assert (d - 19) * (e - 19) >= 0;
  }

  /** No odd number from `lo` up to `hi` passes the sieve, `lo` being odd. */
  predicate Gap(lo: nat, hi: nat)
    decreases hi - lo
  {
    lo >= hi || (!Sieved(lo) && Gap(lo + 2, hi))
  }

  /** `q` is the next after `p` that passes the sieve. */
  predicate Next(p: nat, q: nat) {
    2 <= p < q && Sieved(q) && (q == p + 1 || (p % 2 == 1 && Gap(p + 2, q)))
  }

  lemma {:induction false} GapEmpty(lo: nat, hi: nat, n: nat)
    requires Gap(lo, hi) && lo % 2 == n % 2 == 1 && lo <= n < hi
    ensures !Sieved(n)
    decreases hi - lo
  {
    hide Sieved;
    if lo < n { GapEmpty(lo + 2, hi, n); }
  }

  lemma NextSkips(p: nat, q: nat, n: nat)
    requires Next(p, q) && p < n < q
    ensures !Sieved(n)
  {
    hide Sieved, Gap;
    if n % 2 == 1 { GapEmpty(p + 2, q, n); } else { EvenFails(n); }
  }

  lemma EvenFails(n: nat)
    requires n > 2 && n % 2 == 0
    ensures !Sieved(n)
  {
  }

  /** Each number is the next after the one before it. */
  ghost predicate Consecutive(ps: seq<nat>) {
    forall i, j | 0 <= i && j == i + 1 < |ps| :: Next(ps[i], ps[j])
  }

  lemma ConsecutiveOn(a: seq<nat>, b: seq<nat>)
    requires a != [] && b != [] && Consecutive(a) && Consecutive(b) && Next(a[|a| - 1], b[0])
    ensures Consecutive(a + b)
  {
    hide Next;
  }

  lemma EightConsecutive(ps: seq<nat>)
    requires |ps| == 8
    requires Next(ps[0], ps[1]) && Next(ps[1], ps[2]) && Next(ps[2], ps[3]) && Next(ps[3], ps[4])
    requires Next(ps[4], ps[5]) && Next(ps[5], ps[6]) && Next(ps[6], ps[7])
    ensures Consecutive(ps)
  {
    hide Next;
  }

  /** From its first to its last, what is listed is what passes the sieve, and it ascends. */
  lemma {:induction false} ConsecutiveLists(ps: seq<nat>)
    requires ps != [] && Consecutive(ps) && Sieved(ps[0])
    ensures forall n: nat | ps[0] <= n <= ps[|ps| - 1] :: n in ps <==> Sieved(n)
    ensures forall i, j | 0 <= i < j < |ps| :: ps[i] < ps[j]
  {
    hide Sieved, Gap;
    var init, q := ps[..|ps| - 1], ps[|ps| - 1];
    if init != [] {
      var last := init[|init| - 1];
      assert ps == init + [q] && last == ps[|ps| - 2] && Next(last, q);
      ConsecutiveLists(init);
      forall n: nat | last < n < q ensures !Sieved(n) { NextSkips(last, q, n); }
    }
  }

  lemma Primes0()
    ensures Consecutive(P0)
  {
    assert Next(2, 3) && Next(3, 5) && Next(5, 7) && Next(7, 11);
    assert Next(11, 13) && Next(13, 17) && Next(17, 19);
    EightConsecutive(P0);
  }

  lemma Primes1()
    ensures Consecutive(P1) && Next(19, 23)
  {
    assert Next(23, 29) && Next(29, 31) && Next(31, 37) && Next(37, 41);
    assert Next(41, 43) && Next(43, 47) && Next(47, 53);
    EightConsecutive(P1);
  }

  lemma Primes2()
    ensures Consecutive(P2) && Next(53, 59)
  {
    assert Next(59, 61) && Next(61, 67) && Next(67, 71) && Next(71, 73);
    assert Next(73, 79) && Next(79, 83) && Next(83, 89);
    EightConsecutive(P2);
  }

  lemma Primes3()
    ensures Consecutive(P3) && Next(89, 97)
  {
    assert Next(97, 101) && Next(101, 103) && Next(103, 107) && Next(107, 109);
    assert Next(109, 113) && Next(113, 127) && Next(127, 131);
    EightConsecutive(P3);
  }

  lemma Primes4()
    ensures Consecutive(P4) && Next(131, 137)
  {
    assert Next(137, 139) && Next(139, 149) && Next(149, 151) && Next(151, 157);
    assert Next(157, 163) && Next(163, 167) && Next(167, 173);
    EightConsecutive(P4);
  }

  lemma Primes5()
    ensures Consecutive(P5) && Next(173, 179)
  {
    assert Next(179, 181) && Next(181, 191) && Next(191, 193) && Next(193, 197);
    assert Next(197, 199) && Next(199, 211) && Next(211, 223);
    EightConsecutive(P5);
  }

  lemma Primes6()
    ensures Consecutive(P6) && Next(223, 227)
  {
    assert Next(227, 229) && Next(229, 233) && Next(233, 239) && Next(239, 241);
    assert Next(241, 251) && Next(251, 257) && Next(257, 263);
    EightConsecutive(P6);
  }

  lemma Primes7()
    ensures Consecutive(P7) && Next(263, 269)
  {
    assert Next(269, 271) && Next(271, 277) && Next(277, 281) && Next(281, 283);
    assert Next(283, 293) && Next(293, 307) && Next(307, 311);
    EightConsecutive(P7);
  }

  lemma TableConsecutive()
    ensures Consecutive(PRIMES)
  {
    hide Consecutive, Next;
    Primes0();
    Primes1();
    ConsecutiveOn(P0, P1);
    Primes2();
    ConsecutiveOn(P0 + P1, P2);
    Primes3();
    ConsecutiveOn(P0 + P1 + P2, P3);
    Primes4();
    ConsecutiveOn(P0 + P1 + P2 + P3, P4);
    Primes5();
    ConsecutiveOn(P0 + P1 + P2 + P3 + P4, P5);
    Primes6();
    ConsecutiveOn(P0 + P1 + P2 + P3 + P4 + P5, P6);
    Primes7();
    ConsecutiveOn(P0 + P1 + P2 + P3 + P4 + P5 + P6, P7);
  }

  /** The table lists, in increasing order, sixty-four numbers: exactly the primes up to its last. */
  lemma FirstPrimes()
    ensures |PRIMES| == 64 && PRIMES[63] == 311 && forall i, j | 0 <= i < j < 64 :: PRIMES[i] < PRIMES[j]
    ensures forall n: nat | n <= 311 :: n in PRIMES <==> IsPrime(n)
  {
    hide Consecutive, Next;
    TableConsecutive();
    ConsecutiveLists(PRIMES);
    hide Sieved;
    forall n: nat | n <= 311 ensures n in PRIMES <==> IsPrime(n) {
      if n >= 2 { SieveIsPrime(n); }
    }
  }
}
