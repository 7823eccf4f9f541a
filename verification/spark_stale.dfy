/** Two runs, on a backend that meets every assumption, that end with a coin spendable again: one after a restart, one
    after blocks went whose bodies were not cached. */
module SparkStale {
  import opened Types
  import opened SparkPool
  import opened SparkRuns

  // ---- outpoints that never collide ----

  function Pow2(n: nat): (p: nat)
    ensures p >= 1
  {
    if n == 0 then 1 else 2 * Pow2(n - 1)
  }

  function Pair(a: nat, b: nat): nat {
    Pow2(a) * (2 * b + 1)
  }

  lemma {:induction false} PairPositive(a: nat, b: nat)
    ensures Pair(a, b) >= 1
  {
    assert (Pow2(a) - 1) * (2 * b + 1) >= 0;
  }

  lemma {:induction false} PairInjective(a: nat, b: nat, c: nat, d: nat)
    requires Pair(a, b) == Pair(c, d)
    ensures a == c && b == d
  {
    if a == 0 || c == 0 {
      OddOrEven(a, b);
      OddOrEven(c, d);
    } else {
      PairHalf(a, b);
      PairHalf(c, d);
      PairInjective(a - 1, b, c - 1, d);
    }
  }

  lemma PairHalf(a: nat, b: nat)
    requires a > 0
    ensures Pair(a, b) == 2 * Pair(a - 1, b)
  {
    assert 2 * Pow2(a - 1) * (2 * b + 1) == 2 * (Pow2(a - 1) * (2 * b + 1));
  }

  lemma OddOrEven(a: nat, b: nat)
    ensures a == 0 ==> Pair(a, b) == 2 * b + 1
    ensures a > 0 ==> Pair(a, b) % 2 == 0
  {
    if a > 0 { PairHalf(a, b); }
  }

  /** A number for every bag of key images. */
  ghost function Code(m: multiset<KeyImage>): nat
    decreases |m|
  {
    if m == multiset{} then 0 else var k :| k in m; Pair(k, Code(m - multiset{k}))
  }

  lemma CodeSplits(m: multiset<KeyImage>) returns (k: KeyImage, rest: multiset<KeyImage>)
    requires m != multiset{}
    ensures m == rest + multiset{k} && |rest| < |m| && Code(m) == Pair(k, Code(rest)) >= 1
  {
    k :| k in m && Code(m) == Pair(k, Code(m - multiset{k}));
    rest := m - multiset{k};
    PairPositive(k, Code(rest));
  }

  lemma {:induction false} CodeInjective(m: multiset<KeyImage>, n: multiset<KeyImage>)
    requires Code(m) == Code(n)
    ensures m == n
    decreases |m|
  {
    hide Pair;
    if m != multiset{} && n != multiset{} {
      hide Code;
      var k, p := CodeSplits(m);
      var l, q := CodeSplits(n);
      PairInjective(k, Code(p), l, Code(q));
      CodeInjective(p, q);
    } else if m != multiset{} {
      var k, p := CodeSplits(m);
    } else if n != multiset{} {
      var l, q := CodeSplits(n);
    }
  }

  // ---- a backend with one coin ----

  const COIN: Coin := 10
  const TAG: Tag := 99

  /** Bundle 0 mints a coin of value 5; every spend consumes that coin, for a fee of 5. */
  ghost function Toy(): Backend {
    Backend(
      m => if m == 0 then Some((5, [COIN])) else None,
      b => Some(5),
      b => Some(0),
      b => Some([TAG]),
      b => Some([]),
      (cover, b, fee, balance) => if COIN in cover then Some([TAG]) else None,
      tx => true,
      height => true,
      (m, i) => 2 * Pair(Code(m), i),
      c => 2 * c + 1)
  }

  ghost function Truth(): Secrets {
    Secrets(c => if c == COIN then 5 else 0, c => if c == COIN then TAG else c + 1000, b => [COIN])
  }

  lemma ToyIsSound()
    ensures Authentic(Toy()) && Conserving(Toy(), Truth())
  {
    var be, x := Toy(), Truth();
    forall m, i, n, j | be.outpoint(m, i) == be.outpoint(n, j) ensures m == n && i == j {
      PairInjective(Code(m), i, Code(n), j);
      CodeInjective(m, n);
    }
    assert [COIN][..0] == [];
    assert Worth(x, [COIN]) == 5 && Worth(x, []) == 0;
  }

  const MINT := ShieldedTx(true, Some(Payload(Some(0), [], None, -5)), [1], [], 0)
  const SPEND := ShieldedTx(true, Some(Payload(None, [], Some(Spend(0, 1, 0)), 5)), [], [], 0)

  // ---- the pools of the runs ----

  ghost function Held(): Entry {
    Entry(Toy().outpoint(multiset{1}, 0), COIN, 1)
  }

  /** Once the coin is minted at height 1, and once it is spent at height 2. */
  ghost function Minted1(): Pool {
    Pool([Held()], map[], 5)
  }

  ghost function Spent2(): Pool {
    Pool([Held()], map[TAG := 2], 0)
  }

  lemma MintApplied()
    ensures AdvanceAll(Toy(), EMPTY, [MINT], 1) == Minted1()
  {
    var be := Toy();
    assert [MINT][..0] == [] && [MINT][..1] == [MINT];
    assert multiset([1]) == multiset{1};
    assert Keyed(be, [1], []) == [] && Keyed(be, [1], [COIN]) == [(Held().outpoint, COIN)] && Hashed(be, []) == [];
    assert [(Held().outpoint, COIN)][..0] == [];
    assert AddAll([], [(Held().outpoint, COIN)], 1) == [Held()];
  }

  lemma MintGated()
    ensures GateOk(Toy(), EMPTY, [MINT], 1)
  {
    var be := Toy();
    assert [MINT][..0] == [];
    assert Proven(be, EMPTY, MINT) == Some([]);
    assert Keyed(be, [1], []) == [] && Hashed(be, []) == [];
  }

  lemma SpendApplied()
    ensures AdvanceAll(Toy(), Minted1(), [SPEND], 2) == Spent2()
  {
    var be := Toy();
    assert [SPEND][..0] == [] && [SPEND][..1] == [SPEND];
    assert Keyed(be, [], []) == [] && Hashed(be, []) == [];
    assert [TAG][..0] == [];
    assert MarkAll(map[], [TAG], 2) == map[TAG := 2];
  }

  lemma SpendGated()
    ensures GateOk(Toy(), Minted1(), [SPEND], 2)
  {
    var be, s := Toy(), Minted1();
    assert [SPEND][..0] == [];
    assert Cover(s, Spend(0, 1, 0)) == [COIN];
    assert Proven(be, s, SPEND) == Some([TAG]);
    assert Keyed(be, [], []) == [] && Hashed(be, []) == [];
  }

  lemma NothingJoined(s: Pool, height: nat)
    ensures GateOk(Toy(), s, [], height) && AdvanceAll(Toy(), s, [], height) == s
  {
  }

  /** With its tag dropped the coin can be spent again, and nothing backs it. */
  lemma Revived()
    ensures !Backed(Truth(), Pool([Held()], map[], 0)) && Backed(Truth(), Spent2())
  {
    var x := Truth();
    assert [Held()][..0] == [];
    assert Unspent(x, [Held()], map[]) == 5 && Unspent(x, [Held()], map[TAG := 2]) == 0;
  }

  lemma AllFunded()
    ensures FundedApart([MINT]) && FundedApart([SPEND]) && FundedApart([])
  {
  }

  // ---- the runs ----

  const FIRST := Checkpoint(1, 0, 0)
  const SECOND := Checkpoint(2, 1, 5)

  ghost function Begun(): seq<Vault> {
    [START, Vault(Minted1(), [FIRST], 1), Vault(Spent2(), [FIRST, SECOND], 2)]
  }

  lemma BegunSteps()
    ensures After(Toy(), START, Join([MINT])) == Begun()[1] && After(Toy(), Begun()[1], Join([SPEND])) == Begun()[2]
  {
    hide GateOk, AdvanceAll, Toy;
    MintGated();
    MintApplied();
    SpendGated();
    SpendApplied();
    assert [] + [FIRST] == [FIRST] && [FIRST] + [SECOND] == [FIRST, SECOND];
  }

  /** A block joined without transactions on the pool of the spent coin, and rewound again. */
  lemma JoinedAndLeft(stack: seq<Checkpoint>, tip: nat)
    requires tip < 2 && |stack| < 1000
    ensures
      var v := Vault(Spent2(), stack, tip);
      var c := Checkpoint(tip + 1, 1, 0);
      && After(Toy(), v, Join([])) == Vault(Spent2(), stack + [c], tip + 1)
      && After(Toy(), Vault(Spent2(), stack + [c], tip + 1), Leave) == Vault(Pool([Held()], map[], 0), stack, tip)
  {
    hide GateOk, AdvanceAll, Toy;
    NothingJoined(Spent2(), tip + 1);
    var c := Checkpoint(tip + 1, 1, 0);
    assert (stack + [c])[..|stack|] == stack;
    assert Rewound(Spent2(), c) == Pool([Held()], map[], 0) by {
      assert Spent2().coins[..1] == [Held()];
      assert Rewound(Spent2(), c).tags == map[];
    }
  }

  const RESTARTED := [Join([MINT]), Join([SPEND]), Restart, Leave, Join([]), Leave]

  /** Mint, spend, restart; the spending block is rewound without a checkpoint; another block joins and leaves. The coin
      is spendable again, and nothing backs it. */
  lemma RestartRun() returns (vs: seq<Vault>)
    ensures Authentic(Toy()) && Conserving(Toy(), Truth())
    ensures forall op | op in RESTARTED && op.Join? :: FundedApart(op.txs)
    ensures Run(Toy(), vs, RESTARTED) && !Backed(Truth(), vs[|RESTARTED|].pool)
  {
    hide After, Toy, Authentic, Conserving;
    ToyIsSound();
    AllFunded();
    var s := Spent2();
    vs := Begun() + [Vault(s, [], 2), Vault(s, [], 1), Vault(s, [Checkpoint(2, 1, 0)], 2),
                     Vault(Pool([Held()], map[], 0), [], 1)];
    BegunSteps();
    RestartSteps();
    JoinedAndLeft([], 1);
    assert [] + [Checkpoint(2, 1, 0)] == [Checkpoint(2, 1, 0)];
    Revived();
  }

  lemma RestartSteps()
    ensures After(Toy(), Begun()[2], Restart) == Vault(Spent2(), [], 2)
    ensures After(Toy(), Vault(Spent2(), [], 2), Leave) == Vault(Spent2(), [], 1)
  {
  }

  const UNCACHED := [Join([MINT]), Join([SPEND]), Lose, Lose, Join([]), Leave, Remap, Remap]

  /** Mint, spend; a reorg to genesis finds neither body cached, connects one fork block, fails and is undone. The tip
      is back at the block that spent the coin, both old checkpoints are held, and the coin is spendable again. */
  lemma UncachedRun() returns (vs: seq<Vault>)
    ensures Authentic(Toy()) && Conserving(Toy(), Truth())
    ensures forall op | op in UNCACHED && op.Join? :: FundedApart(op.txs)
    ensures Run(Toy(), vs, UNCACHED)
    ensures
      var v := vs[|UNCACHED|];
      v.tip == 2 && v.stack == [FIRST, SECOND] && !Backed(Truth(), v.pool)
  {
    hide After, Toy, Authentic, Conserving;
    ToyIsSound();
    AllFunded();
    var s, r, stack := Spent2(), Pool([Held()], map[], 0), [FIRST, SECOND];
    vs := Begun() + [Vault(s, stack, 1), Vault(s, stack, 0), Vault(s, stack + [Checkpoint(1, 1, 0)], 1),
                     Vault(r, stack, 0), Vault(r, stack, 1), Vault(r, stack, 2)];
    BegunSteps();
    UncachedSteps();
    JoinedAndLeft(stack, 0);
    Revived();
  }

  lemma UncachedSteps()
    ensures
      var s, r, stack := Spent2(), Pool([Held()], map[], 0), [FIRST, SECOND];
      && After(Toy(), Begun()[2], Lose) == Vault(s, stack, 1)
      && After(Toy(), Vault(s, stack, 1), Lose) == Vault(s, stack, 0)
      && After(Toy(), Vault(r, stack, 0), Remap) == Vault(r, stack, 1)
      && After(Toy(), Vault(r, stack, 1), Remap) == Vault(r, stack, 2)
  {
  }
}
