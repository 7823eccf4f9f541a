/** Runs of a node whose cache has lost a block: an accepted reorg after which the state is not that of the chain, a
    failed reorg after which two stores are out of step, and a valid reorg that is refused. */
module Lapse {
  import opened Types
  import opened UtxoSet
  import opened Ledger
  import opened ForkWalk
  import opened Policy
  import opened ReorgTrail
  import opened NodeState
  import opened ForkChoice
  import opened Chain
  import opened Disk
  import opened Moves
  import opened Reach
  import Phase2

  /** Rules that pass every block without transactions whose parent is known; a reorg also wants timestamp 0. */
  const LENIENT: Rules := Rules(
    h => 0,
    b => 0,
    (b: Block) => b.height > 0,
    (b: Block, parent: Option<Block>, u: Utxo, contextual: bool) => parent.Some? && b.txs == [],
    (b: Block, parent: Option<Block>, u: Utxo) => parent.Some? && b.txs == [] && b.timestamp == 0,
    (b, contents) => true,
    (b, window) => true,
    (emitted, burned, left) => 0,
    0,
    1000)

  /** The easiest target: one unit of work. */
  const EASY: Target := U128_MAX * (U128_MAX + 1)

  function Plain(hash: Hash, prev: Hash, height: nat, target: Target): Block {
    Block(hash, prev, height, 0, target, 0, [], [])
  }

  function MainAt(h: nat): Block {
    Plain(h, if h == 0 then 0 else h - 1, h, EASY)
  }

  function Sibling(k: nat): Block {
    Plain(1000 + k, 0, 1, EASY)
  }

  /** A hard target: almost 2^64 units of work. */
  const HARD: Target := 0x1_0000_0000_0000_0000 * (U128_MAX + 1)

  /** A heavy sibling of the first block. */
  const STRIKE: Block := Plain(5000, 0, 1, HARD)

  /** A heavy block on the first sibling, which no reorg can connect. */
  const DOOMED: Block := Plain(5001, 1000, 2, HARD).(timestamp := 1)

  /** A heavy block on the first main block. */
  const HEAVY: Block := Plain(5002, 1, 2, HARD)

  function MainChain(n: nat): seq<Block> {
    seq(n, h requires 0 <= h < n => MainAt(h))
  }

  function MainIndex(n: nat): map<nat, Hash> {
    map h: nat | 0 <= h < n :: MainAt(h).hash
  }

  lemma LenientIsSound()
    ensures Sound(LENIENT)
  {
    forall b: Block, u: Utxo | b.txs == [] ensures Fresh(b, u) {
      assert Created(b.txs, b.height) == map[] && Spent(b.txs) == {};
    }
  }

  lemma EasyWork()
    ensures Work(EASY) == 1 && Work(HARD) == 0xffff_ffff_ffff_ffff
  {
    assert EASY / (U128_MAX + 1) == U128_MAX;
    assert HARD / (U128_MAX + 1) == 0x1_0000_0000_0000_0000;
  }

  lemma {:induction false} MainWork(n: nat)
    requires n >= 1
    ensures ChainWork(MainChain(n)) == n
  {
    if n > 1 {
      EasyWork();
      MainWork(n - 1);
      assert MainChain(n)[..n - 1] == MainChain(n - 1);
    }
  }

  /** A block on genesis has a lineage of two. */
  lemma OnGenesis(bodies: Store, b: Block)
    requires Closed(bodies, 0) && 0 in bodies && bodies[0] == MainAt(0) && b.height == 1 && b.prev == 0
    ensures Parented(bodies, b) && Lineage(bodies, 0, b) == [MainAt(0), b]
      && Lineage(bodies, 0, bodies[0]) == [MainAt(0)]
    ensures ChainWork([MainAt(0), b]) == 1 + Work(b.target)
  {
    assert [MainAt(0), b][..1] == [MainAt(0)];
  }

  /** Once there are siblings, the first of them is stored. */
  ghost predicate Siblings(bodies: Store, k: nat) {
    k > 0 ==> 1000 in bodies && bodies[1000] == Sibling(0)
  }

  /** The node holds the first `n` main blocks and `k` siblings, all cached, with one checkpoint per block. */
  ghost predicate Grown(node: Blockchain, n: nat, k: nat)
    reads node
  {
    && Siblings(node.db.bodies, k) && Phase2.Exact(node.store, node.chain, 0)
    && node.Valid() && node.rules == LENIENT && node.genesis == MainAt(0)
    && n >= 1 && node.chain == MainChain(n) && node.highest == n - 1
    && node.heightToHash == MainIndex(n)
    && node.blocks == node.db.bodies && |node.blocks| == n + k
    && (forall h | h in node.blocks :: h < n || 1000 <= h < 1000 + k)
    && node.db.record.lastCheckpoint == (n - 1) / 144 * 144
  }

  lemma LenientChecks(b: Block, window: seq<Sample>, emitted: nat, burned: nat)
    requires b.commitment == 0
    ensures TargetOk(LENIENT, b, window) && CommitmentOk(LENIENT, b, emitted, burned)
  {
  }

  /** The next main block is welcome on the tip. */
  lemma MainWelcome(node: Blockchain, n: nat, k: nat)
    requires Grown(node, n, k) && n < 1000
    ensures node.Welcome(MainAt(n)) && node.OnTip(MainAt(n))
    ensures n !in node.db.bodies && MainAt(n).prev in node.db.bodies && |node.chain| == n
    ensures MainIndex(n)[n := n] == MainIndex(n + 1) && MainChain(n) + [MainAt(n)] == MainChain(n + 1)
  {
    hide TargetOk, CommitmentOk, WindowOf, Blockchain.Valid, Phase2.Exact, Siblings;
    var b := MainAt(n);
    node.WorkIsChainWork();
    node.TipStored();
    node.KnownOnDisk(b.prev);
    LenientChecks(b, WindowOf(node.chain, n), node.stats.supply + LENIENT.reward(n),
      node.stats.burned + LENIENT.burn(b));
  }

  /** The next main block is accepted; the caches are then what eviction leaves of them. */
  method Accept(node: Blockchain, n: nat, ghost k: nat)
    requires Grown(node, n, k) && n < 1000
    modifies node
    ensures node.Valid() && node.chain == MainChain(n + 1) && node.highest == n
    ensures node.store == Phase2.Connect(old(node.store), MainAt(n))
    ensures node.db.bodies == old(node.db.bodies)[n := MainAt(n)]
    ensures node.db.record.lastCheckpoint == n / 144 * 144
    ensures Evicted(old(node.blocks)[n := MainAt(n)], MainIndex(n + 1), n, node.blocks, node.heightToHash)
  {
    hide Blockchain.Valid, Blockchain.Welcome, Blockchain.CrashSafe, Blockchain.Judged, Blockchain.Cached, Evicted;
    hide MainIndex, MainChain, Phase2.Exact, Phase2.Connect, Siblings, Blockchain.Tried, Rejoined;
    hide Filed, Permitted, Deliver, Equivalent, TxLists, Spends, WithinReach;
    MainWelcome(node, n, k);
    ghost var move, at;
    var status;
    status, move, at := node.AddBlock(MainAt(n));
  }

  /** One more main block gives one more checkpoint. */
  lemma GrownStore(s: Phase2.Store, n: nat, bodies: Store, k: nat)
    requires 1 <= n < 1000 && Phase2.Exact(s, MainChain(n), 0) && Siblings(bodies, k)
    ensures Phase2.Exact(Phase2.Connect(s, MainAt(n)), MainChain(n + 1), 0)
    ensures Phase2.Connect(s, MainAt(n)).strict == s.strict && Siblings(bodies[n := MainAt(n)], k)
  {
    hide Phase2.Replay;
    Phase2.ConnectExact(s, MainChain(n), 0, MainAt(n));
    assert MainChain(n) + [MainAt(n)] == MainChain(n + 1);
  }

  /** Below the cache limit nothing is evicted. */
  method Extend(node: Blockchain, n: nat, ghost k: nat)
    requires Grown(node, n, k) && n < 1000 && n + k < MAX_BLOCK_CACHE
    modifies node
    ensures Grown(node, n + 1, k) && node.store.strict == old(node.store.strict)
  {
    hide Blockchain.Valid, MainIndex, MainChain, Evicted, Siblings, Phase2.Exact, Phase2.Connect;
    MainWelcome(node, n, k);
    GrownStore(node.store, n, node.db.bodies, k);
    ghost var held := node.blocks[n := MainAt(n)];
    Accept(node, n, k);
    EvictsNothing(held, MainIndex(n + 1), n, node.blocks, node.heightToHash);
  }

  /** A sibling of the first block is welcome, and no better than a longer chain. */
  lemma SiblingWelcome(node: Blockchain, n: nat, k: nat, b: Block)
    requires Grown(node, n, k) && b.height == 1 && b.prev == 0 && b.txs == [] && 3 <= n < 1000
    ensures node.Welcome(b) && !node.OnTip(b) && 0 in node.db.bodies && node.GetBlock(0) == Some(MainAt(0))
    ensures ChainWork(node.chain) == n && Closed(node.db.bodies, 0) && Parented(node.db.bodies, b)
    ensures Lineage(node.db.bodies, 0, b) == [MainAt(0), b] && ChainWork([MainAt(0), b]) == 1 + Work(b.target)
  {
    hide Blockchain.Valid, ChainWork, Work, Lineage, Canonical, Siblings, Phase2.Exact;
    node.WorkIsChainWork();
    node.CanonicalNow();
    CanonicalStored(node.db.bodies, 0, node.chain, 0);
    node.KnownOnDisk(0);
    MainWork(n);
    OnGenesis(node.db.bodies, b);
  }

  lemma MoreSiblings(bodies: Store, k: nat)
    requires Siblings(bodies, k)
    ensures Siblings(bodies[1000 + k := Sibling(k)], k + 1)
  {
  }

  /** Such a sibling is kept as a fork. */
  method AddSibling(node: Blockchain, n: nat, k: nat)
    requires Grown(node, n, k) && 3 <= n < 1000
    modifies node
    ensures Grown(node, n, k + 1) && node.store == old(node.store)
  {
    hide Blockchain.Valid, Blockchain.Welcome, Blockchain.CrashSafe, Blockchain.Cached, Evicted, MainIndex, MainChain;
    hide Filed, Permitted, Deliver, Equivalent, TxLists, Spends, WithinReach, Certain, AllCertain, AllJoin, Hopeless;
    hide Lineage, Closed, Parented, Branches, ChainWork, Siblings, Phase2.Exact, Blockchain.Tried, Rejoined;
    var b := Sibling(k);
    EasyWork();
    SiblingWelcome(node, n, k, b);
    MoreSiblings(node.db.bodies, k);
    ghost var move, at;
    var status;
    status, move, at := node.AddBlock(b);
  }

  // ---- the first block is evicted ----

  /** The main chain below `n`, with the first block alone evicted from the caches. */
  ghost predicate Thinned(node: Blockchain, n: nat)
    reads node
  {
    && node.Valid() && node.rules == LENIENT && node.genesis == MainAt(0)
    && n > 1 && node.chain == MainChain(n) && node.highest == 202 && Phase2.Exact(node.store, node.chain, 0)
    && node.heightToHash == MainIndex(n) - {1} && node.blocks == node.db.bodies - {1}
    && Siblings(node.db.bodies, 299) && (forall h | h in node.db.bodies :: h < 5000)
  }

  lemma StartFits(strict: bool)
    ensures Sound(LENIENT) && WellFormed(MainAt(0)) && MainChain(1) == [MainAt(0)] && MainIndex(1) == map[0 := 0]
    ensures Phase2.Exact(Phase2.Empty(strict), MainChain(1), 0) && forall bodies :: Siblings(bodies, 0)
  {
    LenientIsSound();
  }

  method Start(strict: bool) returns (node: Blockchain)
    ensures fresh(node) && Grown(node, 1, 0) && node.store.strict == strict
  {
    hide Blockchain.Valid, MainChain, MainIndex, Sound, WellFormed, Phase2.Exact, Siblings;
    StartFits(strict);
    node := new Blockchain(LENIENT, MainAt(0), strict);
  }

  /** At height 202 only the first block can be evicted. */
  lemma OnlyFirst(cut: nat)
    requires cut > 1
    ensures Survivors(MainIndex(203), cut, 202) == MainIndex(203) - {1} && Victims(MainIndex(203), cut, 202) == {1}
    ensures 1 in MainIndex(203) && Evictable(1, 202)
  {
    var index := MainIndex(203);
    assert forall h: nat | h < 203 :: h in index && index[h] == h by { assert forall h: nat :: MainAt(h).hash == h; }
    assert forall h: nat :: Evictable(h, 202) <==> h == 1;
  }

  /** Above the limit it is. */
  lemma FirstGoes(blocks: Store, kept: Store, left: map<nat, Hash>)
    requires Evicted(blocks, MainIndex(203), 202, kept, left) && |blocks| > MAX_BLOCK_CACHE
    ensures left == MainIndex(203) - {1} && kept == blocks - {1}
  {
    hide MainIndex, Survivors, Victims, Evicted;
    OnlyFirst(2);
    assert forall h: nat | h < 1 :: !Evictable(h, 202);
    EvictsLowest(blocks, MainIndex(203), 202, kept, left, 1);
    var cut: nat := EvictCut(blocks, MainIndex(203), 202, kept, left);
    if cut <= 1 { SurvivesAll(MainIndex(203), cut, 202); } else { OnlyFirst(cut); }
  }

  ghost function EvictCut(blocks: Store, index: map<nat, Hash>, tip: nat, kept: Store, left: map<nat, Hash>): (cut: nat)
    requires Evicted(blocks, index, tip, kept, left)
    ensures left == Survivors(index, cut, tip) && kept == blocks - Victims(index, cut, tip)
  {
    var cut: nat :| EvictedAt(cut, blocks, index, tip, kept, left);
    cut
  }

  /** 201 main blocks and 299 siblings fill the cache. */
  method Fill(strict: bool) returns (node: Blockchain)
    ensures fresh(node) && Grown(node, 202, 299) && node.store.strict == strict
  {
    hide Blockchain.Valid, MainIndex, MainChain, Siblings, Phase2.Exact;
    node := Start(strict);
    var n := 1;
    while n < 202
      invariant n <= 202 && fresh(node) && Grown(node, n, 0) && node.store.strict == strict
    {
      Extend(node, n, 0);
      n := n + 1;
    }
    var k := 0;
    while k < 299
      invariant k <= 299 && fresh(node) && Grown(node, n, k) && node.store.strict == strict
    {
      AddSibling(node, n, k);
      k := k + 1;
    }
  }

  /** The next main block evicts the first one. */
  method Overflow(strict: bool) returns (node: Blockchain)
    ensures fresh(node) && Thinned(node, 203) && node.store.strict == strict && node.db.record.lastCheckpoint == 144
  {
    hide Blockchain.Valid, MainIndex, MainChain, Evicted, Siblings, Phase2.Exact, Phase2.Connect;
    node := Fill(strict);
    MainWelcome(node, 202, 299);
    GrownStore(node.store, 202, node.db.bodies, 299);
    ghost var held := node.blocks[202 := MainAt(202)];
    Accept(node, 202, 299);
    FirstGoes(held, node.blocks, node.heightToHash);
  }

  /** A shorter main chain has the shorter index and the fewer checkpoints. */
  lemma Shorter(s: Phase2.Store, target: nat)
    requires 0 < target < 202 && Phase2.Exact(s, MainChain(203), 0)
    ensures MainChain(203)[..target + 1] == MainChain(target + 1)
    ensures Upto(MainIndex(203) - {1}, target) == MainIndex(target + 1) - {1}
    ensures
      var t := Phase2.RewindN(s, 202 - target);
      Phase2.Exact(t, MainChain(target + 1), 0) && t.strict == s.strict
  {
    hide Phase2.Replay;
    assert MainChain(203)[..target + 1] == MainChain(target + 1);
    Phase2.RewindNExact(s, MainChain(203), 0, 202 - target);
    Phase2.RewindDepth(s, 202 - target);
    assert Upto(MainIndex(203) - {1}, target).Keys == (MainIndex(target + 1) - {1}).Keys;
  }

  /** The recorded checkpoint height lets the node be rolled back to 144 or above. */
  method Prepare(strict: bool, target: nat) returns (node: Blockchain)
    requires 144 <= target < 202
    ensures fresh(node) && Thinned(node, target + 1) && node.store.strict == strict
  {
    hide Blockchain.Valid, Spends, TxLists, Filed, Apart, DescribesNothing, Permitted, MainChain, MainIndex, Upto,
      Siblings;
    hide Phase2.Exact, Phase2.RewindN;
    node := Overflow(strict);
    node.WorkIsChainWork();
    FillLength();
    Shorter(node.store, target);
    var ok, orphaned; ghost var move;
    ok, orphaned, move := node.RollbackToHeight(target);
  }

  lemma FillLength()
    ensures |MainChain(203)| == 203
  {
  }

  // ---- what the thinned cache leads to ----

  /** What a thinned node knows. */
  lemma ThinnedFacts(node: Blockchain, n: nat)
    requires Thinned(node, n) && n <= 203
    ensures |node.chain| == n && node.tip.height == n - 1 && node.tip.hash == n - 1 && ChainWork(node.chain) == n
    ensures Closed(node.db.bodies, 0) && 0 in node.db.bodies && node.db.bodies[0] == MainAt(0)
    ensures Canonical(node.db.bodies, 0, node.chain) && Lineage(node.db.bodies, 0, MainAt(0)) == [MainAt(0)]
    ensures 0 in node.blocks && node.blocks[0] == MainAt(0) && 1 !in node.heightToHash && 1 !in node.blocks
    ensures 1 in node.db.bodies && node.db.bodies[1] == MainAt(1)
  {
    hide Blockchain.Valid, ChainWork, Work, Lineage, Canonical, Siblings, Phase2.Exact;
    node.WorkIsChainWork();
    node.CanonicalNow();
    CanonicalStored(node.db.bodies, 0, node.chain, 0);
    CanonicalStored(node.db.bodies, 0, node.chain, 1);
    MainWork(n);
    assert node.chain[..1] == [MainAt(0)];
    assert MainAt(1).hash == 1;
  }

  /** A block off the tip with a stored parent is welcome. */
  lemma ThinnedWelcome(node: Blockchain, n: nat, b: Block)
    requires Thinned(node, n) && n <= 203 && b.height > 0 && b.txs == [] && b.prev != n - 1
    requires b.prev in node.db.bodies && node.db.bodies[b.prev].height + 1 == b.height
    ensures node.Welcome(b) && !node.OnTip(b)
  {
    hide Blockchain.Valid, Siblings, Phase2.Exact, MainIndex;
    ThinnedFacts(node, n);
    node.KnownOnDisk(b.prev);
  }

  /** A heavy sibling of the first block is better, admitted, and certain to pass. */
  lemma StrikeWins(node: Blockchain)
    requires Thinned(node, 145)
    ensures node.Welcome(STRIKE) && !node.OnTip(STRIKE) && !node.Cached(0)
    ensures Parented(node.db.bodies, STRIKE) && Lineage(node.db.bodies, 0, STRIKE) == [MainAt(0), STRIKE]
    ensures Better([MainAt(0), STRIKE], node.chain)
    ensures Admits(1, 0, ChainWork([MainAt(0), STRIKE]), ChainWork(node.chain), 144, LENIENT.maxReorgDepth)
    ensures Certain(LENIENT, node.blocks[STRIKE.hash := STRIKE], STRIKE)
  {
    hide Blockchain.Valid, ChainWork, Work, MainChain, Siblings, Phase2.Exact, Lineage, Closed;
    ThinnedFacts(node, 145);
    ThinnedWelcome(node, 145, STRIKE);
    EasyWork();
    OnGenesis(node.db.bodies, STRIKE);
  }

  /** It is accepted, and the state no longer follows the chain. */
  method Strike(node: Blockchain) returns (status: Status)
    requires Thinned(node, 145)
    modifies node
    ensures status.AcceptedReorg? && !node.Valid()
  {
    hide Blockchain.Valid, Blockchain.Welcome, Blockchain.CrashSafe, Evicted, MainChain, MainIndex;
    hide Filed, Permitted, Deliver, Equivalent, TxLists, Spends, WithinReach, Certain, AllJoin, Hopeless, Rejoined;
    hide Lineage, Closed, Parented, ChainWork, Siblings, Phase2.Exact, Blockchain.Tried, Canonical;
    ghost var move, at;
    ThinnedFacts(node, 145);
    StrikeWins(node);
    assert [MainAt(0)][1..] == [];
    status, move, at := node.AddBlock(STRIKE);
  }

  // ---- two stores out of step ----

  lemma MainBody(node: Blockchain, n: nat, h: nat)
    requires Thinned(node, n) && 1 < h < n
    ensures h in node.heightToHash && node.heightToHash[h] == h && h in node.blocks
  {
    hide Blockchain.Valid, Siblings, Phase2.Exact, Canonical;
    node.CanonicalNow();
    CanonicalStored(node.db.bodies, 0, node.chain, h);
    assert MainAt(h).hash == h;
  }

  lemma AllAboveFirst(index: map<nat, Hash>, blocks: Store, n: nat)
    requires n > 1 && 1 !in index && forall h: nat | 1 < h < n :: h in index && index[h] in blocks
    ensures CachedAbove(index, blocks, n, 1) && |CachedHeights(index, blocks, 0, n - 1)| == n - 2
  {
    hide CachedHeights;
    assert CachedAbove(index, blocks, n, 1);
    CachedHeightsAscend(index, blocks, 1, n - 1);
    CachedHeightsDown(index, blocks, 1, n - 1);
  }

  /** All but the first height are cached. */
  lemma AllButFirst(node: Blockchain, n: nat)
    requires Thinned(node, n) && n <= 203
    ensures CachedAbove(node.heightToHash, node.blocks, |node.chain|, 1)
    ensures |CachedHeights(node.heightToHash, node.blocks, 0, n - 1)| == n - 2
  {
    hide *;
    ThinnedFacts(node, n);
    forall h: nat | 1 < h < n ensures h in node.heightToHash && node.heightToHash[h] in node.blocks {
      MainBody(node, n, h);
    }
    ThinnedLong(node, n);
    AllAboveFirst(node.heightToHash, node.blocks, n);
  }

  lemma ThinnedLong(node: Blockchain, n: nat)
    requires Thinned(node, n)
    ensures n > 1
  {
  }

  /** A block on the first sibling has a lineage of three that leaves the main chain at genesis. */
  lemma OnSibling(bodies: Store, b: Block, n: nat)
    requires Closed(bodies, 0) && 0 in bodies && bodies[0] == MainAt(0) && 1000 in bodies && bodies[1000] == Sibling(0)
    requires b.height == 2 && b.prev == 1000 && n > 1
    ensures Parented(bodies, b) && Lineage(bodies, 0, bodies[1000]) == [MainAt(0), Sibling(0)]
    ensures Lineage(bodies, 0, b) == [MainAt(0), Sibling(0), b]
    ensures ChainWork([MainAt(0), Sibling(0), b]) == 2 + Work(b.target)
    ensures forall at: nat :: Branches([MainAt(0), Sibling(0)], MainChain(n), at) ==> at == 0
  {
    EasyWork();
    OnGenesis(bodies, Sibling(0));
    assert [MainAt(0), Sibling(0), b][..2] == [MainAt(0), Sibling(0)];
    forall at: nat | Branches([MainAt(0), Sibling(0)], MainChain(n), at) ensures at == 0 {
      assert [MainAt(0), Sibling(0)][at] == [MainAt(0), Sibling(0)][..at + 1][at] == MainChain(n)[..at + 1][at] ==
        MainChain(n)[at];
    }
  }

  /** It is better and admitted, its fork is certain to pass, and it is certain to fail. */
  lemma DoomedTried(node: Blockchain)
    requires Thinned(node, 145)
    ensures node.Welcome(DOOMED) && !node.OnTip(DOOMED) && DOOMED.prev in node.db.bodies
      && DOOMED.hash !in node.db.bodies
    ensures Parented(node.db.bodies, DOOMED) && Better(Lineage(node.db.bodies, 0, DOOMED), node.chain)
    ensures Lineage(node.db.bodies, 0, node.db.bodies[1000]) == [MainAt(0), Sibling(0)]
    ensures forall at: nat :: Branches([MainAt(0), Sibling(0)], node.chain, at) ==> at == 0
    ensures Admits(2, 0, ChainWork(Lineage(node.db.bodies, 0, DOOMED)), ChainWork(node.chain), 144,
      LENIENT.maxReorgDepth)
    ensures Certain(LENIENT, node.blocks[DOOMED.hash := DOOMED], Sibling(0))
    ensures Hopeless(LENIENT, node.blocks[DOOMED.hash := DOOMED], DOOMED)
  {
    hide Blockchain.Valid, ChainWork, Work, MainChain, Phase2.Exact, Lineage, Closed, Branches;
    ThinnedFacts(node, 145);
    ThinnedWelcome(node, 145, DOOMED);
    EasyWork();
    OnSibling(node.db.bodies, DOOMED, 145);
  }

  /** The failed reorg rewinds 143 blocks and connects one at a height whose checkpoint is still held: a strict store
      declines it, is rewound once too often, and is left one checkpoint short. */
  lemma DriftDepth(s: Phase2.Store, hs: seq<nat>)
    requires Phase2.Exact(s, MainChain(145), 0) && |hs| == 143 && Phase2.Ascends(hs, 0, 144)
    ensures |Phase2.FailedReorg(s, hs, [Sibling(0)]).stack| == if s.strict then 143 else 144
  {
    hide Phase2.Replay;
    var d, fork := Phase2.RewindN(s, 143), [Sibling(0)];
    Phase2.ExactRises(s, MainChain(145), 0);
    Phase2.RewindNExact(s, MainChain(145), 0, 143);
    Phase2.RewindDepth(s, 143);
    Phase2.FailedReorgOutcome(s, 144, 0, hs, fork);
    Phase2.DeclinesIff(s, 144, 0, hs, fork);
    if s.strict {
      Phase2.ConnectSkipped(d, 0, fork);
      var u := Phase2.Undone(s, 143, fork);
      Phase2.RewindDepth(Phase2.ConnectN(d, fork), 1);
      assert u.stack == [];
      Phase2.PushRises(u, 0, hs, 144);
    }
  }

  /** The node itself is as valid as before; its strict store and a sibling that were in step are so no longer. */
  method Drift(node: Blockchain) returns (status: Status)
    requires Thinned(node, 145)
    modifies node
    ensures status == RolledBack && node.Valid() && node.chain == old(node.chain)
    ensures |old(node.store.stack)| == 144 && |node.store.stack| == if old(node.store.strict) then 143 else 144
  {
    hide Blockchain.Valid, Blockchain.Welcome, Blockchain.CrashSafe, Evicted, MainChain, MainIndex, Phase2.Exact,
      Better;
    hide Filed, Permitted, Deliver, Equivalent, TxLists, Spends, WithinReach, Certain, AllJoin, Hopeless, Rejoined;
    hide Lineage, Closed, Parented, ChainWork, Siblings, Canonical, CachedHeights, Phase2.FailedReorg, Branches, Admits;
    ghost var move, at;
    ghost var hs, s := CachedHeights(node.heightToHash, node.blocks, 0, 144), node.store;
    ThinnedFacts(node, 145);
    DoomedTried(node);
    AllButFirst(node, 145);
    CachedHeightsAscend(node.heightToHash, node.blocks, 0, 144);
    DriftDepth(s, hs);
    ThinnedDepth(node);
    assert [MainAt(0), Sibling(0)][1..] == [Sibling(0)];
    status, move, at := node.AddBlock(DOOMED);
  }

  lemma ThinnedDepth(node: Blockchain)
    requires Thinned(node, 145)
    ensures |node.store.stack| == 144
  {
    hide Blockchain.Valid, Phase2.Replay;
  }

  // ---- a valid reorg refused ----

  /** A heavy block on the evicted first block, 57 below the highest tip, is better and admitted, all it disconnects is
      cached, and it passes every check if it is given its parent. */
  lemma HeavyValid(node: Blockchain)
    requires Thinned(node, 146)
    ensures node.Welcome(HEAVY) && !node.OnTip(HEAVY) && HEAVY.prev in node.db.bodies && HEAVY.hash !in node.db.bodies
    ensures Parented(node.db.bodies, HEAVY) && Better(Lineage(node.db.bodies, 0, HEAVY), node.chain)
    ensures node.db.bodies[1] == MainAt(1) && Lineage(node.db.bodies, 0, MainAt(1)) == node.chain[..2] == MainChain(2)
    ensures Admits(2, 1, ChainWork(Lineage(node.db.bodies, 0, HEAVY)), ChainWork(node.chain), 145,
      LENIENT.maxReorgDepth)
    ensures forall at: nat :: Branches(MainChain(2), node.chain, at) ==> at == 1
  {
    hide Blockchain.Valid, ChainWork, Work, Phase2.Exact, Lineage, Closed, Siblings, MainIndex;
    ThinnedFacts(node, 146);
    CanonicalStored(node.db.bodies, 0, node.chain, 1);
    ThinnedWelcome(node, 146, HEAVY);
    EasyWork();
    HeavyLineage(node.db.bodies);
    assert node.chain[..2] == MainChain(2);
  }

  lemma HeavyLineage(bodies: Store)
    requires Closed(bodies, 0) && 1 in bodies && bodies[1] == MainAt(1) && Parented(bodies, MainAt(1))
    requires Lineage(bodies, 0, MainAt(1)) == MainChain(2)
    ensures Parented(bodies, HEAVY) && Lineage(bodies, 0, HEAVY) == MainChain(2) + [HEAVY]
    ensures ChainWork(MainChain(2) + [HEAVY]) == 2 + Work(HARD)
  {
    MainWork(2);
    ChainWorkSnoc(MainChain(2), HEAVY);
  }

  /** It is refused, because its parent is looked up in the cache only. */
  method Refuse(node: Blockchain) returns (status: Status)
    requires Thinned(node, 146)
    modifies node
    ensures status == RolledBack && node.Valid() && node.chain == old(node.chain)
    ensures forall u :: LENIENT.fullOk(HEAVY, Some(MainAt(1)), u)
  {
    hide Blockchain.Valid, Blockchain.Welcome, Blockchain.CrashSafe, Evicted, MainChain, MainIndex, Phase2.Exact,
      Better;
    hide Filed, Permitted, Deliver, Equivalent, TxLists, Spends, WithinReach, Certain, AllJoin, Hopeless, Rejoined;
    hide Lineage, Closed, Parented, ChainWork, Siblings, Canonical, CachedHeights, Phase2.FailedReorg, Branches, Admits;
    hide Phase2.RewindN, Blockchain.Tried, CachedAbove;
    ghost var move, at;
    ThinnedFacts(node, 146);
    HeavyValid(node);
    AllButFirst(node, 146);
    HeavyPointless(node.blocks[HEAVY.hash := HEAVY], Phase2.RewindN(node.store, 144));
    status, move, at := node.AddBlock(HEAVY);
  }

  lemma HeavyPointless(blocks: Store, base: Phase2.Store)
    requires 1 !in blocks
    ensures !AllJoin(LENIENT, blocks, MainChain(2), base, MainChain(2)[2..], HEAVY)
  {
    assert MainChain(2)[2..] == [] && ([] + [HEAVY])[0] == HEAVY;
    assert MainChain(2)[1].hash == 1;
    PointlessRefused(LENIENT, blocks, MainChain(2), base, [], HEAVY);
  }
}
