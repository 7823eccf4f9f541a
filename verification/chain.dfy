/** The blockchain state machine: extending the tip, storing forks, reorganising and rolling back. */
module Chain {
  import opened Types
  import opened UtxoSet
  import opened Ledger
  import opened ForkWalk
  import opened Policy
  import opened Disk
  import opened ReorgTrail
  import opened NodeState
  import opened Moves
  import opened ForkChoice
  import Phase2

  /** How far a reorg got: ready for the new tip, stopped by validation (path A) or by the final target
      check (path B). */
  datatype Attached = Ready | LedgerFailed | TargetFailed

  class Blockchain {
    const rules: Rules
    const genesis: Block
    var blocks: Store
    var heightToHash: map<nat, Hash>
    var tip: Tip
    var stats: Stats
    var utxos: Utxo
    var store: Phase2.Store
    var db: Database
    ghost var chain: seq<Block>
    ghost var highest: nat
    ghost var writes: seq<Database>

    /** Everything the node keeps, on disk and in memory, is the fold over `chain`. */
    ghost predicate Valid()
      reads this
    {
      Describes(db, rules, chain) && InMemory()
    }

    ghost predicate InMemory()
      reads this
    {
      && Sound(rules)
      && |chain| >= 1 && chain[0] == genesis
      && Canonical(db.bodies, genesis.hash, chain)
      && Holds(utxos, StateOf(rules, chain))
      && Totals(stats, rules, chain)
      && Points(tip, chain)
      && CacheOk(blocks, heightToHash, db.bodies, chain, highest)
      && |chain| - 1 <= highest
      && |store.stack| <= Phase2.MAX_CHECKPOINTS
    }

    /** What a valid node's numbers are: supply is the emission schedule summed to the tip, work is 1 plus the work
        of every block, live outputs are those created minus those disconnected, every block from the enforcement
        height on commits to the totals of its own prefix, and a filed
        index locates exactly the canonical transactions if and only if none is on the chain twice. */
    lemma ValidPromises()
      requires Valid()
      ensures stats.supply == RewardSum(rules, tip.height + 1) && stats.work == ChainWork(chain)
      ensures utxos.ever == utxos.disconnects + |utxos.outputs|
      ensures Filed(db, chain) ==> (Locates(db.txIndex, chain) <==> Repeatless(chain))
      ensures forall i | 1 <= i < |chain| && i >= rules.enforceHeight ::
                var s := StateOf(rules, chain[..i + 1]); chain[i].commitment == Commitment(rules, s.supply, s.burned)
    {
      hide ChainOk, StateOf, Sound, Canonical, CacheOk, Locates, Commitment, Repeatless, TxIndexOf;
      SupplyIsSchedule(rules, chain);
      WorkOfState(rules, chain);
      LiveCount(rules, chain);
      IndexLocates(rules, chain);
      forall i | 1 <= i < |chain| && i >= rules.enforceHeight
        ensures
          var s := StateOf(rules, chain[..i + 1]); chain[i].commitment == Commitment(rules, s.supply, s.burned)
      {
        EveryBlockCommits(rules, chain, i);
      }
    }

    /** The state is a function of the canonical chain alone: two nodes on the same chain agree, whatever extensions,
        reorgs, failed reorgs and rollbacks led them there. */
    lemma SameChainSameState(other: Blockchain)
      requires Valid() && other.Valid() && rules == other.rules && chain == other.chain
      ensures stats.(difficulty := 0) == other.stats.(difficulty := 0)
      ensures tip.(difficulty := 0) == other.tip.(difficulty := 0)
      ensures Equivalent(utxos, other.utxos)
      ensures db.heights == other.db.heights
      ensures Filed(db, chain) && Filed(other.db, chain) ==> db.txIndex == other.db.txIndex
      ensures db.record.(lastCheckpoint := 0) == other.db.record.(lastCheckpoint := 0)
    {
      hide ChainOk, StateOf, Sound, Canonical, CacheOk, TxIndexOf;
      IndexedAlike(db.heights, other.db.heights, chain);
    }

    /** `init_genesis`: a node that holds the genesis block and nothing else. */
    constructor (r: Rules, g: Block, strict: bool)
      requires Sound(r) && g.height == 0 && WellFormed(g)
      ensures Valid() && rules == r && genesis == g
      ensures chain == [g] && highest == 0 && store == Phase2.Empty(strict) && writes == []
      ensures db.record.lastCheckpoint == 0 && Filed(db, chain)
      ensures blocks == db.bodies == map[g.hash := g] && heightToHash == map[0 := g.hash]
    {
      rules, genesis := r, g;
      blocks, heightToHash := map[g.hash := g], map[0 := g.hash];
      tip := Tip(g.hash, 0, 1, g.timestamp);
      stats := Stats(0, 1, |g.txs|, r.reward(0), 0, 0, g.hash, 1);
      utxos, store := Connect(EMPTY, g), Phase2.Empty(strict);
      db := Database(map[g.hash := g], map[0 := g.hash], Record(g.hash, 0, 1, r.reward(0), 0, 0),
                     InsertTx(map[], TxEntries(g.txs, 0)));
      chain, highest, writes := [g], 0, [];
      new;
      hide Sound, Created, Spent, OutputCount, WellFormed, InsertTx, TxEntries, TxIndexOf, ChainOk, StateOf;
      hide Canonical, Connect;
      hide Describes, InMemory;
      GenesisFacts(r, g);
      StartDescribed();
      StartInMemory();
    }

    lemma StartDescribed()
      requires chain == [genesis] && ChainOk(rules, chain) && StateOf(rules, chain) == Genesis(rules, genesis)
      requires db.bodies == map[genesis.hash := genesis] && db.heights == map[0 := genesis.hash] && genesis.height == 0
      requires db.record == Record(genesis.hash, 0, 1, rules.reward(0), 0, 0)
      ensures Describes(db, rules, chain)
    {
      hide ChainOk, StateOf, Created, Spent, OutputCount;
    }

    lemma StartInMemory()
      requires Sound(rules) && chain == [genesis] && highest == 0 && StateOf(rules, chain) == Genesis(rules, genesis)
      requires genesis.height == 0 && Canonical(db.bodies, genesis.hash, chain)
      requires db.bodies == blocks == map[genesis.hash := genesis] && heightToHash == map[0 := genesis.hash]
      requires utxos == Utxo(Created(genesis.txs, 0), Spent(genesis.txs), OutputCount(genesis.txs), 0)
      requires stats == Stats(0, 1, |genesis.txs|, rules.reward(0), 0, 0, genesis.hash, 1)
      requires tip == Tip(genesis.hash, 0, 1, genesis.timestamp) && store == Phase2.Empty(store.strict)
      ensures InMemory()
    {
      hide Sound, StateOf, Canonical, Created, Spent, OutputCount;
    }

    /** Every block above `p` is in the caches. */
    ghost predicate Cached(p: nat)
      reads this
    {
      CachedAbove(heightToHash, blocks, |chain|, p)
    }

    /** The parts of the state that the connect and disconnect loops move together. */
    ghost function Now(): Snapshot
      reads this
    {
      Snapshot(utxos, stats.supply, stats.burned)
    }

    ghost function Seen(): View
      reads this
    {
      View(chain, store, highest)
    }

    ghost function AsNode(): Node
      reads this
    {
      Node(db.bodies, chain)
    }

    lemma NonEmpty()
      requires Valid()
      ensures chain != []
    {
    }

    lemma CachedBodies()
      requires Valid()
      ensures Indexed(heightToHash, blocks, chain)
    {
      forall h | h in heightToHash
        ensures heightToHash[h] in blocks ==> blocks[heightToHash[h]] == chain[h]
      {
        CanonicalStored(db.bodies, genesis.hash, chain, h);
      }
    }

    // ---- the reorg's disconnect loop ----

    /** One turn of the disconnect loop: the block at `h` goes if its body is cached, its mapping always. */
    method DisconnectOne(h: nat) returns (found: bool, hash: Hash, held: bool, txs: seq<Tx>)
      requires ChainOk(rules, chain) && Indexed(heightToHash, blocks, chain)
      requires 0 < h < |chain| && AtLeast(Now(), rules, chain[..h + 1])
      modifies `utxos, `stats, `heightToHash, `store
      ensures found == (h in old(heightToHash)) && (found ==> hash == old(heightToHash)[h])
      ensures heightToHash == old(heightToHash) - {h}
      ensures held == (found && hash in blocks) && (held ==> txs == chain[h].txs)
      ensures !held ==> utxos == old(utxos) && stats == old(stats) && store == old(store)
      ensures held ==> utxos == Disconnect(old(utxos), chain[h]) && store == Phase2.Rewind(old(store))
      ensures held ==>
        old(stats) == stats.(supply := stats.supply + rules.reward(h), burned := stats.burned + rules.burn(chain[h]))
      ensures found ==> Equivalent(Redo(utxos, blocks, hash), old(utxos))
      ensures AtLeast(Now(), rules, chain[..h])
      ensures held && old(Matches(Now(), rules, chain[..h + 1])) ==> Matches(Now(), rules, chain[..h])
      ensures utxos.ever >= old(utxos.ever)
    {
      hide ChainOk, StateOf, Covers, Holds, Disconnect, Connect, Equivalent, AtLeast, Matches;
      found, hash, held, txs := false, 0, false, [];
      EquivalentSelf(utxos);
      BeforeAt(rules, Now(), chain, h);
      if h in heightToHash {
        found, hash := true, heightToHash[h];
        if hash in blocks {
          held, txs := true, blocks[hash].txs;
          utxos := Disconnect(utxos, blocks[hash]);
          store := Phase2.Rewind(store);
          stats := stats.(supply := stats.supply - rules.reward(h), burned := stats.burned - rules.burn(blocks[hash]));
        }
        heightToHash := heightToHash - {h};
      }
    }

    /** Disconnect the main chain down to `p`, reading block bodies from the cache only. */
    method DisconnectTo(p: nat)
      returns (heights: seq<(nat, Hash)>, txLists: seq<seq<Tx>>, count: nat, txCount: nat, ghost trail: seq<Utxo>)
      requires ChainOk(rules, chain) && Indexed(heightToHash, blocks, chain) && Matches(Now(), rules, chain)
      requires tip.height == |chain| - 1 && stats.totalTxs == StateOf(rules, chain).txTotal && p < |chain|
      modifies `utxos, `stats, `heightToHash, `store
      ensures heightToHash == Upto(old(heightToHash), p)
      ensures ListsAbove(heights, old(heightToHash), p)
      ensures |trail| == |heights| + 1 && Redoable(trail, heights, blocks) && trail[0] == old(utxos)
        && trail[|heights|] == utxos
      ensures Held(heights, blocks) == CachedHeights(old(heightToHash), blocks, p, tip.height)
      ensures count == |Held(heights, blocks)| <= tip.height - p
      ensures txCount + StateOf(rules, chain[..p + 1]).txTotal <= stats.totalTxs
      ensures store == Phase2.RewindN(old(store), count)
      ensures stats == old(stats).(supply := stats.supply, burned := stats.burned)
      ensures old(Cached(p)) ==> Matches(Now(), rules, chain[..p + 1])
      ensures old(Cached(p)) <==> count == tip.height - p
      ensures old(Cached(p)) ==> txLists == TxLists(chain, p)
      ensures old(Cached(p)) ==> txCount + StateOf(rules, chain[..p + 1]).txTotal == stats.totalTxs
      ensures utxos.ever >= old(utxos.ever)
    {
      hide ChainOk, StateOf, Covers, Holds, Disconnect, Connect, Equivalent, AtLeast, Matches, Redoable, ListsAbove;
      hide Indexed, Upto, Held, TxLists, Peeled, CachedHeights;
      heights, txLists, count, txCount := [], [], 0, 0;
      trail := [utxos];
      var h := tip.height;
      assert chain[..h + 1] == chain;
      MatchesAtLeast(Now(), rules, chain);
      ghost var m := heightToHash;
      PeelStart(m, blocks, chain, utxos);
      NothingListed(m, chain, utxos, blocks, p);
      while h > p
        invariant p <= h < |chain|
        invariant utxos.ever >= old(utxos.ever)
        invariant heightToHash == Upto(m, h)
        invariant Peeled(m, blocks, tip.height, heights, trail, count, h)
        invariant |trail| == |heights| + 1 && trail[0] == old(utxos) && trail[|heights|] == utxos
        invariant store == Phase2.RewindN(old(store), count)
        invariant stats == old(stats).(supply := stats.supply, burned := stats.burned)
        invariant AtLeast(Now(), rules, chain[..h + 1])
        invariant txCount + StateOf(rules, chain[..h + 1]).txTotal <= stats.totalTxs
        invariant old(Cached(p)) ==> Matches(Now(), rules, chain[..h + 1])
        invariant old(Cached(p)) ==> txLists + TxLists(chain[..h + 1], p) == TxLists(chain, p)
        invariant old(Cached(p)) ==> txCount + StateOf(rules, chain[..h + 1]).txTotal == stats.totalTxs
      {
        UptoLess(m, h);
        TxTotalStep(rules, chain, h);
        TxListsStep(txLists, chain, h, p);
        IndexedUpto(m, blocks, chain, h);
        var found, hash, held, txs := DisconnectOne(h);
        PeelStep(m, blocks, tip.height, heights, trail, count, h, utxos);
        if found {
          heights := heights + [(h, hash)];
          trail := trail + [utxos];
          if held {
            count := count + 1;
            txCount := txCount + |txs|;
            txLists := txLists + [txs];
          }
        }
        h := h - 1;
      }
      PeeledFacts(m, blocks, tip.height, heights, trail, count, p);
    }

    // ---- the checks on a block ----

    /** The difficulty window of a block at `height`: main-chain samples from disk up to the fork point,
        then the fork blocks before it. */
    method BuildWindow(forkPoint: nat, fork: seq<Block>, height: nat) returns (window: seq<Sample>)
      requires Placed(db, chain) && forkPoint < |chain|
      requires forall i | 0 <= i < |chain| :: chain[i].height == i
      requires height <= forkPoint + 1 + |fork|
      ensures window == WindowOf(chain[..forkPoint + 1] + fork, height)
    {
      window := [];
      ghost var c := chain[..forkPoint + 1] + fork;
      var h := WindowStart(height);
      while h < height
        invariant WindowStart(height) <= h <= height
        invariant |window| == h - WindowStart(height)
        invariant forall i | 0 <= i < |window| :: window[i] == SampleOf(c[WindowStart(height) + i])
      {
        if h <= forkPoint {
          var b := db.bodies[db.heights[h]];
          window := window + [Sample(h, b.timestamp, b.target)];
        } else {
          var b := fork[h - forkPoint - 1];
          window := window + [Sample(b.height, b.timestamp, b.target)];
        }
        h := h + 1;
      }
    }

    /** Full validation, the shielded gate and the supply commitment, against the current state. */
    method PassesLedger(b: Block) returns (ok: bool)
      requires Sound(rules)
      ensures ok ==> Fresh(b, utxos)
      ensures ok <==>
        && rules.fullOk(b, CachedParent(blocks, b), utxos)
        && rules.gateOk(b, store.contents)
        && CommitmentOk(rules, b, stats.supply + rules.reward(b.height), stats.burned + rules.burn(b))
    {
      if !rules.fullOk(b, CachedParent(blocks, b), utxos) { return false; }
      if !rules.gateOk(b, store.contents) { return false; }
      ok := CommitmentOk(rules, b, stats.supply + rules.reward(b.height), stats.burned + rules.burn(b));
    }

    lemma CertainPasses(b: Block, window: seq<Sample>)
      ensures Certain(rules, blocks, b) ==>
        && rules.fullOk(b, CachedParent(blocks, b), utxos) && rules.gateOk(b, store.contents)
        && CommitmentOk(rules, b, stats.supply + rules.reward(b.height), stats.burned + rules.burn(b))
        && TargetOk(rules, b, window)
    {
      hide CommitmentOk, TargetOk;
    }

    // ---- the reorg's connect loop ----

    /** Connect one fork block: map its height, checkpoint the stores, then apply it everywhere. */
    method ConnectOne(b: Block)
      modifies `utxos, `stats, `heightToHash, `store
      ensures heightToHash == old(heightToHash)[b.height := b.hash]
      ensures store == Phase2.Connect(old(store), b)
      ensures Now() == After(rules, old(Now()), b)
      ensures stats == old(stats).(supply := stats.supply, burned := stats.burned)
      ensures utxos.ever >= old(utxos.ever)
    {
      heightToHash := heightToHash[b.height := b.hash];
      store := Phase2.Checkpoint(store, b.height);
      utxos := Connect(utxos, b);
      store := Phase2.Apply(store, b);
      stats := stats.(supply := stats.supply + rules.reward(b.height), burned := stats.burned + rules.burn(b));
    }

    /** Validate and connect the fork blocks in order, stopping at the first that fails. */
    method ConnectFork(p: nat, fork: seq<Block>, ghost whole: bool)
      returns (failed: bool, n: nat, ghost trail: seq<Snapshot>)
      requires Sound(rules) && Placed(db, chain) && p < |chain|
      requires forall i | 0 <= i < |chain| :: chain[i].height == i
      requires ForkLinked(fork, p, chain[p].hash)
      requires whole ==> ChainOk(rules, chain[..p + 1]) && Matches(Now(), rules, chain[..p + 1])
      modifies `utxos, `stats, `heightToHash, `store
      ensures n <= |fork| && (!failed ==> n == |fork|)
      ensures |trail| == n + 1 && Undoable(rules, trail, fork, n) && trail[0] == old(Now()) && trail[n] == Now()
      ensures heightToHash == SetHeights(old(heightToHash), fork[..n])
      ensures store == Phase2.ConnectN(old(store), fork[..n])
      ensures stats == old(stats).(supply := stats.supply, burned := stats.burned)
      ensures whole ==> ChainOk(rules, chain[..p + 1] + fork[..n]) && Matches(Now(), rules, chain[..p + 1] + fork[..n])
      ensures whole ==> (!failed <==> ForkJoins(rules, blocks, chain[..p + 1], old(store), fork, |fork|))
      ensures AllCertain(rules, blocks, fork) ==> !failed
      ensures utxos.ever >= old(utxos.ever)
    {
      hide Joins, ForkJoins, Certain, Phase2.Connect, Phase2.ConnectN, SetHeights;
      hide ChainOk, StateOf, Matches, Fresh, Connect, Sound, TargetOk, CommitmentOk, WindowOf, Placed, After;
      hide ForkLinked, Undoable, Extends;
      failed, n := false, 0;
      trail := [Now()];
      UndoableStart(rules, Now(), fork, heightToHash, store);
      ForkJoinsNone(rules, blocks, chain[..p + 1], store, fork);
      assert chain[..p + 1] + [] == chain[..p + 1];
      while n < |fork|
        invariant 0 <= n <= |fork|
        invariant utxos.ever >= old(utxos.ever)
        invariant |trail| == n + 1 && Undoable(rules, trail, fork, n) && trail[0] == old(Now()) && trail[n] == Now()
        invariant heightToHash == SetHeights(old(heightToHash), fork[..n])
        invariant store == Phase2.ConnectN(old(store), fork[..n])
        invariant stats == old(stats).(supply := stats.supply, burned := stats.burned)
        invariant whole ==>
          ChainOk(rules, chain[..p + 1] + fork[..n]) && Matches(Now(), rules, chain[..p + 1] + fork[..n])
        invariant whole ==> ForkJoins(rules, blocks, chain[..p + 1], old(store), fork, n)
      {
        var b := fork[n];
        ForkNext(chain, fork, p, n);
        var window := BuildWindow(p, fork[..n], b.height);
        var ok := PassesLedger(b);
        if whole { JoinsNow(rules, blocks, chain[..p + 1] + fork[..n], store.contents, b, Now()); }
        ForkJoinsNext(rules, blocks, chain[..p + 1], old(store), fork, n);
        CertainPasses(b, window);
        if !ok || !TargetOk(rules, b, window) {
          failed := true;
          return;
        }
        ghost var c := chain[..p + 1] + fork[..n];
        if whole { PassedExtends(rules, Now(), c, b); }
        ForkSnoc(old(heightToHash), old(store), fork, n);
        UndoableSnoc(rules, trail, fork, n);
        ConnectOne(b);
        trail := trail + [Now()];
        n := n + 1;
      }
    }

    // ---- undoing a failed reorg ----

    /** Take one connected fork block back. */
    method UndoOne(b: Block)
      requires stats.supply >= rules.reward(b.height) && stats.burned >= rules.burn(b)
      modifies `utxos, `stats, `store
      ensures utxos == Disconnect(old(utxos), b) && store == Phase2.Rewind(old(store))
      ensures old(stats) == stats.(supply := stats.supply + rules.reward(b.height),
        burned := stats.burned + rules.burn(b))
      ensures utxos.ever >= old(utxos.ever)
    {
      utxos := Disconnect(utxos, b);
      store := Phase2.Rewind(store);
      stats := stats.(supply := stats.supply - rules.reward(b.height), burned := stats.burned - rules.burn(b));
    }

    /** Path A: undo the fork blocks whose height is mapped to them, newest first. */
    method UndoMapped(p: nat, fork: seq<Block>, ghost low: map<nat, Hash>, ghost n: nat, ghost trail: seq<Snapshot>)
      requires n <= |fork| && heightToHash == SetHeights(low, fork[..n])
      requires forall h | h in low :: h <= p
      requires forall i | 0 <= i < |fork| :: fork[i].height == p + 1 + i
      requires |trail| == n + 1 && Undoable(rules, trail, fork, n) && trail[n] == Now()
      modifies `utxos, `stats, `store
      ensures Equivalent(utxos, trail[0].utxos) && stats.supply == trail[0].supply && stats.burned == trail[0].burned
      ensures store == Phase2.RewindN(old(store), n)
      ensures utxos.ever >= old(utxos.ever)
    {
      hide Equivalent, Disconnect, Undoable, SetHeights;
      SetHeightsFork(low, fork[..n], p);
      EquivalentSelf(utxos);
      var k := |fork|;
      while k > 0
        invariant 0 <= k <= |fork|
        invariant utxos.ever >= old(utxos.ever)
        invariant
          var j := if k < n then k else n;
          && Equivalent(utxos, trail[j].utxos)
          && stats.supply == trail[j].supply && stats.burned == trail[j].burned
          && store == Phase2.RewindN(old(store), n - j)
      {
        k := k - 1;
        var b := fork[k];
        if b.height in heightToHash && heightToHash[b.height] == b.hash {
          UndoStep(rules, trail, fork, n, k, utxos);
          UndoOne(b);
        }
      }
    }

    /** Path B: every fork block was connected, so every one is undone. */
    method UndoAll(fork: seq<Block>, ghost trail: seq<Snapshot>)
      requires |trail| == |fork| + 1 && Undoable(rules, trail, fork, |fork|) && trail[|fork|] == Now()
      modifies `utxos, `stats, `store
      ensures Equivalent(utxos, trail[0].utxos) && stats.supply == trail[0].supply && stats.burned == trail[0].burned
      ensures store == Phase2.RewindN(old(store), |fork|)
      ensures utxos.ever >= old(utxos.ever)
    {
      hide Equivalent, Disconnect, Undoable;
      EquivalentSelf(utxos);
      var k := |fork|;
      while k > 0
        invariant 0 <= k <= |fork|
        invariant utxos.ever >= old(utxos.ever)
        invariant Equivalent(utxos, trail[k].utxos)
        invariant stats.supply == trail[k].supply && stats.burned == trail[k].burned
        invariant store == Phase2.RewindN(old(store), |fork| - k)
      {
        k := k - 1;
        UndoStep(rules, trail, fork, |fork|, k, utxos);
        UndoOne(fork[k]);
      }
    }

    /** Drop the mappings in `(p, top]`, then map and re-apply the disconnected main-chain blocks, lowest first. */
    method ReapplyMain(p: nat, top: nat, heights: seq<(nat, Hash)>, ghost main: map<nat, Hash>, ghost trail: seq<Utxo>)
      requires Upto(heightToHash, p) == Upto(main, p)
      requires forall h | h in heightToHash :: h <= top
      requires ListsAbove(heights, main, p)
      requires |trail| == |heights| + 1 && Redoable(trail, heights, blocks) && Equivalent(utxos, trail[|heights|])
      modifies `utxos, `heightToHash, `store
      ensures heightToHash == main
      ensures Equivalent(utxos, trail[0])
      ensures store == Phase2.CheckpointAll(old(store), Held(heights, blocks))
      ensures utxos.ever >= old(utxos.ever)
    {
      heightToHash := map h | h in heightToHash && !(p < h <= top) :: heightToHash[h];
      assert heightToHash == Upto(main, p) by { RemovedAbove(old(heightToHash), p, top); }
      ReapplyBlocks(p, heights, main, trail);
    }

    method ReapplyBlocks(p: nat, heights: seq<(nat, Hash)>, ghost main: map<nat, Hash>, ghost trail: seq<Utxo>)
      requires heightToHash == Upto(main, p) && ListsAbove(heights, main, p)
      requires |trail| == |heights| + 1 && Redoable(trail, heights, blocks) && Equivalent(utxos, trail[|heights|])
      modifies `utxos, `heightToHash, `store
      ensures heightToHash == main
      ensures Equivalent(utxos, trail[0])
      ensures store == Phase2.CheckpointAll(old(store), Held(heights, blocks))
      ensures utxos.ever >= old(utxos.ever)
    {
      hide Equivalent, Connect, Disconnect, Redoable, ListsAbove, Remapped, Upto, Held;
      var k := |heights|;
      assert heights[k..] == [];
      RemappedStart(heights, main, p);
      while k > 0
        invariant 0 <= k <= |heights|
        invariant utxos.ever >= old(utxos.ever)
        invariant Remapped(heightToHash, heights, k, main, p)
        invariant Equivalent(utxos, trail[k])
        invariant store == Phase2.CheckpointAll(old(store), Held(heights[k..], blocks))
      {
        k := k - 1;
        var (h, hash) := heights[k];
        RemappedStep(heightToHash, heights, k, main, p);
        RedoStep(trail, heights, blocks, k, utxos);
        heightToHash := heightToHash[h := hash];
        if hash in blocks {
          CheckpointSnoc(old(store), Held(heights[k + 1..], blocks), h);
          store := Phase2.Checkpoint(store, h);
          EverGrows(utxos, blocks[hash]);
          utxos := Connect(utxos, blocks[hash]);
        }
      }
      assert heights[0..] == heights;
      RemappedEnd(heightToHash, heights, main, p);
    }

    // ---- a reorg ----

    /** Put the pre-reorg tip and statistics back after the blocks have been re-applied. */
    method Restore(p: nat, top: nat, heights: seq<(nat, Hash)>, preTip: Tip, preStats: Stats,
                   ghost main: map<nat, Hash>, ghost trail: seq<Utxo>)
      requires Upto(heightToHash, p) == Upto(main, p)
      requires forall h | h in heightToHash :: h <= top
      requires ListsAbove(heights, main, p)
      requires |trail| == |heights| + 1 && Redoable(trail, heights, blocks) && Equivalent(utxos, trail[|heights|])
      modifies `utxos, `heightToHash, `store, `tip, `stats
      ensures heightToHash == main && tip == preTip && stats == preStats
      ensures Equivalent(utxos, trail[0])
      ensures store == Phase2.CheckpointAll(old(store), Held(heights, blocks))
      ensures utxos.ever >= old(utxos.ever)
    {
      hide *;
      ReapplyMain(p, top, heights, main, trail);
      tip, stats := preTip, preStats;
    }

    /** Connect the fork and check `b` on top of it. */
    method Attach(b: Block, p: nat, fork: seq<Block>, ghost whole: bool)
      returns (outcome: Attached, n: nat, ghost steps: seq<Snapshot>)
      requires Sound(rules) && Placed(db, chain) && p < |chain|
      requires forall i | 0 <= i < |chain| :: chain[i].height == i
      requires ForkLinked(fork, p, chain[p].hash) && b.height == p + 1 + |fork|
      requires b.prev == (chain[..p + 1] + fork)[p + |fork|].hash
      requires whole ==> ChainOk(rules, chain[..p + 1]) && Matches(Now(), rules, chain[..p + 1])
      modifies `utxos, `stats, `heightToHash, `store
      ensures n <= |fork| && (outcome != LedgerFailed ==> n == |fork|)
      ensures |steps| == n + 1 && Undoable(rules, steps, fork, n) && steps[0] == old(Now()) && steps[n] == Now()
      ensures heightToHash == SetHeights(old(heightToHash), fork[..n])
      ensures store == Phase2.ConnectN(old(store), fork[..n])
      ensures stats == old(stats).(supply := stats.supply, burned := stats.burned)
      ensures outcome == Ready && whole ==>
        && ChainOk(rules, chain[..p + 1] + fork) && Matches(Now(), rules, chain[..p + 1] + fork)
        && Extends(rules, chain[..p + 1] + fork, b)
      ensures whole ==> (outcome == Ready <==> AllJoin(rules, blocks, chain[..p + 1], old(store), fork, b))
      ensures AllCertain(rules, blocks, fork) && Certain(rules, blocks, b) ==> outcome == Ready
      ensures AllCertain(rules, blocks, fork) ==> n == |fork|
      ensures Hopeless(rules, blocks, b) ==> outcome != Ready
      ensures utxos.ever >= old(utxos.ever)
    {
      hide ChainOk, StateOf, Matches, Sound, Placed, SetHeights, Undoable, ForkLinked, Extends, Fresh;
      hide CommitmentOk, TargetOk, WindowOf, Phase2.ConnectN, ForkJoins, Joins, Certain, AllCertain;
      var failed;
      failed, n, steps := ConnectFork(p, fork, whole);
      if failed { return LedgerFailed, n, steps; }
      assert fork[..n] == fork;
      if whole { JoinsNow(rules, blocks, chain[..p + 1] + fork, store.contents, b, Now()); }
      var passed := PassesLedger(b);
      CertainPasses(b, []);
      if !passed { return LedgerFailed, n, steps; }
      var window := BuildWindow(p, fork, b.height);
      CertainPasses(b, window);
      if !TargetOk(rules, b, window) { return TargetFailed, n, steps; }
      if whole { PassedExtends(rules, Now(), chain[..p + 1] + fork, b); }
      outcome := Ready;
    }

    /** Undo a reorg that failed, by path A or path B. */
    method Undo(b: Block, p: nat, fork: seq<Block>, heights: seq<(nat, Hash)>, preTip: Tip, preStats: Stats,
                outcome: Attached, ghost n: nat, ghost steps: seq<Snapshot>, ghost main: map<nat, Hash>,
                ghost at: Hash, ghost trail: seq<Utxo>)
      requires outcome != Ready && n <= |fork| && (outcome == TargetFailed ==> n == |fork|)
      requires ForkLinked(fork, p, at) && b.height == p + 1 + |fork| && p <= preTip.height
      requires |steps| == n + 1 && Undoable(rules, steps, fork, n) && steps[n] == Now()
      requires heightToHash == SetHeights(Upto(main, p), fork[..n])
      requires ListsAbove(heights, main, p)
      requires |trail| == |heights| + 1 && Redoable(trail, heights, blocks) && steps[0].utxos == trail[|heights|]
      modifies `utxos, `heightToHash, `store, `tip, `stats
      ensures heightToHash == main && tip == preTip && stats == preStats
      ensures Equivalent(utxos, trail[0])
      ensures store == Phase2.CheckpointAll(Phase2.RewindN(old(store), n), Held(heights, blocks))
      ensures utxos.ever >= old(utxos.ever)
    {
      hide SetHeights, Upto, Equivalent, Redoable, ListsAbove, Undoable, Held, ForkLinked;
      hide Phase2.RewindN, Phase2.CheckpointAll;
      ForkIndex(main, fork, p, n, at);
      if outcome == LedgerFailed {
        UndoMapped(p, fork, Upto(main, p), n, steps);
        var forkTop := if |fork| > 0 then fork[|fork| - 1].height else preTip.height;
        var top := if preTip.height > forkTop then preTip.height else forkTop;
        Restore(p, top, heights, preTip, preStats, main, trail);
      } else {
        UndoAll(fork, steps);
        var top := if preTip.height > b.height then preTip.height else b.height;
        Restore(p, top, heights, preTip, preStats, main, trail);
      }
    }

    /** Disconnect down to `p`, connect the fork below `b` and check `b` on top of it; on any failure put
        everything back. */
    method SwitchOrRestore(b: Block, p: nat)
      returns (ok: bool, fork: seq<Block>, txLists: seq<seq<Tx>>, count: nat, txCount: nat, n: nat)
      requires ChainOk(rules, chain) && Indexed(heightToHash, blocks, chain) && Matches(Now(), rules, chain)
      requires Sound(rules) && Placed(db, chain)
      requires tip.height == |chain| - 1 && stats.totalTxs == StateOf(rules, chain).txTotal && p < |chain|
      requires Closed(db.bodies, genesis.hash) && Parented(db.bodies, b) && b.height > 0
      requires forall k | k in blocks :: k in db.bodies && db.bodies[k] == blocks[k]
      requires var c := Lineage(db.bodies, genesis.hash, db.bodies[b.prev]);
               p < |c| && c[..p + 1] == chain[..p + 1]
      modifies `utxos, `heightToHash, `store, `tip, `stats
      ensures fork == Lineage(db.bodies, genesis.hash, db.bodies[b.prev])[p + 1..]
      ensures n <= |fork| && count <= old(tip).height - p
        && count == |CachedHeights(old(heightToHash), blocks, p, old(tip).height)|
      ensures !ok ==> heightToHash == old(heightToHash) && tip == old(tip) && stats == old(stats)
      ensures !ok ==> Equivalent(utxos, old(utxos))
      ensures !ok ==>
        store == Phase2.FailedReorg(old(store), CachedHeights(old(heightToHash), blocks, p, old(tip).height), fork[..n])
      ensures AllCertain(rules, blocks, fork) ==> n == |fork|
      ensures Hopeless(rules, blocks, b) ==> !ok
      ensures ok ==> heightToHash == SetHeights(Upto(old(heightToHash), p), fork) && tip == old(tip)
      ensures ok ==> stats == old(stats).(supply := stats.supply, burned := stats.burned)
      ensures ok ==> store == Phase2.ConnectN(Phase2.RewindN(old(store), count), fork)
      ensures txCount <= old(stats).totalTxs
      ensures old(Cached(p)) <==> count == old(tip).height - p
      ensures old(Cached(p)) ==> txLists == TxLists(chain, p)
      ensures old(Cached(p)) ==> txCount + StateOf(rules, chain[..p + 1]).txTotal == old(stats).totalTxs
      ensures ok && old(Cached(p)) ==>
        && ChainOk(rules, chain[..p + 1] + fork) && Matches(Now(), rules, chain[..p + 1] + fork)
        && Extends(rules, chain[..p + 1] + fork, b)
      ensures old(Cached(p)) ==>
        (ok <==> AllJoin(rules, blocks, chain[..p + 1], Phase2.RewindN(old(store), old(tip).height - p), fork, b))
      ensures AllCertain(rules, blocks, fork) && Certain(rules, blocks, b) ==> ok
      ensures utxos.ever >= old(utxos.ever)
    {
      hide ChainOk, StateOf, Matches, Indexed, Sound, Placed, Closed, Parented, Lineage, SetHeights, Upto, Equivalent;
      hide Redoable, ListsAbove, Undoable, Held, TxLists, ForkLinked, Extends, AllJoin, Certain, AllCertain,
        CachedHeights;
      hide Phase2.RewindN, Phase2.ConnectN, Phase2.CheckpointAll, Cached, ForkChainFrom;
      ghost var main := heightToHash;
      ghost var whole := Cached(p);
      var preTip, preStats := tip, stats;
      ChainHeights(rules, chain);
      PrefixOk(rules, chain, p + 1);
      var heights; ghost var trail;
      heights, txLists, count, txCount, trail := DisconnectTo(p);
      fork := CollectForkChain(db.bodies + blocks, b, p);
      CollectedFork(db.bodies, blocks, genesis.hash, chain, b, p);
      var outcome; ghost var steps;
      outcome, n, steps := Attach(b, p, fork, whole);
      ok := outcome == Ready;
      if ok {
        assert fork[..n] == fork;
      } else {
        assert |fork[..n]| == n;
        Undo(b, p, fork, heights, preTip, preStats, outcome, n, steps, main, chain[p].hash, trail);
      }
    }

    /** A switch to `b` is prepared: the fork below it is connected and `b` extends it. */
    ghost predicate Switched(b: Block, p: nat, fork: seq<Block>, index: map<nat, Hash>)
      reads this
    {
      && Sound(rules) && p < |chain| && chain[0] == genesis
      && Describes(db, rules, chain) && Canonical(db.bodies, genesis.hash, chain)
      && b.hash in db.bodies && db.bodies[b.hash] == b
      && b.height == p + 1 + |fork| && ForkLinked(fork, p, chain[p].hash)
      && Lineage(db.bodies, genesis.hash, b) == chain[..p + 1] + fork + [b]
      && ChainOk(rules, chain[..p + 1] + fork) && Extends(rules, chain[..p + 1] + fork, b)
      && Matches(Now(), rules, chain[..p + 1] + fork)
      && CacheOk(blocks, index, db.bodies, chain, highest) && heightToHash == SetHeights(Upto(index, p), fork)
      && tip.height == |chain| - 1 <= highest && stats.totalBlocks == |chain|
      && |store.stack| <= Phase2.MAX_CHECKPOINTS
    }

    /** Make `b` the tip and commit the whole switch at once. */
    method Adopt(b: Block, p: nat, fork: seq<Block>, txLists: seq<seq<Tx>>, count: nat, txCount: nat, forkWork: nat,
                 ghost index: map<nat, Hash>, ghost whole: bool)
      requires p < |chain| && count <= stats.totalBlocks && txCount <= stats.totalTxs
      requires whole ==>
        && Switched(b, p, fork, index)
        && count == |chain| - 1 - p && txLists == TxLists(chain, p)
        && txCount + StateOf(rules, chain[..p + 1]).txTotal == stats.totalTxs
        && forkWork == ChainWork(chain[..p + 1] + fork + [b])
      modifies this
      ensures whole ==> Valid()
      ensures whole && old(Filed(db, chain)) ==> (Filed(db, chain) <==> Rejoined(old(chain), chain, p))
      ensures tip.height == b.height
      ensures chain == old(chain)[..p + 1] + fork + [b] && highest == Max(old(highest), b.height)
      ensures store == Phase2.Connect(old(store), b)
      ensures db.bodies == old(db).bodies && writes == old(writes) + [db]
      ensures db.record.lastCheckpoint == old(db).record.lastCheckpoint
      ensures stats.totalBlocks == old(stats).totalBlocks - count + |fork| + 1
      ensures utxos.ever >= old(utxos.ever)
    {
      hide ChainOk, StateOf, Matches, Extends, Describes, CacheOk, ForkLinked, SetHeights, Upto, TxLists, Closed;
      hide Canonical;
      hide Sound, Totals, Holds, Connect, Lineage, ChainWork, StatsAfter, IdsIn, TxIds, Recorded, Work, Phase2.Connect;
      hide Filed, Rejoined;
      var oldHeight := tip.height;
      AdoptTip(b, p, fork, count, txCount, forkWork, index, whole);
      var record := RecordOf(stats, db.record.lastCheckpoint);
      if whole { SwitchCommitted(old(chain), p, fork, b, record); IdsAbove(old(chain), p); }
      Persist(CommitReorg(db, fork + [b], b.height, oldHeight, IdsIn(txLists), record));
    }

    method AdoptTip(b: Block, p: nat, fork: seq<Block>, count: nat, txCount: nat, forkWork: nat,
                    ghost index: map<nat, Hash>, ghost whole: bool)
      requires p < |chain| && count <= stats.totalBlocks && txCount <= stats.totalTxs
      requires whole ==>
        && Switched(b, p, fork, index)
        && count == |chain| - 1 - p
        && txCount + StateOf(rules, chain[..p + 1]).txTotal == stats.totalTxs
        && forkWork == ChainWork(chain[..p + 1] + fork + [b])
      modifies `store, `utxos, `tip, `stats, `heightToHash, `chain, `highest
      ensures whole ==> InMemory() && ChainOk(rules, chain)
      ensures chain == old(chain)[..p + 1] + fork + [b] && highest == Max(old(highest), b.height)
      ensures store == Phase2.Connect(old(store), b) && tip.height == b.height
      ensures stats.totalBlocks == old(stats).totalBlocks - count + |fork| + 1
      ensures utxos.ever >= old(utxos.ever)
    {
      hide ChainOk, StateOf, Describes, CacheOk, Canonical, Switched;
      hide Sound, Totals, Holds, Connect, Disconnect, ChainWork, StatsAfter, Work, Phase2.Connect, Max, Points;
      ghost var now := chain[..p + 1] + fork + [b];
      BlocksAfter(stats, rules, fork, b, count, txCount, forkWork);
      if whole { AdoptFacts(b, p, fork, count, txCount, forkWork, index); }
      store := Phase2.Connect(store, b);
      EverGrows(utxos, b);
      utxos := Connect(utxos, b);
      tip := Tip(b.hash, b.height, Work(b.target), b.timestamp);
      stats := StatsAfter(stats, rules, fork, b, count, txCount, forkWork);
      heightToHash := heightToHash[b.height := b.hash];
      chain, highest := now, Max(highest, b.height);
    }

    /** What making `b` the tip does to each part of a prepared switch. */
    lemma AdoptFacts(b: Block, p: nat, fork: seq<Block>, count: nat, txCount: nat, forkWork: nat, index: map<nat, Hash>)
      requires p < |chain| && count <= stats.totalBlocks && txCount <= stats.totalTxs
      requires Switched(b, p, fork, index) && count == |chain| - 1 - p
      requires txCount + StateOf(rules, chain[..p + 1]).txTotal == stats.totalTxs
      requires forkWork == ChainWork(chain[..p + 1] + fork + [b])
      ensures
        var now := chain[..p + 1] + fork + [b];
        && Sound(rules) && now[0] == genesis && |now| == b.height + 1 && ChainOk(rules, now)
        && Points(Tip(b.hash, b.height, Work(b.target), b.timestamp), now)
        && Canonical(db.bodies, genesis.hash, now)
        && Holds(Connect(utxos, b), StateOf(rules, now))
        && Totals(StatsAfter(stats, rules, fork, b, count, txCount, forkWork), rules, now)
        && CacheOk(blocks, heightToHash[b.height := b.hash], db.bodies, now, Max(highest, b.height))
        && b.height <= Max(highest, b.height) && |Phase2.Connect(store, b).stack| <= Phase2.MAX_CHECKPOINTS
    {
      hide ChainOk, StateOf, Matches, Extends, Describes, CacheOk, ForkLinked, SetHeights, Upto, Closed, Canonical;
      hide Sound, Totals, Holds, Connect, Lineage, ChainWork, StatsAfter, Work;
      var low := chain[..p + 1];
      PassedFolds(rules, low + fork, b, Now());
      TotalsReorg(rules, low, fork, b, utxos, stats, count, txCount);
      CacheReorg(blocks, index, db.bodies, chain, highest, p, fork, b);
      LineageIsCanonical(db.bodies, genesis.hash, chain, b);
    }

    /** The reorg commit takes the disk from the old chain to the new one. */
    lemma SwitchCommitted(was: seq<Block>, p: nat, fork: seq<Block>, b: Block, record: Record)
      requires InMemory() && Describes(db, rules, was) && p < |was| && chain == was[..p + 1] + fork + [b]
      requires ChainOk(rules, chain) && b.height == |chain| - 1
      requires record == RecordOf(stats, db.record.lastCheckpoint)
      ensures
        var e := CommitReorg(db, fork + [b], b.height, |was| - 1, TxIds(was[p + 1..]), record);
        Describes(e, rules, chain) && (Filed(db, was) ==> (Filed(e, chain) <==> Rejoined(was, chain, p)))
    {
      hide ChainOk, StateOf, Describes, CacheOk, Sound, Holds, CommitReorg, TxIds, Recorded, RecordOf, Lineage;
      hide Agrees, Filed, Rejoined;
      forall i | 0 <= i < |chain| ensures chain[i].hash in db.bodies && db.bodies[chain[i].hash] == chain[i] {
        CanonicalStored(db.bodies, genesis.hash, chain, i);
      }
      RecordedOf(rules, chain, stats, db.record.lastCheckpoint);
      CommittedSwitch(db, rules, was, was[..p + 1], fork, b, p, record);
    }

    /** One durable write, after which a crash may happen. */
    method Persist(d: Database)
      modifies `db, `writes
      ensures db == d && writes == old(writes) + [d]
    {
      db := d;
      writes := writes + [d];
    }

    /** Every block of `b`'s lineage above `p` passes the reorg's checks on top of those below it. */
    ghost predicate Connects(b: Block, p: nat)
      reads this
      requires Closed(db.bodies, genesis.hash) && b.prev in db.bodies && p < |chain| && p <= tip.height
      requires p <= db.bodies[b.prev].height
    {
      var c := Lineage(db.bodies, genesis.hash, db.bodies[b.prev]);
      AllJoin(rules, blocks, chain[..p + 1], Phase2.RewindN(store, tip.height - p), c[p + 1..], b)
    }

    /** Reorganise onto `b`, whose lineage leaves the canonical chain at `p`. */
    method Reorg(b: Block, p: nat, forkWork: nat) returns (status: Status, ghost move: Move)
      requires Valid() && b.hash in db.bodies && db.bodies[b.hash] == b && b.height > 0
      requires Branches(Lineage(db.bodies, genesis.hash, db.bodies[b.prev]), chain, p)
      requires forkWork == ChainWork(Lineage(db.bodies, genesis.hash, b))
      modifies this
      ensures status == RolledBack || status.AcceptedReorg?
      ensures status == RolledBack ==>
        && Valid() && blocks == old(blocks) && heightToHash == old(heightToHash) && tip == old(tip)
        && stats == old(stats)
        && Equivalent(utxos, old(utxos)) && db == old(db) && writes == old(writes)
        && move.Revert? && move.p == p && |move.fork| < b.height - p && Phase2.Climbs(move.fork, p)
        && move.heights == CachedHeights(old(heightToHash), old(blocks), p, old(tip).height)
      ensures status.AcceptedReorg? ==>
        && chain == Lineage(old(db).bodies, genesis.hash, b) && db.bodies == old(db).bodies
        && writes == old(writes) + [db]
        && db.record.lastCheckpoint == old(db).record.lastCheckpoint
        && move.Switch? && move.p == p && move.b == b && |move.fork| == b.height - p - 1
        && (Valid() <==> old(Cached(p))) && (Valid() <==> stats.totalBlocks == tip.height + 1)
      ensures status.AcceptedReorg? && old(Cached(p)) ==> status == AcceptedReorg(Spends(TxLists(old(chain), p)))
      ensures status == RolledBack || old(Cached(p)) ==> Fits(old(Seen()), move) && Seen() == Apply(old(Seen()), move)
      ensures old(Cached(p)) ==> (status.AcceptedReorg? <==> old(Connects(b, p)))
      ensures
        var fork := old(Lineage(db.bodies, genesis.hash, db.bodies[b.prev]))[p + 1..];
        && (AllCertain(rules, old(blocks), fork) && Certain(rules, old(blocks), b) ==> status.AcceptedReorg?)
        && (AllCertain(rules, old(blocks), fork) && Hopeless(rules, old(blocks), b) ==>
          status == RolledBack && move.fork == fork)
      ensures old(Filed(db, chain)) && (status.AcceptedReorg? ==> old(Cached(p))) ==>
        (Filed(db, chain) <==> (status.AcceptedReorg? ==> Rejoined(old(chain), chain, p)))
      ensures utxos.ever >= old(utxos.ever)
    {
      hide ChainOk, StateOf, Matches, Extends, Describes, CacheOk, ForkLinked, SetHeights, Upto, TxLists, Closed;
      hide Sound, Totals, Holds, Lineage, ChainWork, Recorded, Phase2.ConnectN, Phase2.RewindN, Phase2.FailedReorg;
      hide Spends, Equivalent, Indexed, Cached, Placed, Filed, Rejoined, Canonical, Parented, Branches;
      hide Phase2.Connect, AllJoin;
      hide Certain, AllCertain, Hopeless, CachedHeights, Phase2.Climbs;
      ghost var whole, was, index, before := Cached(p), chain, heightToHash, store;
      ghost var heights := CachedHeights(heightToHash, blocks, p, tip.height);
      ReorgReady(b, p);
      var ok, fork, txLists, count, txCount, n := SwitchOrRestore(b, p);
      if !ok {
        ForkClimbs(fork, p, chain[p].hash, n);
        status, move := RolledBack, Revert(p, heights, fork[..n]);
        RestoredHolds(rules, chain, old(utxos), utxos);
        Phase2.FailedReorgBounded(before, heights, fork[..n]);
        assert n == |fork| ==> fork[..n] == fork;
      } else {
        Phase2.RewindDepth(before, count);
        Phase2.ConnectNBounded(Phase2.RewindN(before, count), fork);
        Adopt(b, p, fork, txLists, count, txCount, forkWork, index, whole);
        BlocksCounted();
        status, move := AcceptedReorg(Spends(txLists)), Switch(p, fork, b);
      }
    }

    lemma BlocksCounted()
      ensures Valid() ==> stats.totalBlocks == |chain|
    {
      hide Describes, Sound, Canonical, Holds, CacheOk, StateOf;
    }

    /** What a valid node offers the reorg. */
    lemma ReorgReady(b: Block, p: nat)
      requires Valid() && b.hash in db.bodies && db.bodies[b.hash] == b && b.height > 0
      requires Branches(Lineage(db.bodies, genesis.hash, db.bodies[b.prev]), chain, p)
      ensures ChainOk(rules, chain) && Indexed(heightToHash, blocks, chain) && Matches(Now(), rules, chain)
      ensures Placed(db, chain) && Closed(db.bodies, genesis.hash) && Parented(db.bodies, b)
      ensures tip.height == |chain| - 1 && stats.totalBlocks == |chain| && p < |chain|
      ensures stats.totalTxs == StateOf(rules, chain).txTotal
      ensures forall k | k in blocks :: k in db.bodies && db.bodies[k] == blocks[k]
      ensures
        var c := Lineage(db.bodies, genesis.hash, db.bodies[b.prev]);
        && p < |c| && c[..p + 1] == chain[..p + 1]
        && b.height == p + 1 + |c[p + 1..]| && ForkLinked(c[p + 1..], p, chain[p].hash)
        && Lineage(db.bodies, genesis.hash, b) == chain[..p + 1] + c[p + 1..] + [b]
    {
      hide ChainOk, StateOf, Sound, Lineage, Indexed, ForkLinked;
      CachedBodies();
      ForkShape(db.bodies, genesis.hash, chain, b, p, Lineage(db.bodies, genesis.hash, db.bodies[b.prev])[p + 1..]);
    }

    // ---- a block on the tip ----

    /** Save a block's body in the cache and on disk; no index names it yet. */
    method StoreBody(b: Block)
      requires Valid() && b.hash !in db.bodies && b.height > 0 && Parented(db.bodies, b)
      modifies `blocks, `db, `writes
      ensures Valid()
      ensures blocks == old(blocks)[b.hash := b]
      ensures db == old(db).(bodies := old(db).bodies[b.hash := b]) && writes == old(writes) + [db]
      ensures Parented(db.bodies, b)
      ensures Lineage(db.bodies, genesis.hash, b) == Lineage(old(db).bodies, genesis.hash, b)
    {
      hide Sound, Describes, Canonical, Closed, Parented, Lineage, Holds, StateOf, Totals, Points, CacheOk;
      StoredDescribes(db, rules, chain, b);
      StoredCanonical(db.bodies, genesis.hash, chain, b);
      StoredCache(blocks, heightToHash, db.bodies, chain, highest, b);
      blocks := blocks[b.hash := b];
      Persist(db.(bodies := db.bodies[b.hash := b]));
    }

    /** Drop cached blocks above `MAX_BLOCK_CACHE`, lowest first, never genesis nor one within
        `CACHE_DEPTH` of the tip. */
    method EvictCache() returns (ghost cut: nat)
      modifies `blocks, `heightToHash
      ensures EvictedAt(cut, old(blocks), old(heightToHash), tip.height, blocks, heightToHash)
    {
      hide Survivors, Victims, EvictedAt, Evictable;
      ghost var index := heightToHash;
      cut := 0;
      EvictStart(index, tip.height);
      assert blocks - {} == blocks;
      if |blocks| <= MAX_BLOCK_CACHE {
        EvictedAll(cut, blocks, index, tip.height, blocks, heightToHash, 0);
        return;
      }
      var excess, evicted, h := |blocks| - MAX_BLOCK_CACHE, 0, 0;
      while h <= tip.height && evicted < excess
        invariant h <= tip.height + 1 && evicted <= excess && cut == h
        invariant heightToHash == Survivors(index, h, tip.height)
        invariant blocks == old(blocks) - Victims(index, h, tip.height)
        invariant |index| == |heightToHash| + evicted
        decreases tip.height + 1 - h
      {
        EvictStep(index, h, tip.height, old(blocks));
        EvictableMeans(h, tip.height);
        if h in heightToHash && h != 0 && !(h + CACHE_DEPTH >= tip.height) {
          blocks := blocks - {heightToHash[h]};
          heightToHash := heightToHash - {h};
          evicted := evicted + 1;
        }
        h := h + 1;
        cut := h;
      }
      if evicted < excess {
        forall k | k in heightToHash ensures !Evictable(k, tip.height) { EvictDone(index, tip.height, k); }
      }
      EvictedAll(cut, old(blocks), index, tip.height, blocks, heightToHash, evicted);
    }

    /** Extending the tip by `b` records a checkpoint height every `CHECKPOINT_INTERVAL` blocks, and evicts. */
    ghost predicate Committed(b: Block, last: nat, held: Store, index: map<nat, Hash>)
      reads this
    {
      && db.record.lastCheckpoint == LastCheckpoint(b, last)
      && Evicted(held, index[b.height := b.hash], b.height, blocks, heightToHash)
    }

    lemma TipFits(b: Block)
      requires Valid() && Extends(rules, chain, b)
      ensures Fits(Seen(), Stay) && Apply(Seen(), Stay) == Seen() && Fits(Seen(), Extend(b))
      ensures Apply(Seen(), Extend(b)) == View(chain + [b], Phase2.Connect(store, b), Max(highest, b.height))
    {
      hide Describes, StateOf, Canonical, Holds, Totals, CacheOk;
    }

    /** Connect `b` on the tip, unless the shielded gate refuses it. */
    method ExtendTip(b: Block) returns (status: Status, ghost move: Move)
      requires Valid() && Extends(rules, chain, b) && b.hash in db.bodies && db.bodies[b.hash] == b
      modifies this
      ensures Valid()
      ensures status == if rules.gateOk(b, old(store).contents) then Accepted else Invalid
      ensures status == Invalid ==> move == Stay && unchanged(this)
      ensures status == Accepted ==> move == Extend(b) && db.bodies == old(db).bodies && writes == old(writes) + [db]
      ensures status == Accepted ==> Committed(b, old(db).record.lastCheckpoint, old(blocks), old(heightToHash))
      ensures old(Filed(db, chain)) ==> Filed(db, chain)
      ensures Fits(old(Seen()), move) && Seen() == Apply(old(Seen()), move)
      ensures utxos.ever >= old(utxos.ever)
    {
      hide Describes, InMemory, Extends, Filed, Phase2.Connect, Apply, Max, Evicted;
      TipFits(b);
      if !rules.gateOk(b, store.contents) { return Invalid, Stay; }
      status, move := Accepted, Extend(b);
      ConnectTip(b);
    }

    /** Connect `b` on the tip: index, tip and totals, then stores and output set, then one commit. */
    method ConnectTip(b: Block)
      requires Valid() && Extends(rules, chain, b) && b.hash in db.bodies && db.bodies[b.hash] == b
      modifies this
      ensures Valid()
      ensures db.bodies == old(db).bodies && writes == old(writes) + [db]
      ensures Committed(b, old(db).record.lastCheckpoint, old(blocks), old(heightToHash))
      ensures old(Filed(db, chain)) ==> Filed(db, chain)
      ensures chain == old(chain) + [b] && store == Phase2.Connect(old(store), b)
        && highest == Max(old(highest), b.height)
      ensures utxos.ever >= old(utxos.ever)
    {
      hide Describes, InMemory, Extends, Phase2.Connect, Filed, Max, Evicted;
      NonEmpty();
      ApplyTip(b);
      CommitTip(old(chain), b);
    }

    method ApplyTip(b: Block)
      requires Valid() && Extends(rules, chain, b) && b.hash in db.bodies && db.bodies[b.hash] == b
      modifies `blocks, `heightToHash, `tip, `stats, `store, `utxos, `chain, `highest
      ensures InMemory()
      ensures chain == old(chain) + [b] && store == Phase2.Connect(old(store), b)
        && highest == Max(old(highest), b.height)
      ensures Evicted(old(blocks), old(heightToHash)[b.height := b.hash], b.height, blocks, heightToHash)
      ensures utxos.ever >= old(utxos.ever)
    {
      hide Evicted, Step, Disconnect, Max, Phase2.Connect;
      hide Sound, Describes, Canonical, Holds, StateOf, Totals, CacheOk, Extends, ChainOk, Connect, StatsWith, Work;
      hide Points;
      TipFacts(b);
      heightToHash := heightToHash[b.height := b.hash];
      tip := Tip(b.hash, b.height, Work(b.target), b.timestamp);
      stats := StatsWith(stats, rules, b);
      store := Phase2.Connect(store, b);
      EverGrows(utxos, b);
      utxos := Connect(utxos, b);
      chain, highest := chain + [b], Max(highest, b.height);
      Evict();
    }

    /** Eviction keeps the caches reaching `CACHE_DEPTH` below the highest tip. */
    method Evict()
      requires CacheOk(blocks, heightToHash, db.bodies, chain, highest) && tip.height <= highest
      requires Canonical(db.bodies, genesis.hash, chain)
      modifies `blocks, `heightToHash
      ensures CacheOk(blocks, heightToHash, db.bodies, chain, highest)
      ensures Evicted(old(blocks), old(heightToHash), tip.height, blocks, heightToHash)
    {
      hide CacheOk, Canonical, Survivors, Victims;
      ghost var held, index := blocks, heightToHash;
      ghost var cut := EvictCache();
      CacheEvict(held, index, db.bodies, genesis.hash, chain, highest, cut, tip.height);
    }

    /** Commit the connected tip, recording a checkpoint height every `CHECKPOINT_INTERVAL` blocks. */
    method CommitTip(ghost was: seq<Block>, b: Block)
      requires was != [] && InMemory() && Describes(db, rules, was) && Extends(rules, was, b) && chain == was + [b]
      requires b.hash in db.bodies && db.bodies[b.hash] == b
      modifies `db, `writes
      ensures Valid()
      ensures db.bodies == old(db).bodies && writes == old(writes) + [db]
      ensures old(Filed(db, was)) ==> Filed(db, chain)
      ensures db.record.lastCheckpoint == LastCheckpoint(b, old(db).record.lastCheckpoint)
    {
      hide Sound, Describes, Canonical, Holds, StateOf, Step, Totals, CacheOk, ChainOk, Recorded, RecordOf, WindowOf;
      hide Filed, CommitBlock;
      var checkpoint := LastCheckpoint(b, db.record.lastCheckpoint);
      RecordedOf(rules, chain, stats, checkpoint);
      var record := RecordOf(stats, checkpoint);
      Snoc(rules, was, b);
      CommitBlockDescribes(db, rules, was, b, record);
      CommitKeeps(db, b, record);
      Persist(CommitBlock(db, b, record));
    }

    /** What connecting `b` does to each part of a valid node. */
    lemma TipFacts(b: Block)
      requires Valid() && Extends(rules, chain, b) && b.hash in db.bodies && db.bodies[b.hash] == b
      ensures b.height == |chain|
      ensures Canonical(db.bodies, genesis.hash, chain + [b])
      ensures Totals(StatsWith(stats, rules, b), rules, chain + [b])
      ensures CacheOk(blocks, heightToHash[b.height := b.hash], db.bodies, chain + [b], Max(highest, b.height))
      ensures Holds(Connect(utxos, b), StateOf(rules, chain + [b]))
      ensures StateOf(rules, chain + [b]) == Step(rules, StateOf(rules, chain), b)
      ensures Points(Tip(b.hash, b.height, Work(b.target), b.timestamp), chain + [b]) && (chain + [b])[0] == genesis
      ensures b.height <= Max(highest, b.height) && |Phase2.Connect(store, b).stack| <= Phase2.MAX_CHECKPOINTS
    {
      hide Sound, Describes, Canonical, Holds, Totals, CacheOk, Connect, StatsWith, StateOf, Step;
      CanonicalExtend(db.bodies, genesis.hash, chain, b);
      TotalsExtend(stats, rules, chain, b);
      CacheExtend(blocks, heightToHash, db.bodies, chain, highest, b);
      ConnectHolds(rules, chain, b, utxos);
      Snoc(rules, chain, b);
    }

    // ---- an incoming block ----

    /** On a valid node the fork walks, read through cache and disk, give the work and the branching
        point of the block's lineage. */
    lemma ForkFacts(b: Block)
      requires Valid() && b.hash in db.bodies && db.bodies[b.hash] == b && b.height > 0
      ensures Closed(db.bodies, genesis.hash) && Parented(db.bodies, b)
      ensures
        Work(b.target) + WorkFrom(db.bodies + blocks, b.prev, b.height + 100) ==
          ChainWork(Lineage(db.bodies, genesis.hash, b))
      ensures
        var point := ForkPointFrom(db.bodies + blocks, db.heights + heightToHash, b.prev, {});
        && point.Some? && point.value < b.height && point.value < |chain|
        && point.value < |Lineage(db.bodies, genesis.hash, db.bodies[b.prev])|
        && Branches(Lineage(db.bodies, genesis.hash, db.bodies[b.prev]), chain, point.value)
    {
      hide ChainOk, StateOf, Sound, Holds, WorkFrom, ForkPointFrom, Closed, Lineage, Parented;
      hide Indexes, Branches, ChainWork, Totals, Points, Recorded;
      ThroughCache(db.bodies, blocks);
      IndexThroughCache(db.heights, heightToHash, chain);
      ForkEvaluated(db.bodies, genesis.hash, chain, db.heights, b);
    }

    /** A node within reach of its highest tip still caches every block a permitted reorg disconnects. */
    lemma ReachCovers(p: nat)
      requires Valid() && WithinReach(tip.height, highest) && FinalityFloor(tip.height) <= p
      ensures Cached(p)
    {
      hide ChainOk, StateOf, Sound, Describes, Holds, Lineage, Closed, WithinReach, FinalityFloor;
      forall h | p < h < |chain| ensures h in heightToHash && heightToHash[h] in blocks {
        ReachIsExact(tip.height, highest);
        assert Disconnectable(p, h, tip.height);
        CanonicalStored(db.bodies, genesis.hash, chain, h);
      }
    }

    lemma WorkIsChainWork()
      requires Valid()
      ensures |chain| >= 1 && stats.work == ChainWork(chain) && tip.hash == chain[|chain| - 1].hash
        && tip.height == |chain| - 1
      ensures tip.height <= highest
    {
      hide ChainOk, StateOf, Sound, Describes, Holds, Canonical, CacheOk;
      WorkOfState(rules, chain);
    }

    /** Decide about a stored block off the tip: keep it as a fork, refuse it by policy, or reorganise. */
    method EvaluateFork(b: Block) returns (status: Status, ghost move: Move, ghost at: nat)
      requires Valid() && b.hash in db.bodies && db.bodies[b.hash] == b && b.height > 0
      modifies this
      ensures Closed(old(db).bodies, genesis.hash) && Parented(old(db).bodies, b) && at < |old(chain)|
      ensures Verdict(rules, genesis.hash, old(db).bodies, old(blocks), old(chain), old(store), old(Cached(at)), b,
        at, status)
      ensures status == AcceptedFork ==> !Better(Lineage(old(db).bodies, genesis.hash, b), old(chain))
      ensures status.AcceptedReorg? ==>
        Better(Lineage(old(db).bodies, genesis.hash, b), old(chain))
          && chain == Lineage(old(db).bodies, genesis.hash, b)
      ensures status == AcceptedFork || status == TooDeep || status == RolledBack || status.AcceptedReorg?
      ensures status == AcceptedFork || status == TooDeep ==> move == Stay && unchanged(this)
      ensures status == RolledBack ==>
        && move.Revert?
        && Reverted(rules, genesis.hash, old(db).bodies, old(blocks), old(heightToHash), old(tip).height, b, at, move)
        && Equivalent(utxos, old(utxos)) && stats == old(stats) && tip == old(tip)
        && heightToHash == old(heightToHash) && blocks == old(blocks) && db == old(db) && writes == old(writes)
      ensures status.AcceptedReorg? ==> db.bodies == old(db).bodies && writes == old(writes) + [db]
      ensures db.record.lastCheckpoint == old(db).record.lastCheckpoint
      ensures status.AcceptedReorg? ==>
        && move.Switch? && move.p == at && move.b == b && (Valid() <==> old(Cached(at)))
        && (Valid() <==> stats.totalBlocks == tip.height + 1)
      ensures status == RolledBack || status.AcceptedReorg? ==>
        (old(WithinReach(tip.height, highest)) ==> old(Cached(at)))
      ensures !status.AcceptedReorg? || old(Cached(at)) ==>
        Valid() && Permitted(rules, old(Seen()), move) && Seen() == Apply(old(Seen()), move)
      ensures status.AcceptedReorg? && old(Cached(at)) ==> status == AcceptedReorg(Spends(TxLists(old(chain), at)))
      ensures old(Filed(db, chain)) && (status.AcceptedReorg? ==> old(Cached(at))) ==>
        (Filed(db, chain) <==> (status.AcceptedReorg? ==> Rejoined(old(chain), chain, at)))
      ensures utxos.ever >= old(utxos.ever)
    {
      hide ChainOk, StateOf, Sound, Holds, WorkFrom, ForkPointFrom, Closed, Lineage, Parented, TxLists, Spends;
      hide Filed, Rejoined;
      hide Branches, ChainWork, Describes, InMemory, WithinReach, FinalityFloor, Equivalent, Acceptable, Cached;
      hide Phase2.ConnectN, Phase2.RewindN, Phase2.FailedReorg, Phase2.Connect, AllJoin, Certain, AllCertain;
      hide Hopeless, CachedHeights, Phase2.Ascends, Phase2.Climbs;
      ForkFacts(b);
      WorkIsChainWork();
      at := ForkPointFrom(db.bodies + blocks, db.heights + heightToHash, b.prev, {}).value;
      var forkWork := ForkCumulativeWork(db.bodies + blocks, b);
      if !TakeFork(forkWork, b.hash, stats.work, tip.hash) { return AcceptedFork, Stay, at; }
      var point := FindForkPoint(db.bodies + blocks, db.heights + heightToHash, b);
      var p := point.value;
      if !Acceptable(b.height - p, forkWork, stats.work, tip.height, rules.maxReorgDepth) { return TooDeep, Stay, at; }
      if p < FinalityFloor(tip.height) { return TooDeep, Stay, at; }
      if WithinReach(tip.height, highest) { ReachCovers(p); }
      CachedHeightsAscend(heightToHash, blocks, p, tip.height);
      status, move := Reorg(b, p, forkWork);
      DepthAllowed(b.height - p, forkWork, old(stats).work, old(tip).height, rules.maxReorgDepth);
      DescribedOk();
    }

    lemma DescribedOk()
      ensures Valid() ==> ChainOk(rules, chain)
    {
      hide ChainOk, Placed, Recorded;
    }

    /** `get_block`: the cache first, then the database. */
    function GetBlock(hash: Hash): Option<Block>
      reads this
    {
      if hash in blocks then Some(blocks[hash])
      else if hash in db.bodies then Some(db.bodies[hash])
      else None
    }

    /** On a valid node a block is known exactly when its body is on disk. */
    lemma KnownOnDisk(hash: Hash)
      requires Valid()
      ensures GetBlock(hash) == if hash in db.bodies then Some(db.bodies[hash]) else None
      ensures hash in blocks ==> hash in db.bodies
    {
      hide ChainOk, StateOf, Sound, Describes, Holds, Canonical;
    }

    /** What validity says of the parts the checks look at. */
    lemma Known()
      requires Valid()
      ensures Sound(rules) && Holds(utxos, StateOf(rules, chain)) && chain[0] == genesis
      ensures stats.supply == StateOf(rules, chain).supply && stats.burned == StateOf(rules, chain).burned
      ensures CacheOk(blocks, heightToHash, db.bodies, chain, highest)
    {
      hide ChainOk, StateOf, Sound, Describes, Holds, CacheOk, Canonical;
    }

    /** Genesis is never evicted. */
    lemma GenesisCached()
      requires Valid()
      ensures genesis.hash in blocks && blocks[genesis.hash] == genesis
    {
      hide ChainOk, StateOf, Sound, Describes, Holds, Totals, Lineage;
      CanonicalStored(db.bodies, genesis.hash, chain, 0);
    }

    /** The checks on arrival; on the tip also the exact target and the supply commitment. */
    ghost predicate ArrivalOk(b: Block, parent: Option<Block>, main: bool)
      reads this
    {
      && rules.headerOk(b)
      && (main ==> b.height <= |chain| && TargetOk(rules, b, WindowOf(chain, b.height)))
      && rules.arrivalOk(b, parent, utxos, main)
      && (main ==> CommitmentOk(rules, b, stats.supply + rules.reward(b.height), stats.burned + rules.burn(b)))
    }

    /** The checks a block passes on arrival, before anything is stored; `main` when it extends the tip. */
    method PassesArrival(b: Block, parent: Option<Block>, main: bool) returns (ok: bool)
      requires Valid() && (main ==> b.height <= |chain|)
      ensures ok <==> ArrivalOk(b, parent, main)
      ensures ok ==> b.height > 0
      ensures ok && main && b.height == |chain| && b.prev == tip.hash ==> Extends(rules, chain, b)
    {
      hide StateOf, WindowOf, Matches, Holds, Totals, CacheOk, Canonical, TargetOk, CommitmentOk, Recorded;
      if !rules.headerOk(b) { return false; }
      if main {
        ghost var whole := chain[..tip.height + 1] + [];
        assert whole == chain;
        ChainHeights(rules, chain);
        var window := BuildWindow(tip.height, [], b.height);
        if !TargetOk(rules, b, window) { return false; }
      }
      if !rules.arrivalOk(b, parent, utxos, main) { return false; }
      if main && !CommitmentOk(rules, b, stats.supply + rules.reward(b.height), stats.burned + rules.burn(b)) {
        return false;
      }
      ok := true;
      if main && b.height == |chain| && b.prev == tip.hash { ArrivedExtends(b); }
    }

    lemma ArrivedExtends(b: Block)
      requires Valid() && b.height == |chain| && b.prev == tip.hash
      requires Fresh(b, utxos) && TargetOk(rules, b, WindowOf(chain, |chain|))
      requires CommitmentOk(rules, b, stats.supply + rules.reward(b.height), stats.burned + rules.burn(b))
      ensures Extends(rules, chain, b)
    {
      hide StateOf, WindowOf, CacheOk, Canonical, TargetOk, CommitmentOk, Recorded, Placed, Extends, ChainOk, Fresh;
      PassedExtends(rules, Now(), chain, b);
    }

    /** The lineage of a block on the tip is the chain with it. */
    lemma TipLineage(b: Block)
      requires Valid() && b.height == |chain| && b.prev == chain[|chain| - 1].hash
      ensures Closed(db.bodies, genesis.hash) && Parented(db.bodies, b)
      ensures Lineage(db.bodies, genesis.hash, b) == chain + [b] && Better(chain + [b], chain)
    {
      hide ChainOk, StateOf, Sound, Describes, Holds, CacheOk, Totals, Better;
      ChildIsBetter(chain, b);
    }

    /** Every write since `from` describes the chain `was` or the present one, its transaction index too if `filed`. */
    ghost predicate CrashSafe(from: nat, was: seq<Block>, filed: bool)
      reads this
    {
      && from <= |writes|
      && (forall i | from <= i < |writes| ::
            Agrees(writes[i], rules, was, filed) || Agrees(writes[i], rules, chain, filed))
    }

    /** The parent's lineage is the same before and after the block is stored. */
    lemma ParentStored(b: Block)
      requires Valid() && b.hash !in db.bodies && b.height > 0 && Parented(db.bodies, b)
      ensures Closed(db.bodies, genesis.hash)
      ensures
        var more := db.bodies[b.hash := b];
        && Closed(more, genesis.hash) && more[b.prev] == db.bodies[b.prev] && Parented(more, more[b.prev])
        && Lineage(more, genesis.hash, more[b.prev]) == Lineage(db.bodies, genesis.hash, db.bodies[b.prev])
    {
      hide ChainOk, StateOf, Sound, Describes, Holds, Totals, CacheOk;
      StoredCanonical(db.bodies, genesis.hash, chain, b);
      LineageStable(db.bodies, db.bodies[b.hash := b], genesis.hash, db.bodies[b.prev]);
    }

    /** Storing an unknown block caches no canonical height that was not cached. */
    lemma StoredCached(b: Block)
      requires Valid() && b.hash !in db.bodies
      ensures forall p: nat {:trigger CachedAbove(heightToHash, blocks, |chain|, p)} ::
                CachedAbove(heightToHash, blocks, |chain|, p)
                <==> CachedAbove(heightToHash, blocks[b.hash := b], |chain|, p)
      ensures forall h | h in heightToHash :: heightToHash[h] != b.hash
    {
      hide ChainOk, StateOf, Sound, Describes, Holds, Totals, Canonical;
      forall h | h in heightToHash ensures heightToHash[h] in db.bodies {
        CanonicalStored(db.bodies, genesis.hash, chain, h);
      }
    }

    /** What a failed reorg did, from the state before the block was stored. */
    lemma RevertStored(bodies: Store, held: Store, index: map<nat, Hash>, top: nat, b: Block, at: nat, m: Move,
                       was: seq<Block>, before: Phase2.Store, peak: nat, failed: bool)
      requires Closed(bodies, genesis.hash) && b.hash !in bodies && b.height > 0 && Parented(bodies, b)
      requires Lineage(bodies[b.hash := b], genesis.hash, bodies[b.prev]) ==
        Lineage(bodies, genesis.hash, bodies[b.prev])
      requires (forall h | h in index :: index[h] != b.hash) && top == |was| - 1 && (failed ==> at <= top)
      requires failed ==> Reverted(rules, genesis.hash, bodies[b.hash := b], held[b.hash := b], index, top, b, at, m)
      ensures failed ==>
        && Reverted(rules, genesis.hash, bodies, held[b.hash := b], index, top, b, at, m)
        && m.heights == CachedHeights(index, held, at, top)
        && (CachedAbove(index, held, |was|, at) <==> Whole(View(was, before, peak), m))
    {
      hide Lineage, CachedHeights, Certain, AllCertain, Hopeless;
      if failed {
        CachedHeightsStored(index, held, at, top, b);
        CachedHeightsAscend(index, held, at, top);
      }
    }

    /** The verdict on a checked block off the tip, from the state before it is stored. */
    ghost predicate Judged(b: Block, at: nat, status: Status)
      reads this
    {
      Verdict(rules, genesis.hash, db.bodies, blocks[b.hash := b], chain, store, Cached(at), b, at, status)
    }

    /** What a reorg to a checked block off the tip did before it failed; it disconnected every height above the fork
        point exactly when all of them were cached. */
    ghost predicate Tried(b: Block, at: nat, move: Move)
      reads this
    {
      && Reverted(rules, genesis.hash, db.bodies, blocks[b.hash := b], heightToHash, tip.height, b, at, move)
      && move.heights == CachedHeights(heightToHash, blocks, at, tip.height)
      && (Cached(at) <==> Whole(Seen(), move))
      && (WithinReach(tip.height, highest) ==> Cached(at))
    }

    /** Store a block that extends the tip, then connect it. */
    method AddOnTip(b: Block) returns (status: Status, ghost move: Move)
      requires Valid() && b.hash !in db.bodies && b.height > 0 && Parented(db.bodies, b) && Extends(rules, chain, b)
      modifies this
      ensures status == if rules.gateOk(b, old(store).contents) then Accepted else Invalid
      ensures db.bodies == old(db).bodies[b.hash := b]
      ensures |old(writes)| < |writes| && writes[..|old(writes)|] == old(writes) && db == writes[|writes| - 1]
      ensures status == Invalid ==>
        && tip == old(tip) && stats == old(stats) && heightToHash == old(heightToHash) && Equivalent(utxos, old(utxos))
        && move == Stay
      ensures status == Accepted ==>
        && old(Valid()) && AsNode() == Deliver(old(AsNode()), genesis.hash, b) && move == Extend(b)
        && Committed(b, old(db).record.lastCheckpoint, old(blocks)[b.hash := b], old(heightToHash))
      ensures status != Accepted ==>
        blocks == old(blocks)[b.hash := b] && db.record.lastCheckpoint == old(db).record.lastCheckpoint
      ensures Valid() && Permitted(rules, old(Seen()), move) && Seen() == Apply(old(Seen()), move)
      ensures CrashSafe(|old(writes)|, old(chain), old(Filed(db, chain)))
        && (old(Filed(db, chain)) ==> Filed(db, chain))
      ensures utxos.ever >= old(utxos.ever)
    {
      hide ChainOk, StateOf, Sound, Holds, Closed, Lineage, Better, TxIndexOf, Committed;
      hide ChainWork, Describes, InMemory, Equivalent, Canonical, CachedAbove, Phase2.Connect;
      EquivalentSelf(utxos);
      TipLineage(b);
      StoreBody(b);
      status, move := ExtendTip(b);
    }

    /** Store a checked block off the tip, then keep it as a fork or reorganise onto it. */
    method AddOffTip(b: Block) returns (status: Status, ghost move: Move, ghost at: nat)
      requires Valid() && b.hash !in db.bodies && b.height > 0 && Parented(db.bodies, b)
      modifies this
      ensures status in {AcceptedFork, RolledBack, TooDeep} || status.AcceptedReorg?
      ensures old(Judged(b, at, status))
      ensures db.bodies == old(db).bodies[b.hash := b]
      ensures |old(writes)| < |writes| && writes[..|old(writes)|] == old(writes) && db == writes[|writes| - 1]
      ensures !status.AcceptedReorg? ==>
        && tip == old(tip) && stats == old(stats) && heightToHash == old(heightToHash) && Equivalent(utxos, old(utxos))
        && (status == RolledBack <==> move.Revert?) && (status != RolledBack ==> move == Stay)
        && blocks == old(blocks)[b.hash := b]
      ensures status == RolledBack ==> old(Tried(b, at, move))
      ensures db.record.lastCheckpoint == old(db).record.lastCheckpoint
      ensures status == AcceptedFork || status.AcceptedReorg? ==>
        old(Valid()) && AsNode() == Deliver(old(AsNode()), genesis.hash, b)
      ensures status.AcceptedReorg? ==>
        && move.Switch? && move.b == b && move.p == at && (Valid() <==> old(Cached(move.p)))
        && (Valid() <==> stats.totalBlocks == tip.height + 1)
        && (old(WithinReach(tip.height, highest)) ==> old(Cached(move.p)))
        && (old(Cached(move.p)) ==> status == AcceptedReorg(Spends(TxLists(old(chain), move.p))))
      ensures !status.AcceptedReorg? || old(Cached(move.p)) ==>
        && Valid() && Permitted(rules, old(Seen()), move) && Seen() == Apply(old(Seen()), move)
        && (old(Filed(db, chain)) ==> (Filed(db, chain) <==>
          (status.AcceptedReorg? ==> Rejoined(old(chain), chain, at))))
        && CrashSafe(|old(writes)|, old(chain), old(Filed(db, chain)) && Filed(db, chain))
      ensures utxos.ever >= old(utxos.ever)
    {
      hide ChainOk, StateOf, Sound, Holds, Closed, Lineage, TxLists, Spends, Better, Verdict, Rejoined, TxIndexOf;
      hide Branches, ChainWork, Describes, InMemory, WithinReach, Equivalent, Canonical, CachedAbove;
      hide Phase2.ConnectN, Phase2.RewindN, Phase2.FailedReorg, Phase2.Connect, Reverted, CachedHeights, Whole;
      EquivalentSelf(utxos);
      WorkIsChainWork();
      StoredCached(b);
      ParentStored(b);
      StoreBody(b);
      status, move, at := EvaluateFork(b);
      RevertStored(old(db).bodies, old(blocks), old(heightToHash), old(tip).height, b, at, move,
                   old(chain), old(store), old(highest), status == RolledBack);
      VerdictStored(rules, genesis.hash, old(db).bodies, old(blocks)[b.hash := b], old(chain), old(store),
                    old(Cached(at)), b, at, status);
    }

    ghost predicate OnTip(b: Block)
      reads this
    {
      b.prev == tip.hash || b.height == 0
    }

    /** A block with a known parent has the next height, and passes the checks on arrival. */
    ghost predicate Welcome(b: Block)
      reads this
    {
      && (b.height > 0 ==> GetBlock(b.prev).Some? && b.height == GetBlock(b.prev).value.height + 1)
      && ArrivalOk(b, GetBlock(b.prev), OnTip(b))
    }

    /** What is answered before anything is stored, if the block is not welcome. */
    method Screen(b: Block) returns (answer: Option<Status>)
      requires Valid()
      ensures answer ==
        if b.hash in db.bodies then Some(AlreadyKnown)
        else if b.prev !in db.bodies && b.height > 0 then Some(Orphan)
        else if !Welcome(b) then Some(Invalid)
        else None
      ensures answer.None? ==> b.height > 0 && Parented(db.bodies, b) && (OnTip(b) ==> Extends(rules, chain, b))
    {
      hide ChainOk, StateOf, Sound, Holds, Closed, Lineage, Describes, InMemory, ArrivalOk, Canonical, Extends;
      WorkIsChainWork();
      KnownOnDisk(b.hash);
      KnownOnDisk(b.prev);
      HeaderNotGenesis(b);
      if b.hash in blocks || b.hash in db.bodies { return Some(AlreadyKnown); }
      var parent := GetBlock(b.prev);
      if parent.None? && b.height > 0 { return Some(Orphan); }
      var expected := if b.height == 0 || parent.None? then 0 else parent.value.height + 1;
      if b.height != expected { return Some(Invalid); }
      var main := b.prev == tip.hash || b.height == 0;
      if b.prev == tip.hash { TipStored(); }
      var passed := PassesArrival(b, parent, main);
      if !passed { return Some(Invalid); }
      answer := None;
    }

    /** Receive a block. */
    method AddBlock(b: Block) returns (status: Status, ghost move: Move, ghost at: nat)
      requires Valid()
      modifies this
      // which answer
      ensures status == AlreadyKnown <==> b.hash in old(db).bodies
      ensures status == Orphan <==> b.hash !in old(db).bodies && b.prev !in old(db).bodies && b.height > 0
      ensures status != AlreadyKnown && status != Orphan && !old(Welcome(b)) ==> status == Invalid
      ensures status != AlreadyKnown && status != Orphan && old(Welcome(b)) && old(OnTip(b)) ==>
        status == if rules.gateOk(b, old(store).contents) then Accepted else Invalid
      ensures status != AlreadyKnown && status != Orphan && old(Welcome(b)) && !old(OnTip(b)) ==>
        old(Judged(b, at, status))
      // what it leaves
      ensures status == AlreadyKnown || status == Orphan || (status == Invalid && !old(Welcome(b))) ==> unchanged(this)
      ensures !status.AcceptedReorg? && status != Accepted ==>
        && tip == old(tip) && stats == old(stats) && heightToHash == old(heightToHash) && Equivalent(utxos, old(utxos))
        && (status == RolledBack <==> move.Revert?) && (status != RolledBack ==> move == Stay)
      ensures db.bodies ==
        if status in {AlreadyKnown, Orphan} || !old(Welcome(b)) then old(db).bodies else old(db).bodies[b.hash := b]
      ensures status !in {Invalid, RolledBack, TooDeep} ==> AsNode() == Deliver(old(AsNode()), genesis.hash, b)
      ensures status == Accepted ==>
        move == Extend(b) && Committed(b, old(db).record.lastCheckpoint, old(blocks)[b.hash := b], old(heightToHash))
      ensures status != Accepted ==> db.record.lastCheckpoint == old(db).record.lastCheckpoint
      ensures status in {AcceptedFork, RolledBack, TooDeep} ==> blocks == old(blocks)[b.hash := b]
      ensures status == RolledBack ==> old(Tried(b, at, move))
      ensures status.AcceptedReorg? ==>
        && move.Switch? && move.b == b && move.p == at && (Valid() <==> old(Cached(move.p)))
        && (Valid() <==> stats.totalBlocks == tip.height + 1)
        && (old(WithinReach(tip.height, highest)) ==> old(Cached(move.p)))
        && (old(Cached(move.p)) ==> status == AcceptedReorg(Spends(TxLists(old(chain), move.p))))
      ensures |old(writes)| <= |writes| && writes[..|old(writes)|] == old(writes)
      ensures if writes == old(writes) then db == old(db) else db == writes[|writes| - 1]
      ensures !status.AcceptedReorg? || old(Cached(move.p)) ==>
        && Valid() && Permitted(rules, old(Seen()), move) && Seen() == Apply(old(Seen()), move)
        && (old(Filed(db, chain)) ==> (Filed(db, chain) <==>
          (status.AcceptedReorg? ==> Rejoined(old(chain), chain, at))))
        && CrashSafe(|old(writes)|, old(chain), old(Filed(db, chain)) && Filed(db, chain))
      ensures utxos.ever >= old(utxos.ever)
    {
      hide Agrees, Filed, Rejoined, Committed, Verdict, Tried, Welcome;
      hide ChainOk, StateOf, Sound, Holds, Closed, Lineage, TxLists, Spends, Better, Describes, InMemory, Judged;
      hide ArrivalOk;
      hide WithinReach, Cached, Equivalent, Canonical, Extends, Apply, Permitted, Deliver, Fits;
      at := 0;
      EquivalentSelf(utxos);
      WorkIsChainWork();
      StayPermitted(rules, Seen());
      CanonicalNow();
      NotDelivered(AsNode(), genesis.hash, b);
      var answer := Screen(b);
      if answer.Some? { return answer.value, Stay, at; }
      if b.prev == tip.hash || b.height == 0 {
        status, move := AddOnTip(b);
      } else {
        status, move, at := AddOffTip(b);
      }
    }

    /** The genesis height is pinned: no other block of height 0 passes. */
    lemma HeaderNotGenesis(b: Block)
      requires Valid()
      ensures forall parent, main :: ArrivalOk(b, parent, main) ==> b.height > 0
    {
      hide Describes, Canonical, Holds, CacheOk, StateOf, TargetOk, WindowOf, CommitmentOk;
    }

    lemma CanonicalNow()
      requires Valid()
      ensures Canonical(db.bodies, genesis.hash, chain)
    {
    }

    lemma TipStored()
      requires Valid()
      ensures tip.hash in db.bodies && db.bodies[tip.hash].height + 1 == |chain|
    {
      hide ChainOk, StateOf, Sound, Describes, Holds, CacheOk, Totals;
    }

    // ---- deep rollback ----

    /** Disconnect the block at `h`, found in the cache or on disk. */
    method RollbackOne(h: nat) returns (txs: seq<Tx>)
      requires ChainOk(rules, chain) && 0 < h < |chain|
      requires Placed(db, chain) && Indexed(heightToHash, blocks, chain)
      requires forall k | k in blocks :: k in db.bodies && db.bodies[k] == blocks[k]
      requires Matches(Now(), rules, chain[..h + 1]) && Running(stats, rules, chain[..h + 1])
      modifies `utxos, `stats, `heightToHash, `store, `db, `writes
      ensures txs == chain[h].txs
      ensures Matches(Now(), rules, chain[..h]) && Running(stats, rules, chain[..h])
      ensures stats.difficulty == old(stats).difficulty
      ensures heightToHash == old(heightToHash) - {h} && store == Phase2.Rewind(old(store))
      ensures db == old(db).(txIndex := old(db).txIndex - TxIds([chain[h]])) && writes == old(writes) + [db]
      ensures utxos.ever >= old(utxos.ever)
    {
      hide ChainOk, StateOf, Holds, Disconnect, Matches, Running, TxIds, StatsWithout, Extends;
      var hash := if h in heightToHash then heightToHash[h] else db.heights[h];
      assert hash == chain[h].hash && db.bodies[hash] == chain[h];
      var b := if hash in blocks then blocks[hash] else db.bodies[hash];
      hide Placed, Indexed;
      PrefixOk(rules, chain, h + 1);
      Linked(rules, chain, h);
      assert chain[..h + 1][..h] == chain[..h];
      MatchesBefore(rules, Now(), chain[..h + 1]);
      RunningBefore(rules, stats, chain[..h + 1]);
      StatsWithoutFields(stats, rules, b);
      EverGrows(utxos, b);
      utxos := Disconnect(utxos, b);
      store := Phase2.Rewind(store);
      txs := b.txs;
      Persist(db.(txIndex := db.txIndex - TxIds([b])));
      stats := StatsWithout(stats, rules, b);
      heightToHash := heightToHash - {h};
    }

    /** Disconnect every block above `target`. */
    method RollbackBlocks(target: nat) returns (orphaned: seq<Tx>)
      requires ChainOk(rules, chain) && target < |chain| && tip.height == |chain| - 1
      requires Placed(db, chain) && Indexed(heightToHash, blocks, chain)
      requires forall k | k in blocks :: k in db.bodies && db.bodies[k] == blocks[k]
      requires Matches(Now(), rules, chain) && Running(stats, rules, chain)
      modifies `utxos, `stats, `heightToHash, `store, `db, `writes
      ensures orphaned == Spends(TxLists(chain, target))
      ensures Matches(Now(), rules, chain[..target + 1]) && Running(stats, rules, chain[..target + 1])
      ensures heightToHash == Upto(old(heightToHash), target)
      ensures store == Phase2.RewindN(old(store), tip.height - target)
      ensures db == old(db).(txIndex := old(db).txIndex - TxIds(chain[target + 1..]))
      ensures |old(writes)| <= |writes| && writes[..|old(writes)|] == old(writes)
      ensures utxos.ever >= old(utxos.ever)
    {
      hide ChainOk, StateOf, Matches, Running, TxIds, Indexed, Upto, Spends, TxLists, NonCoinbase, Indexes;
      orphaned := [];
      ghost var index := heightToHash;
      var h := tip.height;
      assert chain[..h + 1] == chain && chain[h + 1..] == [];
      RollbackStart(index, chain, blocks, db, target);
      while h > target
        invariant target <= h < |chain|
        invariant utxos.ever >= old(utxos.ever)
        invariant Matches(Now(), rules, chain[..h + 1]) && Running(stats, rules, chain[..h + 1])
        invariant heightToHash == Upto(index, h)
        invariant store == Phase2.RewindN(old(store), tip.height - h)
        invariant db == old(db).(txIndex := old(db).txIndex - TxIds(chain[h + 1..]))
        invariant |old(writes)| <= |writes| && writes[..|old(writes)|] == old(writes)
        invariant orphaned + Spends(TxLists(chain[..h + 1], target)) == Spends(TxLists(chain, target))
      {
        UptoLess(index, h);
        IndexedUpto(index, blocks, chain, h);
        IdsGrow(chain, h);
        SpendsStep(orphaned, chain, h, target);
        var txs := RollbackOne(h);
        var spends := SelectSpends(txs);
        orphaned := orphaned + spends;
        h := h - 1;
      }
    }

    /** Roll back to `target`, unless a recorded checkpoint lies above it. */
    method RollbackToHeight(target: nat) returns (ok: bool, orphaned: seq<Tx>, ghost move: Move)
      requires Valid()
      modifies this
      ensures Valid()
      ensures ok <==> target >= old(tip).height || target >= old(db).record.lastCheckpoint
      ensures move == if ok && target < old(tip).height then Rollback(target) else Stay
      ensures Permitted(rules, old(Seen()), move) && Seen() == Apply(old(Seen()), move)
      ensures move == Stay ==> unchanged(this) && orphaned == []
      ensures |old(writes)| <= |writes| && writes[..|old(writes)|] == old(writes)
      ensures move != Stay ==>
        orphaned == Spends(TxLists(old(chain), target)) && |old(writes)| < |writes| && db == writes[|writes| - 1]
      ensures db.bodies == old(db).bodies && db.record.lastCheckpoint == old(db).record.lastCheckpoint
      ensures move != Stay ==> blocks == old(blocks) && heightToHash == Upto(old(heightToHash), target)
      ensures old(Filed(db, chain)) ==> (Filed(db, chain) <==> (move != Stay ==> Apart(old(chain), target)))
      // not crash-atomic: some write describes no chain
      ensures move != Stay <==> exists i :: |old(writes)| <= i < |writes| && DescribesNothing(writes[i], rules)
      ensures utxos.ever >= old(utxos.ever)
    {
      hide ChainOk, StateOf, Matches, Running, TxIds, Indexed, Upto, Spends, TxLists, Describes, InMemory;
      hide Filed, Apart, DescribesNothing;
      hide Phase2.RewindN, Indexes, Canonical, CacheOk, Sound;
      RollbackReady();
      if target >= tip.height { return true, [], Stay; }
      if target < db.record.lastCheckpoint { return false, [], Stay; }
      move := Rollback(target);
      Phase2.RewindDepth(store, tip.height - target);
      ok := true;
      orphaned := RollbackBlocks(target);
      LowerTip(target, old(heightToHash));
      CleanUp(target, old(db), old(chain));
    }

    lemma RollbackReady()
      requires Valid()
      ensures ChainOk(rules, chain) && chain[0] == genesis && tip.height == |chain| - 1 <= highest
      ensures Sound(rules) && Canonical(db.bodies, genesis.hash, chain)
      ensures CacheOk(blocks, heightToHash, db.bodies, chain, highest) && |store.stack| <= Phase2.MAX_CHECKPOINTS
      ensures Placed(db, chain) && Indexed(heightToHash, blocks, chain)
      ensures forall k | k in blocks :: k in db.bodies && db.bodies[k] == blocks[k]
      ensures Matches(Now(), rules, chain) && Running(stats, rules, chain)
    {
      hide ChainOk, StateOf, Sound, Indexed;
      CachedBodies();
    }

    /** Move the tip down to `target`. */
    method LowerTip(target: nat, ghost index: map<nat, Hash>)
      requires Sound(rules) && ChainOk(rules, chain) && Placed(db, chain) && target < |chain| && chain[0] == genesis
      requires Canonical(db.bodies, genesis.hash, chain) && CacheOk(blocks, index, db.bodies, chain, highest)
      requires |chain| - 1 <= highest && |store.stack| <= Phase2.MAX_CHECKPOINTS
      requires Matches(Now(), rules, chain[..target + 1]) && Running(stats, rules, chain[..target + 1])
      requires heightToHash == Upto(index, target)
      modifies `tip, `stats, `chain
      ensures InMemory() && chain == old(chain)[..target + 1]
    {
      hide ChainOk, StateOf, Sound, Running, Upto, CacheOk, Lineage, Closed, Work, Placed, Holds, Canonical;
      CacheRollback(blocks, index, db.bodies, chain, highest, target);
      CanonicalRollback(db.bodies, genesis.hash, chain, target);
      TotalsOfRunning(rules, stats, chain[..target + 1]);
      IndexAt(db, index, blocks, highest, chain, target);
      var hash := if target in heightToHash then heightToHash[target] else db.heights[target];
      var b := if hash in blocks then blocks[hash] else db.bodies[hash];
      tip := Tip(hash, target, Work(b.target), b.timestamp);
      stats := stats.(height := target, tipHash := hash);
      chain := chain[..target + 1];
    }

    /** Clean up on disk: first the heights above the target, then the record. */
    method CleanUp(target: nat, ghost was: Database, ghost before: seq<Block>)
      requires InMemory() && Describes(was, rules, before) && target < |before| && chain == before[..target + 1]
      requires db == was.(txIndex := was.txIndex - TxIds(before[target + 1..]))
      modifies `db, `writes
      ensures Valid()
      ensures |writes| == |old(writes)| + 2 && writes[..|old(writes)|] == old(writes) && db == writes[|writes| - 1]
      ensures target < |before| - 1 ==> DescribesNothing(writes[|old(writes)|], rules)
      ensures Filed(was, before) ==> (Filed(db, chain) <==> Apart(before, target))
      ensures db.bodies == old(db).bodies && db.record.lastCheckpoint == old(db).record.lastCheckpoint
    {
      hide StateOf, Sound, TxIds, Describes, RecordOf, Recorded, CacheOk, Lineage, Closed, Holds, Canonical;
      hide DescribesNothing, Filed, Apart;
      DescribedHeights(was, rules, before);
      var record := RecordOf(stats, db.record.lastCheckpoint);
      RecordedOf(rules, chain, stats, db.record.lastCheckpoint);
      CommitRollbackDescribes(was, rules, before, target, record);
      if target < |before| - 1 { TornRollback(was, rules, before, target); }
      Persist(db.(heights := map k | k in db.heights && k <= target :: db.heights[k]));
      Persist(db.(record := record));
    }
  }
}
