/** What a node keeps in memory beside its output set, and how it follows the chain. */
module NodeState {
  import opened Types
  import opened UtxoSet
  import opened Ledger
  import opened ForkWalk
  import opened Policy
  import opened Disk
  import opened ReorgTrail
  import opened Moves
  import opened ForkChoice
  import Phase2

  datatype Tip = Tip(hash: Hash, height: nat, difficulty: nat, timestamp: nat)

  datatype Stats = Stats(
    height: nat,
    totalBlocks: nat,
    totalTxs: nat,
    supply: nat,
    burned: nat,
    difficulty: nat,
    tipHash: Hash,
    work: nat)

  /** The statistics are the totals of the chain; `difficulty` is not kept by a rollback. */
  ghost predicate Totals(s: Stats, r: Rules, c: seq<Block>)
    requires |c| >= 1
  {
    var t := StateOf(r, c);
    && s.height == |c| - 1
    && s.totalBlocks == |c|
    && s.totalTxs == t.txTotal
    && s.supply == t.supply
    && s.burned == t.burned
    && s.tipHash == c[|c| - 1].hash
    && s.work == t.work
  }

  /** The tip names the last block. */
  ghost predicate Points(t: Tip, c: seq<Block>)
    requires |c| >= 1
  {
    t.hash == c[|c| - 1].hash && t.height == |c| - 1 && t.timestamp == c[|c| - 1].timestamp
  }

  /** The caches agree with disk and chain, hold genesis, and reach `CACHE_DEPTH` below the highest tip there was. */
  ghost predicate CacheOk(blocks: Store, index: map<nat, Hash>, bodies: Store, c: seq<Block>, highest: nat) {
    && (forall k | k in blocks :: k in bodies && bodies[k] == blocks[k])
    && (forall h | h in index :: h < |c| && index[h] == c[h].hash)
    && (forall k | k in bodies && Retained(bodies[k].height, highest) :: k in blocks)
    && (forall h | 0 <= h < |c| && Retained(h, highest) :: h in index)
    && (c != [] ==> 0 in index && c[0].hash in blocks)
  }

  /** The record written with a commit: totals from the statistics, burn narrowed to 64 bits. */
  function RecordOf(s: Stats, lastCheckpoint: nat): Record {
    Record(s.tipHash, s.height, s.work, s.supply, s.burned % U64, lastCheckpoint)
  }

  lemma RecordedOf(r: Rules, c: seq<Block>, s: Stats, lastCheckpoint: nat)
    requires |c| >= 1 && Totals(s, r, c) && c[|c| - 1].height == |c| - 1
    ensures Recorded(RecordOf(s, lastCheckpoint), c[|c| - 1], StateOf(r, c))
    ensures RecordOf(s, lastCheckpoint).lastCheckpoint == lastCheckpoint
  {
    hide StateOf;
  }

  lemma CommitKeeps(d: Database, b: Block, record: Record)
    ensures CommitBlock(d, b, record).bodies == d.bodies && CommitBlock(d, b, record).record == record
  {
  }

  // ---- storing a body ----

  lemma StoredDescribes(d: Database, r: Rules, c: seq<Block>, b: Block)
    requires Describes(d, r, c) && b.hash !in d.bodies
    ensures Describes(d.(bodies := d.bodies[b.hash := b]), r, c)
  {
    hide ChainOk, StateOf;
  }

  lemma StoredCache(blocks: Store, index: map<nat, Hash>, bodies: Store, c: seq<Block>, highest: nat, b: Block)
    requires CacheOk(blocks, index, bodies, c, highest) && b.hash !in bodies
    ensures CacheOk(blocks[b.hash := b], index, bodies[b.hash := b], c, highest)
  {
  }

  // ---- one block on the tip ----

  lemma CanonicalExtend(bodies: Store, genesis: Hash, chain: seq<Block>, b: Block)
    requires Canonical(bodies, genesis, chain) && b.hash in bodies && bodies[b.hash] == b
    requires b.height == |chain| && b.prev == chain[|chain| - 1].hash
    ensures Canonical(bodies, genesis, chain + [b])
  {
  }

  /** The statistics once `b` is on the tip. */
  function StatsWith(s: Stats, r: Rules, b: Block): Stats {
    Stats(b.height, s.totalBlocks + 1, s.totalTxs + |b.txs|, s.supply + r.reward(b.height), s.burned + r.burn(b),
          Work(b.target), b.hash, s.work + Work(b.target))
  }

  lemma TotalsExtend(s: Stats, r: Rules, c: seq<Block>, b: Block)
    requires |c| >= 1 && Totals(s, r, c) && b.height == |c|
    ensures Totals(StatsWith(s, r, b), r, c + [b])
  {
    Snoc(r, c, b);
  }

  lemma CacheExtend(blocks: Store, index: map<nat, Hash>, bodies: Store, c: seq<Block>, highest: nat, b: Block)
    requires CacheOk(blocks, index, bodies, c, highest) && b.height == |c| > 0
    ensures CacheOk(blocks, index[b.height := b.hash], bodies, c + [b], Max(highest, b.height))
  {
    var d := c + [b];
    assert forall i | 0 <= i < |c| :: d[i] == c[i];
  }

  // ---- eviction ----

  /** Eviction may drop height `h`: not genesis, and more than `CACHE_DEPTH` below the tip. */
  predicate Evictable(h: nat, tip: nat) {
    0 < h && h + CACHE_DEPTH < tip
  }

  /** The index without the evictable heights below `cut`. */
  function Survivors(index: map<nat, Hash>, cut: nat, tip: nat): map<nat, Hash> {
    map h | h in index && !(h < cut && Evictable(h, tip)) :: index[h]
  }

  /** The hashes the dropped heights were mapped to. */
  function Victims(index: map<nat, Hash>, cut: nat, tip: nat): set<Hash> {
    set h | h in index && h < cut && Evictable(h, tip) :: index[h]
  }

  lemma CacheEvict(blocks: Store, index: map<nat, Hash>, bodies: Store, genesis: Hash, c: seq<Block>, highest: nat,
                   cut: nat, tip: nat)
    requires CacheOk(blocks, index, bodies, c, highest) && Canonical(bodies, genesis, c) && tip <= highest
    ensures CacheOk(blocks - Victims(index, cut, tip), Survivors(index, cut, tip), bodies, c, highest)
  {
    hide Canonical;
    var gone := Victims(index, cut, tip);
    forall k | k in gone ensures k in bodies && !Retained(bodies[k].height, highest) && c != [] && k != c[0].hash {
      var h :| h in index && h < cut && Evictable(h, tip) && index[h] == k;
      CanonicalStored(bodies, genesis, c, h);
      CanonicalStored(bodies, genesis, c, 0);
    }
  }

  /** What one eviction from caches `blocks` and `index` leaves: below `cut` the evictable heights are gone with their
      bodies; nothing goes while `MAX_BLOCK_CACHE` is not exceeded, no more goes than the excess, and less only if
      nothing evictable is left. */
  ghost predicate EvictedAt(cut: nat, blocks: Store, index: map<nat, Hash>, tip: nat, kept: Store,
                            left: map<nat, Hash>) {
    var excess := if |blocks| <= MAX_BLOCK_CACHE then 0 else |blocks| - MAX_BLOCK_CACHE;
    && left == Survivors(index, cut, tip)
    && kept == blocks - Victims(index, cut, tip)
    && (excess == 0 ==> cut == 0)
    && |index| - |left| <= excess
    && (|index| - |left| < excess ==> forall h | h in left :: !Evictable(h, tip))
  }

  lemma EvictedAll(
      cut: nat, blocks: Store, index: map<nat, Hash>, tip: nat, kept: Store, left: map<nat, Hash>, evicted: nat)
    requires left == Survivors(index, cut, tip) && kept == blocks - Victims(index, cut, tip)
    requires |index| == |left| + evicted
    requires if |blocks| <= MAX_BLOCK_CACHE then cut == evicted == 0 else evicted <= |blocks| - MAX_BLOCK_CACHE
    requires evicted + MAX_BLOCK_CACHE < |blocks| ==> forall h | h in left :: !Evictable(h, tip)
    ensures EvictedAt(cut, blocks, index, tip, kept, left)
  {
    hide Survivors, Victims, Evictable;
  }

  lemma EvictableMeans(h: nat, tip: nat)
    ensures Evictable(h, tip) <==> h != 0 && !(h + CACHE_DEPTH >= tip)
  {
  }

  ghost predicate Evicted(blocks: Store, index: map<nat, Hash>, tip: nat, kept: Store, left: map<nat, Hash>) {
    exists cut: nat :: EvictedAt(cut, blocks, index, tip, kept, left)
  }

  lemma SurvivesAll(index: map<nat, Hash>, cut: nat, tip: nat)
    requires forall k | k in index && k < cut :: !Evictable(k, tip)
    ensures Survivors(index, cut, tip) == index
  {
  }

  lemma SurvivesNot(index: map<nat, Hash>, cut: nat, tip: nat, h: nat)
    requires h < cut && Evictable(h, tip)
    ensures h !in Survivors(index, cut, tip)
  {
  }

  /** Up to the limit eviction keeps everything. */
  lemma EvictsNothing(blocks: Store, index: map<nat, Hash>, tip: nat, kept: Store, left: map<nat, Hash>)
    requires Evicted(blocks, index, tip, kept, left) && |blocks| <= MAX_BLOCK_CACHE
    ensures kept == blocks && left == index
  {
    EvictStart(index, tip);
  }

  /** Above the limit eviction drops the lowest evictable height it knows. */
  lemma EvictsLowest(blocks: Store, index: map<nat, Hash>, tip: nat, kept: Store, left: map<nat, Hash>, h: nat)
    requires Evicted(blocks, index, tip, kept, left) && |blocks| > MAX_BLOCK_CACHE
    requires h in index && Evictable(h, tip) && forall k | k in index && k < h :: !Evictable(k, tip)
    ensures h !in left
  {
    hide Victims, Evictable;
    var cut: nat :| EvictedAt(cut, blocks, index, tip, kept, left);
    if cut <= h {
      SurvivesAll(index, cut, tip);
    } else {
      SurvivesNot(index, cut, tip, h);
    }
  }

  lemma EvictStart(index: map<nat, Hash>, tip: nat)
    ensures Survivors(index, 0, tip) == index && Victims(index, 0, tip) == {}
  {
  }

  /** One more height looked at. */
  lemma EvictStep(index: map<nat, Hash>, cut: nat, tip: nat, blocks: Store)
    ensures
      var m := Survivors(index, cut, tip);
      && (cut in m <==> cut in index)
      && if cut in m && Evictable(cut, tip) then
           && Survivors(index, cut + 1, tip) == m - {cut}
           && |m - {cut}| + 1 == |m|
           && blocks - Victims(index, cut, tip) - {m[cut]} == blocks - Victims(index, cut + 1, tip)
         else
           Survivors(index, cut + 1, tip) == m && Victims(index, cut + 1, tip) == Victims(index, cut, tip)
  {
    var m := Survivors(index, cut, tip);
    if cut in m && Evictable(cut, tip) {
      assert Victims(index, cut + 1, tip) == Victims(index, cut, tip) + {m[cut]};
      assert (m - {cut}).Keys == m.Keys - {cut};
    }
  }

  lemma EvictDone(index: map<nat, Hash>, tip: nat, h: nat)
    requires h in Survivors(index, tip + 1, tip)
    ensures !Evictable(h, tip)
  {
  }

  // ---- a reorg ----

  /** Transactions in a list of blocks. */
  function TxCount(blocks: seq<Block>): nat {
    if blocks == [] then 0 else TxCount(blocks[..|blocks| - 1]) + |blocks[|blocks| - 1].txs|
  }

  lemma {:induction false} TxTotalAppend(r: Rules, c: seq<Block>, blocks: seq<Block>)
    requires |c| >= 1
    ensures StateOf(r, c + blocks).txTotal == StateOf(r, c).txTotal + TxCount(blocks)
  {
    if blocks == [] {
      assert c + blocks == c;
    } else {
      var init, last := blocks[..|blocks| - 1], blocks[|blocks| - 1];
      TxTotalAppend(r, c, init);
      assert c + blocks == c + init + [last];
      Snoc(r, c + init, last);
    }
  }

  /** The statistics once the fork is connected and `b` is the tip: `count` blocks and `txCount` transactions went. */
  function StatsAfter(s: Stats, r: Rules, fork: seq<Block>, b: Block, count: nat, txCount: nat, work: nat): Stats
    requires count <= s.totalBlocks && txCount <= s.totalTxs
  {
    Stats(b.height, s.totalBlocks - count + |fork| + 1, s.totalTxs - txCount + TxCount(fork) + |b.txs|,
          s.supply + r.reward(b.height), s.burned + r.burn(b), Work(b.target), b.hash, work)
  }

  lemma BlocksAfter(s: Stats, r: Rules, fork: seq<Block>, b: Block, count: nat, txCount: nat, work: nat)
    requires count <= s.totalBlocks && txCount <= s.totalTxs
    ensures StatsAfter(s, r, fork, b, count, txCount, work).totalBlocks == s.totalBlocks - count + |fork| + 1
  {
  }

  lemma {:induction false} TotalsReorg(
      r: Rules, low: seq<Block>, fork: seq<Block>, b: Block, u: Utxo, s: Stats, count: nat, txCount: nat)
    requires |low| >= 1 && Matches(Snapshot(u, s.supply, s.burned), r, low + fork) && b.height == |low| + |fork|
    requires s.totalBlocks == |low| + count && s.totalTxs == StateOf(r, low).txTotal + txCount
    ensures Totals(StatsAfter(s, r, fork, b, count, txCount, ChainWork(low + fork + [b])), r, low + fork + [b])
  {
    hide StateOf, ChainWork;
    TxTotalAppend(r, low, fork);
    SwitchedTotals(r, low + fork, b, Snapshot(u, s.supply, s.burned));
  }

  lemma {:induction false} SwitchedTotals(r: Rules, c: seq<Block>, b: Block, s: Snapshot)
    requires Matches(s, r, c)
    ensures
      var t := StateOf(r, c + [b]);
      && t.supply == s.supply + r.reward(b.height) && t.burned == s.burned + r.burn(b)
      && t.txTotal == StateOf(r, c).txTotal + |b.txs| && t.work == ChainWork(c + [b])
  {
    Snoc(r, c, b);
    WorkOfState(r, c + [b]);
  }

  lemma LineageIsCanonical(bodies: Store, genesis: Hash, chain: seq<Block>, b: Block)
    requires Canonical(bodies, genesis, chain) && b.hash in bodies && bodies[b.hash] == b
    ensures Canonical(bodies, genesis, Lineage(bodies, genesis, b))
  {
    CanonicalLineage(bodies, genesis, b);
  }

  lemma {:induction false} IndexReorg(
      index: map<nat, Hash>, was: seq<Block>, p: nat, fork: seq<Block>, b: Block, h: nat)
    requires p < |was| && (forall k | k in index :: k < |was| && index[k] == was[k].hash)
    requires ForkLinked(fork, p, was[p].hash) && b.height == p + 1 + |fork|
    ensures
      var m, now := SetHeights(Upto(index, p), fork)[b.height := b.hash], was[..p + 1] + fork + [b];
      && (h in m <==> h in Upto(index, p) || p < h < |now|)
      && (h in m ==> h < |now| && m[h] == now[h].hash)
  {
    hide SetHeights;
    SetHeightsFork(Upto(index, p), fork, p);
    var now := was[..p + 1] + fork + [b];
    if h <= p {
      assert now[h] == was[h];
    } else if h < b.height {
      assert fork[h - p - 1].height == h && now[h] == fork[h - p - 1];
    }
  }

  lemma {:induction false} CacheReorg(
      blocks: Store, index: map<nat, Hash>, bodies: Store, was: seq<Block>, highest: nat, p: nat, fork: seq<Block>,
      b: Block)
    requires CacheOk(blocks, index, bodies, was, highest) && p < |was|
    requires ForkLinked(fork, p, was[p].hash) && b.height == p + 1 + |fork|
    ensures CacheOk(blocks, SetHeights(Upto(index, p), fork)[b.height := b.hash], bodies,
                    was[..p + 1] + fork + [b], Max(highest, b.height))
  {
    var m, now := SetHeights(Upto(index, p), fork)[b.height := b.hash], was[..p + 1] + fork + [b];
    hide SetHeights, ForkLinked;
    forall h: nat
      ensures (h in m <==> h in Upto(index, p) || p < h < |now|) && (h in m ==> h < |now| && m[h] == now[h].hash)
    {
      IndexReorg(index, was, p, fork, b, h);
    }
  }

  /** The connected block moves the folds from `c` to `c + [b]`. */
  lemma {:induction false} PassedFolds(r: Rules, c: seq<Block>, b: Block, s: Snapshot)
    requires ChainOk(r, c) && Matches(s, r, c) && Extends(r, c, b)
    ensures ChainOk(r, c + [b]) && Holds(Connect(s.utxos, b), StateOf(r, c + [b]))
  {
    Snoc(r, c, b);
    ConnectHolds(r, c, b, s.utxos);
  }

  /** The reorg commit, stated for a chain given as prefix, fork and tip. */
  lemma {:induction false} CommittedSwitch(
      d: Database, r: Rules, was: seq<Block>, low: seq<Block>, fork: seq<Block>, b: Block, p: nat, record: Record)
    requires Describes(d, r, was) && p < |was| && low == was[..p + 1] && ChainOk(r, low + fork + [b])
    requires b.height == p + 1 + |fork|
    requires
      var now := low + fork + [b];
      && (forall i | 0 <= i < |now| :: now[i].hash in d.bodies && d.bodies[now[i].hash] == now[i])
      && Recorded(record, b, StateOf(r, now))
    ensures
      var e := CommitReorg(d, fork + [b], b.height, |was| - 1, TxIds(was[p + 1..]), record);
      && Describes(e, r, low + fork + [b])
      && (Filed(d, was) ==> (Filed(e, low + fork + [b]) <==> Rejoined(was, low + fork + [b], p)))
  {
    hide ChainOk, StateOf, Describes, CommitReorg, TxIds, Recorded, Filed, Rejoined;
    var now := low + fork + [b];
    assert now[..p + 1] == was[..p + 1];
    assert now[p + 1..] == fork + [b];
    CommitReorgDescribes(d, r, was, now, p, record);
  }

  /** An equivalent output set holds the same fold. */
  lemma RestoredHolds(r: Rules, c: seq<Block>, u: Utxo, v: Utxo)
    requires |c| >= 1 && Holds(u, StateOf(r, c)) && Equivalent(v, u)
    ensures Holds(v, StateOf(r, c))
  {
    hide StateOf;
  }

  /** An index cache that agrees with the chain adds nothing to the stored index. */
  lemma IndexThroughCache(heights: map<nat, Hash>, index: map<nat, Hash>, c: seq<Block>)
    requires Indexes(heights, c) && forall h | h in index :: h < |c| && index[h] == c[h].hash
    ensures heights + index == heights
  {
  }

  // ---- when a reorg succeeds ----

  /** The cached parent a reorg validates against. */
  function CachedParent(blocks: Store, b: Block): Option<Block> {
    if b.prev in blocks then Some(blocks[b.prev]) else None
  }

  /** `b` passes every check of a reorg on top of chain `c`, with `contents` in the Phase-2 stores. */
  ghost predicate Joins(r: Rules, blocks: Store, c: seq<Block>, contents: seq<nat>, b: Block) {
    && |c| >= 1 && b.height == |c|
    && var s := StateOf(r, c);
       && r.fullOk(b, CachedParent(blocks, b), Untouched(s))
       && r.gateOk(b, contents)
       && CommitmentOk(r, b, s.supply + r.reward(b.height), s.burned + r.burn(b))
       && TargetOk(r, b, WindowOf(c, b.height))
  }

  /** The first `n` fork blocks join `low` one after the other. */
  ghost predicate ForkJoins(r: Rules, blocks: Store, low: seq<Block>, base: Phase2.Store, fork: seq<Block>, n: nat)
    requires n <= |fork|
  {
    forall k | 0 <= k < n :: Joins(r, blocks, low + fork[..k], Phase2.ConnectN(base, fork[..k]).contents, fork[k])
  }

  lemma ForkJoinsNone(r: Rules, blocks: Store, low: seq<Block>, base: Phase2.Store, fork: seq<Block>)
    ensures ForkJoins(r, blocks, low, base, fork, 0)
  {
  }

  lemma ForkJoinsNext(r: Rules, blocks: Store, low: seq<Block>, base: Phase2.Store, fork: seq<Block>, n: nat)
    requires n < |fork|
    ensures
      var next := Joins(r, blocks, low + fork[..n], Phase2.ConnectN(base, fork[..n]).contents, fork[n]);
      && (ForkJoins(r, blocks, low, base, fork, n + 1) <==> ForkJoins(r, blocks, low, base, fork, n) && next)
      && (!next ==> !ForkJoins(r, blocks, low, base, fork, |fork|))
  {
    hide Joins, Phase2.ConnectN;
  }

  /** The whole fork and the new tip join. */
  ghost predicate AllJoin(r: Rules, blocks: Store, low: seq<Block>, base: Phase2.Store, fork: seq<Block>, b: Block) {
    && ForkJoins(r, blocks, low, base, fork, |fork|)
    && Joins(r, blocks, low + fork, Phase2.ConnectN(base, fork).contents, b)
  }

  /** `b` passes the checks of a reorg whatever the output set, the stores and the totals are. */
  ghost predicate Certain(r: Rules, blocks: Store, b: Block) {
    && (forall u :: r.fullOk(b, CachedParent(blocks, b), u))
    && (forall contents :: r.gateOk(b, contents))
    && (forall emitted, burned :: CommitmentOk(r, b, emitted, burned))
    && (forall window :: TargetOk(r, b, window))
  }

  /** `b` fails the checks of a reorg whatever the output set is. */
  ghost predicate Hopeless(r: Rules, blocks: Store, b: Block) {
    forall u :: !r.fullOk(b, CachedParent(blocks, b), u)
  }

  ghost predicate AllCertain(r: Rules, blocks: Store, fork: seq<Block>) {
    forall k | 0 <= k < |fork| :: Certain(r, blocks, fork[k])
  }

  /** The checks against the node's own state decide whether the block joins the chain that state belongs to. */
  lemma JoinsNow(r: Rules, blocks: Store, c: seq<Block>, contents: seq<nat>, b: Block, s: Snapshot)
    requires Sound(r) && Matches(s, r, c) && b.height == |c|
    ensures Joins(r, blocks, c, contents, b) <==>
      && r.fullOk(b, CachedParent(blocks, b), s.utxos)
      && r.gateOk(b, contents)
      && CommitmentOk(r, b, s.supply + r.reward(b.height), s.burned + r.burn(b))
      && TargetOk(r, b, WindowOf(c, b.height))
  {
    hide StateOf, CommitmentOk, TargetOk, WindowOf, CachedParent, Fresh, Equivalent;
    HoldsEquivalent(s.utxos, StateOf(r, c));
  }

  /** What `add_block` answers. `RolledBack` is the source's `Invalid` for a reorg that was started and
      undone; `TooDeep` is its `ReorgTooDeep` error. */
  datatype Status =
    | Accepted
    | AcceptedFork
    | AcceptedReorg(orphaned: seq<Tx>)
    | AlreadyKnown
    | Orphan
    | Invalid
    | RolledBack
    | TooDeep

  /** What becomes of a checked block off the tip, whose lineage leaves the chain at `at`: kept when it is no better,
      refused when the policy does not admit it, and otherwise tried; a tried reorg succeeds exactly when its blocks
      pass, if all it disconnects is cached, and whatever is cached when they pass in every state. */
  ghost predicate Verdict(
      r: Rules, genesis: Hash, bodies: Store, blocks: Store, chain: seq<Block>, store: Phase2.Store, cached: bool,
      b: Block, at: nat, status: Status)
  {
    && Closed(bodies, genesis) && b.height > 0 && Parented(bodies, b) && chain != []
    && var c, d := Lineage(bodies, genesis, b), Lineage(bodies, genesis, bodies[b.prev]);
       && at < |d| && at < |chain| && Branches(d, chain, at)
       && var better := Better(c, chain);
          var admits := Admits(b.height, at, ChainWork(c), ChainWork(chain), |chain| - 1, r.maxReorgDepth);
          && (status == AcceptedFork <==> !better)
          && (status == TooDeep <==> better && !admits)
          && (status == RolledBack || status.AcceptedReorg? <==> better && admits)
          && (cached && better && admits ==>
                (status.AcceptedReorg? <==>
                   AllJoin(r, blocks, chain[..at + 1], Phase2.RewindN(store, |chain| - 1 - at), d[at + 1..], b)))
          && (better && admits && AllCertain(r, blocks, d[at + 1..]) && Certain(r, blocks, b) ==> status.AcceptedReorg?)
          && (better && admits && AllCertain(r, blocks, d[at + 1..]) && Hopeless(r, blocks, b) ==> status == RolledBack)
  }

  /** The verdict does not depend on whether the block itself is already stored. */
  lemma VerdictStored(
      r: Rules, genesis: Hash, bodies: Store, blocks: Store, chain: seq<Block>, store: Phase2.Store, cached: bool,
      b: Block, at: nat, status: Status)
    requires Closed(bodies, genesis) && b.hash !in bodies && b.height > 0 && Parented(bodies, b)
    requires Verdict(r, genesis, bodies[b.hash := b], blocks, chain, store, cached, b, at, status)
    requires Lineage(bodies[b.hash := b], genesis, b) == Lineage(bodies, genesis, b)
    requires Lineage(bodies[b.hash := b], genesis, bodies[b.prev]) == Lineage(bodies, genesis, bodies[b.prev])
    ensures Verdict(r, genesis, bodies, blocks, chain, store, cached, b, at, status)
  {
    hide Lineage, Better, Admits, AllJoin, Branches, ChainWork, Certain, AllCertain, Hopeless;
  }

  /** What a failed reorg to `b` did before it was undone: every cached height above the fork point was disconnected,
      and the whole fork connected if it passes in every state and `b` in none. */
  ghost predicate Reverted(
      r: Rules, genesis: Hash, bodies: Store, blocks: Store, index: map<nat, Hash>, tip: nat, b: Block, at: nat,
      m: Move)
  {
    && m.Revert? && m.p == at && m.heights == CachedHeights(index, blocks, at, tip)
    && Closed(bodies, genesis) && b.height > 0 && Parented(bodies, b)
    && var d := Lineage(bodies, genesis, bodies[b.prev]);
       at < |d| && (AllCertain(r, blocks, d[at + 1..]) && Hopeless(r, blocks, b) ==> m.fork == d[at + 1..])
  }

  // ---- a rollback ----

  /** The running totals are those of `c`, whatever tip the statistics still name. */
  ghost predicate Running(s: Stats, r: Rules, c: seq<Block>) {
    && |c| >= 1
    && var t := StateOf(r, c);
       s.totalBlocks == |c| && s.totalTxs == t.txTotal && s.supply == t.supply && s.burned == t.burned
         && s.work == t.work
  }

  function MinusSaturating(a: nat, b: nat): nat {
    if a < b then 0 else a - b
  }

  /** Take `b` out of the running totals: supply and burn checked, the other counters saturating. */
  function StatsWithout(s: Stats, r: Rules, b: Block): Stats
    requires s.supply >= r.reward(b.height) && s.burned >= r.burn(b)
  {
    s.(supply := s.supply - r.reward(b.height),
       burned := s.burned - r.burn(b),
       work := MinusSaturating(s.work, Work(b.target)),
       totalBlocks := MinusSaturating(s.totalBlocks, 1),
       totalTxs := MinusSaturating(s.totalTxs, |b.txs|))
  }

  lemma {:induction false} RunningBefore(r: Rules, s: Stats, c: seq<Block>)
    requires Running(s, r, c) && |c| >= 2
    requires c[|c| - 1].height == |c| - 1
    ensures
      var b := c[|c| - 1];
      && s.supply >= r.reward(b.height) && s.burned >= r.burn(b)
      && Running(StatsWithout(s, r, b), r, c[..|c| - 1])
  {
  }

  lemma TotalsOfRunning(r: Rules, s: Stats, c: seq<Block>)
    requires Running(s, r, c)
    ensures Totals(s.(height := |c| - 1, tipHash := c[|c| - 1].hash), r, c)
  {
    hide StateOf;
  }

  lemma CacheRollback(blocks: Store, index: map<nat, Hash>, bodies: Store, c: seq<Block>, highest: nat, target: nat)
    requires CacheOk(blocks, index, bodies, c, highest) && target < |c|
    ensures CacheOk(blocks, Upto(index, target), bodies, c[..target + 1], highest)
  {
  }

  lemma CanonicalRollback(bodies: Store, genesis: Hash, c: seq<Block>, target: nat)
    requires Canonical(bodies, genesis, c) && target < |c|
    ensures Canonical(bodies, genesis, c[..target + 1])
  {
    CanonicalStored(bodies, genesis, c, target);
  }

  lemma {:induction false} IdsGrow(c: seq<Block>, h: nat)
    requires 0 < h < |c|
    ensures TxIds(c[h..]) == TxIds(c[h + 1..]) + TxIds([c[h]])
  {
    assert c[h..] == [c[h]] + c[h + 1..];
    ConcatIds([c[h]], c[h + 1..]);
  }

  lemma ConcatIds(a: seq<Block>, b: seq<Block>)
    ensures TxIds(a + b) == TxIds(a) + TxIds(b)
  {
    var c := a + b;
    forall x | x in TxIds(a) ensures x in TxIds(c) {
      var i, t :| 0 <= i < |a| && 0 <= t < |a[i].txs| && a[i].txs[t].id == x;
      assert c[i].txs[t].id == x;
    }
    forall x | x in TxIds(b) ensures x in TxIds(c) {
      var i, t :| 0 <= i < |b| && 0 <= t < |b[i].txs| && b[i].txs[t].id == x;
      assert c[|a| + i].txs[t].id == x;
    }
    forall x | x in TxIds(c) ensures x in TxIds(a) + TxIds(b) {
      var i, t :| 0 <= i < |c| && 0 <= t < |c[i].txs| && c[i].txs[t].id == x;
      if i < |a| { assert a[i].txs[t].id == x; } else { assert b[i - |a|].txs[t].id == x; }
    }
  }

  /** The orphaned transactions of one more block. */
  lemma SpendsStep(done: seq<Tx>, c: seq<Block>, h: nat, target: nat)
    requires target < h < |c|
    ensures done + Spends(TxLists(c[..h + 1], target)) == done + NonCoinbase(c[h].txs) + Spends(TxLists(c[..h], target))
  {
    hide NonCoinbase;
    var l := TxLists(c[..h + 1], target);
    assert l == [c[h].txs] + TxLists(c[..h], target) by { assert c[..h + 1][..h] == c[..h]; }
    hide TxLists;
    assert l[1..] == TxLists(c[..h], target);
    assert Spends(l) == NonCoinbase(c[h].txs) + Spends(l[1..]);
  }

  /** The non-coinbase transactions of a block, in order. */
  method SelectSpends(txs: seq<Tx>) returns (r: seq<Tx>)
    ensures r == NonCoinbase(txs)
  {
    r := [];
    var i := 0;
    assert txs[..0] == [];
    while i < |txs|
      invariant 0 <= i <= |txs| && r == NonCoinbase(txs[..i])
    {
      assert txs[..i + 1][..i] == txs[..i];
      if !txs[i].coinbase { r := r + [txs[i]]; }
      i := i + 1;
    }
    assert txs[..i] == txs;
  }

  lemma StatsWithoutFields(s: Stats, r: Rules, b: Block)
    requires s.supply >= r.reward(b.height) && s.burned >= r.burn(b)
    ensures
      var t := StatsWithout(s, r, b);
      && t.supply == s.supply - r.reward(b.height) && t.burned == s.burned - r.burn(b)
      && t.height == s.height && t.tipHash == s.tipHash && t.difficulty == s.difficulty
  {
  }

  lemma RollbackStart(index: map<nat, Hash>, c: seq<Block>, blocks: Store, d: Database, target: nat)
    requires Indexed(index, blocks, c) && target < |c|
    ensures Upto(index, |c| - 1) == index
    ensures d == d.(txIndex := d.txIndex - TxIds([]))
    ensures Spends(TxLists(c[..target + 1], target)) == []
  {
  }

  /** Looking a canonical height up through the caches finds the chain's block. */
  lemma IndexAt(d: Database, index: map<nat, Hash>, blocks: Store, highest: nat, c: seq<Block>, h: nat)
    requires Placed(d, c) && h < |c| && CacheOk(blocks, index, d.bodies, c, highest)
    ensures
      var hash := c[h].hash;
      && (h in index ==> index[h] == hash) && (h in Upto(index, h) <==> h in index)
      && (h in Upto(index, h) ==> Upto(index, h)[h] == hash)
      && h in d.heights && d.heights[h] == hash && hash in d.bodies && d.bodies[hash] == c[h]
      && (hash in blocks ==> blocks[hash] == c[h])
  {
  }

  lemma DescribedHeights(d: Database, r: Rules, c: seq<Block>)
    requires Describes(d, r, c)
    ensures forall i | 0 <= i < |c| :: c[i].height == i
  {
    ChainHeights(r, c);
  }

  /** The chain of the genesis block alone. */
  lemma GenesisFacts(r: Rules, g: Block)
    requires g.height == 0 && WellFormed(g)
    ensures ChainOk(r, [g]) && StateOf(r, [g]) == Genesis(r, g)
    ensures TxIndexOf([g]) == InsertTx(map[], TxEntries(g.txs, 0))
    ensures Connect(EMPTY, g) == Utxo(Created(g.txs, 0), Spent(g.txs), OutputCount(g.txs), 0)
    ensures Canonical(map[g.hash := g], g.hash, [g])
  {
    assert [g][..0] == [];
    assert Parented(map[g.hash := g], g);
    assert EMPTY.outputs + Created(g.txs, 0) == Created(g.txs, 0);
    assert EMPTY.keyImages + Spent(g.txs) == Spent(g.txs);
  }
}
