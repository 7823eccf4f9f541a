/** What the disconnect and connect loops of a reorg leave behind, so that they can be undone. */
module ReorgTrail {
  import opened Types
  import opened UtxoSet
  import opened Ledger
  import opened Disk
  import opened ForkWalk
  import Phase2

  // ---- disconnecting main-chain blocks ----

  /** Re-apply the block under `hash` when its body is cached. */
  ghost function Redo(u: Utxo, blocks: Store, hash: Hash): Utxo {
    if hash in blocks then Connect(u, blocks[hash]) else u
  }

  /** `trail[k]` is the set before the k-th height was disconnected; redoing that height leads back. */
  ghost predicate Redoable(trail: seq<Utxo>, heights: seq<(nat, Hash)>, blocks: Store) {
    && |trail| == |heights| + 1
    && forall k | 0 <= k < |heights| :: Equivalent(Redo(trail[k + 1], blocks, heights[k].1), trail[k])
  }

  /** `heights` lists exactly the entries of `m` above `p`. */
  ghost predicate ListsAbove(heights: seq<(nat, Hash)>, m: map<nat, Hash>, p: nat) {
    && (forall k | 0 <= k < |heights| :: p < heights[k].0 && heights[k].0 in m && m[heights[k].0] == heights[k].1)
    && (forall h | h in m && h > p :: exists k | 0 <= k < |heights| :: heights[k].0 == h)
  }

  /** The entries of `m` at or below `p`. */
  function Upto(m: map<nat, Hash>, p: nat): map<nat, Hash> {
    map h | h in m && h <= p :: m[h]
  }

  /** The listed heights whose body is cached, last one first. */
  function Held(heights: seq<(nat, Hash)>, blocks: Store): (hs: seq<nat>)
    ensures |hs| <= |heights|
  {
    if heights == [] then [] else Held(heights[1..], blocks) + if heights[0].1 in blocks then [heights[0].0] else []
  }

  /** The heights above `p` up to `top` that are indexed and cached, lowest first. */
  function CachedHeights(index: map<nat, Hash>, blocks: Store, p: nat, top: nat): (hs: seq<nat>)
    decreases top
  {
    if top <= p then []
    else CachedHeights(index, blocks, p, top - 1) + if top in index && index[top] in blocks then [top] else []
  }

  lemma {:induction false} CachedHeightsDown(index: map<nat, Hash>, blocks: Store, h: nat, top: nat)
    requires 0 < h <= top
    ensures CachedHeights(index, blocks, h - 1, top)
         == (if h in index && index[h] in blocks then [h] else []) + CachedHeights(index, blocks, h, top)
    decreases top
  {
    if h < top { CachedHeightsDown(index, blocks, h, top - 1); }
  }

  /** A body under a hash the index does not name makes no difference. */
  lemma {:induction false} CachedHeightsStored(index: map<nat, Hash>, blocks: Store, p: nat, top: nat, b: Block)
    requires forall h | h in index :: index[h] != b.hash
    ensures CachedHeights(index, blocks[b.hash := b], p, top) == CachedHeights(index, blocks, p, top)
    decreases top
  {
    if p < top { CachedHeightsStored(index, blocks, p, top - 1, b); }
  }

  lemma {:induction false} CachedHeightsAscend(index: map<nat, Hash>, blocks: Store, p: nat, top: nat)
    requires p <= top
    ensures Phase2.Ascends(CachedHeights(index, blocks, p, top), p, top)
    ensures |CachedHeights(index, blocks, p, top)| <= top - p
    ensures CachedAbove(index, blocks, top + 1, p) <==> |CachedHeights(index, blocks, p, top)| == top - p
    decreases top
  {
    if p < top { CachedHeightsAscend(index, blocks, p, top - 1); }
  }

  /** Every height from `p + 1` to `n - 1` is indexed and its body cached. */
  ghost predicate CachedAbove(index: map<nat, Hash>, blocks: Store, n: nat, p: nat) {
    forall h | p < h < n :: h in index && index[h] in blocks
  }

  /** Transactions of the blocks above `p`, tip first. */
  function TxLists(c: seq<Block>, p: nat): seq<seq<Tx>> {
    if |c| <= p + 1 then [] else [c[|c| - 1].txs] + TxLists(c[..|c| - 1], p)
  }

  /** Identifiers in a list of transaction lists. */
  function IdsIn(lists: seq<seq<Tx>>): set<Hash> {
    set i, t | 0 <= i < |lists| && 0 <= t < |lists[i]| :: lists[i][t].id
  }

  lemma {:induction false} TxListsAt(c: seq<Block>, p: nat, i: nat)
    requires p < |c| && i < |c| - p - 1
    ensures |TxLists(c, p)| == |c| - p - 1 && TxLists(c, p)[i] == c[|c| - 1 - i].txs
  {
    var init := c[..|c| - 1];
    var rest := TxLists(init, p);
    assert TxLists(c, p) == [c[|c| - 1].txs] + rest;
    if |c| > p + 2 {
      hide TxLists;
      TxListsAt(init, p, if i > 0 then i - 1 else 0);
      assert init[|init| - 1 - (if i > 0 then i - 1 else 0)] == c[|init| - 1 - (if i > 0 then i - 1 else 0)];
    }
  }

  /** The identifiers removed from the index are those of the blocks above the fork point. */
  lemma {:induction false} IdsAbove(c: seq<Block>, p: nat)
    requires p < |c|
    ensures IdsIn(TxLists(c, p)) == TxIds(c[p + 1..])
  {
    var lists, high := TxLists(c, p), c[p + 1..];
    forall i | 0 <= i < |c| - p - 1
      ensures |lists| == |c| - p - 1 && lists[i] == high[|c| - p - 2 - i].txs
    {
      TxListsAt(c, p, i);
    }
    assert |lists| == |high| by {
      if |c| > p + 1 { TxListsAt(c, p, 0); }
    }
    forall x | x in IdsIn(lists) ensures x in TxIds(high) {
      var i, t :| 0 <= i < |lists| && 0 <= t < |lists[i]| && lists[i][t].id == x;
      assert high[|c| - p - 2 - i].txs[t].id == x;
    }
    forall x | x in TxIds(high) ensures x in IdsIn(lists) {
      var i, t :| 0 <= i < |high| && 0 <= t < |high[i].txs| && high[i].txs[t].id == x;
      assert lists[|c| - p - 2 - i][t].id == x;
    }
  }

  /** The non-coinbase transactions of a list of transaction lists, in order. */
  function Spends(lists: seq<seq<Tx>>): seq<Tx> {
    if lists == [] then [] else NonCoinbase(lists[0]) + Spends(lists[1..])
  }

  function NonCoinbase(txs: seq<Tx>): seq<Tx> {
    if txs == [] then []
    else NonCoinbase(txs[..|txs| - 1]) + if txs[|txs| - 1].coinbase then [] else [txs[|txs| - 1]]
  }

  // ---- connecting fork blocks ----

  /** Output set, supply and burn at one moment. */
  datatype Snapshot = Snapshot(utxos: Utxo, supply: nat, burned: nat)

  function After(r: Rules, s: Snapshot, b: Block): Snapshot {
    Snapshot(Connect(s.utxos, b), s.supply + r.reward(b.height), s.burned + r.burn(b))
  }

  /** `trail[k]` is the moment before fork block `k`, each block fresh when it was connected. */
  ghost predicate Undoable(r: Rules, trail: seq<Snapshot>, fork: seq<Block>, n: nat) {
    && n <= |fork|
    && |trail| == n + 1
    && forall k | 0 <= k < n :: trail[k + 1] == After(r, trail[k], fork[k]) && Fresh(fork[k], trail[k].utxos)
  }

  /** The moment is that of chain `c`. */
  ghost predicate Matches(s: Snapshot, r: Rules, c: seq<Block>) {
    |c| >= 1 && Holds(s.utxos, StateOf(r, c)) && s.supply == StateOf(r, c).supply && s.burned == StateOf(r, c).burned
  }

  /** The moment is at least that of chain `c`. */
  ghost predicate AtLeast(s: Snapshot, r: Rules, c: seq<Block>) {
    |c| >= 1 && Covers(s.utxos, StateOf(r, c)) && s.supply >= StateOf(r, c).supply && s.burned >= StateOf(r, c).burned
  }

  lemma {:induction false} MatchesAfter(r: Rules, s: Snapshot, c: seq<Block>, b: Block)
    requires Matches(s, r, c)
    ensures Matches(After(r, s, b), r, c + [b])
  {
    Snoc(r, c, b);
  }

  /** Undo of one block on the snapshot. */
  lemma {:induction false} MatchesBefore(r: Rules, s: Snapshot, c: seq<Block>)
    requires ChainOk(r, c) && |c| >= 2 && Matches(s, r, c)
    ensures
      var b := c[|c| - 1];
      && s.supply >= r.reward(b.height) && s.burned >= r.burn(b)
      && Matches(Snapshot(Disconnect(s.utxos, b), s.supply - r.reward(b.height), s.burned - r.burn(b)), r, c[..|c| - 1])
  {
    DisconnectHolds(r, c, s.utxos);
  }

  lemma {:induction false} AtLeastBefore(r: Rules, s: Snapshot, c: seq<Block>)
    requires ChainOk(r, c) && |c| >= 2 && AtLeast(s, r, c)
    ensures
      var b := c[|c| - 1];
      && AtLeast(s, r, c[..|c| - 1])
      && s.supply >= r.reward(b.height) && s.burned >= r.burn(b)
      && AtLeast(Snapshot(Disconnect(s.utxos, b), s.supply - r.reward(b.height), s.burned - r.burn(b)), r, c[..|c| - 1])
      && Equivalent(Connect(Disconnect(s.utxos, b), b), s.utxos)
  {
    DisconnectCovers(r, c, s.utxos);
  }

  /** Undo of the block at `h` of a chain. */
  lemma {:induction false} BeforeAt(r: Rules, s: Snapshot, c: seq<Block>, h: nat)
    requires ChainOk(r, c) && 0 < h < |c| && AtLeast(s, r, c[..h + 1])
    ensures c[h].height == h && AtLeast(s, r, c[..h]) && s.supply >= r.reward(h) && s.burned >= r.burn(c[h])
    ensures
      var t := Snapshot(Disconnect(s.utxos, c[h]), s.supply - r.reward(h), s.burned - r.burn(c[h]));
      && AtLeast(t, r, c[..h]) && (Matches(s, r, c[..h + 1]) ==> Matches(t, r, c[..h]))
      && Equivalent(Connect(t.utxos, c[h]), s.utxos) && t.utxos.ever == s.utxos.ever
  {
    hide ChainOk, StateOf, AtLeast, Matches, Equivalent, Connect, Disconnect;
    PrefixOk(r, c, h + 1);
    Linked(r, c, h);
    assert c[..h + 1][..h] == c[..h];
    AtLeastBefore(r, s, c[..h + 1]);
    if Matches(s, r, c[..h + 1]) { MatchesBefore(r, s, c[..h + 1]); }
    EverGrows(s.utxos, c[h]);
  }

  lemma MatchesAtLeast(s: Snapshot, r: Rules, c: seq<Block>)
    requires Matches(s, r, c)
    ensures AtLeast(s, r, c)
  {
  }

  /** Mapping fork blocks over an index that ends at the fork point. */
  lemma {:induction false} SetHeightsFork(m: map<nat, Hash>, fork: seq<Block>, p: nat)
    requires forall h | h in m :: h <= p
    requires forall i | 0 <= i < |fork| :: fork[i].height == p + 1 + i
    ensures
      var s := SetHeights(m, fork);
      && (forall h :: h in s <==> h in m || p < h <= p + |fork|)
      && (forall h | h in m :: h in s && s[h] == m[h])
      && (forall h | p < h <= p + |fork| :: h in s && s[h] == fork[h - p - 1].hash)
  {
    if fork != [] {
      SetHeightsFork(m, fork[..|fork| - 1], p);
    }
  }

  // ---- growing the lists by one height ----

  lemma NothingListed(m: map<nat, Hash>, c: seq<Block>, u: Utxo, blocks: Store, p: nat)
    requires Indexed(m, blocks, c) && p < |c|
    ensures ListsAbove([], m, |c| - 1) && Redoable([u], [], blocks) && Upto(m, |c| - 1) == m
    ensures TxLists(c[..p + 1], p) == []
  {
  }

  /** The height cache names blocks of `c`, and cached bodies are those blocks. */
  ghost predicate Indexed(m: map<nat, Hash>, blocks: Store, c: seq<Block>) {
    forall h | h in m :: h < |c| && m[h] == c[h].hash && (m[h] in blocks ==> blocks[m[h]] == c[h])
  }

  lemma IndexedUpto(m: map<nat, Hash>, blocks: Store, c: seq<Block>, p: nat)
    requires Indexed(m, blocks, c)
    ensures Indexed(Upto(m, p), blocks, c)
  {
  }

  lemma TxListsStep(done: seq<seq<Tx>>, c: seq<Block>, h: nat, p: nat)
    requires p < h < |c|
    ensures done + TxLists(c[..h + 1], p) == done + [c[h].txs] + TxLists(c[..h], p)
  {
    assert c[..h + 1][..h] == c[..h];
  }

  lemma TxTotalStep(r: Rules, c: seq<Block>, h: nat)
    requires 0 < h < |c|
    ensures StateOf(r, c[..h + 1]).txTotal == StateOf(r, c[..h]).txTotal + |c[h].txs|
  {
    assert c[..h + 1] == c[..h] + [c[h]];
    Snoc(r, c[..h], c[h]);
  }

  lemma RedoableSnoc(trail: seq<Utxo>, heights: seq<(nat, Hash)>, blocks: Store, e: (nat, Hash), u: Utxo)
    requires Redoable(trail, heights, blocks)
    requires Equivalent(Redo(u, blocks, e.1), trail[|heights|])
    ensures Redoable(trail + [u], heights + [e], blocks)
  {
    var t, l := trail + [u], heights + [e];
    forall k | 0 <= k < |l| ensures Equivalent(Redo(t[k + 1], blocks, l[k].1), t[k]) {
      if k < |heights| { assert l[k] == heights[k] && t[k] == trail[k] && t[k + 1] == trail[k + 1]; }
    }
  }

  lemma ListsAboveSnoc(heights: seq<(nat, Hash)>, m: map<nat, Hash>, p: nat)
    requires p > 0 && ListsAbove(heights, m, p)
    ensures p in m ==> ListsAbove(heights + [(p, m[p])], m, p - 1)
    ensures p !in m ==> ListsAbove(heights, m, p - 1)
  {
    if p in m {
      var l := heights + [(p, m[p])];
      forall h | h in m && h > p - 1 ensures exists k | 0 <= k < |l| :: l[k].0 == h {
        if h == p {
          assert l[|heights|].0 == h;
        } else {
          var k :| 0 <= k < |heights| && heights[k].0 == h;
          assert l[k].0 == h;
        }
      }
    }
  }

  lemma {:induction false} HeldSnoc(heights: seq<(nat, Hash)>, blocks: Store, e: (nat, Hash))
    ensures Held(heights + [e], blocks) == (if e.1 in blocks then [e.0] else []) + Held(heights, blocks)
  {
    if heights != [] {
      HeldSnoc(heights[1..], blocks, e);
      assert (heights + [e])[1..] == heights[1..] + [e];
    }
  }

  lemma UptoLess(m: map<nat, Hash>, p: nat)
    requires p > 0
    ensures Upto(m, p) - {p} == Upto(m, p - 1)
    ensures p in Upto(m, p) <==> p in m
    ensures p in m ==> Upto(m, p)[p] == m[p]
  {
  }

  /** The disconnect loop has come down to `h`: what it listed, the way back, and how many bodies it found. */
  ghost predicate Peeled(
      m: map<nat, Hash>, blocks: Store, top: nat, heights: seq<(nat, Hash)>, trail: seq<Utxo>, count: nat, h: nat)
  {
    && h <= top
    && ListsAbove(heights, m, h)
    && |trail| == |heights| + 1 && Redoable(trail, heights, blocks)
    && Held(heights, blocks) == CachedHeights(m, blocks, h, top) && count == |Held(heights, blocks)|
  }

  lemma PeelStart(m: map<nat, Hash>, blocks: Store, c: seq<Block>, u: Utxo)
    requires c != [] && Indexed(m, blocks, c)
    ensures Peeled(m, blocks, |c| - 1, [], [u], 0, |c| - 1) && Upto(m, |c| - 1) == m
  {
    NothingListed(m, c, u, blocks, |c| - 1);
  }

  lemma PeeledFacts(
      m: map<nat, Hash>, blocks: Store, top: nat, heights: seq<(nat, Hash)>, trail: seq<Utxo>, count: nat, h: nat)
    requires Peeled(m, blocks, top, heights, trail, count, h)
    ensures ListsAbove(heights, m, h) && Redoable(trail, heights, blocks)
    ensures Held(heights, blocks) == CachedHeights(m, blocks, h, top) && count == |Held(heights, blocks)| <= top - h
    ensures CachedAbove(m, blocks, top + 1, h) <==> count == top - h
  {
    CachedHeightsAscend(m, blocks, h, top);
  }

  /** One height further down, found in the index or not. */
  lemma PeelStep(
      m: map<nat, Hash>, blocks: Store, top: nat, heights: seq<(nat, Hash)>, trail: seq<Utxo>, count: nat, h: nat,
      u: Utxo)
    requires h > 0 && Peeled(m, blocks, top, heights, trail, count, h)
    requires h in m ==> Equivalent(Redo(u, blocks, m[h]), trail[|heights|])
    ensures h !in m ==> Peeled(m, blocks, top, heights, trail, count, h - 1)
    ensures h in m ==>
      Peeled(m, blocks, top, heights + [(h, m[h])], trail + [u], count + if m[h] in blocks then 1 else 0, h - 1)
  {
    hide Equivalent, Redo, ListsAbove, Redoable, Held, CachedHeights;
    ListsAboveSnoc(heights, m, h);
    CachedHeightsDown(m, blocks, h, top);
    if h in m {
      HeldSnoc(heights, blocks, (h, m[h]));
      RedoableSnoc(trail, heights, blocks, (h, m[h]), u);
    }
  }

  // ---- the connect loop and its undoing ----

  lemma UndoableSnoc(r: Rules, trail: seq<Snapshot>, fork: seq<Block>, n: nat)
    requires n < |fork| && |trail| == n + 1 && Undoable(r, trail, fork, n) && Fresh(fork[n], trail[n].utxos)
    ensures Undoable(r, trail + [After(r, trail[n], fork[n])], fork, n + 1)
  {
  }

  lemma {:induction false} ForkSnoc(m: map<nat, Hash>, s: Phase2.Store, fork: seq<Block>, n: nat)
    requires n < |fork|
    ensures SetHeights(m, fork[..n + 1]) == SetHeights(m, fork[..n])[fork[n].height := fork[n].hash]
    ensures Phase2.ConnectN(s, fork[..n + 1]) == Phase2.Connect(Phase2.ConnectN(s, fork[..n]), fork[n])
  {
    assert fork[..n + 1][..n] == fork[..n];
  }

  /** The `n`-th fork block sits right above the fork point and the fork blocks before it. */
  lemma ForkNext(chain: seq<Block>, fork: seq<Block>, p: nat, n: nat)
    requires p < |chain| && n < |fork| && ForkLinked(fork, p, chain[p].hash)
    ensures
      var c := chain[..p + 1] + fork[..n];
      fork[n].height == |c| && fork[n].prev == c[|c| - 1].hash && c + [fork[n]] == chain[..p + 1] + fork[..n + 1]
  {
  }

  lemma UndoableStart(r: Rules, s: Snapshot, fork: seq<Block>, m: map<nat, Hash>, t: Phase2.Store)
    ensures Undoable(r, [s], fork, 0) && fork[..0] == []
    ensures SetHeights(m, fork[..0]) == m && Phase2.ConnectN(t, fork[..0]) == t
  {
  }

  /** A block that passes the checks against a matching moment extends the chain. */
  lemma {:induction false} PassedExtends(r: Rules, s: Snapshot, c: seq<Block>, b: Block)
    requires ChainOk(r, c) && Matches(s, r, c)
    requires b.height == |c| && b.prev == c[|c| - 1].hash
    requires Fresh(b, s.utxos) && TargetOk(r, b, WindowOf(c, |c|))
    requires CommitmentOk(r, b, s.supply + r.reward(b.height), s.burned + r.burn(b))
    ensures Extends(r, c, b) && ChainOk(r, c + [b]) && Matches(After(r, s, b), r, c + [b])
  {
    hide ChainOk, StateOf, Step, After, WindowOf, CommitmentOk, TargetOk, WellFormed, Unseen, Created, Spent;
    Snoc(r, c, b);
    MatchesAfter(r, s, c, b);
  }

  /** One fork block undone: back to the moment before it. */
  lemma {:induction false} UndoStep(r: Rules, trail: seq<Snapshot>, fork: seq<Block>, n: nat, k: nat, u: Utxo)
    requires k < n && |trail| == n + 1 && Undoable(r, trail, fork, n) && Equivalent(u, trail[k + 1].utxos)
    ensures n <= |fork|
    ensures Equivalent(Disconnect(u, fork[k]), trail[k].utxos)
    ensures trail[k + 1].supply == trail[k].supply + r.reward(fork[k].height)
    ensures trail[k + 1].burned == trail[k].burned + r.burn(fork[k])
  {
    UndoEquivalent(trail[k].utxos, fork[k]);
    EquivalentDisconnect(u, trail[k + 1].utxos, fork[k]);
  }

  // ---- the re-apply loop ----

  lemma CheckpointSnoc(s: Phase2.Store, hs: seq<nat>, h: nat)
    ensures Phase2.CheckpointAll(s, hs + [h]) == Phase2.Checkpoint(Phase2.CheckpointAll(s, hs), h)
  {
    assert (hs + [h])[..|hs|] == hs;
  }

  lemma ForkClimbs(fork: seq<Block>, p: nat, at: Hash, n: nat)
    requires ForkLinked(fork, p, at) && n <= |fork|
    ensures Phase2.Climbs(fork[..n], p)
  {
  }

  lemma RemovedAbove(m: map<nat, Hash>, p: nat, top: nat)
    requires forall h | h in m :: h <= top
    ensures (map h | h in m && !(p < h <= top) :: m[h]) == Upto(m, p)
  {
  }

  /** `m` is `main` up to `p`, plus the heights listed from `k` on. */
  ghost predicate Remapped(m: map<nat, Hash>, heights: seq<(nat, Hash)>, k: nat, main: map<nat, Hash>, p: nat) {
    && (forall h | h in m :: h in main && m[h] == main[h])
    && (forall h | h in main && h <= p :: h in m)
    && (forall j | k <= j < |heights| :: heights[j].0 in m)
  }

  lemma RemappedStart(heights: seq<(nat, Hash)>, main: map<nat, Hash>, p: nat)
    ensures Remapped(Upto(main, p), heights, |heights|, main, p)
  {
  }

  lemma RemappedStep(m: map<nat, Hash>, heights: seq<(nat, Hash)>, k: nat, main: map<nat, Hash>, p: nat)
    requires k < |heights| && Remapped(m, heights, k + 1, main, p) && ListsAbove(heights, main, p)
    ensures Remapped(m[heights[k].0 := heights[k].1], heights, k, main, p)
  {
  }

  lemma RemappedEnd(m: map<nat, Hash>, heights: seq<(nat, Hash)>, main: map<nat, Hash>, p: nat)
    requires Remapped(m, heights, 0, main, p) && ListsAbove(heights, main, p)
    ensures m == main
  {
    forall h | h in main ensures h in m {
      if h > p {
        var k :| 0 <= k < |heights| && heights[k].0 == h;
      }
    }
  }

  lemma {:induction false} RedoStep(trail: seq<Utxo>, heights: seq<(nat, Hash)>, blocks: Store, k: nat, u: Utxo)
    requires k < |heights| && |trail| == |heights| + 1 && Redoable(trail, heights, blocks)
    requires Equivalent(u, trail[k + 1])
    ensures Equivalent(Redo(u, blocks, heights[k].1), trail[k])
    ensures heights[k].1 in blocks ==> Held(heights[k..], blocks) == Held(heights[k + 1..], blocks) + [heights[k].0]
    ensures heights[k].1 !in blocks ==> Held(heights[k..], blocks) == Held(heights[k + 1..], blocks)
  {
    assert heights[k..][1..] == heights[k + 1..];
    if heights[k].1 in blocks {
      EquivalentConnect(u, trail[k + 1], blocks[heights[k].1]);
    }
  }

  // ---- facts a whole reorg needs ----

  /** A cache of stored bodies adds nothing to the bodies. */
  lemma ThroughCache(bodies: Store, blocks: Store)
    requires forall k | k in blocks :: k in bodies && bodies[k] == blocks[k]
    ensures bodies + blocks == bodies
  {
  }

  /** The collected fork blocks, read through the cache, and how they hang together. */
  lemma {:induction false} CollectedFork(bodies: Store, blocks: Store, genesis: Hash, chain: seq<Block>, b: Block,
    p: nat)
    requires Closed(bodies, genesis) && b.height > 0 && Parented(bodies, b)
    requires forall k | k in blocks :: k in bodies && bodies[k] == blocks[k]
    requires var c := Lineage(bodies, genesis, bodies[b.prev]);
             p < |c| && p < |chain| && c[..p + 1] == chain[..p + 1]
    ensures
      var fork := ForkChainFrom(bodies + blocks, b.prev, p, {});
      && fork == Lineage(bodies, genesis, bodies[b.prev])[p + 1..]
      && ForkLinked(fork, p, chain[p].hash)
      && Lineage(bodies, genesis, b) == chain[..p + 1] + fork + [b]
      && b.height == p + 1 + |fork|
      && b.prev == (chain[..p + 1] + fork)[p + |fork|].hash
  {
    ThroughCache(bodies, blocks);
    CollectedStored(bodies, genesis, chain, b, p);
  }

  lemma {:induction false} CollectedStored(bodies: Store, genesis: Hash, chain: seq<Block>, b: Block, p: nat)
    requires Closed(bodies, genesis) && b.height > 0 && Parented(bodies, b)
    requires var c := Lineage(bodies, genesis, bodies[b.prev]);
             p < |c| && p < |chain| && c[..p + 1] == chain[..p + 1]
    ensures
      var fork := ForkChainFrom(bodies, b.prev, p, {});
      && fork == Lineage(bodies, genesis, bodies[b.prev])[p + 1..]
      && ForkLinked(fork, p, chain[p].hash)
      && Lineage(bodies, genesis, b) == chain[..p + 1] + fork + [b]
      && b.height == p + 1 + |fork|
      && b.prev == (chain[..p + 1] + fork)[p + |fork|].hash
  {
    var c := Lineage(bodies, genesis, bodies[b.prev]);
    hide Lineage, ForkChainFrom, Closed, Parented, ForkLinked;
    ForkChainIsLineage(bodies, genesis, b.prev, p, {});
    ForkShape(bodies, genesis, chain, b, p, c[p + 1..]);
  }

  lemma {:induction false} ForkIndex(main: map<nat, Hash>, fork: seq<Block>, p: nat, n: nat, at: Hash)
    requires ForkLinked(fork, p, at) && n <= |fork|
    ensures
      var m := SetHeights(Upto(main, p), fork[..n]);
      && Upto(m, p) == Upto(main, p)
      && (forall h | h in m :: h <= p + n)
      && (forall h | h in Upto(main, p) :: h <= p)
      && (forall i | 0 <= i < |fork| :: fork[i].height == p + 1 + i)
  {
    SetHeightsFork(Upto(main, p), fork[..n], p);
  }

  lemma ChainHeights(r: Rules, c: seq<Block>)
    requires ChainOk(r, c)
    ensures forall i | 0 <= i < |c| :: c[i].height == i
  {
    forall i | 0 <= i < |c| ensures c[i].height == i { Linked(r, c, i); }
  }
}
