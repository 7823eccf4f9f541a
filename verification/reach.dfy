/** How far the tip may fall before a permitted reorg can miss a block in the cache. */
module Reach {
  import opened Types
  import opened Ledger
  import opened ForkWalk
  import opened Policy
  import opened ReorgTrail
  import opened NodeState
  import Phase2

  /** The tip has not fallen so far that a permitted reorg could miss its fork point's body either; genesis is never
      evicted, so from height 144 on the bound is one block tighter than `WithinReach`. */
  predicate WithinFullReach(tipHeight: nat, highest: nat) {
    highest <= if tipHeight <= CHECKPOINT_INTERVAL then CHECKPOINT_INTERVAL + 57 else tipHeight + 56
  }

  lemma FullReachIsReach(tipHeight: nat, highest: nat)
    requires WithinFullReach(tipHeight, highest)
    ensures WithinReach(tipHeight, highest)
  {
  }

  // ---- the smallest cache ----

  /** The bodies no eviction may drop. */
  function LeastBlocks(bodies: Store, genesis: Hash, highest: nat): Store {
    map k | k in bodies && (k == genesis || Retained(bodies[k].height, highest)) :: bodies[k]
  }

  /** The height mappings no eviction may drop. */
  function LeastIndex(c: seq<Block>, highest: nat): map<nat, Hash> {
    map h: nat | 0 <= h < |c| && (h == 0 || Retained(h, highest)) :: c[h].hash
  }

  lemma LeastIsOk(bodies: Store, genesis: Hash, c: seq<Block>, highest: nat)
    requires Canonical(bodies, genesis, c) && c[0].hash == genesis
    ensures CacheOk(LeastBlocks(bodies, genesis, highest), LeastIndex(c, highest), bodies, c, highest)
  {
    CanonicalStored(bodies, genesis, c, 0);
  }

  /** The caches hold every block above `p`. */
  ghost predicate Disconnects(blocks: Store, index: map<nat, Hash>, c: seq<Block>, p: nat) {
    CachedAbove(index, blocks, |c|, p)
  }

  /** The caches hold every block above `p`, and the body of the block at `p`. */
  ghost predicate Reads(blocks: Store, index: map<nat, Hash>, c: seq<Block>, p: nat) {
    p < |c| && CachedAbove(index, blocks, |c|, p) && c[p].hash in blocks
  }

  lemma RetainedHeld(
      blocks: Store, index: map<nat, Hash>, bodies: Store, genesis: Hash, c: seq<Block>, highest: nat, h: nat)
    requires CacheOk(blocks, index, bodies, c, highest) && Canonical(bodies, genesis, c)
    requires h < |c| && (h == 0 || Retained(h, highest))
    ensures h in index && index[h] == c[h].hash && c[h].hash in blocks
  {
    hide Canonical;
    CanonicalStored(bodies, genesis, c, h);
  }

  lemma LeastMisses(bodies: Store, genesis: Hash, c: seq<Block>, highest: nat, h: nat)
    requires Canonical(bodies, genesis, c) && c[0].hash == genesis && 0 < h < |c| && !Retained(h, highest)
    ensures h !in LeastIndex(c, highest) && c[h].hash !in LeastBlocks(bodies, genesis, highest)
  {
    hide Canonical;
    CanonicalStored(bodies, genesis, c, h);
    CanonicalStored(bodies, genesis, c, 0);
  }

  /** Every legal cache holds all that any permitted reorg disconnects, exactly when the tip is within 57 blocks of
      the highest there was. A node further away may still have what it needs: eviction drops nothing below 500
      cached blocks. */
  lemma ReachOfCaches(bodies: Store, genesis: Hash, c: seq<Block>, highest: nat)
    requires Canonical(bodies, genesis, c) && c[0].hash == genesis && |c| > 1
    ensures WithinReach(|c| - 1, highest) <==>
      forall blocks, index, p: nat | CacheOk(blocks, index, bodies, c, highest) && FinalityFloor(|c| - 1) <= p ::
        Disconnects(blocks, index, c, p)
  {
    hide CacheOk, Canonical;
    var tip := |c| - 1;
    if WithinReach(tip, highest) {
      forall blocks, index, p: nat | CacheOk(blocks, index, bodies, c, highest) && FinalityFloor(tip) <= p
        ensures Disconnects(blocks, index, c, p)
      {
        forall h | p < h < |c| ensures h in index && index[h] in blocks {
          RetainedHeld(blocks, index, bodies, genesis, c, highest, h);
        }
      }
    } else {
      var p := FinalityFloor(tip);
      LeastIsOk(bodies, genesis, c, highest);
      LeastMisses(bodies, genesis, c, highest, p + 1);
      assert !Disconnects(LeastBlocks(bodies, genesis, highest), LeastIndex(c, highest), c, p);
    }
  }

  /** The same with the fork point's body, which the first connected block is checked against. */
  lemma FullReachOfCaches(bodies: Store, genesis: Hash, c: seq<Block>, highest: nat)
    requires Canonical(bodies, genesis, c) && c[0].hash == genesis && |c| > 1
    ensures WithinFullReach(|c| - 1, highest) <==>
      forall blocks, index, p: nat | CacheOk(blocks, index, bodies, c, highest) && FinalityFloor(|c| - 1) <= p < |c| ::
        Reads(blocks, index, c, p)
  {
    hide CacheOk, Canonical;
    var tip := |c| - 1;
    if WithinFullReach(tip, highest) {
      forall blocks, index, p: nat | CacheOk(blocks, index, bodies, c, highest) && FinalityFloor(tip) <= p < |c|
        ensures Reads(blocks, index, c, p)
      {
        forall h | p <= h < |c| ensures h in index && index[h] == c[h].hash && index[h] in blocks {
          RetainedHeld(blocks, index, bodies, genesis, c, highest, h);
        }
      }
    } else {
      var p := FinalityFloor(tip);
      LeastIsOk(bodies, genesis, c, highest);
      LeastMisses(bodies, genesis, c, highest, if p == 0 then 1 else p);
      assert !Reads(LeastBlocks(bodies, genesis, highest), LeastIndex(c, highest), c, p);
    }
  }

  // ---- a fork point that is not cached ----

  /** Validation refuses a block whose parent it is not given. */
  ghost predicate NeedsParent(r: Rules) {
    forall b, u :: !r.fullOk(b, None, u)
  }

  /** A reorg whose fork point's body is not cached never succeeds: the connect loop looks the parent up in the cache
      only, and a block without a parent is refused. */
  lemma PointlessRefused(r: Rules, blocks: Store, low: seq<Block>, base: Phase2.Store, fork: seq<Block>, b: Block)
    requires NeedsParent(r) && low != [] && low[|low| - 1].hash !in blocks
    requires (fork + [b])[0].prev == low[|low| - 1].hash
    ensures !AllJoin(r, blocks, low, base, fork, b)
  {
    if fork == [] {
      assert low + fork == low;
    } else {
      assert fork[..0] == [] && low + fork[..0] == low;
      assert (fork + [b])[0] == fork[0];
      assert !Joins(r, blocks, low + fork[..0], Phase2.ConnectN(base, fork[..0]).contents, fork[0]);
    }
  }

  /** At 57 blocks below the highest tip that happens: the deepest permitted reorg finds all it disconnects, and not
      its fork point. */
  lemma RefusedAtTheEdge(r: Rules, bodies: Store, genesis: Hash, c: seq<Block>, highest: nat, base: Phase2.Store,
                         fork: seq<Block>, b: Block)
    requires Canonical(bodies, genesis, c) && c[0].hash == genesis
    requires |c| - 1 > CHECKPOINT_INTERVAL && highest == |c| - 1 + 57
    requires NeedsParent(r) && (fork + [b])[0].prev == c[FinalityFloor(|c| - 1)].hash
    ensures
      var p, blocks, index := FinalityFloor(|c| - 1), LeastBlocks(bodies, genesis, highest), LeastIndex(c, highest);
      && CacheOk(blocks, index, bodies, c, highest) && Disconnects(blocks, index, c, p)
      && !AllJoin(r, blocks, c[..p + 1], base, fork, b)
  {
    hide CacheOk, Canonical, AllJoin, NeedsParent, LeastBlocks, LeastIndex, CachedAbove;
    var p := FinalityFloor(|c| - 1);
    LeastIsOk(bodies, genesis, c, highest);
    ReachOfCaches(bodies, genesis, c, highest);
    LeastMisses(bodies, genesis, c, highest, p);
    assert c[..p + 1][p] == c[p];
    PointlessRefused(r, LeastBlocks(bodies, genesis, highest), c[..p + 1], base, fork, b);
  }
}
