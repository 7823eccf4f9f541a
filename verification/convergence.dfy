/** Nodes fed the same valid blocks in different orders end on the same chain. */
module Convergence {
  import opened Types
  import opened UtxoSet
  import opened Ledger
  import opened ForkWalk
  import opened Policy
  import opened ReorgTrail
  import opened NodeState
  import opened Moves
  import opened ForkChoice
  import opened Reach
  import opened Chain
  import Phase2
  import Runs

  // ---- valid blocks ----

  /** `b` is valid on top of chain `c`: it extends it, and passes validation on arrival, validation during a reorg and
      the shielded gate in the state `c` leads to. */
  ghost predicate Sincere(r: Rules, c: seq<Block>, b: Block) {
    && |c| >= 1 && r.headerOk(b) && Extends(r, c, b)
    && var parent, u := Some(c[|c| - 1]), Untouched(StateOf(r, c));
       && r.arrivalOk(b, parent, u, true) && r.arrivalOk(b, parent, u, false) && r.fullOk(b, parent, u)
       && r.gateOk(b, Phase2.Replay(c))
  }

  /** Every stored block but genesis is valid on its own lineage. */
  ghost predicate AllSincere(r: Rules, genesis: Hash, bodies: Store) {
    && Closed(bodies, genesis)
    && forall k | k in bodies && bodies[k].height > 0 ::
         Sincere(r, Lineage(bodies, genesis, bodies[bodies[k].prev]), bodies[k])
  }

  /** A valid block joins its chain in a reorg when its parent is cached and the stores hold the replay. */
  lemma SincereJoins(r: Rules, blocks: Store, c: seq<Block>, contents: seq<nat>, b: Block)
    requires Sincere(r, c, b) && CachedParent(blocks, b) == Some(c[|c| - 1]) && contents == Phase2.Replay(c)
    ensures Joins(r, blocks, c, contents, b)
  {
    hide StateOf, TargetOk, CommitmentOk, WindowOf, Unseen, WellFormed, CachedParent, Phase2.Replay;
  }

  /** A lineage above height `i` is made of valid blocks. */
  lemma LineageSincere(r: Rules, genesis: Hash, bodies: Store, b: Block, i: nat)
    requires AllSincere(r, genesis, bodies) && Parented(bodies, b) && 0 < i < b.height
    ensures
      var c := Lineage(bodies, genesis, b);
      c[i].hash in bodies && Sincere(r, c[..i], c[i]) && c[i].prev == c[i - 1].hash
  {
    hide Sincere;
    var c := Lineage(bodies, genesis, b);
    LineageStored(bodies, genesis, b, i);
    LineagePrefix(bodies, genesis, b, i);
    assert c[..i + 1] == Lineage(bodies, genesis, bodies[c[i].prev]) + [c[i]];
    assert c[..i] == c[..i + 1][..i] == Lineage(bodies, genesis, bodies[c[i].prev]);
    assert c[i - 1] == c[..i][i - 1];
  }

  /** Storing a valid block keeps all stored blocks valid. */
  lemma StoredSincere(r: Rules, genesis: Hash, bodies: Store, b: Block)
    requires AllSincere(r, genesis, bodies) && Connectable(bodies, b)
    requires Closed(bodies[b.hash := b], genesis)
    requires Sincere(r, Lineage(bodies, genesis, bodies[b.prev]), b)
    ensures AllSincere(r, genesis, bodies[b.hash := b])
  {
    hide Sincere;
    var more := bodies[b.hash := b];
    forall k | k in more && more[k].height > 0 ensures Sincere(r, Lineage(more, genesis, more[more[k].prev]), more[k]) {
      assert more[k].prev in bodies;
      LineageStable(bodies, more, genesis, bodies[more[k].prev]);
    }
  }

  // ---- a valid block is never refused by the checks ----

  lemma {:induction false} ConnectContents(base: Phase2.Store, low: seq<Block>, blocks: seq<Block>)
    requires low != [] && base.contents == Phase2.Replay(low)
    ensures Phase2.ConnectN(base, blocks).contents == Phase2.Replay(low + blocks)
  {
    if blocks == [] {
      assert low + blocks == low;
    } else {
      ConnectContents(base, low, blocks[..|blocks| - 1]);
      assert (low + blocks)[..|low + blocks| - 1] == low + blocks[..|blocks| - 1];
    }
  }

  /** Rewinding a mirroring store to a permitted fork point leaves the replay up to it. */
  lemma RewindContents(v: View, at: nat)
    requires Mirrors(v) && WithinFullReach(TipHeight(v), v.highest) && FinalityFloor(TipHeight(v)) <= at < |v.chain|
    ensures Phase2.RewindN(v.store, |v.chain| - 1 - at).contents == Phase2.Replay(v.chain[..at + 1])
  {
    hide Phase2.RewindN, Phase2.Replay;
    RewindMirrors(v, at);
  }

  /** Within full reach every block of a lineage from a permitted fork point up is cached. */
  lemma ForkCached(
      blocks: Store, index: map<nat, Hash>, bodies: Store, genesis: Hash, c: seq<Block>, highest: nat, q: Block, i: nat)
    requires CacheOk(blocks, index, bodies, c, highest) && Canonical(bodies, genesis, c) && c[0].hash == genesis
    requires q.hash in bodies && bodies[q.hash] == q && Parented(bodies, q)
    requires WithinFullReach(|c| - 1, highest) && FinalityFloor(|c| - 1) <= i <= q.height
    ensures var d := Lineage(bodies, genesis, q); d[i].hash in blocks && blocks[d[i].hash] == d[i]
  {
    var d := Lineage(bodies, genesis, q);
    if i < q.height { LineageStored(bodies, genesis, q, i); }
    assert d[i].hash in bodies && bodies[d[i].hash] == d[i] && d[i].height == i;
  }

  lemma ParentLineage(r: Rules, genesis: Hash, bodies: Store, b: Block)
    requires AllSincere(r, genesis, bodies) && Connectable(bodies, b)
    ensures Closed(bodies, genesis) && Parented(bodies, b) && Parented(bodies, bodies[b.prev])
    ensures bodies[b.prev].hash == b.prev && bodies[b.prev].height + 1 == b.height
    ensures var d := Lineage(bodies, genesis, bodies[b.prev]); |d| == b.height && Lineage(bodies, genesis, b) == d + [b]
  {
    hide Sincere;
  }

  /** The block at height `i` of a valid lineage is valid on those below it, and its parent is the one below. */
  lemma MemberSincere(r: Rules, genesis: Hash, bodies: Store, b: Block, i: nat)
    requires AllSincere(r, genesis, bodies) && Connectable(bodies, b) && 0 < i <= b.height
    requires Sincere(r, Lineage(bodies, genesis, bodies[b.prev]), b)
    ensures
      var d := Lineage(bodies, genesis, bodies[b.prev]);
      Sincere(r, d[..i], (d + [b])[i]) && (d + [b])[i].prev == d[i - 1].hash
  {
    hide Sincere, AllSincere, Lineage, Closed, Parented;
    ParentLineage(r, genesis, bodies, b);
    var d := Lineage(bodies, genesis, bodies[b.prev]);
    if i < b.height {
      LineageSincere(r, genesis, bodies, b, i);
      assert (d + [b])[..i] == d[..i] && (d + [b])[i - 1] == d[i - 1];
    } else {
      assert d[..i] == d;
    }
  }

  /** It joins those below it, from a permitted fork point up. */
  lemma MemberJoins(
      r: Rules, genesis: Hash, bodies: Store, blocks: Store, index: map<nat, Hash>, c: seq<Block>, highest: nat,
      base: Phase2.Store, b: Block, at: nat, i: nat)
    requires AllSincere(r, genesis, bodies) && Connectable(bodies, b)
    requires Sincere(r, Lineage(bodies, genesis, bodies[b.prev]), b)
    requires CacheOk(blocks, index, bodies, c, highest) && Canonical(bodies, genesis, c) && c[0].hash == genesis
    requires WithinFullReach(|c| - 1, highest) && FinalityFloor(|c| - 1) <= at < i <= b.height
    requires base.contents == Phase2.Replay(Lineage(bodies, genesis, bodies[b.prev])[..at + 1])
    ensures
      var d := Lineage(bodies, genesis, bodies[b.prev]);
      Joins(r, blocks[b.hash := b], d[..i], Phase2.ConnectN(base, d[at + 1..i]).contents, (d + [b])[i])
  {
    hide Sincere, Joins, Phase2.ConnectN, Phase2.Replay, CacheOk, FinalityFloor, WithinFullReach, Canonical;
    hide AllSincere, Lineage, Closed, Parented;
    ParentLineage(r, genesis, bodies, b);
    var q := bodies[b.prev];
    var d := Lineage(bodies, genesis, q);
    ForkCached(blocks, index, bodies, genesis, c, highest, q, i - 1);
    LineageHeld(bodies, genesis, q, i - 1);
    ConnectContents(base, d[..at + 1], d[at + 1..i]);
    assert d[..at + 1] + d[at + 1..i] == d[..i];
    MemberSincere(r, genesis, bodies, b, i);
    assert d[..i][i - 1] == d[i - 1];
    SincereJoins(r, blocks[b.hash := b], d[..i], Phase2.ConnectN(base, d[at + 1..i]).contents, (d + [b])[i]);
  }

  lemma LineageHeld(bodies: Store, genesis: Hash, q: Block, i: nat)
    requires Closed(bodies, genesis) && q.hash in bodies && bodies[q.hash] == q && i <= q.height
    ensures var d := Lineage(bodies, genesis, q); d[i].hash in bodies && bodies[d[i].hash] == d[i]
  {
    if i < q.height { LineageStored(bodies, genesis, q, i); }
  }

  /** A valid block whose reorg the policy admits joins, with its whole fork. */
  lemma ForkAllJoins(
      r: Rules, genesis: Hash, bodies: Store, blocks: Store, index: map<nat, Hash>, v: View, b: Block, at: nat)
    requires AllSincere(r, genesis, bodies) && Connectable(bodies, b)
    requires Sincere(r, Lineage(bodies, genesis, bodies[b.prev]), b)
    requires CacheOk(blocks, index, bodies, v.chain, v.highest) && Canonical(bodies, genesis, v.chain)
    requires v.chain[0].hash == genesis && Mirrors(v)
    requires WithinFullReach(|v.chain| - 1, v.highest) && FinalityFloor(|v.chain| - 1) <= at
    requires Branches(Lineage(bodies, genesis, bodies[b.prev]), v.chain, at)
    ensures
      var d := Lineage(bodies, genesis, bodies[b.prev]);
      AllJoin(r, blocks[b.hash := b], v.chain[..at + 1], Phase2.RewindN(v.store, |v.chain| - 1 - at), d[at + 1..], b)
  {
    hide Sincere, Joins, Phase2.ConnectN, Phase2.RewindN, Phase2.Replay, CacheOk, FinalityFloor, WithinFullReach;
    hide Mirrors;
    hide Canonical, AllSincere, Lineage, Closed, Parented;
    ParentLineage(r, genesis, bodies, b);
    var d := Lineage(bodies, genesis, bodies[b.prev]);
    var low, fork := v.chain[..at + 1], d[at + 1..];
    var base := Phase2.RewindN(v.store, |v.chain| - 1 - at);
    RewindContents(v, at);
    forall k | 0 <= k < |fork|
      ensures Joins(r, blocks[b.hash := b], low + fork[..k], Phase2.ConnectN(base, fork[..k]).contents, fork[k])
    {
      var i := at + 1 + k;
      MemberJoins(r, genesis, bodies, blocks, index, v.chain, v.highest, base, b, at, i);
      assert low + fork[..k] == d[..i] && fork[..k] == d[at + 1..i] && fork[k] == (d + [b])[i];
    }
    MemberJoins(r, genesis, bodies, blocks, index, v.chain, v.highest, base, b, at, |d|);
    assert low + fork == d[..|d|] && fork == d[at + 1..|d|] && (d + [b])[|d|] == b;
  }

  // ---- one block ----

  /** The node is valid, its stores mirror its chain, and it holds valid blocks only. */
  ghost predicate Sane(node: Blockchain)
    reads node
  {
    node.Valid() && Mirrors(node.Seen()) && AllSincere(node.rules, node.genesis.hash, node.db.bodies)
  }

  /** The block is valid on its own lineage, if its parent is known. */
  ghost predicate Fair(r: Rules, genesis: Hash, bodies: Store, b: Block)
    requires Closed(bodies, genesis)
  {
    Connectable(bodies, b) ==> Sincere(r, Lineage(bodies, genesis, bodies[b.prev]), b)
  }

  /** The tip is in full reach of its highest. */
  predicate InReach(n: Node, highest: nat) {
    n.chain != [] && WithinFullReach(|n.chain| - 1, highest)
  }

  /** The policy does not stand in the way of `b`: the tip is in full reach of its highest, and if `b`'s lineage is
      better and not on the tip, its reorg is admitted. */
  ghost predicate Unhindered(r: Rules, genesis: Hash, n: Node, highest: nat, b: Block)
    requires Canonical(n.bodies, genesis, n.chain)
  {
    && InReach(n, highest)
    && (Connectable(n.bodies, b) && b.prev != n.chain[|n.chain| - 1].hash ==>
          var c, d := Lineage(n.bodies, genesis, b), Lineage(n.bodies, genesis, n.bodies[b.prev]);
          Better(c, n.chain) ==>
            forall at: nat | Branches(d, n.chain, at) ::
              Admits(b.height, at, ChainWork(c), ChainWork(n.chain), |n.chain| - 1, r.maxReorgDepth))
  }

  /** What the store of a mirroring node holds. */
  lemma MirrorContents(v: View)
    requires Mirrors(v)
    ensures v.store.contents == Phase2.Replay(v.chain)
  {
  }

  /** The checks in the state of chain `c` decide the checks in the node's own. */
  lemma SincereNow(r: Rules, c: seq<Block>, b: Block, u: Utxo)
    requires Sound(r) && Sincere(r, c, b) && Holds(u, StateOf(r, c))
    ensures r.arrivalOk(b, Some(c[|c| - 1]), u, true) && r.headerOk(b) && r.gateOk(b, Phase2.Replay(c))
    ensures TargetOk(r, b, WindowOf(c, |c|)) && b.height == |c|
    ensures var s := StateOf(r, c); CommitmentOk(r, b, s.supply + r.reward(b.height), s.burned + r.burn(b))
  {
    hide StateOf, TargetOk, CommitmentOk, WindowOf, Unseen, WellFormed, Fresh, Equivalent, Phase2.Replay;
    HoldsEquivalent(u, StateOf(r, c));
  }

  /** The parent of a block on the tip ends the chain. */
  lemma TipParent(node: Blockchain, b: Block)
    requires node.Valid() && Connectable(node.db.bodies, b) && b.prev == node.tip.hash
    requires Closed(node.db.bodies, node.genesis.hash)
    ensures Lineage(node.db.bodies, node.genesis.hash, node.db.bodies[b.prev]) == node.chain
    ensures node.db.bodies[b.prev] == node.chain[|node.chain| - 1]
  {
    hide Blockchain.Valid;
    node.WorkIsChainWork();
    node.CanonicalNow();
    CanonicalStored(node.db.bodies, node.genesis.hash, node.chain, |node.chain| - 1);
    assert node.chain[..|node.chain|] == node.chain;
  }

  /** A valid block on the tip passes all checks. */
  lemma TipTaken(node: Blockchain, b: Block)
    requires Sane(node) && Connectable(node.db.bodies, b) && b.prev == node.tip.hash
    requires Closed(node.db.bodies, node.genesis.hash) && Fair(node.rules, node.genesis.hash, node.db.bodies, b)
    ensures node.Welcome(b) && node.OnTip(b) && node.rules.gateOk(b, node.store.contents)
  {
    hide Blockchain.Valid, Sincere, Mirrors, AllSincere, StateOf, TargetOk, CommitmentOk, WindowOf, Holds, CacheOk;
    hide Sound;
    hide Lineage, Closed;
    node.Known();
    node.WorkIsChainWork();
    node.KnownOnDisk(b.prev);
    TipParent(node, b);
    SincereNow(node.rules, node.chain, b, node.utxos);
    MirrorContents(node.Seen());
  }

  /** A valid block off the tip is welcome. */
  lemma OffTipWelcome(node: Blockchain, b: Block)
    requires Sane(node) && Connectable(node.db.bodies, b) && b.prev != node.tip.hash
    requires Closed(node.db.bodies, node.genesis.hash) && Fair(node.rules, node.genesis.hash, node.db.bodies, b)
    ensures node.Welcome(b) && !node.OnTip(b)
  {
    hide Blockchain.Valid, Mirrors, AllSincere, StateOf, TargetOk, CommitmentOk, WindowOf, Holds, CacheOk, Extends;
    hide Lineage;
    node.Known();
    node.KnownOnDisk(b.prev);
  }

  /** And the verdict on it is never a reorg that failed. */
  lemma OffTipDecided(node: Blockchain, b: Block, at: nat, status: Status)
    requires Sane(node) && Connectable(node.db.bodies, b) && b.prev != node.tip.hash
    requires Closed(node.db.bodies, node.genesis.hash) && Fair(node.rules, node.genesis.hash, node.db.bodies, b)
    requires Canonical(node.db.bodies, node.genesis.hash, node.chain)
    requires WithinFullReach(|node.chain| - 1, node.highest)
    requires node.Judged(b, at, status)
    ensures status != RolledBack
    ensures Unhindered(node.rules, node.genesis.hash, node.AsNode(), node.highest, b) ==> status != TooDeep
  {
    hide Blockchain.Valid, Mirrors, AllSincere, Lineage, Closed, Canonical, Sincere, AllJoin, ChainWork;
    hide WithinFullReach;
    hide Better, Branches, CacheOk, Acceptable, Holds, StateOf, Sound, Parented;
    node.Known();
    node.WorkIsChainWork();
    var g := node.genesis.hash;
    if FinalityFloor(node.tip.height) <= at && status == RolledBack {
      FullReachIsReach(node.tip.height, node.highest);
      node.ReachCovers(at);
      ForkAllJoins(node.rules, g, node.db.bodies, node.blocks, node.heightToHash, node.Seen(), b, at);
    }
  }

  /** Nothing but a connectable block is welcome. */
  lemma WelcomeConnects(node: Blockchain, b: Block)
    requires node.Valid() && node.Welcome(b) && b.hash !in node.db.bodies
    ensures Connectable(node.db.bodies, b)
  {
    hide Blockchain.Valid, Blockchain.ArrivalOk;
    node.HeaderNotGenesis(b);
    node.KnownOnDisk(b.prev);
  }

  /** A permitted move within reach that is no rollback and no failed reorg keeps the mirror. */
  lemma MirrorKept(r: Rules, v: View, m: Move)
    requires Mirrors(v) && Permitted(r, v, m) && WithinReach(TipHeight(v), v.highest)
    requires !m.Revert? && !m.Rollback?
    ensures Mirrors(Apply(v, m))
  {
    hide Mirrors, Apply, ChainOk, Extends, WithinReach;
    if m.Switch? { ReachIsShallow(r, v, m); }
    MirrorStep(r, v, m);
  }

  /** How a sane node answers a valid block. */
  lemma Answered(node: Blockchain, b: Block)
    requires Sane(node) && InReach(node.AsNode(), node.highest)
    requires Closed(node.db.bodies, node.genesis.hash) && Fair(node.rules, node.genesis.hash, node.db.bodies, b)
    requires Canonical(node.db.bodies, node.genesis.hash, node.chain)
    ensures Connectable(node.db.bodies, b) ==> node.Welcome(b)
    ensures node.Welcome(b) && b.hash !in node.db.bodies ==> Connectable(node.db.bodies, b)
    ensures Connectable(node.db.bodies, b) && node.OnTip(b) ==> node.rules.gateOk(b, node.store.contents)
    ensures Connectable(node.db.bodies, b) && !node.OnTip(b) ==>
      forall at: nat, status | node.Judged(b, at, status) ::
        && status != RolledBack && status != Invalid
        && (Unhindered(node.rules, node.genesis.hash, node.AsNode(), node.highest, b) ==> status != TooDeep)
  {
    hide Blockchain.Valid, Blockchain.Welcome, Mirrors, AllSincere, Sincere, WithinFullReach, Unhindered, Lineage;
    hide Closed, Canonical;
    node.WorkIsChainWork();
    if node.Welcome(b) && b.hash !in node.db.bodies { WelcomeConnects(node, b); }
    if Connectable(node.db.bodies, b) {
      if b.prev == node.tip.hash {
        TipTaken(node, b);
      } else {
        OffTipWelcome(node, b);
        forall at: nat, status | node.Judged(b, at, status)
          ensures status != RolledBack && status != Invalid
          ensures Unhindered(node.rules, node.genesis.hash, node.AsNode(), node.highest, b) ==> status != TooDeep
        {
          OffTipDecided(node, b, at, status);
        }
      }
    }
  }

  /** A sane node takes a valid block: it is delivered, unless the policy refuses its reorg. */
  method Take(node: Blockchain, b: Block) returns (status: Status, ghost move: Move)
    requires Sane(node) && InReach(node.AsNode(), node.highest)
    requires Closed(node.db.bodies, node.genesis.hash) && Fair(node.rules, node.genesis.hash, node.db.bodies, b)
    requires Canonical(node.db.bodies, node.genesis.hash, node.chain)
    modifies node
    ensures Sane(node) && Moved(node.rules, old(node.Seen()), move, node.Seen())
    ensures status != RolledBack && (Connectable(old(node.db.bodies), b) ==> status != Invalid)
    ensures old(Unhindered(node.rules, node.genesis.hash, node.AsNode(), node.highest, b)) ==> status != TooDeep
    ensures status != TooDeep ==> node.AsNode() == Deliver(old(node.AsNode()), node.genesis.hash, b)
  {
    hide Blockchain.Valid, Blockchain.CrashSafe, Blockchain.Judged, Blockchain.Welcome, Blockchain.Cached;
    hide Blockchain.Committed;
    hide Mirrors, AllSincere, Sincere, Permitted, Apply, Fits, WithinReach, WithinFullReach, Deliver, Unhindered;
    hide Lineage, Closed, Canonical;
    ghost var v, n := node.Seen(), node.AsNode();
    node.WorkIsChainWork();
    Answered(node, b);
    NotDelivered(n, node.genesis.hash, b);
    FullReachIsReach(node.tip.height, node.highest);
    ghost var at;
    status, move, at := node.AddBlock(b);
    MirrorKept(node.rules, v, move);
    node.CanonicalNow();
    StoreKept(node.rules, node.genesis.hash, n.bodies, node.db.bodies, b);
  }

  lemma StoreKept(r: Rules, genesis: Hash, bodies: Store, more: Store, b: Block)
    requires AllSincere(r, genesis, bodies) && Closed(bodies, genesis) && Fair(r, genesis, bodies, b)
    requires more == bodies || (Connectable(bodies, b) && more == bodies[b.hash := b] && Closed(more, genesis))
    ensures AllSincere(r, genesis, more)
  {
    if more != bodies { StoredSincere(r, genesis, bodies, b); }
  }

  // ---- a list of blocks ----

  /** The highest tip once the blocks are delivered. */
  ghost function HighestOf(n: Node, genesis: Hash, highest: nat, bs: seq<Block>): nat
    requires Canonical(n.bodies, genesis, n.chain)
  {
    if bs == [] then highest
    else Max(HighestOf(n, genesis, highest, bs[..|bs| - 1]), |DeliverAll(n, genesis, bs).chain| - 1)
  }

  /** Each block is valid on its lineage when it is delivered. */
  ghost predicate AllFair(r: Rules, genesis: Hash, n: Node, bs: seq<Block>)
    requires Canonical(n.bodies, genesis, n.chain)
  {
    forall k | 0 <= k < |bs| :: Fair(r, genesis, DeliverAll(n, genesis, bs[..k]).bodies, bs[k])
  }

  /** At no delivery does the policy stand in the way. */
  ghost predicate Open(r: Rules, genesis: Hash, n: Node, highest: nat, bs: seq<Block>)
    requires Canonical(n.bodies, genesis, n.chain)
  {
    forall k | 0 <= k < |bs| ::
      Unhindered(r, genesis, DeliverAll(n, genesis, bs[..k]), HighestOf(n, genesis, highest, bs[..k]), bs[k])
  }

  lemma DeliverNext(n: Node, genesis: Hash, highest: nat, bs: seq<Block>, k: nat)
    requires Canonical(n.bodies, genesis, n.chain) && k < |bs|
    ensures
      var m := DeliverAll(n, genesis, bs[..k]);
      && Deliver(m, genesis, bs[k]) == DeliverAll(n, genesis, bs[..k + 1])
      && HighestOf(n, genesis, highest, bs[..k + 1])
         == Max(HighestOf(n, genesis, highest, bs[..k]), |DeliverAll(n, genesis, bs[..k + 1]).chain| - 1)
  {
    hide Canonical, Deliver;
    assert bs[..k + 1][..k] == bs[..k];
  }

  lemma HighestNext(r: Rules, v: View, m: Move, w: View, n: Node, genesis: Hash, top: nat, bs: seq<Block>, k: nat)
    requires Canonical(n.bodies, genesis, n.chain) && k < |bs|
    requires Moved(r, v, m, w) && w.chain != [] && |w.chain| - 1 <= w.highest
    requires v.highest == HighestOf(n, genesis, top, bs[..k]) && w.chain == DeliverAll(n, genesis, bs[..k + 1]).chain
    ensures w.highest == HighestOf(n, genesis, top, bs[..k + 1])
  {
    hide Canonical, Deliver, DeliverAll, HighestOf, Moved;
    DeliverNext(n, genesis, top, bs, k);
    Runs.TopStep(r, v, m, w);
  }

  /** The node is what the first `k` blocks make of `n`. */
  ghost predicate Fed(node: Blockchain, n: Node, top: nat, bs: seq<Block>, k: nat)
    reads node
    requires Canonical(n.bodies, node.genesis.hash, n.chain) && k <= |bs|
  {
    && Sane(node) && node.AsNode() == DeliverAll(n, node.genesis.hash, bs[..k])
    && node.highest == HighestOf(n, node.genesis.hash, top, bs[..k])
  }

  method FeedOne(node: Blockchain, ghost n: Node, ghost top: nat, bs: seq<Block>, k: nat)
    requires Canonical(n.bodies, node.genesis.hash, n.chain) && k < |bs| && Fed(node, n, top, bs, k)
    requires AllFair(node.rules, node.genesis.hash, n, bs) && Open(node.rules, node.genesis.hash, n, top, bs)
    modifies node
    ensures Fed(node, n, top, bs, k + 1)
  {
    hide Sane, Unhindered, Fair, Canonical, DeliverAll, Deliver, HighestOf, Moved, Closed, InReach, TipHeight;
    hide Open, AllFair;
    DeliverNext(n, node.genesis.hash, top, bs, k);
    SaneShape(node);
    AtDelivery(node.rules, node.genesis.hash, n, top, bs, k);
    ghost var v := node.Seen();
    var status; ghost var move;
    status, move := Take(node, bs[k]);
    SaneShape(node);
    HighestNext(node.rules, v, move, node.Seen(), n, node.genesis.hash, top, bs, k);
  }

  /** A sane node fed valid blocks the policy lets through is the specification's node. */
  method Feed(node: Blockchain, bs: seq<Block>)
    requires Sane(node) && Canonical(node.db.bodies, node.genesis.hash, node.chain)
    requires AllFair(node.rules, node.genesis.hash, node.AsNode(), bs)
    requires Open(node.rules, node.genesis.hash, node.AsNode(), node.highest, bs)
    modifies node
    ensures Sane(node) && node.AsNode() == DeliverAll(old(node.AsNode()), node.genesis.hash, bs)
    ensures node.highest == HighestOf(old(node.AsNode()), node.genesis.hash, old(node.highest), bs)
  {
    hide Sane, Canonical, DeliverAll, HighestOf, Open, AllFair;
    ghost var n, top := node.AsNode(), node.highest;
    NothingFed(n, node.genesis.hash, top);
    assert bs[..0] == [];
    var k := 0;
    while k < |bs|
      invariant k <= |bs| && Fed(node, n, top, bs, k)
    {
      FeedOne(node, n, top, bs, k);
      k := k + 1;
    }
    assert bs[..k] == bs;
  }

  lemma NothingFed(n: Node, genesis: Hash, highest: nat)
    requires Canonical(n.bodies, genesis, n.chain)
    ensures DeliverAll(n, genesis, []) == n && HighestOf(n, genesis, highest, []) == highest
  {
  }

  lemma SaneShape(node: Blockchain)
    requires Sane(node)
    ensures node.Valid() && Canonical(node.db.bodies, node.genesis.hash, node.chain)
    ensures Closed(node.db.bodies, node.genesis.hash)
    ensures node.chain != [] && node.tip.height == |node.chain| - 1 <= node.highest
  {
    node.CanonicalNow();
    node.WorkIsChainWork();
  }

  lemma AtDelivery(r: Rules, genesis: Hash, n: Node, highest: nat, bs: seq<Block>, k: nat)
    requires Canonical(n.bodies, genesis, n.chain) && k < |bs|
    requires AllFair(r, genesis, n, bs) && Open(r, genesis, n, highest, bs)
    ensures
      var m, top := DeliverAll(n, genesis, bs[..k]), HighestOf(n, genesis, highest, bs[..k]);
      && Closed(m.bodies, genesis) && Fair(r, genesis, m.bodies, bs[k]) && Unhindered(r, genesis, m, top, bs[k])
      && InReach(m, top)
  {
    hide Fair, DeliverAll, HighestOf, InReach;
  }

  // ---- two nodes ----

  /** The specification's node once `bs` are delivered to one that knows genesis only. */
  ghost function Delivered(g: Block, bs: seq<Block>): (n: Node)
    requires g.height == 0
    ensures Canonical(n.bodies, g.hash, n.chain)
  {
    NewbornBest(g);
    DeliverAll(Newborn(g), g.hash, bs)
  }

  /** From genesis on, at no delivery does the policy stand in the way. */
  ghost predicate Clear(r: Rules, g: Block, bs: seq<Block>)
    requires g.height == 0
  {
    NewbornBest(g);
    Open(r, g.hash, Newborn(g), 0, bs)
  }

  /** Deliveries only add blocks. */
  lemma {:induction false} StoreGrows(n: Node, genesis: Hash, bs: seq<Block>, k: nat)
    requires Canonical(n.bodies, genesis, n.chain) && k <= |bs|
    ensures
      var m, w := DeliverAll(n, genesis, bs[..k]), DeliverAll(n, genesis, bs);
      forall h | h in m.bodies :: h in w.bodies && w.bodies[h] == m.bodies[h]
    decreases |bs| - k
  {
    hide Canonical, DeliverAll;
    if k == |bs| {
      assert bs[..k] == bs;
    } else {
      StoreGrows(n, genesis, bs, k + 1);
      DeliverNext(n, genesis, 0, bs, k);
    }
  }

  /** Blocks that are valid on their lineage in the end are valid on it when they are delivered. */
  lemma FairFromStore(r: Rules, g: Block, bs: seq<Block>, k: nat)
    requires g.height == 0 && k < |bs| && AllSincere(r, g.hash, Delivered(g, bs).bodies)
    ensures Fair(r, g.hash, Delivered(g, bs[..k]).bodies, bs[k])
  {
    hide Sincere, DeliverAll;
    NewbornBest(g);
    var n, b := Newborn(g), bs[k];
    var bodies, all := DeliverAll(n, g.hash, bs[..k]).bodies, DeliverAll(n, g.hash, bs).bodies;
    if Connectable(bodies, b) {
      DeliverNext(n, g.hash, 0, bs, k);
      StoreGrows(n, g.hash, bs, k);
      StoreGrows(n, g.hash, bs, k + 1);
      assert b.hash in all && all[b.hash] == b;
      LineageStable(bodies, all, g.hash, bodies[b.prev]);
    }
  }

  /** A height up to which no policy can refuse a better lineage: forks of any depth are within the cap and
      above the finality floor, and the chain is in its bootstrap phase. */
  function LowTop(r: Rules): nat {
    if r.maxReorgDepth < CHECKPOINT_INTERVAL then r.maxReorgDepth else CHECKPOINT_INTERVAL
  }

  /** All stored blocks, and so the tip, are at most `top` high. */
  ghost predicate Low(n: Node, top: nat) {
    (forall h | h in n.bodies :: n.bodies[h].height <= top) && |n.chain| - 1 <= top
  }

  lemma LowStep(n: Node, genesis: Hash, b: Block, top: nat)
    requires Canonical(n.bodies, genesis, n.chain) && Low(n, top) && b.height <= top
    ensures Low(Deliver(n, genesis, b), top)
  {
    hide Canonical, Better;
  }

  lemma {:induction false} LowStays(n: Node, genesis: Hash, highest: nat, bs: seq<Block>, top: nat)
    requires Canonical(n.bodies, genesis, n.chain) && highest <= top && Low(n, top)
    requires forall b | b in bs :: b.height <= top
    ensures Low(DeliverAll(n, genesis, bs), top) && HighestOf(n, genesis, highest, bs) <= top
  {
    hide Canonical, Deliver, DeliverAll, HighestOf;
    if bs == [] {
      NothingFed(n, genesis, highest);
    } else {
      var k := |bs| - 1;
      assert forall b | b in bs[..k] :: b in bs;
      LowStays(n, genesis, highest, bs[..k], top);
      DeliverNext(n, genesis, highest, bs, k);
      assert bs[..k + 1] == bs && bs[k] in bs;
      LowStep(DeliverAll(n, genesis, bs[..k]), genesis, bs[k], top);
    }
  }

  lemma LowUnhindered(r: Rules, genesis: Hash, n: Node, highest: nat, b: Block)
    requires Canonical(n.bodies, genesis, n.chain)
    requires |n.chain| - 1 <= LowTop(r) && highest <= LowTop(r) && b.height <= LowTop(r)
    ensures Unhindered(r, genesis, n, highest, b)
  {
    hide Lineage, ChainWork;
  }

  /** The policy never stands in the way of blocks up to that height. */
  lemma {:induction false} LowIsOpen(r: Rules, g: Block, bs: seq<Block>)
    requires g.height == 0 && forall b | b in bs :: b.height <= LowTop(r)
    ensures Clear(r, g, bs)
  {
    hide DeliverAll, HighestOf, Unhindered, LowTop, Best, Canonical;
    NewbornBest(g);
    BestCanonical(Newborn(g), g.hash);
    forall k | 0 <= k < |bs|
      ensures Unhindered(r, g.hash, DeliverAll(Newborn(g), g.hash, bs[..k]),
        HighestOf(Newborn(g), g.hash, 0, bs[..k]), bs[k])
    {
      assert forall b | b in bs[..k] :: b in bs;
      LowStays(Newborn(g), g.hash, 0, bs[..k], LowTop(r));
      LowUnhindered(r, g.hash, DeliverAll(Newborn(g), g.hash, bs[..k]), HighestOf(Newborn(g), g.hash, 0, bs[..k]),
        bs[k]);
    }
  }

  lemma BestCanonical(n: Node, genesis: Hash)
    requires Best(n, genesis)
    ensures Canonical(n.bodies, genesis, n.chain)
  {
  }

  /** A node that has been fed `bs` from genesis. */
  method Grow(r: Rules, g: Block, bs: seq<Block>, strict: bool) returns (node: Blockchain)
    requires Sound(r) && g.height == 0 && WellFormed(g)
    requires AllSincere(r, g.hash, Delivered(g, bs).bodies)
    requires Clear(r, g, bs)
    ensures fresh(node) && Sane(node) && node.rules == r && node.genesis == g
    ensures node.AsNode() == Delivered(g, bs)
  {
    hide Open, AllFair, DeliverAll, Sound, WellFormed;
    NewbornBest(g);
    node := new Blockchain(r, g, strict);
    StartSane(node);
    AllFairFromStore(r, g, bs);
    Feed(node, bs);
  }

  lemma StartSane(node: Blockchain)
    requires node.Valid() && node.AsNode() == Newborn(node.genesis)
      && node.Seen() == View([node.genesis], Phase2.Empty(node.store.strict), 0)
    requires node.genesis.height == 0
    ensures Sane(node)
  {
    hide Blockchain.Valid, Mirrors, Sincere;
    node.CanonicalNow();
    GenesisMirrors(node.genesis);
  }

  lemma AllFairFromStore(r: Rules, g: Block, bs: seq<Block>)
    requires g.height == 0 && AllSincere(r, g.hash, Delivered(g, bs).bodies)
    requires Canonical(Newborn(g).bodies, g.hash, Newborn(g).chain)
    ensures AllFair(r, g.hash, Newborn(g), bs)
  {
    hide AllSincere, Fair, DeliverAll;
    forall k | 0 <= k < |bs| ensures Fair(r, g.hash, DeliverAll(Newborn(g), g.hash, bs[..k]).bodies, bs[k]) {
      FairFromStore(r, g, bs, k);
    }
  }

  /** Two nodes that receive the same valid blocks, each in its own parent-first order and with repetitions, end on the
      same chain: the one of most work, the smaller tip hash deciding between equals. */
  method Converge(r: Rules, g: Block, xs: seq<Block>, ys: seq<Block>, strict: bool)
    returns (a: Blockchain, b: Blockchain)
    requires Sound(r) && g.height == 0 && WellFormed(g) && SameBlocks(xs, ys)
    requires ParentFirst(g, xs) && ParentFirst(g, ys) && Collisionless(g, xs) && Collisionless(g, ys)
    requires AllSincere(r, g.hash, Delivered(g, xs).bodies)
    requires Clear(r, g, xs) && Clear(r, g, ys)
    ensures Sane(a) && Sane(b) && a.chain == b.chain && a.db.bodies == b.db.bodies
    ensures Best(a.AsNode(), g.hash) && Keeps(a.db.bodies, g, xs)
  {
    hide Clear, AllSincere, Best, Keeps, Sane, DeliverAll, ParentFirst, Collisionless, SameBlocks, Sound, WellFormed;
    hide Canonical;
    ArrivalOrder(g, xs, ys);
    a := Grow(r, g, xs, strict);
    b := Grow(r, g, ys, strict);
  }

  /** Below height 144, or the reorg cap if that is less, no policy needs to be mentioned. */
  method ConvergeLow(r: Rules, g: Block, xs: seq<Block>, ys: seq<Block>, strict: bool)
    returns (a: Blockchain, b: Blockchain)
    requires Sound(r) && g.height == 0 && WellFormed(g) && SameBlocks(xs, ys)
    requires ParentFirst(g, xs) && ParentFirst(g, ys) && Collisionless(g, xs) && Collisionless(g, ys)
    requires AllSincere(r, g.hash, Delivered(g, xs).bodies)
    requires forall x | x in xs :: x.height <= LowTop(r)
    ensures Sane(a) && Sane(b) && a.chain == b.chain && a.db.bodies == b.db.bodies
    ensures Best(a.AsNode(), g.hash) && Keeps(a.db.bodies, g, xs)
  {
    hide Clear, AllSincere, Best, Keeps, Sane, Delivered, ParentFirst, Collisionless, Sound, WellFormed, Canonical;
    hide LowTop;
    LowIsOpen(r, g, xs);
    LowIsOpen(r, g, ys);
    a, b := Converge(r, g, xs, ys, strict);
  }
}
