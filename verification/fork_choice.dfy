/** Fork choice as the specification sees it: blocks arrive, and the best lineage is the chain. */
module ForkChoice {
  import opened Types
  import opened Ledger
  import opened ForkWalk
  import opened Policy

  /** A node's stored blocks and its canonical chain. */
  datatype Node = Node(bodies: Store, chain: seq<Block>)

  /** More work, or the same work and a smaller tip hash. */
  predicate Better(c: seq<Block>, d: seq<Block>)
    requires |c| >= 1 && |d| >= 1
  {
    TakeFork(ChainWork(c), c[|c| - 1].hash, ChainWork(d), d[|d| - 1].hash)
  }

  /** The block is unknown and its parent is known, one height below. */
  predicate Connectable(bodies: Store, b: Block) {
    b.hash !in bodies && b.height > 0 && b.prev in bodies && bodies[b.prev].height + 1 == b.height
  }

  /** A delivered block is stored when it can be, and becomes the tip when its lineage is better. */
  ghost function Deliver(n: Node, genesis: Hash, b: Block): Node
    requires Canonical(n.bodies, genesis, n.chain)
  {
    if !Connectable(n.bodies, b) then n
    else
      var c := Lineage(n.bodies, genesis, b);
      Node(n.bodies[b.hash := b], if Better(c, n.chain) then c else n.chain)
  }

  lemma NotDelivered(n: Node, genesis: Hash, b: Block)
    requires Canonical(n.bodies, genesis, n.chain)
    ensures !Connectable(n.bodies, b) ==> Deliver(n, genesis, b) == n
  {
  }

  /** A block on the tip always wins. */
  lemma ChildIsBetter(c: seq<Block>, b: Block)
    requires |c| >= 1
    ensures Better(c + [b], c)
  {
    assert (c + [b])[..|c|] == c;
  }

  // ---- convergence ----

  lemma DeliverCanonical(n: Node, genesis: Hash, b: Block)
    requires Canonical(n.bodies, genesis, n.chain)
    ensures Canonical(Deliver(n, genesis, b).bodies, genesis, Deliver(n, genesis, b).chain)
  {
    if Connectable(n.bodies, b) {
      StoredCanonical(n.bodies, genesis, n.chain, b);
      CanonicalLineage(n.bodies[b.hash := b], genesis, b);
    }
  }

  ghost function DeliverAll(n: Node, genesis: Hash, bs: seq<Block>): (m: Node)
    requires Canonical(n.bodies, genesis, n.chain)
    ensures Canonical(m.bodies, genesis, m.chain)
  {
    if bs == [] then n
    else
      var before := DeliverAll(n, genesis, bs[..|bs| - 1]);
      DeliverCanonical(before, genesis, bs[|bs| - 1]);
      Deliver(before, genesis, bs[|bs| - 1])
  }

  /** No stored block has a better lineage than the chain. */
  ghost predicate Best(n: Node, genesis: Hash) {
    && Canonical(n.bodies, genesis, n.chain)
    && forall h | h in n.bodies :: !Better(Lineage(n.bodies, genesis, n.bodies[h]), n.chain)
  }

  lemma BetterTransitive(a: seq<Block>, b: seq<Block>, c: seq<Block>)
    requires |a| >= 1 && |b| >= 1 && |c| >= 1
    ensures Better(a, b) && Better(b, c) ==> Better(a, c)
    ensures !Better(a, a)
  {
    hide ChainWork;
  }

  /** The chain stays the best of all stored lineages. */
  lemma DeliverBest(n: Node, genesis: Hash, b: Block)
    requires Best(n, genesis)
    ensures Best(Deliver(n, genesis, b), genesis)
  {
    if Connectable(n.bodies, b) {
      var m := Deliver(n, genesis, b);
      DeliverCanonical(n, genesis, b);
      forall h | h in m.bodies ensures !Better(Lineage(m.bodies, genesis, m.bodies[h]), m.chain) {
        StoredLineage(n, genesis, b, h);
      }
    }
  }

  /** The lineage of every block stored after a delivery is not better than the chain. */
  lemma StoredLineage(n: Node, genesis: Hash, b: Block, h: Hash)
    requires Best(n, genesis) && Connectable(n.bodies, b) && h in n.bodies[b.hash := b]
    ensures Canonical(n.bodies[b.hash := b], genesis, n.chain)
    ensures
      var m := Deliver(n, genesis, b);
      !Better(Lineage(m.bodies, genesis, m.bodies[h]), m.chain)
  {
    StoredCanonical(n.bodies, genesis, n.chain, b);
    if h == b.hash {
      var c := Lineage(n.bodies, genesis, b);
      hide Lineage, Better;
      BetterTransitive(c, c, c);
    } else {
      OldLineage(n, genesis, b, h);
    }
  }

  lemma OldLineage(n: Node, genesis: Hash, b: Block, h: Hash)
    requires Best(n, genesis) && Connectable(n.bodies, b) && h in n.bodies
    requires Closed(n.bodies[b.hash := b], genesis)
    ensures
      var m := Deliver(n, genesis, b);
      !Better(Lineage(m.bodies, genesis, n.bodies[h]), m.chain)
  {
    hide Lineage, Better;
    LineageStable(n.bodies, n.bodies[b.hash := b], genesis, n.bodies[h]);
    NotBetter(Lineage(n.bodies, genesis, n.bodies[h]), Lineage(n.bodies, genesis, b), n.chain);
  }

  /** A lineage that does not beat the chain does not beat the winner of chain and newcomer. */
  lemma NotBetter(l: seq<Block>, c: seq<Block>, chain: seq<Block>)
    requires |l| >= 1 && |c| >= 1 && |chain| >= 1 && !Better(l, chain)
    ensures !Better(l, if Better(c, chain) then c else chain)
  {
    BetterTransitive(l, c, chain);
  }

  /** The canonical chain is the lineage of a stored block. */
  lemma ChainIsLineage(n: Node, genesis: Hash)
    requires Best(n, genesis)
    ensures n.chain != [] && Closed(n.bodies, genesis)
    ensures exists h :: h in n.bodies && n.bodies[h] == n.chain[|n.chain| - 1] && h == n.bodies[h].hash
                        && Parented(n.bodies, n.bodies[h]) && n.chain == Lineage(n.bodies, genesis, n.bodies[h])
  {
    hide Better;
    var t := n.chain[|n.chain| - 1];
    assert t.hash in n.bodies && n.bodies[t.hash] == t;
  }

  /** No stored lineage beats the chain. */
  lemma NoneBetter(n: Node, genesis: Hash, h: Hash)
    requires Best(n, genesis) && h in n.bodies
    ensures n.chain != [] && Closed(n.bodies, genesis) && Parented(n.bodies, n.bodies[h])
    ensures !Better(Lineage(n.bodies, genesis, n.bodies[h]), n.chain)
  {
    hide Better, Lineage;
  }

  /** Two chains neither of which is better end in the same hash. */
  lemma TieIsSameTip(c: seq<Block>, d: seq<Block>)
    requires c != [] && d != [] && !Better(c, d) && !Better(d, c)
    ensures c[|c| - 1].hash == d[|d| - 1].hash
  {
    hide ChainWork;
  }

  /** The stored blocks determine the best chain. */
  lemma BestUnique(n: Node, m: Node, genesis: Hash)
    requires Best(n, genesis) && Best(m, genesis) && n.bodies == m.bodies
    ensures n.chain == m.chain
  {
    hide Best, Better, Lineage, Closed, Parented;
    ChainIsLineage(n, genesis);
    ChainIsLineage(m, genesis);
    var s, t := n.chain[|n.chain| - 1].hash, m.chain[|m.chain| - 1].hash;
    NoneBetter(n, genesis, t);
    NoneBetter(m, genesis, s);
    TieIsSameTip(n.chain, m.chain);
  }

  lemma {:induction false} DeliverAllBest(n: Node, genesis: Hash, bs: seq<Block>)
    requires Best(n, genesis)
    ensures Best(DeliverAll(n, genesis, bs), genesis)
  {
    if bs != [] {
      DeliverAllBest(n, genesis, bs[..|bs| - 1]);
      DeliverBest(DeliverAll(n, genesis, bs[..|bs| - 1]), genesis, bs[|bs| - 1]);
    }
  }

  // ---- arrival orders ----

  /** A node that has seen genesis only. */
  function Newborn(g: Block): Node {
    Node(map[g.hash := g], [g])
  }

  /** Parent `q` of `b`: named by it and one height below. */
  predicate ParentOf(q: Block, b: Block) {
    b.height > 0 && b.prev == q.hash && q.height + 1 == b.height
  }

  /** Every block comes after its parent; the same block may come again. */
  ghost predicate ParentFirst(g: Block, bs: seq<Block>) {
    forall i | 0 <= i < |bs| :: ParentOf(g, bs[i]) || exists q | q in bs[..i] :: ParentOf(q, bs[i])
  }

  /** Blocks with the same hash are the same block, and none has the hash of genesis. */
  ghost predicate Collisionless(g: Block, bs: seq<Block>) {
    && (forall b | b in bs :: b.hash != g.hash)
    && (forall a, b | a in bs && b in bs && a.hash == b.hash :: a == b)
  }

  /** The body of `b` is stored under its hash. */
  predicate Has(bodies: Store, b: Block) {
    b.hash in bodies && bodies[b.hash] == b
  }

  /** The store is genesis and the delivered blocks, each under its hash. */
  ghost predicate Keeps(bodies: Store, g: Block, bs: seq<Block>) {
    && Has(bodies, g)
    && (forall b | b in bs :: Has(bodies, b))
    && (forall h | h in bodies :: bodies[h].hash == h && (bodies[h] == g || bodies[h] in bs))
  }

  lemma NewbornBest(g: Block)
    requires g.height == 0
    ensures Best(Newborn(g), g.hash)
  {
    assert Parented(Newborn(g).bodies, g);
  }

  lemma DeliverAllSnoc(n: Node, genesis: Hash, init: seq<Block>, b: Block)
    requires Canonical(n.bodies, genesis, n.chain)
    ensures
      var m := DeliverAll(n, genesis, init);
      DeliverAll(n, genesis, init + [b]).bodies == if Connectable(m.bodies, b) then m.bodies[b.hash := b] else m.bodies
  {
    hide Canonical, Lineage, Better;
    assert (init + [b])[..|init|] == init;
  }

  lemma NothingStored(g: Block)
    requires Canonical(Newborn(g).bodies, g.hash, Newborn(g).chain)
    ensures Keeps(DeliverAll(Newborn(g), g.hash, []).bodies, g, [])
  {
    hide Canonical;
  }

  /** Delivered parent-first, every block is stored. */
  lemma {:induction false} AllStored(g: Block, bs: seq<Block>)
    requires g.height == 0 && ParentFirst(g, bs) && Collisionless(g, bs)
    requires Canonical(Newborn(g).bodies, g.hash, Newborn(g).chain)
    ensures Keeps(DeliverAll(Newborn(g), g.hash, bs).bodies, g, bs)
  {
    hide DeliverAll, Canonical, Keeps, ParentFirst, Collisionless, Connectable, Newborn;
    if bs == [] {
      NothingStored(g);
    } else {
      var init, b := bs[..|bs| - 1], bs[|bs| - 1];
      assert bs == init + [b];
      PrefixOrder(g, bs);
      AllStored(g, init);
      DeliverAllSnoc(Newborn(g), g.hash, init, b);
      LastConnectable(DeliverAll(Newborn(g), g.hash, init).bodies, g, init, b);
      LastStored(DeliverAll(Newborn(g), g.hash, init).bodies, g, init, b);
    }
  }

  lemma PrefixOrder(g: Block, bs: seq<Block>)
    requires bs != [] && ParentFirst(g, bs) && Collisionless(g, bs)
    ensures ParentFirst(g, bs[..|bs| - 1]) && Collisionless(g, bs[..|bs| - 1])
  {
    var init := bs[..|bs| - 1];
    forall i | 0 <= i < |init| ensures ParentOf(g, init[i]) || exists q | q in init[..i] :: ParentOf(q, init[i]) {
      assert init[i] == bs[i] && init[..i] == bs[..i];
    }
  }

  /** The last block of an order can be connected unless it is already stored. */
  lemma LastConnectable(bodies: Store, g: Block, init: seq<Block>, b: Block)
    requires ParentFirst(g, init + [b]) && Keeps(bodies, g, init)
    ensures Connectable(bodies, b) <==> b.hash !in bodies
  {
    var bs := init + [b];
    assert bs[..|init|] == init && bs[|init|] == b;
    assert ParentOf(g, b) || exists q | q in init :: ParentOf(q, b);
    if !ParentOf(g, b) {
      var q :| q in init && ParentOf(q, b);
      assert Has(bodies, q);
    }
  }

  lemma LastStored(bodies: Store, g: Block, init: seq<Block>, b: Block)
    requires Collisionless(g, init + [b]) && Keeps(bodies, g, init)
    ensures Keeps(if b.hash in bodies then bodies else bodies[b.hash := b], g, init + [b])
  {
    var bs := init + [b];
    assert b in bs && (forall x | x in init :: x in bs) && forall x | x in bs :: x in init || x == b;
    var more := if b.hash in bodies then bodies else bodies[b.hash := b];
    assert Has(more, b);
    forall x | x in bs ensures Has(more, x) {
      assert x in init ==> Has(bodies, x);
    }
  }

  /** The same blocks were delivered, in whatever order and however often. */
  ghost predicate SameBlocks(xs: seq<Block>, ys: seq<Block>) {
    forall b :: b in xs <==> b in ys
  }

  lemma SameStore(g: Block, xs: seq<Block>, ys: seq<Block>, a: Store, b: Store)
    requires Keeps(a, g, xs) && Keeps(b, g, ys) && SameBlocks(xs, ys)
    ensures a == b
  {
    forall h | h in a ensures h in b && a[h] == b[h] { assert Has(b, a[h]); }
    forall h | h in b ensures h in a { assert Has(a, b[h]); }
  }

  /** Fork choice does not depend on arrival order: the same blocks, parent-first, lead to the same chain,
      and no block that was delivered has a better lineage. */
  lemma {:induction false} ArrivalOrder(g: Block, xs: seq<Block>, ys: seq<Block>)
    requires g.height == 0 && SameBlocks(xs, ys)
    requires ParentFirst(g, xs) && ParentFirst(g, ys) && Collisionless(g, xs) && Collisionless(g, ys)
    ensures Best(Newborn(g), g.hash)
    ensures
      var n := DeliverAll(Newborn(g), g.hash, xs);
      n == DeliverAll(Newborn(g), g.hash, ys) && Best(n, g.hash) && Keeps(n.bodies, g, xs)
  {
    NewbornBest(g);
    DeliverAllBest(Newborn(g), g.hash, xs);
    DeliverAllBest(Newborn(g), g.hash, ys);
    AllStored(g, xs);
    AllStored(g, ys);
    var n, m := DeliverAll(Newborn(g), g.hash, xs), DeliverAll(Newborn(g), g.hash, ys);
    hide DeliverAll, Best, Canonical, Keeps;
    SameStore(g, xs, ys, n.bodies, m.bodies);
    BestUnique(n, m, g.hash);
  }
}
