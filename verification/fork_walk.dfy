/** The backward walks over stored blocks: fork point, fork chain and fork work. */
module ForkWalk {
  import opened Types
  import opened Ledger

  type Store = map<Hash, Block>

  // ---- the walks, over any store: cyclic, with missing parents, or sound ----

  /** The first ancestor on the main chain, or `None` on a cycle or a missing parent. */
  function ForkPointFrom(bodies: Store, main: map<nat, Hash>, cur: Hash, visited: set<Hash>): Option<nat>
    requires visited <= bodies.Keys
    decreases bodies.Keys - visited
  {
    if cur in visited || cur !in bodies then None
    else
      var p := bodies[cur];
      if p.height in main && main[p.height] == cur then Some(p.height)
      else if p.height == 0 then Some(0)
      else ForkPointFrom(bodies, main, p.prev, visited + {cur})
  }

  /** Ancestors above `forkPoint`, oldest first; the walk stops early on a cycle or a missing parent. */
  function ForkChainFrom(bodies: Store, cur: Hash, forkPoint: nat, visited: set<Hash>): seq<Block>
    requires visited <= bodies.Keys
    decreases bodies.Keys - visited
  {
    if cur in visited || cur !in bodies || bodies[cur].height <= forkPoint then []
    else ForkChainFrom(bodies, bodies[cur].prev, forkPoint, visited + {cur}) + [bodies[cur]]
  }

  /** Work of `cur` and its ancestors, genesis counting 1, within a budget of steps. */
  function WorkFrom(bodies: Store, cur: Hash, budget: nat): nat
    decreases budget
  {
    if budget == 0 || cur !in bodies then 0
    else if bodies[cur].height == 0 then 1
    else Work(bodies[cur].target) + WorkFrom(bodies, bodies[cur].prev, budget - 1)
  }

  function Reverse(s: seq<Block>): seq<Block> {
    if s == [] then [] else Reverse(s[1..]) + [s[0]]
  }

  lemma {:induction false} ReverseSnoc(s: seq<Block>, b: Block)
    ensures Reverse(s + [b]) == [b] + Reverse(s)
  {
    if s != [] {
      assert (s + [b])[1..] == s[1..] + [b];
      ReverseSnoc(s[1..], b);
    }
  }

  method FindForkPoint(bodies: Store, main: map<nat, Hash>, fork: Block) returns (r: Option<nat>)
    ensures r == ForkPointFrom(bodies, main, fork.prev, {})
  {
    var cur, visited := fork.prev, {};
    while true
      invariant visited <= bodies.Keys
      invariant ForkPointFrom(bodies, main, fork.prev, {}) == ForkPointFrom(bodies, main, cur, visited)
      decreases bodies.Keys - visited
    {
      if cur in visited { return None; }
      if cur !in bodies { return None; }
      var height := bodies[cur].height;
      if height in main && main[height] == cur { return Some(height); }
      if height == 0 { return Some(0); }
      visited := visited + {cur};
      cur := bodies[cur].prev;
    }
  }

  method CollectForkChain(bodies: Store, tip: Block, forkPoint: nat) returns (r: seq<Block>)
    ensures r == ForkChainFrom(bodies, tip.prev, forkPoint, {})
  {
    var cur, visited := tip.prev, {};
    var chain: seq<Block> := [];
    while cur !in visited && cur in bodies && bodies[cur].height > forkPoint
      invariant visited <= bodies.Keys
      invariant ForkChainFrom(bodies, tip.prev, forkPoint, {})
             == ForkChainFrom(bodies, cur, forkPoint, visited) + Reverse(chain)
      decreases bodies.Keys - visited
    {
      ReverseSnoc(chain, bodies[cur]);
      visited := visited + {cur};
      chain := chain + [bodies[cur]];
      cur := bodies[cur].prev;
    }
    r := Reverse(chain);
  }

  method ForkCumulativeWork(bodies: Store, fork: Block) returns (total: nat)
    ensures total == Work(fork.target) + WorkFrom(bodies, fork.prev, fork.height + 100)
  {
    total := Work(fork.target);
    var cur, steps, maxSteps := fork.prev, 0, fork.height + 100;
    while steps < maxSteps && cur in bodies
      invariant steps <= maxSteps
      invariant total + WorkFrom(bodies, cur, maxSteps - steps)
             == Work(fork.target) + WorkFrom(bodies, fork.prev, fork.height + 100)
    {
      if bodies[cur].height == 0 {
        total := total + 1;
        return;
      }
      total := total + Work(bodies[cur].target);
      cur := bodies[cur].prev;
      steps := steps + 1;
    }
  }

  // ---- sound stores: every block hangs off genesis ----

  predicate Parented(bodies: Store, b: Block) {
    b.height > 0 ==> b.prev in bodies && bodies[b.prev].height + 1 == b.height
  }

  /** Every stored block is under its own hash, has its parent one below it, and there is one genesis. */
  predicate Closed(bodies: Store, genesis: Hash) {
    forall h | h in bodies ::
      && bodies[h].hash == h
      && Parented(bodies, bodies[h])
      && (bodies[h].height == 0 ==> h == genesis)
  }

  /** The path from genesis to `b`. */
  ghost function Lineage(bodies: Store, genesis: Hash, b: Block): (c: seq<Block>)
    requires Closed(bodies, genesis) && Parented(bodies, b)
    ensures |c| == b.height + 1 && c[b.height] == b
    decreases b.height
  {
    if b.height == 0 then [b] else Lineage(bodies, genesis, bodies[b.prev]) + [b]
  }

  /** Below its end, a lineage consists of stored blocks, each at its own height. */
  lemma {:induction false} LineageStored(bodies: Store, genesis: Hash, b: Block, i: nat)
    requires Closed(bodies, genesis) && Parented(bodies, b) && i < b.height
    ensures
      var c := Lineage(bodies, genesis, b);
      c[i].hash in bodies && bodies[c[i].hash] == c[i] && c[i].height == i
    decreases b.height
  {
    var p := bodies[b.prev];
    if i < p.height {
      LineageStored(bodies, genesis, p, i);
    }
  }

  /** A prefix of a lineage is the lineage of its last block. */
  lemma {:induction false} LineagePrefix(bodies: Store, genesis: Hash, b: Block, i: nat)
    requires Closed(bodies, genesis) && Parented(bodies, b) && i <= b.height
    ensures
      var c := Lineage(bodies, genesis, b);
      Parented(bodies, c[i]) && c[i].height == i && Lineage(bodies, genesis, c[i]) == c[..i + 1]
    decreases b.height
  {
    var c := Lineage(bodies, genesis, b);
    if i == b.height {
      assert c[..i + 1] == c;
    } else {
      var p := bodies[b.prev];
      LineagePrefix(bodies, genesis, p, i);
      assert c[..i + 1] == Lineage(bodies, genesis, p)[..i + 1];
    }
  }

  /** Storing another block does not change the lineage of a block already parented. */
  lemma {:induction false} LineageStable(bodies: Store, more: Store, genesis: Hash, b: Block)
    requires Closed(bodies, genesis) && Closed(more, genesis) && Parented(bodies, b)
    requires forall h | h in bodies :: h in more && more[h] == bodies[h]
    ensures Parented(more, b) && Lineage(more, genesis, b) == Lineage(bodies, genesis, b)
    decreases b.height
  {
    if b.height > 0 {
      LineageStable(bodies, more, genesis, bodies[b.prev]);
    }
  }

  /** `main` is the height index of `chain`. */
  ghost predicate Indexes(main: map<nat, Hash>, chain: seq<Block>) {
    && (forall h | h in main :: h < |chain|)
    && (forall i | 0 <= i < |chain| :: i in main && main[i] == chain[i].hash)
  }

  /** `chain` is the stored path from genesis to its last block. */
  ghost predicate Canonical(bodies: Store, genesis: Hash, chain: seq<Block>) {
    && Closed(bodies, genesis)
    && |chain| >= 1
    && var t := chain[|chain| - 1];
       t.hash in bodies && bodies[t.hash] == t && chain == Lineage(bodies, genesis, t)
  }

  lemma CanonicalStored(bodies: Store, genesis: Hash, chain: seq<Block>, i: nat)
    requires Canonical(bodies, genesis, chain) && i < |chain|
    ensures chain[i].hash in bodies && bodies[chain[i].hash] == chain[i] && chain[i].height == i
    ensures Lineage(bodies, genesis, chain[i]) == chain[..i + 1]
  {
    var t := chain[|chain| - 1];
    LineagePrefix(bodies, genesis, t, i);
    if i < t.height { LineageStored(bodies, genesis, t, i); }
  }

  /** Where `c` leaves `chain`: they agree up to `p` and nowhere above it. */
  ghost predicate Branches(c: seq<Block>, chain: seq<Block>, p: nat) {
    && p < |c| && p < |chain|
    && c[..p + 1] == chain[..p + 1]
    && forall i | p < i < |c| && i < |chain| :: c[i] != chain[i]
  }

  lemma BranchesOnce(c: seq<Block>, chain: seq<Block>, p: nat, q: nat)
    requires Branches(c, chain, p) && Branches(c, chain, q)
    ensures p == q
  {
    assert c[p] == c[..p + 1][p] == chain[..p + 1][p] == chain[p];
    assert c[q] == c[..q + 1][q] == chain[..q + 1][q] == chain[q];
  }

  /** On a sound store the walk finds the branching point of the block's lineage. */
  lemma {:induction false} ForkPointIsBranch(
      bodies: Store, genesis: Hash, chain: seq<Block>, main: map<nat, Hash>, cur: Hash, visited: set<Hash>)
    requires Canonical(bodies, genesis, chain) && Indexes(main, chain)
    requires cur in bodies && visited <= bodies.Keys
    requires forall v | v in visited :: bodies[v].height > bodies[cur].height
    ensures
      var r := ForkPointFrom(bodies, main, cur, visited);
      r.Some? && Branches(Lineage(bodies, genesis, bodies[cur]), chain, r.value)
    decreases bodies[cur].height
  {
    hide Branches;
    var p := bodies[cur];
    if p.height == 0 {
      CanonicalStored(bodies, genesis, chain, 0);
    }
    if p.height in main && main[p.height] == cur {
      CanonicalStored(bodies, genesis, chain, p.height);
      OwnBranch(Lineage(bodies, genesis, p), chain);
    } else {
      ForkPointIsBranch(bodies, genesis, chain, main, p.prev, visited + {cur});
      var q := ForkPointFrom(bodies, main, p.prev, visited + {cur}).value;
      ExtendBranch(Lineage(bodies, genesis, bodies[p.prev]), chain, q, p);
    }
  }

  lemma OwnBranch(c: seq<Block>, chain: seq<Block>)
    requires |c| >= 1 && c <= chain
    ensures Branches(c, chain, |c| - 1)
  {
    assert c[..|c|] == c;
  }

  lemma ExtendBranch(c: seq<Block>, chain: seq<Block>, p: nat, b: Block)
    requires Branches(c, chain, p) && (|c| < |chain| ==> chain[|c|] != b)
    ensures Branches(c + [b], chain, p)
  {
    assert (c + [b])[..p + 1] == c[..p + 1];
  }

  /** On a sound store the collected blocks are the lineage between fork point and tip, both excluded. */
  lemma {:induction false} ForkChainIsLineage(
      bodies: Store, genesis: Hash, cur: Hash, forkPoint: nat, visited: set<Hash>)
    requires Closed(bodies, genesis) && cur in bodies && visited <= bodies.Keys
    requires forall v | v in visited :: bodies[v].height > bodies[cur].height
    requires forkPoint <= bodies[cur].height
    ensures ForkChainFrom(bodies, cur, forkPoint, visited)
         == Lineage(bodies, genesis, bodies[cur])[forkPoint + 1..]
    decreases bodies[cur].height
  {
    var p := bodies[cur];
    if p.height > forkPoint {
      ForkChainIsLineage(bodies, genesis, p.prev, forkPoint, visited + {cur});
    }
  }

  lemma GenesisWork(g: Block)
    ensures ChainWork([g]) == 1
  {
  }

  /** On a sound store the walk's work is the work of the lineage. */
  lemma {:induction false} WorkIsLineageWork(bodies: Store, genesis: Hash, cur: Hash, budget: nat)
    requires Closed(bodies, genesis) && cur in bodies && budget > bodies[cur].height
    ensures WorkFrom(bodies, cur, budget) == ChainWork(Lineage(bodies, genesis, bodies[cur]))
    decreases bodies[cur].height
  {
    hide Work, ChainWork;
    var p := bodies[cur];
    if p.height > 0 {
      assert Parented(bodies, p);
      WorkIsLineageWork(bodies, genesis, p.prev, budget - 1);
      ChainWorkSnoc(Lineage(bodies, genesis, bodies[p.prev]), p);
    } else {
      GenesisWork(p);
    }
  }

  /** Each block of a lineage names the one below it as its parent. */
  lemma {:induction false} LineageLinked(bodies: Store, genesis: Hash, b: Block, i: nat)
    requires Closed(bodies, genesis) && Parented(bodies, b) && 0 < i <= b.height
    ensures
      var c := Lineage(bodies, genesis, b);
      c[i].height == i && c[i].prev == c[i - 1].hash
    decreases b.height
  {
    if i < b.height {
      LineageLinked(bodies, genesis, bodies[b.prev], i);
    }
  }

  /** A fork: heights follow the fork point one by one and each block names its parent. */
  ghost predicate ForkLinked(fork: seq<Block>, p: nat, at: Hash) {
    && (forall i | 0 <= i < |fork| :: fork[i].height == p + 1 + i)
    && (fork != [] ==> fork[0].prev == at)
    && (forall i, j | 0 <= i && i + 1 == j && j < |fork| :: fork[j].prev == fork[i].hash)
  }

  lemma {:induction false} ForkShapeLinked(
      bodies: Store, genesis: Hash, chain: seq<Block>, parent: Block, p: nat, fork: seq<Block>)
    requires Closed(bodies, genesis) && Parented(bodies, parent)
    requires var c := Lineage(bodies, genesis, parent);
             p < |c| && p < |chain| && c[..p + 1] == chain[..p + 1] && fork == c[p + 1..]
    ensures ForkLinked(fork, p, chain[p].hash)
  {
    var c := Lineage(bodies, genesis, parent);
    forall i | p < i < |c| ensures c[i].height == i && c[i].prev == c[i - 1].hash {
      LineageLinked(bodies, genesis, parent, i);
    }
    SuffixLinked(c, chain, p);
  }

  lemma SuffixLinked(c: seq<Block>, chain: seq<Block>, p: nat)
    requires p < |c| && p < |chain| && c[..p + 1] == chain[..p + 1]
    requires forall i | p < i < |c| :: c[i].height == i && c[i].prev == c[i - 1].hash
    ensures ForkLinked(c[p + 1..], p, chain[p].hash)
  {
    assert chain[p] == chain[..p + 1][p] == c[p];
  }

  /** A block's lineage is the shared prefix, the collected fork blocks and the block. */
  lemma {:induction false} ForkShape(bodies: Store, genesis: Hash, chain: seq<Block>, b: Block, p: nat,
    fork: seq<Block>)
    requires Closed(bodies, genesis) && b.height > 0 && Parented(bodies, b)
    requires var c := Lineage(bodies, genesis, bodies[b.prev]);
             p < |c| && p < |chain| && c[..p + 1] == chain[..p + 1] && fork == c[p + 1..]
    ensures Lineage(bodies, genesis, b) == chain[..p + 1] + fork + [b]
    ensures b.height == p + 1 + |fork|
    ensures b.prev == (chain[..p + 1] + fork)[p + |fork|].hash
    ensures ForkLinked(fork, p, chain[p].hash)
  {
    hide ForkLinked;
    assert chain[..p + 1] + fork == Lineage(bodies, genesis, bodies[b.prev]);
    ForkShapeLinked(bodies, genesis, chain, bodies[b.prev], p, fork);
  }

  /** The walks from a stored block's parent give the work and the branching point of its lineage. */
  lemma {:induction false} ForkEvaluated(bodies: Store, genesis: Hash, chain: seq<Block>, main: map<nat, Hash>,
    b: Block)
    requires Canonical(bodies, genesis, chain) && Indexes(main, chain)
    requires b.hash in bodies && bodies[b.hash] == b && b.height > 0
    ensures Closed(bodies, genesis) && Parented(bodies, b)
    ensures Work(b.target) + WorkFrom(bodies, b.prev, b.height + 100) == ChainWork(Lineage(bodies, genesis, b))
    ensures
      var point := ForkPointFrom(bodies, main, b.prev, {});
      && point.Some? && point.value < b.height && point.value < |chain|
      && point.value < |Lineage(bodies, genesis, bodies[b.prev])|
      && Branches(Lineage(bodies, genesis, bodies[b.prev]), chain, point.value)
  {
    hide WorkFrom, ForkPointFrom;
    var c := Lineage(bodies, genesis, bodies[b.prev]);
    WorkIsLineageWork(bodies, genesis, b.prev, b.height + 100);
    ForkPointIsBranch(bodies, genesis, chain, main, b.prev, {});
    assert (c + [b])[..|c|] == c;
  }

  /** Storing a parented block keeps the store sound and every lineage as it was. */
  lemma StoredCanonical(bodies: Store, genesis: Hash, chain: seq<Block>, b: Block)
    requires Canonical(bodies, genesis, chain) && b.hash !in bodies && Parented(bodies, b) && b.height > 0
    ensures
      var more := bodies[b.hash := b];
      && Canonical(more, genesis, chain)
      && Parented(more, b)
      && Lineage(more, genesis, b) == Lineage(bodies, genesis, b)
  {
    var more, t := bodies[b.hash := b], chain[|chain| - 1];
    assert Closed(more, genesis) by {
      forall h | h in more
        ensures more[h].hash == h && Parented(more, more[h]) && (more[h].height == 0 ==> h == genesis)
      {
        if h != b.hash { assert h in bodies && Parented(bodies, bodies[h]); }
      }
    }
    LineageStable(bodies, more, genesis, t);
    LineageStable(bodies, more, genesis, b);
  }

  /** The lineage of any stored block is a canonical chain. */
  lemma CanonicalLineage(bodies: Store, genesis: Hash, b: Block)
    requires Closed(bodies, genesis) && b.hash in bodies && bodies[b.hash] == b
    ensures Canonical(bodies, genesis, Lineage(bodies, genesis, b))
    ensures forall i | 0 <= i <= b.height ::
              var c := Lineage(bodies, genesis, b); c[i].hash in bodies && bodies[c[i].hash] == c[i]
  {
    var c := Lineage(bodies, genesis, b);
    forall i | 0 <= i <= b.height ensures c[i].hash in bodies && bodies[c[i].hash] == c[i] {
      if i < b.height { LineageStored(bodies, genesis, b, i); }
    }
  }
}
