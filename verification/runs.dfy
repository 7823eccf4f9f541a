/** Whole runs of one node: what its calls add up to. */
module Runs {
  import opened Types
  import opened UtxoSet
  import opened Ledger
  import opened Policy
  import opened Disk
  import opened Moves
  import opened NodeState
  import opened Chain
  import opened Integrity
  import opened Breaker
  import Phase2

  datatype Call = Receive(b: Block) | RollBack(target: nat)

  /** The tip never falls. */
  ghost predicate NeverFalls(vs: seq<View>) {
    forall i, j | 0 <= i < |vs| && j == i + 1 < |vs| :: TipHeight(vs[i]) <= TipHeight(vs[j])
  }

  lemma HighestStep(r: Rules, v: View, m: Move)
    requires Permitted(r, v, m) && v.highest == TipHeight(v) <= TipHeight(Apply(v, m))
    ensures Apply(v, m).highest == TipHeight(Apply(v, m))
  {
    hide ChainOk, Extends, Phase2.Connect, Phase2.ConnectN, Phase2.RewindN, Phase2.FailedReorg;
  }

  /** While the tip never falls, it is the highest there was. */
  lemma {:induction false} HighestIsTip(r: Rules, vs: seq<View>, ms: seq<Move>, j: nat)
    requires Trace(r, vs, ms) && NeverFalls(vs) && j < |vs| && vs[0].highest == TipHeight(vs[0])
    ensures vs[j].highest == TipHeight(vs[j]) && WithinReach(TipHeight(vs[j]), vs[j].highest)
  {
    if j > 0 {
      HighestIsTip(r, vs, ms, j - 1);
      assert Moved(r, vs[j - 1], ms[j - 1], vs[j]);
      HighestStep(r, vs[j - 1], ms[j - 1]);
    }
  }

  lemma {:induction false} Rises(vs: seq<View>, i: nat, j: nat)
    requires NeverFalls(vs) && i <= j < |vs|
    ensures TipHeight(vs[i]) <= TipHeight(vs[j])
  {
    if i < j { Rises(vs, i, j - 1); }
  }

  /** In a run whose tip never falls every move but a failed reorg is shallow. */
  lemma RisingIsShallow(r: Rules, vs: seq<View>, ms: seq<Move>, i: nat)
    requires Trace(r, vs, ms) && NeverFalls(vs) && i < |ms| && vs[0].highest == TipHeight(vs[0]) && !ms[i].Revert?
    ensures Shallow(vs[i], ms[i])
  {
    hide ChainOk, Extends, Phase2.Connect, Phase2.ConnectN, Phase2.RewindN, Phase2.FailedReorg;
    HighestIsTip(r, vs, ms, i);
    assert Moved(r, vs[i], ms[i], vs[i + 1]);
    if ms[i].Switch? { ReachIsShallow(r, vs[i], ms[i]); }
  }

  /** Both views have the same block at height `h`. */
  ghost predicate Agree(v: View, w: View, h: nat) {
    h < |v.chain| && h < |w.chain| && v.chain[h] == w.chain[h]
  }

  lemma {:induction false} SettledAt(r: Rules, vs: seq<View>, ms: seq<Move>, i: nat, j: nat, h: nat)
    requires Trace(r, vs, ms) && NeverFalls(vs) && vs[0].chain != []
    requires i <= j < |vs| && h + CHECKPOINT_INTERVAL <= TipHeight(vs[i])
    ensures Agree(vs[i], vs[j], h)
  {
    forall k | i <= k <= j ensures vs[k].chain != [] && TipHeight(vs[k]) >= TipHeight(vs[i]) {
      Rises(vs, i, k);
    }
    FinalForever(r, vs, ms, i, j, h);
  }

  /** What a run from genesis promises as long as its tip never falls: a block 144 deep is canonical forever, and if no
      reorg failed the Phase-2 store is the replay of the chain, with the replay below each block as its checkpoints. */
  lemma {:induction false} RisingRun(r: Rules, g: Block, vs: seq<View>, ms: seq<Move>)
    requires Trace(r, vs, ms) && NeverFalls(vs) && vs[0] == View([g], Phase2.Empty(vs[0].store.strict), 0)
    ensures forall i, j, h: nat | 0 <= i <= j < |vs| && h + CHECKPOINT_INTERVAL <= TipHeight(vs[i]) ::
              Agree(vs[i], vs[j], h)
    ensures (forall m | m in ms :: !m.Revert?) ==> forall j | 0 <= j < |vs| :: Mirrors(vs[j])
  {
    hide Mirrors, Shallow, Permitted, Apply, Agree;
    forall i, j, h: nat | 0 <= i <= j < |vs| && h + CHECKPOINT_INTERVAL <= TipHeight(vs[i])
      ensures Agree(vs[i], vs[j], h)
    {
      SettledAt(r, vs, ms, i, j, h);
    }
    if forall m | m in ms :: !m.Revert? {
      forall i | 0 <= i < |ms| ensures Shallow(vs[i], ms[i]) { RisingIsShallow(r, vs, ms, i); }
      forall j | 0 <= j < |vs| ensures Mirrors(vs[j]) { MirrorsForever(r, vs, ms, j, g); }
    }
  }

  /** Receiving a block: the node makes one permitted move and stays valid, or accepts a reorg over an uncached block,
      which shows in its own count of blocks and never happens within reach. */
  method ServeBlock(node: Blockchain, b: Block) returns (valid: bool, ghost move: Move)
    requires node.Valid()
    modifies node
    ensures valid <==> node.Valid()
    ensures valid ==> Moved(node.rules, old(node.Seen()), move, node.Seen())
    ensures old(WithinReach(node.tip.height, node.highest)) ==> valid && Whole(old(node.Seen()), move)
    ensures node.utxos.ever >= old(node.utxos.ever)
    ensures valid && old(Filed(node.db, node.chain)) && Repeatless(old(node.chain)) ==> Filed(node.db, node.chain)
  {
    hide Blockchain.Valid, Blockchain.CrashSafe, Blockchain.Judged, Blockchain.Welcome, Blockchain.Cached;
    hide Permitted, Apply, Fits, WithinReach, Filed, Repeatless, Rejoined, Whole, Equivalent, Reverted;
    hide Blockchain.Committed;
    ghost var v := node.Seen();
    var status; ghost var at;
    status, move, at := node.AddBlock(b);
    valid := !(status.AcceptedReorg? && node.stats.totalBlocks != node.tip.height + 1);
    NotReverted(v, move);
    if valid && status.AcceptedReorg? && Repeatless(v.chain) { SwitchRejoins(node.rules, v, move); }
  }

  method ServeRollback(node: Blockchain, target: nat) returns (ghost move: Move)
    requires node.Valid()
    modifies node
    ensures node.Valid() && Moved(node.rules, old(node.Seen()), move, node.Seen()) && !move.Revert?
    ensures node.utxos.ever >= old(node.utxos.ever)
    ensures old(Filed(node.db, node.chain)) && Repeatless(old(node.chain)) ==> Filed(node.db, node.chain)
  {
    hide Blockchain.Valid, Permitted, Apply, Fits, Filed, Repeatless, Apart, DescribesNothing;
    ghost var was := node.chain;
    var ok, orphaned;
    node.WorkIsChainWork();
    if Repeatless(was) && target < |was| { RepeatlessApart(was, target); }
    ok, orphaned, move := node.RollbackToHeight(target);
  }

  /** One call of either kind. */
  method Serve(node: Blockchain, call: Call) returns (valid: bool, ghost move: Move)
    requires node.Valid()
    modifies node
    ensures valid <==> node.Valid()
    ensures valid ==> Moved(node.rules, old(node.Seen()), move, node.Seen())
    ensures !valid ==> call.Receive?
    ensures old(WithinReach(node.tip.height, node.highest)) ==> valid && Whole(old(node.Seen()), move)
    ensures node.utxos.ever >= old(node.utxos.ever)
    ensures valid && old(Filed(node.db, node.chain)) && Repeatless(old(node.chain)) ==> Filed(node.db, node.chain)
  {
    hide Blockchain.Valid, Moved, Filed, Repeatless, WithinReach, Whole;
    match call
    case Receive(b) => valid, move := ServeBlock(node, b);
    case RollBack(target) =>
      ghost var v := node.Seen();
      valid := true;
      move := ServeRollback(node, target);
      NotReverted(v, move);
  }

  /** Every run from genesis: the node serves its calls, and its moves add up to a trace of permitted ones, until it
      accepts a reorg over an uncached block. While the tip is within reach of its highest that does not happen, and
      every failed reorg disconnected all heights above its fork point. */
  method Run(r: Rules, g: Block, strict: bool, calls: seq<Call>)
    returns (node: Blockchain, done: nat, ghost vs: seq<View>, ghost ms: seq<Move>)
    requires Sound(r) && g.height == 0 && WellFormed(g)
    ensures fresh(node) && node.rules == r && node.genesis == g
    ensures done <= |calls| && |ms| == done && Trace(r, vs, ms) && vs[0] == View([g], Phase2.Empty(strict), 0)
    ensures done == |calls| ==> node.Valid() && vs[done] == node.Seen()
    ensures done < |calls| ==>
      !node.Valid() && calls[done].Receive? && !WithinReach(TipHeight(vs[done]), vs[done].highest)
    ensures forall i | 0 <= i < |ms| && WithinReach(TipHeight(vs[i]), vs[i].highest) :: Whole(vs[i], ms[i])
    ensures NeverFalls(vs) ==> done == |calls|
    ensures done == |calls| && (forall v | v in vs :: Repeatless(v.chain)) ==> Filed(node.db, node.chain)
  {
    hide Blockchain.Valid, Moved, Repeatless, WithinReach, Filed, WellFormed, Sound, Whole;
    node := new Blockchain(r, g, strict);
    vs, ms, done := [node.Seen()], [], 0;
    node.WorkIsChainWork();
    while done < |calls|
      invariant fresh(node) && node.Valid() && node.rules == r && node.genesis == g
      invariant done <= |calls| && |ms| == done && Trace(r, vs, ms)
      invariant vs[0] == View([g], Phase2.Empty(strict), 0) && vs[done] == node.Seen()
      invariant node.tip.height == TipHeight(node.Seen())
      invariant forall i | 0 <= i < |ms| && WithinReach(TipHeight(vs[i]), vs[i].highest) :: Whole(vs[i], ms[i])
      invariant (forall v | v in vs :: Repeatless(v.chain)) ==> Filed(node.db, node.chain)
    {
      var valid; ghost var move;
      valid, move := Serve(node, calls[done]);
      if !valid { break; }
      node.WorkIsChainWork();
      assert vs[done] in vs;
      vs, ms := vs + [node.Seen()], ms + [move];
      done := done + 1;
    }
    if NeverFalls(vs) { HighestIsTip(r, vs, ms, done); }
  }

  /** In a run within reach the node's stores, strict or not, keep the same checkpoint depth. */
  lemma StoresInStep(r: Rules, g: Block, vs: seq<View>, ms: seq<Move>, ts: seq<Phase2.Store>, j: nat)
    requires Trace(r, vs, ms) && |ts| == |vs| && j < |vs|
    requires vs[0] == View([g], Phase2.Empty(vs[0].store.strict), 0) && ts[0] == Phase2.Empty(ts[0].strict)
    requires forall i {:trigger ms[i]} | 0 <= i < |ms| ::
               Fits(vs[i], ms[i]) && ts[i + 1] == Apply(vs[i].(store := ts[i]), ms[i]).store
    requires forall i | 0 <= i < |vs| :: WithinReach(TipHeight(vs[i]), vs[i].highest)
    requires forall i | 0 <= i < |ms| && WithinReach(TipHeight(vs[i]), vs[i].highest) :: Whole(vs[i], ms[i])
    ensures |ts[j].stack| == |vs[j].store.stack|
  {
    hide Apply, Permitted, Whole, WithinReach;
    LockStep(r, vs, ms, ts, j);
  }

  lemma NotReverted(v: View, m: Move)
    ensures !m.Revert? ==> Whole(v, m)
  {
  }

  /** A switch on a chain that repeats nothing loses no identifier. */
  lemma SwitchRejoins(r: Rules, v: View, m: Move)
    requires Repeatless(v.chain) && Permitted(r, v, m) && m.Switch?
    ensures Rejoined(v.chain, Apply(v, m).chain, m.p)
  {
    hide Repeatless, ChainOk;
    RepeatlessRejoined(v.chain, Apply(v, m).chain, m.p);
  }

  /** The highest tip there was moves up with the tip only. */
  lemma TopStep(r: Rules, v: View, m: Move, w: View)
    requires Moved(r, v, m, w) && TipHeight(w) <= w.highest
    ensures w.highest == Max(v.highest, TipHeight(w))
  {
    hide ChainOk, Extends, Phase2.Connect, Phase2.ConnectN, Phase2.RewindN, Phase2.FailedReorg;
  }

  // ---- the node and its integrity feed ----

  /** The feed has seen no fault, and no more outputs than the node counts now. */
  ghost predicate Quiet(node: Blockchain, feed: LiveFeed)
    reads node, feed, feed.breaker
  {
    && node.Valid() && feed.Valid()
    && forall i | 0 <= i < |feed.readings| :: !Bad(feed.readings, i) && feed.readings[i].ever <= node.utxos.ever
  }

  /** One more reading that is consistent and does not go back. */
  lemma GoodReading(rs: seq<Reading>, r: Reading)
    requires forall i | 0 <= i < |rs| :: !Bad(rs, i) && rs[i].ever <= r.ever
    requires r.disconnects <= r.ever && r.live <= r.ever
    ensures forall i | 0 <= i < |rs + [r]| :: !Bad(rs + [r], i) && (rs + [r])[i].ever <= r.ever
  {
    hide Bad;
    BadStays(rs, r);
    LastGood(rs, r);
  }

  lemma LastGood(rs: seq<Reading>, r: Reading)
    requires forall i | 0 <= i < |rs| :: rs[i].ever <= r.ever
    requires r.disconnects <= r.ever && r.live <= r.ever
    ensures !Bad(rs + [r], |rs|)
  {
  }

  /** The node never trips its feed: after every block it serves within reach, the breaker is closed. */
  method Watch(node: Blockchain, feed: LiveFeed, b: Block) returns (s: BreakerState)
    requires Quiet(node, feed) && WithinReach(node.tip.height, node.highest)
    modifies node, feed, feed.breaker
    ensures Quiet(node, feed) && s == feed.breaker.state == Closed
  {
    hide Blockchain.Valid, Bad, WithinReach, Moved, Peak;
    var valid; ghost var move;
    valid, move := Serve(node, Receive(b));
    node.ValidPromises();
    OpenIff(feed.breaker.history, feed.readings);
    s := feed.breaker.state;
    if node.utxos.ever < U64_MAX {
      GoodReading(feed.readings, Reading(node.utxos.ever, node.utxos.disconnects, |node.utxos.outputs|));
      s := feed.OnBlockConnected(node.utxos.ever, node.utxos.disconnects, |node.utxos.outputs|);
    }
  }
}
