/** The moves a node makes, as steps of its canonical chain and Phase-2 store, and what holds over runs of them. */
module Moves {
  import opened Types
  import opened Ledger
  import opened Policy
  import Phase2

  /** The canonical chain, the Phase-2 store kept along with it, and the highest tip there was. */
  datatype View = View(chain: seq<Block>, store: Phase2.Store, highest: nat)

  datatype Move =
    | Stay
    | Extend(b: Block)
    | Switch(p: nat, fork: seq<Block>, b: Block)
    | Revert(p: nat, heights: seq<nat>, fork: seq<Block>)
    | Rollback(target: nat)

  predicate Fits(v: View, m: Move) {
    && v.chain != []
    && (m.Switch? || m.Revert? ==> m.p < |v.chain|)
    && (m.Rollback? ==> m.target < |v.chain|)
  }

  function Max(a: nat, b: nat): nat {
    if a < b then b else a
  }

  /** A reorg switches to the fork and its tip; a failed one, which disconnected the blocks at `heights` and connected
      the blocks of `fork`, only leaves its mark on the store. */
  function Apply(v: View, m: Move): View
    requires Fits(v, m)
  {
    var tip := |v.chain| - 1;
    match m
    case Stay => v
    case Extend(b) => View(v.chain + [b], Phase2.Connect(v.store, b), Max(v.highest, tip + 1))
    case Switch(p, fork, b) =>
      View(v.chain[..p + 1] + fork + [b],
           Phase2.Connect(Phase2.ConnectN(Phase2.RewindN(v.store, tip - p), fork), b),
           Max(v.highest, p + 1 + |fork|))
    case Revert(p, heights, fork) => v.(store := Phase2.FailedReorg(v.store, heights, fork))
    case Rollback(target) => View(v.chain[..target + 1], Phase2.RewindN(v.store, tip - target), v.highest)
  }

  /** What the policy lets a node do. */
  ghost predicate Permitted(r: Rules, v: View, m: Move) {
    && Fits(v, m)
    && var tip := |v.chain| - 1;
       match m
       case Stay => true
       case Extend(b) => Extends(r, v.chain, b)
       case Switch(p, fork, b) =>
         && FinalityFloor(tip) <= p
         && |fork| < r.maxReorgDepth
         && ChainOk(r, v.chain[..p + 1] + fork + [b])
       case Revert(p, heights, fork) =>
         && FinalityFloor(tip) <= p
         && |fork| < r.maxReorgDepth
         && Phase2.Ascends(heights, p, tip)
         && Phase2.Climbs(fork, p)
       case Rollback(target) => true
  }

  lemma StayPermitted(r: Rules, v: View)
    requires v.chain != []
    ensures Permitted(r, v, Stay) && Fits(v, Stay) && Apply(v, Stay) == v
    ensures forall m | Permitted(r, v, m) :: Fits(v, m)
  {
  }

  // ---- runs ----

  ghost predicate Moved(r: Rules, v: View, m: Move, w: View) {
    Permitted(r, v, m) && w == Apply(v, m)
  }

  /** `vs` are the views of a run that makes the permitted moves `ms`. */
  ghost predicate Trace(r: Rules, vs: seq<View>, ms: seq<Move>) {
    && |vs| == |ms| + 1
    && forall i {:trigger ms[i]} | 0 <= i < |ms| :: Moved(r, vs[i], ms[i], vs[i + 1])
  }

  function TipHeight(v: View): nat {
    if v.chain == [] then 0 else |v.chain| - 1
  }

  /** Every tip from moment `i` to moment `j` is at least `m`. */
  ghost predicate StaysAbove(vs: seq<View>, i: nat, j: nat, m: nat)
    requires i <= j < |vs|
  {
    forall k | i <= k <= j :: vs[k].chain != [] && TipHeight(vs[k]) >= m
  }

  /** One move keeps everything up to the floor of the lower of its two tips. */
  lemma FinalStep(r: Rules, v: View, m: Move, low: nat)
    requires Permitted(r, v, m) && TipHeight(v) >= low && TipHeight(Apply(v, m)) >= low
    ensures Apply(v, m).chain[..FinalityFloor(low) + 1] == v.chain[..FinalityFloor(low) + 1]
  {
    hide ChainOk, Extends, Phase2.Connect, Phase2.ConnectN, Phase2.RewindN, Phase2.FailedReorg;
  }

  /** Finality over runs: whatever mix of extensions, reorgs, failed reorgs and rollbacks happens, a
      block stays canonical as long as the tip stays `CHECKPOINT_INTERVAL` above it. */
  lemma {:induction false} Finality(r: Rules, vs: seq<View>, ms: seq<Move>, i: nat, j: nat, low: nat)
    requires Trace(r, vs, ms) && i <= j < |vs| && StaysAbove(vs, i, j, low)
    ensures vs[i].chain[..FinalityFloor(low) + 1] == vs[j].chain[..FinalityFloor(low) + 1]
    decreases j
  {
    if i < j {
      assert Moved(r, vs[j - 1], ms[j - 1], vs[j]);
      Finality(r, vs, ms, i, j - 1, low);
      FinalStep(r, vs[j - 1], ms[j - 1], low);
    }
  }

  /** In particular, when the tip never falls a block 144 deep is canonical forever. */
  lemma {:induction false} FinalForever(r: Rules, vs: seq<View>, ms: seq<Move>, i: nat, j: nat, h: nat)
    requires Trace(r, vs, ms) && i <= j < |vs| && StaysAbove(vs, i, j, TipHeight(vs[i]))
    requires h + CHECKPOINT_INTERVAL <= TipHeight(vs[i])
    ensures h < |vs[j].chain| && vs[j].chain[h] == vs[i].chain[h]
  {
    var low := TipHeight(vs[i]);
    Finality(r, vs, ms, i, j, low);
    assert vs[i].chain[h] == vs[i].chain[..FinalityFloor(low) + 1][h];
    assert vs[j].chain[h] == vs[j].chain[..FinalityFloor(low) + 1][h];
  }

  // ---- the Phase-2 stores ----

  /** A failed reorg disconnected every height above its fork point. */
  predicate Whole(v: View, m: Move) {
    m.Revert? ==> m.p + |m.heights| == TipHeight(v)
  }

  /** Some checkpoint of the move is declined by the store. */
  ghost predicate Refuses(v: View, m: Move)
    requires Fits(v, m)
  {
    match m
    case Stay => false
    case Extend(b) => !Phase2.Takes(v.store, b.height)
    case Switch(p, fork, b) => Phase2.ConnectDeclines(Phase2.RewindN(v.store, |v.chain| - 1 - p), fork + [b])
    case Revert(p, heights, fork) => Phase2.Declines(v.store, heights, fork)
    case Rollback(target) => false
  }

  /** The store is in order: at most the cap, with heights that increase up to the tip's. */
  ghost predicate InOrder(v: View) {
    v.chain != [] && Phase2.Rising(v.store, TipHeight(v)) && |v.store.stack| <= Phase2.MAX_CHECKPOINTS
  }

  /** The blocks a permitted switch connects stand right above its fork point. */
  lemma SwitchClimbs(r: Rules, v: View, m: Move)
    requires Permitted(r, v, m) && m.Switch?
    ensures Phase2.Climbs(m.fork + [m.b], m.p)
  {
    var c := v.chain[..m.p + 1] + m.fork + [m.b];
    forall i | 0 <= i < |m.fork + [m.b]| ensures (m.fork + [m.b])[i].height == m.p + 1 + i {
      assert c[m.p + 1 + i] == (m.fork + [m.b])[i];
      Linked(r, c, m.p + 1 + i);
    }
  }

  /** Checkpoint depth after a move in which nothing is declined: it depends on the depth before and on how many blocks
      move, and on nothing a store holds. */
  function DepthAfter(depth: nat, tip: nat, m: Move): nat {
    match m
    case Stay => depth
    case Extend(b) => Phase2.Capped(depth + 1)
    case Switch(p, fork, b) => Phase2.Capped(Phase2.Less(depth, Phase2.Less(tip, p)) + |fork| + 1)
    case Revert(p, heights, fork) => Phase2.DepthKept(depth, |heights|, |fork|)
    case Rollback(target) => Phase2.Less(depth, Phase2.Less(tip, target))
  }

  lemma SwitchInOrder(r: Rules, v: View, m: Move)
    requires Permitted(r, v, m) && InOrder(v) && m.Switch?
    ensures InOrder(Apply(v, m)) && !Refuses(v, m)
    ensures |Apply(v, m).store.stack| == DepthAfter(|v.store.stack|, TipHeight(v), m)
  {
    hide ChainOk, Phase2.Rising, Phase2.ConnectDeclines;
    var tip := |v.chain| - 1;
    var d := Phase2.RewindN(v.store, tip - m.p);
    SwitchClimbs(r, v, m);
    Phase2.RewindRises(v.store, tip, tip - m.p);
    Phase2.RewindDepth(v.store, tip - m.p);
    Phase2.ConnectRises(d, m.p, m.fork + [m.b]);
    assert (m.fork + [m.b])[..|m.fork|] == m.fork;
  }

  lemma RollbackInOrder(v: View, target: nat)
    requires InOrder(v) && target < |v.chain|
    ensures InOrder(Apply(v, Rollback(target)))
    ensures |Apply(v, Rollback(target)).store.stack| == DepthAfter(|v.store.stack|, TipHeight(v), Rollback(target))
  {
    hide Phase2.Rising;
    Phase2.RewindRises(v.store, |v.chain| - 1, |v.chain| - 1 - target);
    Phase2.RewindDepth(v.store, |v.chain| - 1 - target);
  }

  /** Along moves that disconnect every height above the fork point, held heights keep increasing up to the tip's, so
      nothing is declined, and the depth is the same for a strict store and its siblings. */
  lemma InOrderStep(r: Rules, v: View, m: Move)
    requires Permitted(r, v, m) && InOrder(v) && Whole(v, m)
    ensures InOrder(Apply(v, m)) && !Refuses(v, m)
    ensures |Apply(v, m).store.stack| == DepthAfter(|v.store.stack|, TipHeight(v), m)
  {
    hide ChainOk, Phase2.Rising, Phase2.Declines, Phase2.FailedReorg;
    match m
    case Stay =>
    case Extend(b) =>
      Phase2.CheckpointRises(v.store, |v.chain| - 1, b.height);
      Phase2.ApplyRises(Phase2.Checkpoint(v.store, b.height), b, b.height);
    case Switch(p, fork, b) => SwitchInOrder(r, v, m);
    case Revert(p, heights, fork) =>
      Phase2.FailedReorgDepth(v.store, |v.chain| - 1, p, heights, fork);
      Phase2.FailedReorgBounded(v.store, heights, fork);
    case Rollback(target) => RollbackInOrder(v, target);
  }

  /** Exactly when a permitted move is refused a checkpoint: it is a failed reorg on a strict store that, after the
      rewinds, still holds a checkpoint above the fork point, and a fork block was connected or that checkpoint is not
      below the first height put back. */
  lemma RefusesIff(r: Rules, v: View, m: Move)
    requires Permitted(r, v, m) && InOrder(v)
    ensures Refuses(v, m) <==>
      && m.Revert? && v.store.strict
      && var d := Phase2.RewindN(v.store, |m.heights|);
         && Phase2.TopReaches(d, m.p + 1)
         && (m.fork != [] || (m.heights != [] && Phase2.TopReaches(d, m.heights[0])))
  {
    hide ChainOk, Phase2.Rising, Phase2.Declines;
    if m.Revert? {
      Phase2.DeclinesIff(v.store, |v.chain| - 1, m.p, m.heights, m.fork);
    } else {
      InOrderStep(r, v, m);
    }
  }

  /** For a mirroring store the checkpoint above the fork point is that of a height that was not disconnected, because
      its body was not cached, and has not been dropped. */
  lemma MirrorRefusesIff(r: Rules, v: View, m: Move, base: nat)
    requires Permitted(r, v, m) && m.Revert? && Phase2.Exact(v.store, v.chain, base)
    ensures
      var n, tip := |m.heights|, TipHeight(v);
      && (Phase2.TopReaches(Phase2.RewindN(v.store, n), m.p + 1) <==> n < tip - m.p && n < |v.store.stack|)
      && (m.fork != [] ==> (Refuses(v, m) <==> v.store.strict && n < tip - m.p && n < |v.store.stack|))
  {
    hide ChainOk, Phase2.Declines, Phase2.Replay;
    Phase2.ExactRises(v.store, v.chain, base);
    RefusesIff(r, v, m);
    var n := |m.heights|;
    if n <= |v.store.stack| {
      Phase2.RewindNExact(v.store, v.chain, base, n);
    } else {
      Phase2.RewindNSaturates(v.store, n);
    }
  }

  /** Lock-step: two stores of one node, whatever they hold and strict or not, keep the same checkpoint depth along
      every run whose failed reorgs disconnected every height above their fork points. */
  lemma {:induction false} LockStep(r: Rules, vs: seq<View>, ms: seq<Move>, ts: seq<Phase2.Store>, j: nat)
    requires Trace(r, vs, ms) && |ts| == |vs| && j < |vs| && (forall i | 0 <= i < |ms| :: Whole(vs[i], ms[i]))
    requires forall i {:trigger ms[i]} | 0 <= i < |ms| ::
               Fits(vs[i], ms[i]) && ts[i + 1] == Apply(vs[i].(store := ts[i]), ms[i]).store
    requires InOrder(vs[0]) && InOrder(vs[0].(store := ts[0])) && |ts[0].stack| == |vs[0].store.stack|
    ensures InOrder(vs[j]) && InOrder(vs[j].(store := ts[j])) && |ts[j].stack| == |vs[j].store.stack|
  {
    hide Apply, Permitted, InOrder, Whole, DepthAfter, Fits, TipHeight;
    if j > 0 {
      LockStep(r, vs, ms, ts, j - 1);
      var v, m := vs[j - 1], ms[j - 1];
      assert Moved(r, v, m, vs[j]);
      OtherStore(r, v, m, ts[j - 1]);
      InOrderStep(r, v, m);
      InOrderStep(r, v.(store := ts[j - 1]), m);
    }
  }

  /** Another store makes the same moves, and leaves the same chain. */
  lemma OtherStore(r: Rules, v: View, m: Move, t: Phase2.Store)
    requires Permitted(r, v, m)
    ensures Fits(v, m) && Permitted(r, v.(store := t), m) && (Whole(v, m) ==> Whole(v.(store := t), m))
    ensures TipHeight(v.(store := t)) == TipHeight(v)
    ensures Apply(v.(store := t), m) == Apply(v, m).(store := Apply(v.(store := t), m).store)
  {
    hide ChainOk, Extends, Phase2.Connect, Phase2.ConnectN, Phase2.RewindN, Phase2.FailedReorg;
  }

  /** A full stack: one checkpoint before each of the blocks up to height 1000. */
  function FullStack(): seq<Phase2.Mark> {
    seq(Phase2.MAX_CHECKPOINTS, i requires 0 <= i < Phase2.MAX_CHECKPOINTS => Phase2.Mark(i + 1, []))
  }

  /** A failed reorg loses depth: a full stack, one block disconnected, two fork blocks connected and undone. */
  lemma DepthLost(e: Block, f: Block, strict: bool)
    requires e.height == 1000 && f.height == 1001
    ensures |Phase2.FailedReorg(Phase2.Store([], FullStack(), strict), [1000], [e, f]).stack| == 999
  {
    Phase2.FailedReorgDepth(Phase2.Store([], FullStack(), strict), 1000, 999, [1000], [e, f]);
  }

  /** The lowest height whose checkpoint cannot have been dropped. */
  function Horizon(highest: nat): nat {
    Phase2.Less(highest, Phase2.MAX_CHECKPOINTS)
  }

  /** The store mirrors the chain back to the horizon. */
  ghost predicate Mirrors(v: View) {
    && v.chain != [] && TipHeight(v) <= v.highest
    && exists base: nat | base <= Horizon(v.highest) :: Phase2.Exact(v.store, v.chain, base)
  }

  /** The move is no failed reorg and does not reach below the horizon. */
  ghost predicate Shallow(v: View, m: Move) {
    !m.Revert? && (m.Switch? ==> Horizon(v.highest) <= m.p) && (m.Rollback? ==> Horizon(v.highest) <= m.target)
  }

  /** A reorg the finality floor permits is shallow when the tip is within reach of its highest. */
  lemma ReachIsShallow(r: Rules, v: View, m: Move)
    requires Permitted(r, v, m) && m.Switch? && WithinReach(TipHeight(v), v.highest)
    ensures Shallow(v, m)
  {
  }

  lemma ExtendMirrors(v: View, b: Block)
    requires Mirrors(v) && b.height == |v.chain|
    ensures Mirrors(Apply(v, Extend(b)))
  {
    var base: nat :| base <= Horizon(v.highest) && Phase2.Exact(v.store, v.chain, base);
    Phase2.ConnectExact(v.store, v.chain, base, b);
  }

  /** Rewinding to `p` with the stack at hand. */
  lemma RewindMirrors(v: View, p: nat)
    requires Mirrors(v) && Horizon(v.highest) <= p < |v.chain|
    ensures Mirrors(View(v.chain[..p + 1], Phase2.RewindN(v.store, |v.chain| - 1 - p), v.highest))
  {
    var base: nat :| base <= Horizon(v.highest) && Phase2.Exact(v.store, v.chain, base);
    Phase2.RewindNExact(v.store, v.chain, base, |v.chain| - 1 - p);
  }

  lemma {:induction false} ConnectMirrors(v: View, blocks: seq<Block>)
    requires Mirrors(v) && Phase2.Climbs(blocks, TipHeight(v))
    ensures Mirrors(View(v.chain + blocks, Phase2.ConnectN(v.store, blocks), Max(v.highest, TipHeight(v) + |blocks|)))
  {
    if blocks == [] {
      assert v.chain + blocks == v.chain;
    } else {
      var init, last := blocks[..|blocks| - 1], blocks[|blocks| - 1];
      ConnectMirrors(v, init);
      var w := View(v.chain + init, Phase2.ConnectN(v.store, init), Max(v.highest, TipHeight(v) + |init|));
      ExtendMirrors(w, last);
      assert w.chain + [last] == v.chain + blocks;
    }
  }

  lemma MirrorStep(r: Rules, v: View, m: Move)
    requires Permitted(r, v, m) && Mirrors(v) && Shallow(v, m)
    ensures Mirrors(Apply(v, m))
  {
    hide Phase2.Connect, Phase2.ConnectN, Phase2.RewindN, Mirrors, Horizon, ChainOk;
    match m
    case Stay =>
    case Extend(b) => ExtendMirrors(v, b);
    case Rollback(target) => RewindMirrors(v, target);
    case Switch(p, fork, b) =>
      RewindMirrors(v, p);
      SwitchClimbs(r, v, m);
      assert Phase2.Climbs(fork, p) && b.height == p + 1 + |fork| by {
        assert forall i | 0 <= i < |fork| :: (fork + [b])[i] == fork[i];
        assert (fork + [b])[|fork|] == b;
      }
      var low := View(v.chain[..p + 1], Phase2.RewindN(v.store, |v.chain| - 1 - p), v.highest);
      ConnectMirrors(low, fork);
      ExtendMirrors(View(low.chain + fork, Phase2.ConnectN(low.store, fork), Max(v.highest, p + |fork|)), b);
  }

  lemma GenesisMirrors(g: Block)
    ensures forall strict :: Mirrors(View([g], Phase2.Empty(strict), 0))
  {
    assert forall strict :: Phase2.Exact(Phase2.Empty(strict), [g], 0);
  }

  lemma PermittedFits(r: Rules, v: View, m: Move)
    requires Permitted(r, v, m)
    ensures Fits(v, m)
  {
  }

  /** Over every run of shallow moves from genesis, the store's contents are the replay of the canonical
      chain and its checkpoints are the replays below each block. */
  lemma {:induction false} MirrorsForever(r: Rules, vs: seq<View>, ms: seq<Move>, j: nat, g: Block)
    requires Trace(r, vs, ms) && j < |vs| && vs[0] == View([g], Phase2.Empty(vs[0].store.strict), 0)
    requires forall i | 0 <= i < |ms| :: Shallow(vs[i], ms[i])
    ensures Mirrors(vs[j])
  {
    hide Mirrors, Shallow, Apply, Permitted;
    if j == 0 {
      GenesisMirrors(g);
    } else {
      MirrorsForever(r, vs, ms, j - 1, g);
      assert Moved(r, vs[j - 1], ms[j - 1], vs[j]);
      PermittedFits(r, vs[j - 1], ms[j - 1]);
      MirrorStep(r, vs[j - 1], ms[j - 1]);
    }
  }
}
