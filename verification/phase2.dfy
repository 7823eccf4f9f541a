/** The Phase-2 stores: one checkpoint before each block, one rewind per disconnected block. */
module Phase2 {
  import opened Types

  const MAX_CHECKPOINTS: nat := 1000

  /** A checkpoint: the height of the block it was taken before, and the contents at that moment. */
  datatype Mark = Mark(height: nat, contents: seq<nat>)

  /** A store: what has been applied to it, and the bounded stack of checkpoints. A strict store is the one whose
      commitment tree declines a checkpoint that is not above the last one held; its siblings take any height. */
  datatype Store = Store(contents: seq<nat>, stack: seq<Mark>, strict: bool)

  function Empty(strict: bool): Store {
    Store([], [], strict)
  }

  /** The last `n` elements, or all of them. */
  function LastN(s: seq<Mark>, n: nat): seq<Mark> {
    if |s| <= n then s else s[|s| - n..]
  }

  /** The height of the last checkpoint is at least `h`. */
  predicate TopReaches(s: Store, h: nat) {
    s.stack != [] && s.stack[|s.stack| - 1].height >= h
  }

  /** The store takes a checkpoint at `height`. */
  predicate Takes(s: Store, height: nat) {
    !(s.strict && TopReaches(s, height))
  }

  /** `checkpoint_at_height`: push the current contents, dropping the oldest past the cap, unless the store declines. */
  function Checkpoint(s: Store, height: nat): Store {
    if Takes(s, height) then s.(stack := LastN(s.stack + [Mark(height, s.contents)], MAX_CHECKPOINTS)) else s
  }

  /** Apply a block's shielded transactions. */
  function Apply(s: Store, b: Block): Store {
    s.(contents := s.contents + b.shielded)
  }

  /** `rewind`: pop one checkpoint; an empty stack leaves the store as it is. */
  function Rewind(s: Store): Store {
    if s.stack == [] then s else s.(contents := s.stack[|s.stack| - 1].contents, stack := s.stack[..|s.stack| - 1])
  }

  /** Connect one block: checkpoint first, then apply. */
  function Connect(s: Store, b: Block): Store {
    Apply(Checkpoint(s, b.height), b)
  }

  function ConnectN(s: Store, blocks: seq<Block>): Store {
    if blocks == [] then s else Connect(ConnectN(s, blocks[..|blocks| - 1]), blocks[|blocks| - 1])
  }

  function RewindN(s: Store, n: nat): Store {
    if n == 0 then s else Rewind(RewindN(s, n - 1))
  }

  /** Bare checkpoints at the given heights, in order. */
  function CheckpointAll(s: Store, hs: seq<nat>): Store {
    if hs == [] then s else Checkpoint(CheckpointAll(s, hs[..|hs| - 1]), hs[|hs| - 1])
  }

  /** What replaying a chain into an empty store leaves; genesis is not applied. */
  function Replay(c: seq<Block>): seq<nat> {
    if |c| <= 1 then [] else Replay(c[..|c| - 1]) + c[|c| - 1].shielded
  }

  /** The store mirrors the chain: contents are its replay, and the checkpoint before each of the
      blocks `base + 1 ..` is the replay of the blocks below it. */
  ghost predicate Exact(s: Store, c: seq<Block>, base: nat) {
    && base < |c|
    && |s.stack| == |c| - 1 - base <= MAX_CHECKPOINTS
    && s.contents == Replay(c)
    && forall i | 0 <= i < |s.stack| :: s.stack[i] == Mark(base + i + 1, Replay(c[..base + i + 1]))
  }

  // ---- lock-step with the chain ----

  /** Connecting a block keeps a store exact, strict or not; only a full stack gives up its oldest checkpoint. */
  lemma ConnectExact(s: Store, c: seq<Block>, base: nat, b: Block)
    requires Exact(s, c, base) && b.height == |c|
    ensures Exact(Connect(s, b), c + [b], if |s.stack| < MAX_CHECKPOINTS then base else base + 1)
  {
    hide Replay;
    var d := c + [b];
    assert Takes(s, b.height);
    assert Replay(d) == Replay(c) + b.shielded by { ReplaySnoc(c, b); }
    assert forall i | 0 <= i <= |c| :: d[..i] == c[..i];
    assert c[..|c|] == c;
  }

  lemma ReplaySnoc(c: seq<Block>, b: Block)
    requires c != []
    ensures Replay(c + [b]) == Replay(c) + b.shielded
  {
    assert (c + [b])[..|c|] == c;
  }

  /** Rewinding a block keeps a store exact as long as its checkpoint is held. */
  lemma RewindExact(s: Store, c: seq<Block>, base: nat)
    requires Exact(s, c, base) && s.stack != []
    ensures Exact(Rewind(s), c[..|c| - 1], base)
  {
    assert forall i | 0 <= i <= |c| - 1 :: c[..|c| - 1][..i] == c[..i];
  }

  lemma {:induction false} RewindNExact(s: Store, c: seq<Block>, base: nat, n: nat)
    requires Exact(s, c, base) && n <= |s.stack|
    ensures Exact(RewindN(s, n), c[..|c| - n], base)
  {
    if n == 0 {
      assert c[..|c|] == c;
    } else {
      RewindNExact(s, c, base, n - 1);
      RewindExact(RewindN(s, n - 1), c[..|c| - (n - 1)], base);
      assert c[..|c| - (n - 1)][..|c| - n] == c[..|c| - n];
    }
  }

  // ---- depth ----

  function Less(a: nat, b: nat): nat {
    if a < b then 0 else a - b
  }

  function Capped(n: nat): nat {
    if n < MAX_CHECKPOINTS then n else MAX_CHECKPOINTS
  }

  lemma {:induction false} RewindDepth(s: Store, n: nat)
    ensures |RewindN(s, n).stack| == Less(|s.stack|, n) && RewindN(s, n).strict == s.strict
  {
    if n > 0 { RewindDepth(s, n - 1); }
  }

  /** No operation grows a stack past the cap, or by more than it pushes. */
  lemma {:induction false} ConnectNBounded(s: Store, blocks: seq<Block>)
    requires |s.stack| <= MAX_CHECKPOINTS
    ensures |ConnectN(s, blocks).stack| <= Capped(|s.stack| + |blocks|) && ConnectN(s, blocks).strict == s.strict
  {
    if blocks != [] { ConnectNBounded(s, blocks[..|blocks| - 1]); }
  }

  lemma {:induction false} CheckpointAllBounded(s: Store, hs: seq<nat>)
    requires |s.stack| <= MAX_CHECKPOINTS
    ensures |CheckpointAll(s, hs).stack| <= Capped(|s.stack| + |hs|)
    ensures CheckpointAll(s, hs).contents == s.contents && CheckpointAll(s, hs).strict == s.strict
  {
    if hs != [] { CheckpointAllBounded(s, hs[..|hs| - 1]); }
  }

  // ---- when nothing is declined ----

  /** Held heights strictly increase and are at most `tip`. */
  ghost predicate Rising(s: Store, tip: nat) {
    && (forall i, j | 0 <= i < j < |s.stack| :: s.stack[i].height < s.stack[j].height)
    && !TopReaches(s, tip + 1)
  }

  lemma ExactRises(s: Store, c: seq<Block>, base: nat)
    requires Exact(s, c, base)
    ensures Rising(s, |c| - 1)
  {
    hide Replay;
  }

  /** Heights below the top of a rising stack are spaced by at least one. */
  lemma {:induction false} RewindRises(s: Store, tip: nat, n: nat)
    requires Rising(s, tip) && n <= tip
    ensures Rising(RewindN(s, n), tip - n)
  {
    if n > 0 { RewindRises(s, tip, n - 1); }
  }

  lemma CheckpointRises(s: Store, tip: nat, h: nat)
    requires Rising(s, tip) && tip < h && |s.stack| <= MAX_CHECKPOINTS
    ensures Takes(s, h) && Rising(Checkpoint(s, h), h) && |Checkpoint(s, h).stack| == Capped(|s.stack| + 1)
  {
  }

  /** The blocks stand at the heights right above `p`. */
  ghost predicate Climbs(blocks: seq<Block>, p: nat) {
    forall i | 0 <= i < |blocks| :: blocks[i].height == p + 1 + i
  }

  /** Some block's checkpoint is declined. */
  ghost predicate ConnectDeclines(s: Store, blocks: seq<Block>) {
    exists k | 0 <= k < |blocks| :: !Takes(ConnectN(s, blocks[..k]), blocks[k].height)
  }

  /** Some bare checkpoint is declined. */
  ghost predicate PushDeclines(s: Store, hs: seq<nat>) {
    exists k | 0 <= k < |hs| :: !Takes(CheckpointAll(s, hs[..k]), hs[k])
  }

  /** A rising store declines none of the blocks that climb from its tip. */
  lemma {:induction false} ConnectRises(s: Store, p: nat, blocks: seq<Block>)
    requires Rising(s, p) && Climbs(blocks, p) && |s.stack| <= MAX_CHECKPOINTS
    ensures Rising(ConnectN(s, blocks), p + |blocks|) && !ConnectDeclines(s, blocks)
    ensures |ConnectN(s, blocks).stack| == Capped(|s.stack| + |blocks|)
  {
    hide Rising, Takes, Checkpoint;
    if blocks != [] {
      var init, b := blocks[..|blocks| - 1], blocks[|blocks| - 1];
      ConnectRises(s, p, init);
      CheckpointRises(ConnectN(s, init), p + |init|, b.height);
      ApplyRises(Checkpoint(ConnectN(s, init), b.height), b, b.height);
      forall k | 0 <= k < |blocks| ensures Takes(ConnectN(s, blocks[..k]), blocks[k].height) {
        assert k < |init| ==> init[..k] == blocks[..k] && init[k] == blocks[k];
      }
    }
  }

  lemma ApplyRises(s: Store, b: Block, tip: nat)
    requires Rising(s, tip)
    ensures Rising(Apply(s, b), tip)
  {
  }

  /** The heights ascend, from above `p` up to `tip`. */
  ghost predicate Ascends(hs: seq<nat>, p: nat, tip: nat) {
    && (forall i | 0 <= i < |hs| :: p < hs[i] <= tip)
    && (forall i, j | 0 <= i < j < |hs| :: hs[i] < hs[j])
  }

  /** Nor does it decline bare checkpoints at ascending heights above its tip. */
  lemma {:induction false} PushRises(s: Store, p: nat, hs: seq<nat>, tip: nat)
    requires Rising(s, p) && Ascends(hs, p, tip) && p <= tip && |s.stack| <= MAX_CHECKPOINTS
    ensures Rising(CheckpointAll(s, hs), tip) && !PushDeclines(s, hs)
    ensures |CheckpointAll(s, hs).stack| == Capped(|s.stack| + |hs|)
  {
    hide Rising, Takes, Checkpoint;
    if hs == [] {
      RisingMore(s, p, tip);
    } else {
      var init, h := hs[..|hs| - 1], hs[|hs| - 1];
      PushRises(s, p, init, h - 1);
      CheckpointRises(CheckpointAll(s, init), h - 1, h);
      RisingMore(CheckpointAll(s, hs), h, tip);
      forall k | 0 <= k < |hs| ensures Takes(CheckpointAll(s, hs[..k]), hs[k]) {
        assert k < |init| ==> init[..k] == hs[..k] && init[k] == hs[k];
      }
    }
  }

  lemma RisingMore(s: Store, p: nat, tip: nat)
    requires Rising(s, p) && p <= tip
    ensures Rising(s, tip)
  {
  }

  // ---- a failed reorg ----

  /** The store once `n` main blocks are rewound, the fork blocks connected, and one rewind made for each of them. */
  function Undone(s: Store, n: nat, fork: seq<Block>): Store {
    RewindN(ConnectN(RewindN(s, n), fork), |fork|)
  }

  /** What a failed reorg does to a store: the main blocks at heights `hs` are rewound, the fork blocks connected and
      rewound again, and the main blocks checkpointed again without being re-applied. */
  function FailedReorg(s: Store, hs: seq<nat>, fork: seq<Block>): Store {
    CheckpointAll(Undone(s, |hs|, fork), hs)
  }

  lemma FailedReorgBounded(s: Store, hs: seq<nat>, fork: seq<Block>)
    requires |s.stack| <= MAX_CHECKPOINTS
    ensures |FailedReorg(s, hs, fork).stack| <= MAX_CHECKPOINTS
  {
    RewindDepth(s, |hs|);
    ConnectNBounded(RewindN(s, |hs|), fork);
    RewindDepth(ConnectN(RewindN(s, |hs|), fork), |fork|);
    CheckpointAllBounded(Undone(s, |hs|, fork), hs);
  }

  /** Some checkpoint of a failed reorg is declined. */
  ghost predicate Declines(s: Store, hs: seq<nat>, fork: seq<Block>) {
    ConnectDeclines(RewindN(s, |hs|), fork) || PushDeclines(Undone(s, |hs|, fork), hs)
  }

  /** Exactly when a strict store declines during a failed reorg with fork point `p`: after the rewinds a checkpoint
      above the fork point is still held, and a fork block was connected or that checkpoint is not below the first
      height that is put back. When every height above the fork point is disconnected this never happens. */
  lemma DeclinesIff(s: Store, tip: nat, p: nat, hs: seq<nat>, fork: seq<Block>)
    requires Rising(s, tip) && p <= tip && Ascends(hs, p, tip) && Climbs(fork, p) && |s.stack| <= MAX_CHECKPOINTS
    ensures
      var d := RewindN(s, |hs|);
      Declines(s, hs, fork) <==> s.strict && TopReaches(d, p + 1) && (fork != [] || (hs != [] && TopReaches(d, hs[0])))
    ensures |hs| == tip - p ==> !TopReaches(RewindN(s, |hs|), p + 1)
  {
    AscendsShort(hs, p, tip);
    RewindRises(s, tip, |hs|);
    RewindDepth(s, |hs|);
    var d := RewindN(s, |hs|);
    if !s.strict {
      PlainTakes(d, hs, fork);
    } else if !TopReaches(d, p + 1) {
      UndoneRises(d, p, fork);
      PushRises(Undone(s, |hs|, fork), p, hs, tip);
    } else if fork != [] {
      assert fork[..0] == [] && !Takes(ConnectN(d, fork[..0]), fork[0].height);
    } else if hs != [] {
      if TopReaches(d, hs[0]) {
        assert hs[..0] == [] && !Takes(CheckpointAll(d, hs[..0]), hs[0]);
      } else {
        PushRises(d, hs[0] - 1, hs, tip);
      }
    }
  }

  lemma PlainTakes(d: Store, hs: seq<nat>, fork: seq<Block>)
    requires !d.strict && |d.stack| <= MAX_CHECKPOINTS
    ensures !ConnectDeclines(d, fork) && !PushDeclines(RewindN(ConnectN(d, fork), |fork|), hs)
  {
    forall k | 0 <= k < |fork| ensures Takes(ConnectN(d, fork[..k]), fork[k].height) { ConnectNBounded(d, fork[..k]); }
    ConnectNBounded(d, fork);
    RewindDepth(ConnectN(d, fork), |fork|);
    var u := RewindN(ConnectN(d, fork), |fork|);
    forall k | 0 <= k < |hs| ensures Takes(CheckpointAll(u, hs[..k]), hs[k]) { CheckpointAllBounded(u, hs[..k]); }
  }

  /** Ascending heights above `p` are no more than there is room for. */
  lemma {:induction false} AscendsShort(hs: seq<nat>, p: nat, tip: nat)
    requires Ascends(hs, p, tip) && p <= tip
    ensures |hs| <= tip - p
  {
    if hs != [] { AscendsShort(hs[..|hs| - 1], p, hs[|hs| - 1] - 1); }
  }

  lemma UndoneRises(d: Store, p: nat, fork: seq<Block>)
    requires Rising(d, p) && Climbs(fork, p) && |d.stack| <= MAX_CHECKPOINTS
    ensures !ConnectDeclines(d, fork) && Rising(RewindN(ConnectN(d, fork), |fork|), p)
    ensures |RewindN(ConnectN(d, fork), |fork|).stack| == Less(Capped(|d.stack| + |fork|), |fork|) <= MAX_CHECKPOINTS
  {
    ConnectRises(d, p, fork);
    RewindRises(ConnectN(d, fork), p + |fork|, |fork|);
    RewindDepth(ConnectN(d, fork), |fork|);
  }

  /** One declined fork block is one checkpoint less. */
  lemma {:induction false} ConnectShort(s: Store, blocks: seq<Block>)
    requires |s.stack| <= MAX_CHECKPOINTS && blocks != [] && !Takes(s, blocks[0].height)
    ensures |ConnectN(s, blocks).stack| < |s.stack| + |blocks|
  {
    if |blocks| == 1 {
      assert blocks[..0] == [];
    } else {
      ConnectShort(s, blocks[..|blocks| - 1]);
    }
  }

  lemma {:induction false} PushShort(s: Store, hs: seq<nat>)
    requires |s.stack| <= MAX_CHECKPOINTS && hs != [] && !Takes(s, hs[0])
    ensures |CheckpointAll(s, hs).stack| < |s.stack| + |hs|
  {
    if |hs| == 1 {
      assert hs[..0] == [];
    } else {
      PushShort(s, hs[..|hs| - 1]);
    }
  }

  /** The depth after a failed reorg in which nothing is declined. */
  function DepthKept(depth: nat, n: nat, forkLength: nat): nat {
    Capped(Less(Capped(Less(depth, n) + forkLength), forkLength) + n)
  }

  lemma {:induction false} PlainConnectDepth(s: Store, blocks: seq<Block>)
    requires |s.stack| <= MAX_CHECKPOINTS && !s.strict
    ensures |ConnectN(s, blocks).stack| == Capped(|s.stack| + |blocks|) && !ConnectN(s, blocks).strict
  {
    if blocks != [] { PlainConnectDepth(s, blocks[..|blocks| - 1]); }
  }

  lemma {:induction false} PlainPushDepth(s: Store, hs: seq<nat>)
    requires |s.stack| <= MAX_CHECKPOINTS && !s.strict
    ensures |CheckpointAll(s, hs).stack| == Capped(|s.stack| + |hs|) && !CheckpointAll(s, hs).strict
  {
    if hs != [] { PlainPushDepth(s, hs[..|hs| - 1]); }
  }

  /** Where nothing is declined the depth is a function of the old depth and the block counts. */
  lemma FailedReorgDepth(s: Store, tip: nat, p: nat, hs: seq<nat>, fork: seq<Block>)
    requires Rising(s, tip) && p <= tip && Ascends(hs, p, tip) && Climbs(fork, p) && |s.stack| <= MAX_CHECKPOINTS
    ensures !Declines(s, hs, fork) ==> |FailedReorg(s, hs, fork).stack| == DepthKept(|s.stack|, |hs|, |fork|)
    ensures |hs| == tip - p ==> !Declines(s, hs, fork) && Rising(FailedReorg(s, hs, fork), tip)
  {
    DeclinesIff(s, tip, p, hs, fork);
    AscendsShort(hs, p, tip);
    RewindRises(s, tip, |hs|);
    RewindDepth(s, |hs|);
    var d := RewindN(s, |hs|);
    if !s.strict {
      PlainConnectDepth(d, fork);
      RewindDepth(ConnectN(d, fork), |fork|);
      PlainPushDepth(Undone(s, |hs|, fork), hs);
    }
    if !TopReaches(d, p + 1) {
      UndoneRises(d, p, fork);
      PushRises(Undone(s, |hs|, fork), p, hs, tip);
    } else if s.strict && fork == [] && (hs == [] || !TopReaches(d, hs[0])) {
      if hs != [] { PushRises(d, hs[0] - 1, hs, tip); }
    }
  }

  /** A failed reorg with a checkpoint for every rewind keeps the depth exactly when nothing was declined and connecting
      the fork pushed no checkpoint out; otherwise it loses some. Short of checkpoints it gains some, up to the cap. */
  lemma FailedReorgOutcome(s: Store, tip: nat, p: nat, hs: seq<nat>, fork: seq<Block>)
    requires Rising(s, tip) && p <= tip && Ascends(hs, p, tip) && Climbs(fork, p) && |s.stack| <= MAX_CHECKPOINTS
    ensures |hs| <= |s.stack| ==>
      var left, depth := |s.stack| - |hs|, |FailedReorg(s, hs, fork).stack|;
      && (depth == |s.stack| <==> !Declines(s, hs, fork) && (left == 0 || left + |fork| <= MAX_CHECKPOINTS))
      && depth <= |s.stack|
    ensures |hs| > |s.stack| ==> |FailedReorg(s, hs, fork).stack| == Capped(|hs|)
  {
    FailedReorgDepth(s, tip, p, hs, fork);
    DeclinesIff(s, tip, p, hs, fork);
    var d := RewindN(s, |hs|);
    RewindDepth(s, |hs|);
    if Declines(s, hs, fork) {
      ConnectNBounded(d, fork);
      if fork != [] { ConnectShort(d, fork); }
      RewindDepth(ConnectN(d, fork), |fork|);
      CheckpointAllBounded(Undone(s, |hs|, fork), hs);
      if fork == [] { PushShort(d, hs); }
    }
  }

  // ---- what it leaves in the store ----

  function Payload(blocks: seq<Block>): seq<nat> {
    if blocks == [] then [] else Payload(blocks[..|blocks| - 1]) + blocks[|blocks| - 1].shielded
  }

  /** The checkpoints before each of `blocks`. */
  function Marks(contents: seq<nat>, blocks: seq<Block>): (r: seq<Mark>)
    ensures |r| == |blocks|
    ensures blocks != [] ==> r[0].contents == contents
  {
    if blocks == [] then []
    else
      var init := blocks[..|blocks| - 1];
      Marks(contents, init) + [Mark(blocks[|blocks| - 1].height, contents + Payload(init))]
  }

  lemma TakenInit(s: Store, blocks: seq<Block>)
    requires blocks != [] && !ConnectDeclines(s, blocks)
    ensures !ConnectDeclines(s, blocks[..|blocks| - 1])
    ensures Takes(ConnectN(s, blocks[..|blocks| - 1]), blocks[|blocks| - 1].height)
  {
    hide Takes, ConnectN;
    var init := blocks[..|blocks| - 1];
    forall k | 0 <= k < |init| ensures Takes(ConnectN(s, init[..k]), init[k].height) {
      assert init[..k] == blocks[..k] && init[k] == blocks[k];
    }
  }

  lemma ConnectTaken(s: Store, b: Block)
    requires Takes(s, b.height)
    ensures Connect(s, b).contents == s.contents + b.shielded
    ensures Connect(s, b).stack == LastN(s.stack + [Mark(b.height, s.contents)], MAX_CHECKPOINTS)
  {
  }

  lemma MarksSnoc(stack: seq<Mark>, contents: seq<nat>, blocks: seq<Block>)
    requires blocks != []
    ensures
      var init, last := blocks[..|blocks| - 1], blocks[|blocks| - 1];
      && stack + Marks(contents, init) + [Mark(last.height, contents + Payload(init))] == stack + Marks(contents, blocks)
      && contents + Payload(init) + last.shielded == contents + Payload(blocks)
  {
  }

  lemma {:induction false} ConnectNClosed(s: Store, blocks: seq<Block>)
    requires |s.stack| <= MAX_CHECKPOINTS && !ConnectDeclines(s, blocks)
    ensures ConnectN(s, blocks).contents == s.contents + Payload(blocks)
    ensures ConnectN(s, blocks).stack == LastN(s.stack + Marks(s.contents, blocks), MAX_CHECKPOINTS)
  {
    if blocks == [] {
      assert s.stack + [] == s.stack;
      assert s.contents + [] == s.contents;
    } else {
      hide Takes, LastN, ConnectDeclines, Connect, Marks, Payload;
      var init, last := blocks[..|blocks| - 1], blocks[|blocks| - 1];
      TakenInit(s, blocks);
      ConnectNClosed(s, init);
      ConnectTaken(ConnectN(s, init), last);
      LastNSnoc(s.stack + Marks(s.contents, init), Mark(last.height, s.contents + Payload(init)), MAX_CHECKPOINTS);
      MarksSnoc(s.stack, s.contents, blocks);
    }
  }

  lemma LastNSnoc(x: seq<Mark>, top: Mark, n: nat)
    requires n > 0
    ensures LastN(LastN(x, n) + [top], n) == LastN(x + [top], n)
  {
  }

  lemma {:induction false} RewindNClosed(s: Store, n: nat)
    requires n <= |s.stack|
    ensures RewindN(s, n).stack == s.stack[..|s.stack| - n]
    ensures RewindN(s, n).contents == if n == 0 then s.contents else s.stack[|s.stack| - n].contents
  {
    if n > 0 {
      RewindNClosed(s, n - 1);
    }
  }

  lemma {:induction false} RewindNSplit(s: Store, a: nat, b: nat)
    ensures RewindN(s, a + b) == RewindN(RewindN(s, a), b)
  {
    if b > 0 { RewindNSplit(s, a, b - 1); }
  }

  /** Past its last checkpoint a rewind changes nothing. */
  lemma {:induction false} RewindNSaturates(s: Store, n: nat)
    requires |s.stack| <= n
    ensures RewindN(s, n) == RewindN(s, |s.stack|) && RewindN(s, n).stack == []
  {
    if n == |s.stack| {
      RewindNClosed(s, n);
    } else {
      RewindNSaturates(s, n - 1);
    }
  }

  lemma {:induction false} ConnectNSplit(s: Store, a: seq<Block>, b: seq<Block>)
    ensures ConnectN(s, a + b) == ConnectN(ConnectN(s, a), b)
  {
    if b == [] {
      assert a + b == a;
    } else {
      ConnectNSplit(s, a, b[..|b| - 1]);
      assert (a + b)[..|a + b| - 1] == a + b[..|b| - 1];
    }
  }

  /** Undoing fork blocks none of which was declined leads back, but for the checkpoints that were pushed out. */
  lemma UndoneTaken(d: Store, fork: seq<Block>)
    requires |d.stack| <= MAX_CHECKPOINTS && |fork| <= MAX_CHECKPOINTS && !ConnectDeclines(d, fork)
    ensures
      var u := RewindN(ConnectN(d, fork), |fork|);
      u == d.(stack := d.stack[Less(|d.stack| + |fork|, MAX_CHECKPOINTS)..])
  {
    ConnectNBounded(d, fork);
    ConnectNClosed(d, fork);
    var up, all := ConnectN(d, fork), d.stack + Marks(d.contents, fork);
    RewindNClosed(up, |fork|);
    RewindDepth(up, |fork|);
    if fork == [] {
      assert d.contents + Payload(fork) == d.contents && d.stack + [] == d.stack;
    } else {
      assert up.stack[|up.stack| - |fork|] == all[|d.stack|];
    }
    assert up.stack[..|up.stack| - |fork|] == d.stack[Less(|d.stack| + |fork|, MAX_CHECKPOINTS)..];
  }

  /** How many fork blocks a strict store that holds a checkpoint above the fork point declines. */
  function Skipped(d: Store, p: nat, fork: seq<Block>): nat {
    if d.strict && TopReaches(d, p + 1) then
      var above := d.stack[|d.stack| - 1].height - p;
      if above < |fork| then above else |fork|
    else 0
  }

  /** Declined fork blocks are applied all the same. */
  lemma {:induction false} ConnectSkipped(d: Store, p: nat, fork: seq<Block>)
    requires d.strict && Climbs(fork, p) && (fork != [] ==> TopReaches(d, p + |fork|))
    ensures ConnectN(d, fork) == d.(contents := d.contents + Payload(fork))
  {
    if fork == [] {
      assert d.contents + [] == d.contents;
    } else {
      var init, last := fork[..|fork| - 1], fork[|fork| - 1];
      ConnectSkipped(d, p, init);
      assert d.contents + Payload(init) + last.shielded == d.contents + Payload(fork);
    }
  }

  /** Undoing the fork blocks pops one older checkpoint for each that was declined. */
  lemma UndoneClosed(d: Store, tip: nat, p: nat, fork: seq<Block>)
    requires Rising(d, tip) && Climbs(fork, p) && |d.stack| <= MAX_CHECKPOINTS && |fork| <= MAX_CHECKPOINTS
    ensures
      var k := Skipped(d, p, fork);
      RewindN(ConnectN(d, fork), |fork|).contents == if k == 0 then d.contents else d.stack[Less(|d.stack|, k)].contents
  {
    var k := Skipped(d, p, fork);
    if k == 0 {
      assert !ConnectDeclines(d, fork) by {
        if d.strict { if fork != [] { ConnectRises(d, p, fork); } } else { PlainTakes(d, [], fork); }
      }
      UndoneTaken(d, fork);
    } else {
      SkippedUndone(d, tip, p, fork);
    }
  }

  /** The declined blocks come first; the store then takes the others. */
  lemma SkippedFirst(d: Store, tip: nat, p: nat, fork: seq<Block>)
    requires Rising(d, tip) && Climbs(fork, p) && |d.stack| <= MAX_CHECKPOINTS && Skipped(d, p, fork) > 0
    ensures
      var k := Skipped(d, p, fork);
      var e := d.(contents := d.contents + Payload(fork[..k]));
      k <= |fork| && ConnectN(d, fork) == ConnectN(e, fork[k..]) && !ConnectDeclines(e, fork[k..])
  {
    var k := Skipped(d, p, fork);
    var low, high := fork[..k], fork[k..];
    assert fork == low + high;
    var e := d.(contents := d.contents + Payload(low));
    ConnectSkipped(d, p, low);
    hide ConnectN, Payload, ConnectDeclines;
    ConnectNSplit(d, low, high);
    if high == [] { NothingDeclined(e); } else { ConnectRises(e, p + k, high); }
  }

  lemma NothingDeclined(s: Store)
    ensures !ConnectDeclines(s, [])
  {
  }

  lemma SkippedUndone(d: Store, tip: nat, p: nat, fork: seq<Block>)
    requires Rising(d, tip) && Climbs(fork, p) && |d.stack| <= MAX_CHECKPOINTS && |fork| <= MAX_CHECKPOINTS
    requires Skipped(d, p, fork) > 0
    ensures
      RewindN(ConnectN(d, fork), |fork|).contents == d.stack[Less(|d.stack|, Skipped(d, p, fork))].contents
  {
    hide ConnectN, RewindN, Rising, ConnectDeclines, Climbs, Payload;
    var k := Skipped(d, p, fork);
    var high, e := fork[k..], d.(contents := d.contents + Payload(fork[..k]));
    SkippedFirst(d, tip, p, fork);
    UndoneTaken(e, high);
    RewindNSplit(ConnectN(d, fork), |high|, k);
    PopsTo(e.(stack := d.stack[Less(|d.stack| + |high|, MAX_CHECKPOINTS)..]), d, |high|, k);
  }

  /** Popping `k` checkpoints off what an overflow left reaches the same one. */
  lemma PopsTo(f: Store, d: Store, pushed: nat, k: nat)
    requires 0 < |d.stack| <= MAX_CHECKPOINTS && pushed + k <= MAX_CHECKPOINTS && 0 < k
    requires f.stack == d.stack[Less(|d.stack| + pushed, MAX_CHECKPOINTS)..]
    ensures RewindN(f, k).contents == d.stack[Less(|d.stack|, k)].contents
  {
    if k <= |f.stack| {
      RewindNClosed(f, k);
    } else {
      RewindNSaturates(f, k);
      RewindNClosed(f, |f.stack|);
    }
  }

  /** Undoing the fork leaves the replay of the chain without one block for every fork block that was declined. */
  lemma UndoneReplay(d: Store, c: seq<Block>, base: nat, p: nat, fork: seq<Block>)
    requires Exact(d, c, base) && Climbs(fork, p) && |fork| <= MAX_CHECKPOINTS
    ensures
      var k := Skipped(d, p, fork);
      RewindN(ConnectN(d, fork), |fork|).contents == Replay(c[..if |c| - k > base then |c| - k else base + 1])
  {
    hide Replay, Skipped, RewindN, ConnectN, Climbs;
    ExactRises(d, c, base);
    UndoneClosed(d, |c| - 1, p, fork);
    SkippedHeld(d, p, fork);
    if Skipped(d, p, fork) == 0 { assert c[..|c|] == c; }
  }

  lemma SkippedHeld(d: Store, p: nat, fork: seq<Block>)
    ensures Skipped(d, p, fork) > 0 ==> d.stack != []
  {
  }

  /** A failed reorg of a mirroring store leaves the replay of the chain without the blocks it disconnected, and without
      one more for every fork block that was declined. */
  lemma FailedReorgContents(s: Store, c: seq<Block>, base: nat, p: nat, hs: seq<nat>, fork: seq<Block>)
    requires Exact(s, c, base) && Climbs(fork, p) && |fork| <= MAX_CHECKPOINTS
    ensures
      var n := |c| - |hs| - Skipped(RewindN(s, |hs|), p, fork);
      FailedReorg(s, hs, fork).contents == Replay(c[..if n > base then n else base + 1])
  {
    hide Replay, Skipped, RewindN, ConnectN, Climbs, CheckpointAll;
    var kept := if |hs| <= |s.stack| then |hs| else |s.stack|;
    if |hs| > |s.stack| { RewindNSaturates(s, |hs|); }
    RewindNExact(s, c, base, kept);
    UndoneReplay(RewindN(s, kept), c[..|c| - kept], base, p, fork);
    UndoneBounded(s, |hs|, fork);
    CheckpointAllBounded(Undone(s, |hs|, fork), hs);
    var n := |c| - |hs| - Skipped(RewindN(s, |hs|), p, fork);
    var m := if n > base then n else base + 1;
    SkippedHeld(RewindN(s, kept), p, fork);
    assert c[..|c| - kept][..m] == c[..m];
  }

  lemma UndoneBounded(s: Store, n: nat, fork: seq<Block>)
    requires |s.stack| <= MAX_CHECKPOINTS
    ensures |Undone(s, n, fork).stack| <= MAX_CHECKPOINTS
  {
    RewindDepth(s, n);
    ConnectNBounded(RewindN(s, n), fork);
    RewindDepth(ConnectN(RewindN(s, n), fork), |fork|);
  }

  lemma {:induction false} ReplayGrows(c: seq<Block>, n: nat)
    requires 1 <= n <= |c|
    ensures Replay(c[..n]) <= Replay(c)
    ensures Replay(c[..n]) == Replay(c) <==> forall i | n <= i < |c| :: c[i].shielded == []
  {
    if n < |c| {
      ReplayGrows(c[..|c| - 1], n);
      assert c[..|c| - 1][..n] == c[..n];
    } else {
      assert c[..n] == c;
    }
  }

  /** It restores the contents exactly when none of those blocks carried a shielded payload. */
  lemma FailedReorgRestores(s: Store, c: seq<Block>, base: nat, p: nat, hs: seq<nat>, fork: seq<Block>)
    requires Exact(s, c, base) && Climbs(fork, p) && |fork| <= MAX_CHECKPOINTS
    ensures
      var k := Skipped(RewindN(s, |hs|), p, fork);
      FailedReorg(s, hs, fork).contents == Replay(c)
      <==> forall i | base < i < |c| && |c| - |hs| - k <= i :: c[i].shielded == []
  {
    hide FailedReorg, Replay, RewindN, Skipped, Climbs;
    FailedReorgContents(s, c, base, p, hs, fork);
    var n := |c| - |hs| - Skipped(RewindN(s, |hs|), p, fork);
    ReplayGrows(c, if n > base then n else base + 1);
  }

  /** It does lose contents: one connected block with a payload, disconnected by a reorg that fails at once. */
  lemma ContentsLost(strict: bool)
    ensures
      var g, b, s := Block(0, 0, 0, 0, 0, 0, [], []), Block(1, 0, 1, 0, 0, 0, [], [7]),
        Store([7], [Mark(1, [])], strict);
      s == Connect(Empty(strict), b) && Exact(s, [g, b], 0) && FailedReorg(s, [1], []).contents == [] != s.contents
  {
    hide FailedReorg;
    var g, b, s := Block(0, 0, 0, 0, 0, 0, [], []), Block(1, 0, 1, 0, 0, 0, [], [7]), Store([7], [Mark(1, [])], strict);
    assert [g, b][..1] == [g];
    assert Replay([g]) == [] && Replay([g, b]) == [] + [7];
    assert s.stack[0] == Mark(1, Replay([g, b][..1]));
    FailedReorgContents(s, [g, b], 0, 0, [1], []);
  }
}
