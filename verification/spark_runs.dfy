/** The shielded pool over whole runs: blocks joined and left again, tips that fall without a rewind, the bare
    checkpoints of a failed reorg, and restarts. */
module SparkRuns {
  import opened Types
  import opened SparkPool
  import opened SparkStore

  /** The pool, its checkpoint stack and the height of the tip it stands for. */
  datatype Vault = Vault(pool: Pool, stack: seq<Checkpoint>, tip: nat)

  const START := Vault(EMPTY, [], 0)

  /** A block is gated, checkpointed and applied; the last block is rewound; the last block goes without a rewind,
      because its body is not cached; a block of a failed reorg is put back, which checkpoints and applies nothing, or
      only mapped again if its body is not cached; the node restarts, and the stack is gone. */
  datatype Op = Join(txs: seq<ShieldedTx>) | Leave | Lose | PutBack | Remap | Restart

  /** The stack with one more checkpoint, the oldest dropped past the cap. */
  function Pushed(v: Vault): seq<Checkpoint> {
    var all := v.stack + [Checkpoint(v.tip + 1, |v.pool.coins|, v.pool.value)];
    if |all| > MAX_CHECKPOINTS then all[1..] else all
  }

  /** The tip, were the last block gone; genesis stays. */
  function Lower(tip: nat): nat {
    if tip == 0 then 0 else tip - 1
  }

  /** The top checkpoint lies within the coins. */
  predicate Rewindable(v: Vault) {
    v.stack != [] && v.stack[|v.stack| - 1].coinsLen <= |v.pool.coins|
  }

  /** What a step does. A block the gate refuses changes nothing; a rewind without a checkpoint lowers the tip all the
      same. */
  ghost function After(be: Backend, v: Vault, op: Op): Vault {
    match op
    case Join(txs) =>
      if GateOk(be, v.pool, txs, v.tip + 1) then
        Vault(AdvanceAll(be, v.pool, txs, v.tip + 1), Pushed(v), v.tip + 1)
      else v
    case Leave =>
      if Rewindable(v) then Vault(Rewound(v.pool, v.stack[|v.stack| - 1]), v.stack[..|v.stack| - 1], Lower(v.tip))
      else Vault(v.pool, v.stack, Lower(v.tip))
    case Lose => Vault(v.pool, v.stack, Lower(v.tip))
    case PutBack => Vault(v.pool, Pushed(v), v.tip + 1)
    case Remap => Vault(v.pool, v.stack, v.tip + 1)
    case Restart => Vault(v.pool, [], v.tip)
  }

  // ---- what every run keeps ----

  /** The value covers the unspent coins; if `exact`, it is theirs. */
  ghost predicate Solid(x: Secrets, s: Pool, exact: bool) {
    s.value >= 0 && Backed(x, s) && (exact ==> Balanced(x, s))
  }

  /** The pool is solid, and so is every pool that popping checkpoints one after the other would leave. */
  ghost predicate Deep(x: Secrets, s: Pool, stack: seq<Checkpoint>, exact: bool)
    decreases |stack|
  {
    && Solid(x, s, exact)
    && (stack != [] ==>
          var c := stack[|stack| - 1];
          c.coinsLen <= |s.coins| && Deep(x, Rewound(s, c), stack[..|stack| - 1], exact))
  }

  ghost predicate Guarded(x: Secrets, v: Vault, exact: bool) {
    Deep(x, v.pool, v.stack, exact)
  }

  /** No tag was spent above the tip. */
  predicate Clear(v: Vault) {
    forall t | t in v.pool.tags :: v.pool.tags[t] <= v.tip
  }

  /** The step pushes a checkpoint. */
  ghost predicate Pushes(be: Backend, v: Vault, op: Op) {
    op.PutBack? || (op.Join? && GateOk(be, v.pool, op.txs, v.tip + 1))
  }

  /** Losing the oldest checkpoint loses nothing that was solid. */
  lemma {:induction false} DeepWithoutOldest(x: Secrets, s: Pool, stack: seq<Checkpoint>, exact: bool)
    requires Deep(x, s, stack, exact) && stack != []
    ensures Deep(x, s, stack[1..], exact)
    decreases |stack|
  {
    if |stack| > 1 {
      var c := stack[|stack| - 1];
      DeepWithoutOldest(x, Rewound(s, c), stack[..|stack| - 1], exact);
      assert stack[1..][..|stack| - 2] == stack[..|stack| - 1][1..];
    }
  }

  /** `q` is the pool of `v` with coins and tags of the next height added. */
  ghost predicate Grows(v: Vault, q: Pool) {
    && v.pool.coins <= q.coins
    && (forall t | t in v.pool.tags :: t in q.tags && q.tags[t] == v.pool.tags[t])
    && (forall t | t in q.tags && t !in v.pool.tags :: q.tags[t] == v.tip + 1)
  }

  /** The pool without the tags spent above the tip. */
  function Trimmed(v: Vault): Pool {
    v.pool.(tags := map t | t in v.pool.tags && v.pool.tags[t] <= v.tip :: v.pool.tags[t])
  }

  /** Popping a checkpoint pushed now leaves the pool without the tags spent above the tip. */
  lemma PoppedIsTrimmed(v: Vault, q: Pool)
    requires Grows(v, q)
    ensures Rewound(q, Checkpoint(v.tip + 1, |v.pool.coins|, v.pool.value)) == Trimmed(v)
    ensures Clear(v) ==> Trimmed(v) == v.pool
  {
    var c := Checkpoint(v.tip + 1, |v.pool.coins|, v.pool.value);
    assert q.coins[..c.coinsLen] == v.pool.coins;
    assert Rewound(q, c).tags == Trimmed(v).tags;
    if Clear(v) { assert Trimmed(v).tags == v.pool.tags; }
  }

  /** A push is guarded if what popping it leaves is. */
  lemma PushDeep(x: Secrets, v: Vault, q: Pool, exact: bool)
    requires Grows(v, q) && Solid(x, q, exact) && Deep(x, Trimmed(v), v.stack, exact)
    ensures Guarded(x, Vault(q, Pushed(v), v.tip + 1), exact)
  {
    hide Solid;
    var c := Checkpoint(v.tip + 1, |v.pool.coins|, v.pool.value);
    var all := v.stack + [c];
    PoppedIsTrimmed(v, q);
    assert all[..|all| - 1] == v.stack;
    assert Deep(x, q, all, exact);
    DeepWithoutOldest(x, q, all, exact);
  }

  lemma JoinGrows(be: Backend, x: Secrets, v: Vault, txs: seq<ShieldedTx>, exact: bool)
    requires Authentic(be) && Conserving(be, x) && Solid(x, v.pool, exact) && GateOk(be, v.pool, txs, v.tip + 1)
    requires exact ==> PlainAll(be, x, v.pool, txs, |txs|, v.tip + 1)
    ensures
      var q := AdvanceAll(be, v.pool, txs, v.tip + 1);
      Grows(v, q) && Solid(x, q, exact)
  {
    hide Authentic, Conserving, GateOk, PlainAll, ProofsOk;
    GateProves(be, v.pool, txs, v.tip + 1);
    BackedAll(be, x, v.pool, txs, |txs|, v.tip + 1);
    if exact { BalancedAll(be, x, v.pool, txs, |txs|, v.tip + 1); }
    assert txs[..|txs|] == txs;
    AdvanceAllGrows(be, v.pool, txs, v.tip + 1);
  }

  /** One step of any kind keeps the vault guarded, if no tag stands above the tip when a checkpoint is pushed. */
  lemma GuardedStep(be: Backend, x: Secrets, v: Vault, op: Op, exact: bool)
    requires Authentic(be) && Conserving(be, x) && Guarded(x, v, exact)
    requires Pushes(be, v, op) ==> Clear(v)
    requires exact && Pushes(be, v, op) && op.Join? ==> PlainAll(be, x, v.pool, op.txs, |op.txs|, v.tip + 1)
    ensures Guarded(x, After(be, v, op), exact)
  {
    hide Authentic, Conserving, GateOk, PlainAll, Solid, Pushed, Rewound;
    if Pushes(be, v, op) {
      PoppedIsTrimmed(v, v.pool);
      if op.Join? {
        JoinGrows(be, x, v, op.txs, exact);
        PushDeep(x, v, AdvanceAll(be, v.pool, op.txs, v.tip + 1), exact);
      } else {
        PushDeep(x, v, v.pool, exact);
      }
    }
  }

  /** `vs` are the vaults of a run from the empty pool that makes the steps `ops`. */
  ghost predicate Run(be: Backend, vs: seq<Vault>, ops: seq<Op>) {
    && |vs| == |ops| + 1 && vs[0] == START
    && forall i {:trigger ops[i]} | 0 <= i < |ops| :: vs[i + 1] == After(be, vs[i], ops[i])
  }

  /** The blocks joined in a run are made of plain transactions. */
  ghost predicate PlainRun(be: Backend, x: Secrets, vs: seq<Vault>, ops: seq<Op>)
    requires |vs| == |ops| + 1
  {
    forall i | 0 <= i < |ops| && ops[i].Join? && Pushes(be, vs[i], ops[i]) ::
      PlainAll(be, x, vs[i].pool, ops[i].txs, |ops[i].txs|, vs[i].tip + 1)
  }

  /** Whenever a checkpoint is pushed, no tag stands above the tip. */
  ghost predicate ClearPushes(be: Backend, vs: seq<Vault>, ops: seq<Op>)
    requires |vs| == |ops| + 1
  {
    forall i | 0 <= i < |ops| && Pushes(be, vs[i], ops[i]) :: Clear(vs[i])
  }

  lemma StartGuarded(x: Secrets, exact: bool)
    ensures Guarded(x, START, exact)
  {
  }

  /** Over every run, whatever mix of steps: as long as no tag stands above the tip when a checkpoint is pushed, the
      pool value covers all unspent coins, now and after any number of rewinds; and it is exactly their value if every
      transaction is plain. */
  lemma {:induction false} VeilHolds(be: Backend, x: Secrets, vs: seq<Vault>, ops: seq<Op>, j: nat, exact: bool)
    requires Authentic(be) && Conserving(be, x) && Run(be, vs, ops) && ClearPushes(be, vs, ops) && j < |vs|
    requires exact ==> PlainRun(be, x, vs, ops)
    ensures Guarded(x, vs[j], exact)
  {
    hide Authentic, Conserving, Guarded, PlainAll, After, Pushes, Clear;
    if j == 0 {
      StartGuarded(x, exact);
    } else {
      VeilHolds(be, x, vs, ops, j - 1, exact);
      var op := ops[j - 1];
      GuardedStep(be, x, vs[j - 1], op, exact);
    }
  }

  // ---- the condition is exact ----

  /** No coin of value was spent above the tip. */
  ghost predicate Harmless(x: Secrets, v: Vault) {
    Worthless(x, v.pool.coins, v.pool.tags, v.tip)
  }

  ghost predicate Worthless(x: Secrets, coins: seq<Entry>, tags: map<Tag, nat>, tip: nat) {
    forall i | 0 <= i < |coins| ::
      var t := x.tagOf(coins[i].coin);
      t in tags && tags[t] > tip ==> x.worth(coins[i].coin) == 0
  }

  function Upto(tags: map<Tag, nat>, tip: nat): map<Tag, nat> {
    map t | t in tags && tags[t] <= tip :: tags[t]
  }

  /** Forgetting the tags above the tip brings back exactly the value spent there: none, or more than there is. */
  lemma {:induction false} UnspentUpto(x: Secrets, coins: seq<Entry>, tags: map<Tag, nat>, tip: nat)
    ensures Unspent(x, coins, tags) <= Unspent(x, coins, Upto(tags, tip))
    ensures Unspent(x, coins, tags) == Unspent(x, coins, Upto(tags, tip)) <==> Worthless(x, coins, tags, tip)
  {
    if coins != [] {
      var init, e := coins[..|coins| - 1], coins[|coins| - 1];
      UnspentUpto(x, init, tags, tip);
      assert coins == init + [e];
      assert Worthless(x, coins, tags, tip) <==> Worthless(x, init, tags, tip) && Worthless(x, [e], tags, tip) by {
        hide Unspent;
        assert forall i | 0 <= i < |init| :: coins[i] == init[i];
        assert coins[|init|] == e == [e][0];
      }
    }
  }

  /** If only worthless coins come back, popping further is as solid as before. */
  lemma {:induction false} DeepUpto(x: Secrets, s: Pool, stack: seq<Checkpoint>, tip: nat)
    requires Deep(x, s, stack, true) && Worthless(x, s.coins, s.tags, tip)
    ensures Deep(x, s.(tags := Upto(s.tags, tip)), stack, true)
    decreases |stack|
  {
    var r := s.(tags := Upto(s.tags, tip));
    UnspentUpto(x, s.coins, s.tags, tip);
    if stack != [] {
      var c := stack[|stack| - 1];
      var q := Rewound(s, c);
      assert Worthless(x, q.coins, q.tags, tip) by { assert forall i | 0 <= i < |q.coins| :: q.coins[i] == s.coins[i]; }
      DeepUpto(x, q, stack[..|stack| - 1], tip);
      assert Rewound(r, c).tags == Upto(q.tags, tip);
      assert Rewound(r, c) == q.(tags := Upto(q.tags, tip));
    }
  }

  /** On a balanced vault a push is guarded if and only if no coin of value was spent above the tip. */
  lemma PushExact(x: Secrets, v: Vault, q: Pool)
    requires Guarded(x, v, true) && Grows(v, q) && Solid(x, q, true)
    ensures Guarded(x, Vault(q, Pushed(v), v.tip + 1), true) <==> Harmless(x, v)
  {
    assert Trimmed(v) == v.pool.(tags := Upto(v.pool.tags, v.tip));
    UnspentUpto(x, v.pool.coins, v.pool.tags, v.tip);
    if Harmless(x, v) {
      DeepUpto(x, v.pool, v.stack, v.tip);
      PushDeep(x, v, q, true);
    } else {
      PoppedIsTrimmed(v, q);
      PushedTop(v);
      assert !Solid(x, Trimmed(v), true);
      var stack := Pushed(v);
      assert !Deep(x, Rewound(q, stack[|stack| - 1]), stack[..|stack| - 1], true);
      assert !Deep(x, q, stack, true);
    }
  }

  lemma PushedTop(v: Vault)
    ensures Pushed(v) != [] && Pushed(v)[|Pushed(v)| - 1] == Checkpoint(v.tip + 1, |v.pool.coins|, v.pool.value)
  {
  }

  // ---- where a tag can come to stand above the tip ----

  /** Checkpoint heights increase up to the tip's, and no tag is above it. */
  ghost predicate Aligned(v: Vault) {
    && (forall i, j | 0 <= i < j < |v.stack| :: v.stack[i].height < v.stack[j].height)
    && (v.stack != [] ==> v.stack[|v.stack| - 1].height <= v.tip)
    && Clear(v)
  }

  /** The tip falls and the pool stays: the body is not cached, or there is no checkpoint. */
  predicate Falls(v: Vault, op: Op) {
    v.tip > 0 && (op.Lose? || (op.Leave? && !Rewindable(v)))
  }

  /** Neither a tag nor a checkpoint stands at the tip's height. */
  predicate Untied(v: Vault) {
    && (forall t | t in v.pool.tags :: v.pool.tags[t] != v.tip)
    && (v.stack != [] ==> v.stack[|v.stack| - 1].height != v.tip)
  }

  /** A fall keeps a vault aligned if and only if neither a tag nor a checkpoint stands at the tip's height. */
  lemma FallExact(be: Backend, v: Vault, op: Op)
    requires Aligned(v) && Falls(v, op)
    ensures Aligned(After(be, v, op)) <==> Untied(v)
  {
  }

  /** Every other step keeps it aligned. */
  lemma AlignedStep(be: Backend, v: Vault, op: Op)
    requires Aligned(v) && (Falls(v, op) ==> Untied(v))
    ensures Aligned(After(be, v, op))
  {
    hide GateOk;
    if op.Join? { AdvanceAllGrows(be, v.pool, op.txs, v.tip + 1); }
  }

  /** So a run all of whose falls are untied never pushes a checkpoint below a tag. */
  lemma {:induction false} UntiedRun(be: Backend, vs: seq<Vault>, ops: seq<Op>, j: nat)
    requires Run(be, vs, ops) && j < |vs| && forall i | 0 <= i < |ops| && Falls(vs[i], ops[i]) :: Untied(vs[i])
    ensures Aligned(vs[j]) && Clear(vs[j])
  {
    hide After, Falls, Untied;
    if j > 0 {
      UntiedRun(be, vs, ops, j - 1);
      var op := ops[j - 1];
      AlignedStep(be, vs[j - 1], op);
    }
  }

  // ---- the store as the node runs it ----

  ghost function Seen(store: SparkPoolStore, tip: nat): Vault
    reads store
  {
    Vault(store.Contents(), store.checkpoints, tip)
  }

  /** One step on the store. */
  method Step(store: SparkPoolStore, be: Backend, op: Op, tip: nat) returns (now: nat)
    requires store.Valid() && Authentic(be) && (op.Join? ==> FundedApart(op.txs))
    modifies store
    ensures store.Valid() && Seen(store, now) == After(be, old(Seen(store, tip)), op)
  {
    hide Authentic, GateOk, AdvanceAll, FundedApart, Rewound;
    now := tip;
    match op
    case Join(txs) =>
      var ok := ConnectBlock(store, be, txs, tip + 1);
      if ok { now := tip + 1; }
    case Leave =>
      var ok := store.Rewind();
      now := Lower(tip);
    case Lose => now := Lower(tip);
    case PutBack =>
      store.CheckpointAt(tip + 1);
      now := tip + 1;
    case Remap => now := tip + 1;
    case Restart => store.Reopen();
  }

  /** Whatever steps the node makes on its store, they are a run; so the pool value covers all unspent coins, now and
      after any number of rewinds, as long as no checkpoint was pushed below a tag. */
  method Drive(be: Backend, ghost x: Secrets, ops: seq<Op>)
    returns (store: SparkPoolStore, tip: nat, ghost vs: seq<Vault>)
    requires Authentic(be) && Conserving(be, x) && forall op | op in ops && op.Join? :: FundedApart(op.txs)
    ensures fresh(store) && store.Valid() && Run(be, vs, ops) && vs[|ops|] == Seen(store, tip)
    ensures ClearPushes(be, vs, ops) ==> Guarded(x, Seen(store, tip), false)
  {
    hide Guarded, Authentic, Conserving, FundedApart, SparkPoolStore.Valid, After, Pushes, Clear;
    store := new SparkPoolStore();
    tip, vs := 0, [Seen(store, 0)];
    var i := 0;
    while i < |ops|
      invariant i <= |ops| && fresh(store) && store.Valid()
      invariant Run(be, vs, ops[..i]) && vs[i] == Seen(store, tip)
    {
      assert ops[i] in ops;
      tip := Step(store, be, ops[i], tip);
      assert ops[..i + 1] == ops[..i] + [ops[i]];
      vs := vs + [Seen(store, tip)];
      i := i + 1;
    }
    assert ops[..i] == ops;
    if ClearPushes(be, vs, ops) { VeilHolds(be, x, vs, ops, |ops|, false); }
  }
}
