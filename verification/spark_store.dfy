/** The pool store as the node runs it: mutable fields, an outpoint index and a stack of reorg checkpoints. */
module SparkStore {
  import opened Types
  import opened SparkPool

  const MAX_CHECKPOINTS: nat := 1000

  class SparkPoolStore {
    var coins: seq<Entry>
    var byOutpoint: map<Outpoint, nat>
    var spentTags: map<Tag, nat>
    var poolValue: int
    var checkpoints: seq<Checkpoint>

    /** The index lists exactly the coins, and each checkpoint lies within the ones above it. */
    ghost predicate Valid()
      reads `coins, `byOutpoint, `checkpoints
    {
      && (forall op | op in byOutpoint :: byOutpoint[op] < |coins| && coins[byOutpoint[op]].outpoint == op)
      && (forall i | 0 <= i < |coins| :: coins[i].outpoint in byOutpoint && byOutpoint[coins[i].outpoint] == i)
      && (forall i | 0 <= i < |checkpoints| :: checkpoints[i].coinsLen <= |coins|)
      && (forall i, j | 0 <= i < j < |checkpoints| :: checkpoints[i].coinsLen <= checkpoints[j].coinsLen)
    }

    function Contents(): Pool
      reads this
    {
      Pool(coins, spentTags, poolValue)
    }

    constructor ()
      ensures Valid() && Contents() == EMPTY && checkpoints == []
    {
      coins, byOutpoint, spentTags, poolValue, checkpoints := [], map[], map[], 0, [];
    }

    lemma IndexKnows(op: Outpoint)
      requires Valid()
      ensures op in byOutpoint <==> Knows(coins, op)
    {
      if Knows(coins, op) {
        var i :| 0 <= i < |coins| && coins[i].outpoint == op;
      }
    }

    method AddCoin(op: Outpoint, coin: Coin, height: nat) returns (index: Option<nat>)
      requires Valid()
      modifies `coins, `byOutpoint
      ensures Valid()
      ensures index == if Knows(old(coins), op) then None else Some(|old(coins)|)
      ensures coins == if Knows(old(coins), op) then old(coins) else old(coins) + [Entry(op, coin, height)]
    {
      IndexKnows(op);
      if op in byOutpoint { return None; }
      index := Some(|coins|);
      byOutpoint := byOutpoint[op := |coins|];
      coins := coins + [Entry(op, coin, height)];
    }

    method MarkTagSpent(tag: Tag, height: nat) returns (ok: bool)
      modifies `spentTags
      ensures ok == (tag !in old(spentTags))
      ensures spentTags == if ok then old(spentTags)[tag := height] else old(spentTags)
    {
      if tag in spentTags { return false; }
      spentTags := spentTags[tag := height];
      ok := true;
    }

    method ApplyValueBalance(valueBalance: int) returns (ok: bool)
      modifies `poolValue
      ensures ok == (old(poolValue) - valueBalance >= 0)
      ensures poolValue == if ok then old(poolValue) - valueBalance else old(poolValue)
    {
      var after := poolValue - valueBalance;
      if after < 0 { return false; }
      poolValue := after;
      ok := true;
    }

    method CheckpointAt(height: nat)
      requires Valid()
      modifies `checkpoints
      ensures Valid() && checkpoints != []
      ensures checkpoints[|checkpoints| - 1] == Checkpoint(height, |coins|, poolValue)
      ensures
        var all := old(checkpoints) + [Checkpoint(height, |coins|, poolValue)];
        checkpoints == if |all| > MAX_CHECKPOINTS then all[1..] else all
    {
      checkpoints := checkpoints + [Checkpoint(height, |coins|, poolValue)];
      if |checkpoints| > MAX_CHECKPOINTS { checkpoints := checkpoints[1..]; }
    }

    /** Disconnect the most recent block. */
    method Rewind() returns (ok: bool)
      requires Valid()
      modifies this
      ensures Valid() && ok == (old(checkpoints) != [])
      ensures !ok ==> unchanged(this)
      ensures ok ==>
        && checkpoints == old(checkpoints)[..|old(checkpoints)| - 1]
        && Contents() == Rewound(old(Contents()), old(checkpoints)[|old(checkpoints)| - 1])
    {
      if checkpoints == [] { return false; }
      var restore := checkpoints[|checkpoints| - 1];
      checkpoints := checkpoints[..|checkpoints| - 1];
      var i := restore.coinsLen;
      while i < |coins|
        modifies `byOutpoint
        invariant restore.coinsLen <= i <= |coins|
        invariant forall op | op in byOutpoint :: op in old(byOutpoint) && byOutpoint[op] == old(byOutpoint)[op]
        invariant forall op | op in old(byOutpoint) ::
                    op in byOutpoint <==> !(restore.coinsLen <= old(byOutpoint)[op] < i)
      {
        byOutpoint := byOutpoint - {coins[i].outpoint};
        i := i + 1;
      }
      coins := coins[..restore.coinsLen];
      spentTags := map t | t in spentTags && spentTags[t] < restore.height :: spentTags[t];
      poolValue := restore.value;
      ok := true;
    }

    /** `open_with_db`: coins, tags and value come back from disk, the checkpoint stack does not. */
    method Reopen()
      requires Valid()
      modifies `checkpoints
      ensures Valid() && checkpoints == []
    {
      checkpoints := [];
    }

    // ---- the gate ----

    /** No coin of an authenticated mint is in the pool. */
    method MintPasses(be: Backend, tx: ShieldedTx, mint: Bundle, valueBalance: int) returns (ok: bool)
      requires Valid()
      ensures ok <==> MintOk(be, Contents(), tx, mint, valueBalance)
    {
      if valueBalance >= 0 { return false; }
      var m := be.mintBundle(mint);
      if m.None? || m.value.0 != -valueBalance { return false; }
      var i := 0;
      while i < |m.value.1|
        invariant 0 <= i <= |m.value.1|
        invariant forall k | 0 <= k < i :: !Knows(coins, be.outpoint(multiset(tx.inputs), k))
      {
        IndexKnows(be.outpoint(multiset(tx.inputs), i));
        if be.outpoint(multiset(tx.inputs), i) in byOutpoint { return false; }
        i := i + 1;
      }
      ok := true;
    }

    /** The checks on one payload that need no proof. */
    method ShapePasses(be: Backend, tx: ShieldedTx, height: nat) returns (ok: bool)
      requires Valid() && V2(tx)
      ensures ok <==> ShapeOk(be, Contents(), tx, height)
    {
      hide MintOk, Valid;
      var p := tx.payload.value;
      if !be.bridgeOpen(height) {
        if tx.inputs != [] || tx.outputs != [] || p.valueBalance != 0 { return false; }
      }
      if p.mint.Some? && p.spend.Some? { return false; }
      if !be.bridgeOk(tx) { return false; }
      if p.outputs != [] { return false; }
      if p.valueBalance < 0 && p.mint.None? { return false; }
      if p.mint.None? && p.spend.None? { return false; }
      if p.mint.Some? {
        var minted := MintPasses(be, tx, p.mint.value, p.valueBalance);
        if !minted { return false; }
      }
      if p.spend.Some? {
        if be.spendVout(p.spend.value.bundle) != Some(0) { return false; }
      }
      if p.valueBalance != 0 && p.mint.None? && p.spend.Some? {
        var fee := be.spendFee(p.spend.value.bundle);
        if fee.None? || p.valueBalance != fee.value { return false; }
      }
      ok := true;
    }

    /** First pass of the gate: shapes and the simulated pool value. */
    method ShapesPass(be: Backend, txs: seq<ShieldedTx>, height: nat) returns (ok: bool)
      requires Valid()
      ensures ok <==>
        && (forall i | 0 <= i < |txs| && V2(txs[i]) :: ShapeOk(be, Contents(), txs[i], height))
        && NeverNegative(poolValue, txs)
    {
      hide ShapeOk, Valid;
      var i, simulated := 0, poolValue;
      assert txs[..0] == [];
      while i < |txs|
        invariant 0 <= i <= |txs| && simulated == Simulated(poolValue, txs[..i])
        invariant forall k | 0 <= k < i && V2(txs[k]) :: ShapeOk(be, Contents(), txs[k], height)
        invariant forall n | 0 < n <= i && V2(txs[n - 1]) :: Simulated(poolValue, txs[..n]) >= 0
      {
        assert txs[..i + 1][..i] == txs[..i];
        if V2(txs[i]) {
          var shaped := ShapePasses(be, txs[i], height);
          if !shaped { return false; }
          simulated := simulated - txs[i].payload.value.valueBalance;
          assert simulated == Simulated(poolValue, txs[..i + 1]);
          if simulated < 0 {
            assert V2(txs[i + 1 - 1]) && Simulated(poolValue, txs[..i + 1]) < 0;
            return false;
          }
        }
        i := i + 1;
      }
      ok := true;
    }

    /** Second pass: every spend proof holds on this pool and shows unspent tags. */
    method ProofsPass(be: Backend, txs: seq<ShieldedTx>) returns (ok: bool, tags: seq<Tag>)
      ensures ok <==> forall i | 0 <= i < |txs| && V2(txs[i]) :: Proven(be, Contents(), txs[i]).Some?
      ensures ok ==> tags == AllTags(be, Contents(), txs)
    {
      hide Proven;
      var i := 0;
      tags := [];
      assert txs[..0] == [];
      while i < |txs|
        invariant 0 <= i <= |txs| && tags == AllTags(be, Contents(), txs[..i])
        invariant forall k | 0 <= k < i && V2(txs[k]) :: Proven(be, Contents(), txs[k]).Some?
      {
        assert txs[..i + 1][..i] == txs[..i];
        if V2(txs[i]) {
          var shown := Proven(be, Contents(), txs[i]);
          if shown.None? { return false, []; }
          tags := tags + shown.value;
        }
        i := i + 1;
      }
      assert txs[..i] == txs;
      ok := true;
    }

    /** Last pass: no tag is shown twice within the block. */
    static method TagsDiffer(tags: seq<Tag>) returns (ok: bool)
      ensures ok <==> Distinct(tags)
    {
      var i := 0;
      var seen: set<Tag> := {};
      while i < |tags|
        invariant 0 <= i <= |tags| && Distinct(tags[..i])
        invariant forall t :: t in seen <==> t in tags[..i]
      {
        if tags[i] in seen {
          var k :| 0 <= k < i && tags[..i][k] == tags[i];
          assert tags[k] == tags[i];
          return false;
        }
        assert tags[..i + 1] == tags[..i] + [tags[i]];
        seen := seen + {tags[i]};
        i := i + 1;
      }
      assert tags[..i] == tags;
      ok := true;
    }

    /** `verify_block_spark_v2_at_height`: nothing is changed, and the block passes exactly when it may be applied. */
    method VerifyBlock(be: Backend, txs: seq<ShieldedTx>, height: nat) returns (ok: bool)
      requires Valid()
      ensures ok <==> GateOk(be, Contents(), txs, height)
    {
      hide ShapeOk, Proven, NeverNegative, AllTags, Valid, Distinct;
      var shapes := ShapesPass(be, txs, height);
      if !shapes { return false; }
      var proofs, tags := ProofsPass(be, txs);
      if !proofs { return false; }
      ok := TagsDiffer(tags);
    }

    // ---- applying a block ----

    method MarkTags(tags: seq<Tag>, height: nat) returns (ok: bool)
      modifies `spentTags
      ensures ok <==> Markable(old(spentTags), tags)
      ensures ok ==> spentTags == MarkAll(old(spentTags), tags, height)
    {
      var i := 0;
      ghost var was := spentTags;
      assert tags[..0] == [];
      while i < |tags|
        invariant 0 <= i <= |tags| && Markable(was, tags[..i]) && spentTags == MarkAll(was, tags[..i], height)
      {
        MarkAllMarks(was, tags[..i], height);
        assert tags[..i + 1][..i] == tags[..i];
        MarkableNext(was, tags, i);
        var unspent := MarkTagSpent(tags[i], height);
        if !unspent { return false; }
        i := i + 1;
      }
      assert tags[..i] == tags;
      ok := true;
    }

    /** Add coins that must all be new. */
    method AddNew(adds: seq<(Outpoint, Coin)>, height: nat) returns (ok: bool)
      requires Valid()
      modifies `coins, `byOutpoint
      ensures Valid()
      ensures ok <==> Addable(old(coins), adds)
      ensures ok ==> coins == AddAll(old(coins), adds, height)
    {
      var i := 0;
      ghost var was := coins;
      assert adds[..0] == [];
      while i < |adds|
        invariant Valid() && 0 <= i <= |adds| && Addable(was, adds[..i]) && coins == AddAll(was, adds[..i], height)
      {
        assert adds[..i + 1][..i] == adds[..i];
        AddableNext(was, adds, i, height);
        var index := AddCoin(adds[i].0, adds[i].1, height);
        if index.None? { return false; }
        i := i + 1;
      }
      assert adds[..i] == adds;
      ok := true;
    }

    /** Add coins, skipping those already present. */
    method AddMissing(adds: seq<(Outpoint, Coin)>, height: nat)
      requires Valid()
      modifies `coins, `byOutpoint
      ensures Valid() && coins == AddAll(old(coins), adds, height)
    {
      var i := 0;
      ghost var was := coins;
      assert adds[..0] == [];
      while i < |adds|
        invariant Valid() && 0 <= i <= |adds| && coins == AddAll(was, adds[..i], height)
      {
        assert adds[..i + 1][..i] == adds[..i];
        var _ := AddCoin(adds[i].0, adds[i].1, height);
        i := i + 1;
      }
      assert adds[..i] == adds;
    }

    /** Apply one payload; `false` stands for the halt on a consensus fault. */
    method ApplyPayload(be: Backend, tx: ShieldedTx, height: nat) returns (ok: bool)
      requires Valid() && V2(tx)
      modifies `coins, `byOutpoint, `spentTags, `poolValue
      ensures Valid()
      ensures ok <==> Applies(be, old(Contents()), tx, height)
      ensures ok ==> Contents() == Advance(be, old(Contents()), tx, height)
    {
      hide AddAll, MarkAll, Markable, Addable, Valid;
      var p := tx.payload.value;
      if p.spend.Some? && be.spendTags(p.spend.value.bundle).None? { return false; }
      var marked := MarkTags(Tags(be, p), height);
      if !marked { return false; }
      var added := AddNew(Keyed(be, tx.inputs, p.outputs), height);
      if !added { return false; }
      if p.mint.Some? && be.mintBundle(p.mint.value).None? { return false; }
      added := AddNew(Keyed(be, tx.inputs, Minted(be, p)), height);
      if !added { return false; }
      AddMissing(Hashed(be, Released(be, p)), height);
      ok := ApplyValueBalance(p.valueBalance);
    }

    /** `apply_spark_v2_txs`: apply a block's payloads in order. */
    method ApplyBlock(be: Backend, txs: seq<ShieldedTx>, height: nat) returns (ok: bool)
      requires Valid()
      modifies `coins, `byOutpoint, `spentTags, `poolValue
      ensures Valid()
      ensures ok <==> forall n | 0 <= n < |txs| ::
                        Applies(be, AdvanceAll(be, old(Contents()), txs[..n], height), txs[n], height)
      ensures ok ==> Contents() == AdvanceAll(be, old(Contents()), txs, height)
    {
      hide Advance, Applies, Valid;
      var i := 0;
      ghost var was := Contents();
      assert txs[..0] == [];
      while i < |txs|
        invariant Valid() && 0 <= i <= |txs| && Contents() == AdvanceAll(be, was, txs[..i], height)
        invariant forall n | 0 <= n < i :: Applies(be, AdvanceAll(be, was, txs[..n], height), txs[n], height)
      {
        assert txs[..i + 1][..i] == txs[..i];
        if V2(txs[i]) {
          var applied := ApplyPayload(be, txs[i], height);
          if !applied { return false; }
        } else {
          Skipped(be, Contents(), txs[i], height);
        }
        i := i + 1;
      }
      assert txs[..i] == txs;
      ok := true;
    }
  }

  /** What a connect site does: gate, checkpoint, apply. A block that passes the gate is applied without a halt,
      and the pool value is the simulated one. */
  method ConnectBlock(store: SparkPoolStore, be: Backend, txs: seq<ShieldedTx>, height: nat) returns (ok: bool)
    requires store.Valid() && Authentic(be) && FundedApart(txs)
    modifies store
    ensures store.Valid() && (ok <==> GateOk(be, old(store.Contents()), txs, height))
    ensures !ok ==> store.Contents() == old(store.Contents()) && store.checkpoints == old(store.checkpoints)
    ensures ok ==>
      var all := old(store.checkpoints) + [Checkpoint(height, |old(store.coins)|, old(store.poolValue))];
      store.checkpoints == if |all| > MAX_CHECKPOINTS then all[1..] else all
    ensures ok ==>
      && store.Contents() == AdvanceAll(be, old(store.Contents()), txs, height)
      && store.poolValue == Simulated(old(store.poolValue), txs)
  {
    hide GateOk, Applies, Authentic, FundedApart, Simulated, Advance;
    ok := store.VerifyBlock(be, txs, height);
    if ok {
      ghost var was := store.Contents();
      forall n | 0 <= n < |txs| ensures Applies(be, AdvanceAll(be, was, txs[..n], height), txs[n], height) {
        GateAdmits(be, was, txs, n, height);
      }
      SimulatedAll(be, was, txs, height);
      store.CheckpointAt(height);
      var applied := store.ApplyBlock(be, txs, height);
      assert applied;
    }
  }

  lemma SimulatedAll(be: Backend, s: Pool, txs: seq<ShieldedTx>, height: nat)
    requires Authentic(be) && GateOk(be, s, txs, height)
    ensures AdvanceAll(be, s, txs, height).value == Simulated(s.value, txs)
  {
    ReachedAll(be, s, txs, |txs|, height);
    assert txs[..|txs|] == txs;
  }

  lemma MarkableNext(tags: map<Tag, nat>, adds: seq<Tag>, i: nat)
    requires i < |adds| && Markable(tags, adds[..i])
    ensures Markable(tags, adds[..i + 1]) <==> adds[i] !in tags && adds[i] !in adds[..i]
    ensures !Markable(tags, adds[..i + 1]) ==> !Markable(tags, adds)
  {
    var next := adds[..i + 1];
    assert next == adds[..i] + [adds[i]];
    if adds[i] in adds[..i] {
      var k :| 0 <= k < i && adds[k] == adds[i];
      assert next[k] == next[i];
    }
  }

  lemma AddableNext(coins: seq<Entry>, adds: seq<(Outpoint, Coin)>, i: nat, height: nat)
    requires i < |adds| && Addable(coins, adds[..i])
    ensures Addable(coins, adds[..i + 1]) <==> !Knows(AddAll(coins, adds[..i], height), adds[i].0)
    ensures !Addable(coins, adds[..i + 1]) ==> !Addable(coins, adds)
  {
    var now, next := AddAll(coins, adds[..i], height), adds[..i + 1];
    AddAllKnows(coins, adds[..i], height, adds[i].0);
    AddAllHas(coins, adds[..i], height);
    if Knows(coins, adds[i].0) {
      var k :| 0 <= k < |coins| && coins[k].outpoint == adds[i].0;
      assert now[k].outpoint == adds[i].0;
      assert next[i] == adds[i];
    }
    forall k | 0 <= k < i && adds[k].0 == adds[i].0 ensures Knows(now, adds[i].0) && next[k].0 == next[i].0 {
      assert Knows(now, adds[..i][k].0);
    }
  }

  lemma {:induction false} AddAllHas(coins: seq<Entry>, adds: seq<(Outpoint, Coin)>, height: nat)
    ensures coins <= AddAll(coins, adds, height)
    ensures forall k | 0 <= k < |adds| :: Knows(AddAll(coins, adds, height), adds[k].0)
  {
    if adds != [] {
      var init, last := adds[..|adds| - 1], adds[|adds| - 1];
      AddAllHas(coins, init, height);
      var before, after := AddAll(coins, init, height), AddAll(coins, adds, height);
      forall k | 0 <= k < |adds| ensures Knows(after, adds[k].0) {
        if k < |init| {
          assert Knows(before, init[k].0);
          var j :| 0 <= j < |before| && before[j].outpoint == init[k].0;
          assert after[j].outpoint == adds[k].0;
        } else if !Knows(before, last.0) {
          assert after[|before|].outpoint == last.0;
        }
      }
    }
  }

  lemma Skipped(be: Backend, s: Pool, tx: ShieldedTx, height: nat)
    requires !V2(tx)
    ensures Advance(be, s, tx, height) == s && Applies(be, s, tx, height)
  {
  }
}
