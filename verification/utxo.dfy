/** The transparent output set: block connect, block disconnect, and when one undoes the other. */
module UtxoSet {
  import opened Types

  /** Output key `(tx hash, index)`; the source narrows the index to one byte. */
  type OutKey = (Hash, nat)

  datatype OutRef = OutRef(tag: nat, height: nat, coinbase: bool)

  /** The live outputs, the spent key images, and the two counters the source never decreases. */
  datatype Utxo = Utxo(
    outputs: map<OutKey, OutRef>,
    keyImages: set<KeyImage>,
    ever: nat,
    disconnects: nat)

  const EMPTY := Utxo(map[], {}, 0, 0)

  /** An output index narrowed to one byte. */
  function Narrow(i: nat): nat {
    i % 256
  }

  lemma NarrowSmall(i: nat)
    requires i < 256
    ensures Narrow(i) == i
  {
  }

  /** The first `n` outputs of `tx`, later ones winning a clash of narrowed indexes. */
  function TxOutputs(tx: Tx, height: nat, n: nat): map<OutKey, OutRef>
    requires n <= |tx.outputs|
  {
    if n == 0 then map[]
    else TxOutputs(tx, height, n - 1)[(tx.id, Narrow(n - 1)) := OutRef(tx.outputs[n - 1], height, tx.coinbase)]
  }

  /** Every output a list of transactions creates, in batch order. */
  function Created(txs: seq<Tx>, height: nat): map<OutKey, OutRef> {
    if txs == [] then map[]
    else
      var last := txs[|txs| - 1];
      Created(txs[..|txs| - 1], height) + TxOutputs(last, height, |last.outputs|)
  }

  /** Number of outputs a list of transactions creates. */
  function OutputCount(txs: seq<Tx>): nat {
    if txs == [] then 0 else OutputCount(txs[..|txs| - 1]) + |txs[|txs| - 1].outputs|
  }

  /** Key images the non-coinbase transactions spend. */
  function Spent(txs: seq<Tx>): set<KeyImage> {
    set t, i | 0 <= t < |txs| && !txs[t].coinbase && 0 <= i < |txs[t].keyImages| :: txs[t].keyImages[i]
  }

  /** `apply_batch(batch_from_block(..))`: outputs are inserted, key images marked. */
  function Connect(u: Utxo, b: Block): Utxo {
    Utxo(u.outputs + Created(b.txs, b.height), u.keyImages + Spent(b.txs), u.ever + OutputCount(b.txs), u.disconnects)
  }

  /** `apply_batch(batch_disconnect_block(..))`: outputs are removed, key images un-marked. */
  function Disconnect(u: Utxo, b: Block): Utxo {
    var removed := Created(b.txs, b.height).Keys;
    Utxo(u.outputs - removed, u.keyImages - Spent(b.txs), u.ever, u.disconnects + |removed * u.outputs.Keys|)
  }

  /** The count of outputs ever created never falls. */
  lemma EverGrows(u: Utxo, b: Block)
    ensures Connect(u, b).ever >= u.ever && Disconnect(u, b).ever == u.ever
  {
  }

  /** No output key and no key image of the block is already in the set. */
  ghost predicate Unseen(b: Block, outputs: map<OutKey, OutRef>, keyImages: set<KeyImage>) {
    Created(b.txs, b.height).Keys !! outputs.Keys && Spent(b.txs) !! keyImages
  }

  /** What block validation guarantees of a block's own shape. */
  ghost predicate WellFormed(b: Block) {
    && (forall i, j | 0 <= i < j < |b.txs| :: b.txs[i].id != b.txs[j].id)
    && (forall i | 0 <= i < |b.txs| :: |b.txs[i].outputs| <= 256)
  }

  /** The parts of the set that do not count history are equal. */
  ghost predicate SameContents(u: Utxo, v: Utxo) {
    u.outputs == v.outputs && u.keyImages == v.keyImages
  }

  /** Disconnecting the block just connected restores the set exactly when the block was unseen. */
  lemma DisconnectUndoesConnect(u: Utxo, b: Block)
    ensures SameContents(Disconnect(Connect(u, b), b), u) <==> Unseen(b, u.outputs, u.keyImages)
  {
    var v := Disconnect(Connect(u, b), b);
    var made := Created(b.txs, b.height);
    if Unseen(b, u.outputs, u.keyImages) {
      assert v.outputs.Keys == u.outputs.Keys;
      assert v.outputs == u.outputs;
      assert v.keyImages == u.keyImages;
    }
    if SameContents(v, u) {
      assert v.outputs.Keys !! made.Keys;
      assert v.keyImages !! Spent(b.txs);
    }
  }

  /** Connecting the block just disconnected restores the set when the block's own entries were there. */
  lemma ConnectUndoesDisconnect(u: Utxo, b: Block)
    requires u.outputs.Keys >= Created(b.txs, b.height).Keys
    requires forall k | k in Created(b.txs, b.height) :: u.outputs[k] == Created(b.txs, b.height)[k]
    requires u.keyImages >= Spent(b.txs)
    ensures SameContents(Connect(Disconnect(u, b), b), u)
  {
    hide Created, Spent;
    var v := Connect(Disconnect(u, b), b);
    assert v.outputs.Keys == u.outputs.Keys;
    assert v.outputs == u.outputs;
    assert v.keyImages == u.keyImages;
  }

  lemma {:induction false} TxOutputKeys(tx: Tx, height: nat, n: nat)
    requires n <= |tx.outputs| <= 256
    ensures forall k :: k in TxOutputs(tx, height, n) <==> k.0 == tx.id && k.1 < n
    ensures |TxOutputs(tx, height, n).Keys| == n
  {
    if n > 0 {
      hide Narrow;
      NarrowSmall(n - 1);
      TxOutputKeys(tx, height, n - 1);
      var before, last := TxOutputs(tx, height, n - 1), (tx.id, n - 1);
      assert TxOutputs(tx, height, n) == before[last := OutRef(tx.outputs[n - 1], height, tx.coinbase)];
      hide TxOutputs;
      assert before[last := OutRef(tx.outputs[n - 1], height, tx.coinbase)].Keys == before.Keys + {last};
    }
  }

  /** `k` names an output of `tx`. */
  predicate Owns(tx: Tx, k: OutKey) {
    k.0 == tx.id && k.1 < |tx.outputs|
  }

  lemma {:induction false} CreatedIds(txs: seq<Tx>, height: nat, k: OutKey)
    requires forall i | 0 <= i < |txs| :: |txs[i].outputs| <= 256
    ensures k in Created(txs, height) <==> exists i | 0 <= i < |txs| :: Owns(txs[i], k)
  {
    if txs != [] {
      var init, last := txs[..|txs| - 1], txs[|txs| - 1];
      assert forall i | 0 <= i < |init| :: init[i] == txs[i];
      CreatedIds(init, height, k);
      TxOutputKeys(last, height, |last.outputs|);
      assert k in TxOutputs(last, height, |last.outputs|) <==> Owns(last, k);
      assert Owns(txs[|txs| - 1], k) <==> Owns(last, k);
      if exists i | 0 <= i < |init| :: Owns(init[i], k) {
        var i :| 0 <= i < |init| && Owns(init[i], k);
        assert Owns(txs[i], k);
      }
    }
  }

  /** Outputs of a well-formed block never collide, so it creates as many entries as it has outputs. */
  lemma {:induction false} CreatedCount(txs: seq<Tx>, height: nat)
    requires forall i, j | 0 <= i < j < |txs| :: txs[i].id != txs[j].id
    requires forall i | 0 <= i < |txs| :: |txs[i].outputs| <= 256
    ensures |Created(txs, height).Keys| == OutputCount(txs)
  {
    if txs != [] {
      var init, last := txs[..|txs| - 1], txs[|txs| - 1];
      assert forall i | 0 <= i < |init| :: init[i] == txs[i];
      CreatedCount(init, height);
      TxOutputKeys(last, height, |last.outputs|);
      var a, c := Created(init, height).Keys, TxOutputs(last, height, |last.outputs|).Keys;
      forall k | k in a ensures k !in c { CreatedIds(init, height, k); }
      assert Created(txs, height).Keys == a + c;
    }
  }

  /** Same contents, and the same number of outputs created and not disconnected. */
  ghost predicate Equivalent(u: Utxo, v: Utxo) {
    SameContents(u, v) && u.ever - u.disconnects == v.ever - v.disconnects
  }

  lemma EquivalentSelf(u: Utxo)
    ensures Equivalent(u, u)
  {
  }

  lemma EquivalentConnect(u: Utxo, v: Utxo, b: Block)
    requires Equivalent(u, v)
    ensures Equivalent(Connect(u, b), Connect(v, b))
  {
  }

  lemma EquivalentDisconnect(u: Utxo, v: Utxo, b: Block)
    requires Equivalent(u, v)
    ensures Equivalent(Disconnect(u, b), Disconnect(v, b))
  {
  }

  /** Disconnect after connect leads back, counters included. */
  lemma UndoEquivalent(u: Utxo, b: Block)
    requires WellFormed(b) && Unseen(b, u.outputs, u.keyImages)
    ensures Equivalent(Disconnect(Connect(u, b), b), u)
  {
    DisconnectUndoesConnect(u, b);
    var made := Created(b.txs, b.height);
    CreatedCount(b.txs, b.height);
    assert made.Keys * Connect(u, b).outputs.Keys == made.Keys;
  }

  /** Connect after disconnect leads back, counters included. */
  lemma RedoEquivalent(u: Utxo, b: Block)
    requires WellFormed(b)
    requires u.outputs.Keys >= Created(b.txs, b.height).Keys
    requires forall k | k in Created(b.txs, b.height) :: u.outputs[k] == Created(b.txs, b.height)[k]
    requires u.keyImages >= Spent(b.txs)
    ensures Equivalent(Connect(Disconnect(u, b), b), u)
  {
    ConnectUndoesDisconnect(u, b);
    var made := Created(b.txs, b.height);
    CreatedCount(b.txs, b.height);
    assert made.Keys * u.outputs.Keys == made.Keys;
  }
}
