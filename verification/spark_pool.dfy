/** The shielded pool: what a block's shielded transactions do to it, the gate in front of it, and why the
    value behind the veil is conserved. */
module SparkPool {
  import opened Types

  type Tag = nat
  type Outpoint = nat
  type Coin = nat
  type Bundle = nat

  datatype Spend = Spend(coverSet: nat, anchor: nat, bundle: Bundle)

  datatype Payload = Payload(mint: Option<Bundle>, outputs: seq<Coin>, spend: Option<Spend>, valueBalance: int)

  /** A transaction as the pool sees it; `payload` is `None` when the extra bytes are no v2 payload. */
  datatype ShieldedTx = ShieldedTx(
    shielded: bool,
    payload: Option<Payload>,
    inputs: seq<KeyImage>,
    outputs: seq<nat>,
    fee: nat)

  /** The cryptographic library and the transparent side of the bridge. */
  datatype Backend = Backend(
    mintBundle: Bundle -> Option<(nat, seq<Coin>)>,              // authenticated total and coins
    spendFee: Bundle -> Option<nat>,
    spendVout: Bundle -> Option<nat>,
    spendTags: Bundle -> Option<seq<Tag>>,
    spendOutputs: Bundle -> Option<seq<Coin>>,
    verify: (seq<Coin>, Bundle, nat, int) -> Option<seq<Tag>>,  // cover set, bundle, fee, value balance
    bridgeOk: ShieldedTx -> bool,                                // value bridge and revealed outputs
    bridgeOpen: nat -> bool,                                     // transparent bridge enabled at a height
    outpoint: (multiset<KeyImage>, nat) -> Outpoint,
    coinKey: Coin -> Outpoint)

  datatype Entry = Entry(outpoint: Outpoint, coin: Coin, height: nat)

  /** Coins in insertion order, spent linking tags with the height that spent them, and the pool value. */
  datatype Pool = Pool(coins: seq<Entry>, tags: map<Tag, nat>, value: int)

  const EMPTY := Pool([], map[], 0)
  const GROUP: nat := 512

  predicate V2(tx: ShieldedTx) {
    tx.shielded && tx.payload.Some?
  }

  ghost predicate Knows(coins: seq<Entry>, op: Outpoint) {
    exists i | 0 <= i < |coins| :: coins[i].outpoint == op
  }

  // ---- applying a block ----

  /** A list of coins, each under the outpoint derived from the transaction's inputs and its position. */
  function Keyed(be: Backend, inputs: seq<KeyImage>, coins: seq<Coin>): seq<(Outpoint, Coin)> {
    seq(|coins|, i requires 0 <= i < |coins| => (be.outpoint(multiset(inputs), i), coins[i]))
  }

  /** Spend outputs are keyed by the hash of the coin. */
  function Hashed(be: Backend, coins: seq<Coin>): seq<(Outpoint, Coin)> {
    seq(|coins|, i requires 0 <= i < |coins| => (be.coinKey(coins[i]), coins[i]))
  }

  /** Add the coins whose outpoint is not known yet. */
  ghost function AddAll(coins: seq<Entry>, adds: seq<(Outpoint, Coin)>, height: nat): seq<Entry> {
    if adds == [] then coins
    else
      var before, last := AddAll(coins, adds[..|adds| - 1], height), adds[|adds| - 1];
      if Knows(before, last.0) then before else before + [Entry(last.0, last.1, height)]
  }

  /** Mark tags that are not marked yet. */
  function MarkAll(tags: map<Tag, nat>, adds: seq<Tag>, height: nat): map<Tag, nat> {
    if adds == [] then tags
    else
      var before, last := MarkAll(tags, adds[..|adds| - 1], height), adds[|adds| - 1];
      if last in before then before else before[last := height]
  }

  function Tags(be: Backend, p: Payload): seq<Tag> {
    if p.spend.None? then []
    else
      match be.spendTags(p.spend.value.bundle)
      case None => []
      case Some(ts) => ts
  }

  function Minted(be: Backend, p: Payload): seq<Coin> {
    if p.mint.None? then []
    else
      match be.mintBundle(p.mint.value)
      case None => []
      case Some(m) => m.1
  }

  function Released(be: Backend, p: Payload): seq<Coin> {
    if p.spend.None? then []
    else
      match be.spendOutputs(p.spend.value.bundle)
      case None => []
      case Some(cs) => cs
  }

  /** The effect of one transaction: tags first, then bare outputs, minted coins, spend outputs, and the
      value that crosses the veil. */
  ghost function Advance(be: Backend, s: Pool, tx: ShieldedTx, height: nat): Pool {
    if !V2(tx) then s
    else
      var p := tx.payload.value;
      var bare := AddAll(s.coins, Keyed(be, tx.inputs, p.outputs), height);
      var minted := AddAll(bare, Keyed(be, tx.inputs, Minted(be, p)), height);
      Pool(
        AddAll(minted, Hashed(be, Released(be, p)), height),
        MarkAll(s.tags, Tags(be, p), height),
        s.value - p.valueBalance)
  }

  ghost function AdvanceAll(be: Backend, s: Pool, txs: seq<ShieldedTx>, height: nat): Pool {
    if txs == [] then s
    else Advance(be, AdvanceAll(be, s, txs[..|txs| - 1], height), txs[|txs| - 1], height)
  }

  /** No tag is marked already and none comes twice. */
  ghost predicate Markable(tags: map<Tag, nat>, adds: seq<Tag>) {
    && (forall i | 0 <= i < |adds| :: adds[i] !in tags)
    && (forall i, j | 0 <= i < j < |adds| :: adds[i] != adds[j])
  }

  /** No outpoint is known already and none comes twice. */
  ghost predicate Addable(coins: seq<Entry>, adds: seq<(Outpoint, Coin)>) {
    && (forall i | 0 <= i < |adds| :: !Knows(coins, adds[i].0))
    && (forall i, j | 0 <= i < j < |adds| :: adds[i].0 != adds[j].0)
  }

  /** Applying the transaction reaches none of the consensus-fault panics. */
  ghost predicate Applies(be: Backend, s: Pool, tx: ShieldedTx, height: nat) {
    V2(tx) ==>
      var p := tx.payload.value;
      var bare := AddAll(s.coins, Keyed(be, tx.inputs, p.outputs), height);
      && (p.spend.Some? ==> be.spendTags(p.spend.value.bundle).Some?)
      && Markable(s.tags, Tags(be, p))
      && Addable(s.coins, Keyed(be, tx.inputs, p.outputs))
      && (p.mint.Some? ==> be.mintBundle(p.mint.value).Some?)
      && Addable(bare, Keyed(be, tx.inputs, Minted(be, p)))
      && s.value - p.valueBalance >= 0
  }

  // ---- the gate ----

  /** The cover set of a spend: its group's coins up to the anchor height. */
  function CoverUpto(coins: seq<Entry>, coverSet: nat, anchor: nat, n: nat): seq<Coin>
    requires n <= |coins|
  {
    if n == 0 then []
    else
      CoverUpto(coins, coverSet, anchor, n - 1)
      + if coverSet * GROUP <= n - 1 < coverSet * GROUP + GROUP && coins[n - 1].height <= anchor
        then [coins[n - 1].coin] else []
  }

  function Cover(s: Pool, spend: Spend): seq<Coin> {
    CoverUpto(s.coins, spend.coverSet, spend.anchor, |s.coins|)
  }

  /** A mint bundle authenticates exactly the value that enters, and none of its coins is in the pool. */
  ghost predicate MintOk(be: Backend, s: Pool, tx: ShieldedTx, mint: Bundle, valueBalance: int) {
    && valueBalance < 0
    && var m := be.mintBundle(mint);
       && m.Some? && m.value.0 == -valueBalance
       && forall i | 0 <= i < |m.value.1| :: !Knows(s.coins, be.outpoint(multiset(tx.inputs), i))
  }

  /** The per-transaction checks that do not need the spend proof. */
  ghost predicate ShapeOk(be: Backend, s: Pool, tx: ShieldedTx, height: nat)
    requires V2(tx)
  {
    var p := tx.payload.value;
    && (be.bridgeOpen(height) || (tx.inputs == [] && tx.outputs == [] && p.valueBalance == 0))
    && !(p.mint.Some? && p.spend.Some?)
    && be.bridgeOk(tx)
    && p.outputs == []
    && !(p.valueBalance < 0 && p.mint.None?)
    && !(p.mint.None? && p.spend.None?)
    && (p.mint.Some? ==> MintOk(be, s, tx, p.mint.value, p.valueBalance))
    && (p.spend.Some? ==> be.spendVout(p.spend.value.bundle) == Some(0))
    && (p.valueBalance != 0 && p.mint.None? && p.spend.Some? ==>
          be.spendFee(p.spend.value.bundle).Some? && p.valueBalance == be.spendFee(p.spend.value.bundle).value)
  }

  /** The tags a verified payload reveals; `None` when its proof or one of its tags is refused. */
  function Proven(be: Backend, s: Pool, tx: ShieldedTx): Option<seq<Tag>>
    requires V2(tx)
  {
    var p := tx.payload.value;
    if p.spend.None? then Some([])
    else
      var cover := Cover(s, p.spend.value);
      if cover == [] then None
      else
        var ts := be.verify(cover, p.spend.value.bundle, tx.fee, p.valueBalance);
        if ts.Some? && (forall t | t in ts.value :: t !in s.tags) then ts else None
  }

  /** Pool value after the transactions, were they applied. */
  function Simulated(value: int, txs: seq<ShieldedTx>): int {
    if txs == [] then value
    else
      var before, last := Simulated(value, txs[..|txs| - 1]), txs[|txs| - 1];
      if V2(last) then before - last.payload.value.valueBalance else before
  }

  ghost predicate NeverNegative(value: int, txs: seq<ShieldedTx>) {
    forall n | 0 < n <= |txs| && V2(txs[n - 1]) :: Simulated(value, txs[..n]) >= 0
  }

  /** All tags the block reveals, in order. */
  function AllTags(be: Backend, s: Pool, txs: seq<ShieldedTx>): seq<Tag> {
    if txs == [] then []
    else
      var before, last := AllTags(be, s, txs[..|txs| - 1]), txs[|txs| - 1];
      if V2(last) && Proven(be, s, last).Some? then before + Proven(be, s, last).value else before
  }

  predicate Distinct(ts: seq<Tag>) {
    forall i, j | 0 <= i < j < |ts| :: ts[i] != ts[j]
  }

  /** Every check of the gate but the running pool value. */
  ghost predicate ProofsOk(be: Backend, s: Pool, txs: seq<ShieldedTx>, height: nat) {
    && (forall i | 0 <= i < |txs| && V2(txs[i]) :: ShapeOk(be, s, txs[i], height) && Proven(be, s, txs[i]).Some?)
    && Distinct(AllTags(be, s, txs))
  }

  /** `verify_block_spark_v2_at_height`. */
  ghost predicate GateOk(be: Backend, s: Pool, txs: seq<ShieldedTx>, height: nat) {
    ProofsOk(be, s, txs, height) && NeverNegative(s.value, txs)
  }

  // ---- what the gate accepts, the apply never refuses ----

  /** Verified tags are the bundle's own, outpoints of funded transactions never collide, and no outpoint is
      the hash of a coin. */
  ghost predicate Authentic(be: Backend) {
    && (forall c, b, f, v :: be.verify(c, b, f, v).Some? ==> be.spendTags(b) == be.verify(c, b, f, v))
    && (forall x, i, y, j | be.outpoint(x, i) == be.outpoint(y, j) && x != multiset{} && y != multiset{} ::
          x == y && i == j)
    && (forall x, i, c | x != multiset{} :: be.outpoint(x, i) != be.coinKey(c))
  }

  predicate Mints(tx: ShieldedTx) {
    V2(tx) && tx.payload.value.mint.Some?
  }

  /** Every mint has an input, and no two mints of the block share a key image. */
  ghost predicate FundedApart(txs: seq<ShieldedTx>) {
    && (forall i | 0 <= i < |txs| && Mints(txs[i]) :: txs[i].inputs != [])
    && (forall i, j | 0 <= i < j < |txs| && Mints(txs[i]) && Mints(txs[j]) ::
          forall k | k in txs[i].inputs :: k !in txs[j].inputs)
  }

  lemma {:induction false} AddAllKnows(coins: seq<Entry>, adds: seq<(Outpoint, Coin)>, height: nat, op: Outpoint)
    ensures coins <= AddAll(coins, adds, height)
    ensures Knows(AddAll(coins, adds, height), op) ==> Knows(coins, op) || exists i | 0 <= i < |adds| :: adds[i].0 == op
  {
    if adds != [] {
      var init, last := adds[..|adds| - 1], adds[|adds| - 1];
      AddAllKnows(coins, init, height, op);
      var before, after := AddAll(coins, init, height), AddAll(coins, adds, height);
      if Knows(after, op) && !Knows(coins, op) {
        if Knows(before, op) {
          var i :| 0 <= i < |init| && init[i].0 == op;
          assert adds[i].0 == op;
        } else {
          var k :| 0 <= k < |after| && after[k].outpoint == op;
          assert forall i | 0 <= i < |before| :: before[i].outpoint != op;
          assert adds[|adds| - 1].0 == op;
        }
      }
    }
  }

  lemma {:induction false} MarkAllMarks(tags: map<Tag, nat>, adds: seq<Tag>, height: nat)
    ensures
      var m := MarkAll(tags, adds, height);
      && (forall t :: t in m <==> t in tags || t in adds)
      && (forall t | t in tags :: m[t] == tags[t])
      && (forall t | t in m && t !in tags :: m[t] == height)
  {
    if adds != [] {
      MarkAllMarks(tags, adds[..|adds| - 1], height);
      assert adds == adds[..|adds| - 1] + [adds[|adds| - 1]];
    }
  }

  /** Where an outpoint in the pool after `n` transactions can come from. */
  ghost predicate Origin(be: Backend, s: Pool, txs: seq<ShieldedTx>, op: Outpoint) {
    || Knows(s.coins, op)
    || (exists c :: be.coinKey(c) == op)
    || (exists j, i | 0 <= j < |txs| && Mints(txs[j]) :: be.outpoint(multiset(txs[j].inputs), i) == op)
  }

  lemma OriginGrows(be: Backend, s: Pool, txs: seq<ShieldedTx>, tx: ShieldedTx, op: Outpoint)
    requires Origin(be, s, txs, op)
    ensures Origin(be, s, txs + [tx], op)
  {
    var more := txs + [tx];
    if !Knows(s.coins, op) && !(exists c :: be.coinKey(c) == op) {
      var j, i :| 0 <= j < |txs| && Mints(txs[j]) && be.outpoint(multiset(txs[j].inputs), i) == op;
      assert more[j] == txs[j];
    }
  }

  lemma AdvanceOrigin(be: Backend, s: Pool, q: Pool, txs: seq<ShieldedTx>, tx: ShieldedTx, height: nat, op: Outpoint)
    requires forall o | Knows(q.coins, o) :: Origin(be, s, txs, o)
    requires V2(tx) ==> tx.payload.value.outputs == []
    requires Knows(Advance(be, q, tx, height).coins, op)
    ensures Origin(be, s, txs + [tx], op)
  {
    if V2(tx) {
      var p := tx.payload.value;
      var minted, released := Keyed(be, tx.inputs, Minted(be, p)), Hashed(be, Released(be, p));
      assert Keyed(be, tx.inputs, p.outputs) == [];
      var mid := AddAll(q.coins, minted, height);
      AddAllKnows(mid, released, height, op);
      AddAllKnows(q.coins, minted, height, op);
      if Knows(q.coins, op) {
        OriginGrows(be, s, txs, tx, op);
      } else if Knows(mid, op) {
        var i :| 0 <= i < |minted| && minted[i].0 == op;
        assert (txs + [tx])[|txs|] == tx;
        assert be.outpoint(multiset((txs + [tx])[|txs|].inputs), i) == op;
      } else {
        var i :| 0 <= i < |released| && released[i].0 == op;
        assert be.coinKey(Released(be, p)[i]) == op;
      }
    } else {
      OriginGrows(be, s, txs, tx, op);
    }
  }

  lemma {:induction false} AllTagsPrefix(be: Backend, s: Pool, txs: seq<ShieldedTx>, n: nat)
    requires n <= |txs|
    ensures AllTags(be, s, txs[..n]) <= AllTags(be, s, txs)
  {
    if n < |txs| {
      AllTagsPrefix(be, s, txs[..|txs| - 1], n);
      assert txs[..|txs| - 1][..n] == txs[..n];
    } else {
      assert txs[..n] == txs;
    }
  }

  /** The pool after the first `n` transactions of an accepted block. */
  ghost predicate Reached(be: Backend, s: Pool, txs: seq<ShieldedTx>, n: nat, q: Pool)
    requires n <= |txs|
  {
    && s.coins <= q.coins
    && q.value == Simulated(s.value, txs[..n])
    && (forall t :: t in q.tags <==> t in s.tags || t in AllTags(be, s, txs[..n]))
    && (forall op | Knows(q.coins, op) :: Origin(be, s, txs[..n], op))
  }

  lemma ReachedStep(be: Backend, s: Pool, txs: seq<ShieldedTx>, n: nat, q: Pool, height: nat)
    requires Authentic(be) && ProofsOk(be, s, txs, height) && n < |txs| && Reached(be, s, txs, n, q)
    ensures Reached(be, s, txs, n + 1, Advance(be, q, txs[n], height))
  {
    var tx, r := txs[n], Advance(be, q, txs[n], height);
    assert txs[..n + 1] == txs[..n] + [tx];
    assert txs[..n + 1][..n] == txs[..n];
    AdvanceGrows(be, q, tx, height);
    if V2(tx) { TagsAreProven(be, s, tx); MarkAllMarks(q.tags, Tags(be, tx.payload.value), height); }
    forall op | Knows(r.coins, op) ensures Origin(be, s, txs[..n + 1], op) {
      AdvanceOrigin(be, s, q, txs[..n], tx, height, op);
    }
  }

  lemma AdvanceGrows(be: Backend, q: Pool, tx: ShieldedTx, height: nat)
    ensures q.coins <= Advance(be, q, tx, height).coins
  {
    if V2(tx) {
      var p := tx.payload.value;
      var bare := AddAll(q.coins, Keyed(be, tx.inputs, p.outputs), height);
      var minted := AddAll(bare, Keyed(be, tx.inputs, Minted(be, p)), height);
      AddAllKnows(q.coins, Keyed(be, tx.inputs, p.outputs), height, 0);
      AddAllKnows(bare, Keyed(be, tx.inputs, Minted(be, p)), height, 0);
      AddAllKnows(minted, Hashed(be, Released(be, p)), height, 0);
    }
  }

  lemma TagsAreProven(be: Backend, s: Pool, tx: ShieldedTx)
    requires Authentic(be) && V2(tx) && Proven(be, s, tx).Some?
    ensures Tags(be, tx.payload.value) == Proven(be, s, tx).value
    ensures tx.payload.value.spend.Some? ==> be.spendTags(tx.payload.value.spend.value.bundle).Some?
    ensures forall t | t in Tags(be, tx.payload.value) :: t !in s.tags
  {
  }

  lemma {:induction false} ReachedAll(be: Backend, s: Pool, txs: seq<ShieldedTx>, n: nat, height: nat)
    requires Authentic(be) && ProofsOk(be, s, txs, height) && n <= |txs|
    ensures Reached(be, s, txs, n, AdvanceAll(be, s, txs[..n], height))
  {
    if n == 0 {
      assert txs[..0] == [];
    } else {
      ReachedAll(be, s, txs, n - 1, height);
      ReachedStep(be, s, txs, n - 1, AdvanceAll(be, s, txs[..n - 1], height), height);
      assert txs[..n][..n - 1] == txs[..n - 1];
    }
  }

  /** The tags of the next transaction are fresh and pairwise distinct. */
  lemma TagsFresh(be: Backend, s: Pool, txs: seq<ShieldedTx>, n: nat, q: Pool, height: nat)
    requires Authentic(be) && ProofsOk(be, s, txs, height) && n < |txs| && V2(txs[n]) && Reached(be, s, txs, n, q)
    ensures Markable(q.tags, Tags(be, txs[n].payload.value))
  {
    var ts, before := Tags(be, txs[n].payload.value), AllTags(be, s, txs[..n]);
    TagsAreProven(be, s, txs[n]);
    assert txs[..n + 1][..n] == txs[..n];
    assert AllTags(be, s, txs[..n + 1]) == before + ts;
    AllTagsPrefix(be, s, txs, n + 1);
    var all := AllTags(be, s, txs);
    forall i | 0 <= i < |ts| ensures ts[i] !in q.tags && all[|before| + i] == ts[i] {
      assert (before + ts)[|before| + i] == ts[i];
      forall k | 0 <= k < |before| ensures before[k] != ts[i] {
        assert all[k] == (before + ts)[k] == before[k];
      }
    }
  }

  /** The minted outpoints of the next transaction are new and pairwise distinct. */
  lemma MintsNew(be: Backend, s: Pool, txs: seq<ShieldedTx>, n: nat, q: Pool, height: nat)
    requires Authentic(be) && FundedApart(txs) && n < |txs| && Mints(txs[n]) && Reached(be, s, txs, n, q)
    requires MintOk(be, s, txs[n], txs[n].payload.value.mint.value, txs[n].payload.value.valueBalance)
    ensures Addable(q.coins, Keyed(be, txs[n].inputs, Minted(be, txs[n].payload.value)))
  {
    var tx := txs[n];
    var x, adds := multiset(tx.inputs), Keyed(be, tx.inputs, Minted(be, tx.payload.value));
    assert tx.inputs[0] in x;
    forall i | 0 <= i < |adds| ensures !Knows(q.coins, adds[i].0) {
      var op := adds[i].0;
      assert op == be.outpoint(x, i);
      forall j, k | 0 <= j < n && Mints(txs[j]) ensures be.outpoint(multiset(txs[j].inputs), k) != op {
        OtherFunding(txs, j, n);
      }
      assert forall j | 0 <= j < n :: txs[..n][j] == txs[j];
      assert !Origin(be, s, txs[..n], op);
    }
  }

  lemma OtherFunding(txs: seq<ShieldedTx>, j: nat, n: nat)
    requires FundedApart(txs) && j < n < |txs| && Mints(txs[j]) && Mints(txs[n])
    ensures multiset(txs[j].inputs) != multiset(txs[n].inputs) && multiset(txs[j].inputs) != multiset{}
  {
    var k := txs[j].inputs[0];
    assert k in txs[j].inputs && k !in txs[n].inputs;
    assert k in multiset(txs[j].inputs) && k !in multiset(txs[n].inputs);
  }

  /** Every transaction of an accepted block is applied without a panic, and the simulated pool value is the
      applied one. */
  lemma GateAdmits(be: Backend, s: Pool, txs: seq<ShieldedTx>, n: nat, height: nat)
    requires Authentic(be) && FundedApart(txs) && GateOk(be, s, txs, height) && n < |txs|
    ensures
      var q := AdvanceAll(be, s, txs[..n], height);
      Applies(be, q, txs[n], height) && q.value == Simulated(s.value, txs[..n])
  {
    var q, tx := AdvanceAll(be, s, txs[..n], height), txs[n];
    ReachedAll(be, s, txs, n, height);
    if V2(tx) {
      var p := tx.payload.value;
      hide AdvanceAll, Origin, Authentic, AllTags;
      TagsFresh(be, s, txs, n, q, height);
      TagsAreProven(be, s, tx);
      assert ShapeOk(be, s, tx, height);
      assert Keyed(be, tx.inputs, p.outputs) == [];
      if Mints(tx) {
        MintsNew(be, s, txs, n, q, height);
      } else {
        assert Keyed(be, tx.inputs, Minted(be, p)) == [];
      }
      assert txs[..n + 1][..n] == txs[..n];
    }
  }

  // ---- the value behind the veil ----

  /** What the proofs are about and nobody sees: the value of a coin, its linking tag, and the coins a spend
      consumes. */
  datatype Secrets = Secrets(worth: Coin -> nat, tagOf: Coin -> Tag, consumed: Bundle -> seq<Coin>)

  function Worth(x: Secrets, coins: seq<Coin>): nat {
    if coins == [] then 0 else Worth(x, coins[..|coins| - 1]) + x.worth(coins[|coins| - 1])
  }

  /** A mint bundle's total is the value of its coins; a verified spend consumes coins of its cover set, shows
      their tags, and its inputs are its outputs plus fee plus vout. */
  ghost predicate Conserving(be: Backend, x: Secrets) {
    && (forall m :: be.mintBundle(m).Some? ==> be.mintBundle(m).value.0 == Worth(x, be.mintBundle(m).value.1))
    && (forall c, b, f, v :: be.verify(c, b, f, v).Some? ==> Balances(be, x, c, b, be.verify(c, b, f, v).value))
  }

  ghost predicate Balances(be: Backend, x: Secrets, cover: seq<Coin>, b: Bundle, ts: seq<Tag>) {
    var spent := x.consumed(b);
    && |ts| == |spent|
    && (forall i | 0 <= i < |spent| :: spent[i] in cover && ts[i] == x.tagOf(spent[i]))
    && be.spendFee(b).Some? && be.spendVout(b).Some?
    && Worth(x, spent) == Worth(x, Outs(be, b)) + be.spendFee(b).value + be.spendVout(b).value
  }

  function Outs(be: Backend, b: Bundle): seq<Coin> {
    match be.spendOutputs(b)
    case None => []
    case Some(cs) => cs
  }

  /** Total value of the pool coins whose tag has not been shown. */
  function Unspent(x: Secrets, coins: seq<Entry>, tags: map<Tag, nat>): nat {
    if coins == [] then 0
    else
      var e := coins[|coins| - 1];
      Unspent(x, coins[..|coins| - 1], tags) + if x.tagOf(e.coin) in tags then 0 else x.worth(e.coin)
  }

  /** The pool value covers every coin that can still be spent. */
  ghost predicate Backed(x: Secrets, s: Pool) {
    s.value >= Unspent(x, s.coins, s.tags)
  }

  lemma {:induction false} UnspentFalls(x: Secrets, coins: seq<Entry>, tags: map<Tag, nat>, t: Tag, height: nat)
    ensures Unspent(x, coins, tags[t := height]) <= Unspent(x, coins, tags)
  {
    if coins != [] { UnspentFalls(x, coins[..|coins| - 1], tags, t, height); }
  }

  /** Showing the tag of a coin in the pool takes at least its value out of the unspent total. */
  lemma {:induction false} UnspentMark(x: Secrets, coins: seq<Entry>, tags: map<Tag, nat>, i: nat, height: nat)
    requires i < |coins| && x.tagOf(coins[i].coin) !in tags
    ensures Unspent(x, coins, tags[x.tagOf(coins[i].coin) := height]) +
      x.worth(coins[i].coin) <= Unspent(x, coins, tags)
  {
    var init, t := coins[..|coins| - 1], x.tagOf(coins[i].coin);
    if i < |init| {
      UnspentMark(x, init, tags, i, height);
    } else {
      UnspentFalls(x, init, tags, t, height);
    }
  }

  lemma {:induction false} UnspentMarkAll(
      x: Secrets, coins: seq<Entry>, tags: map<Tag, nat>, spent: seq<Coin>, ts: seq<Tag>, height: nat)
    requires |ts| == |spent| && Markable(tags, ts)
    requires forall i | 0 <= i < |spent| :: ts[i] == x.tagOf(spent[i]) && Holds(coins, spent[i])
    ensures Unspent(x, coins, MarkAll(tags, ts, height)) + Worth(x, spent) <= Unspent(x, coins, tags)
  {
    if ts != [] {
      var k := |ts| - 1;
      UnspentMarkAll(x, coins, tags, spent[..k], ts[..k], height);
      MarkAllMarks(tags, ts[..k], height);
      assert ts[k] !in ts[..k];
      assert Holds(coins, spent[k]);
      var i :| 0 <= i < |coins| && coins[i].coin == spent[k];
      UnspentMark(x, coins, MarkAll(tags, ts[..k], height), i, height);
    }
  }

  ghost predicate Holds(coins: seq<Entry>, c: Coin) {
    exists i | 0 <= i < |coins| :: coins[i].coin == c
  }

  function Coins(adds: seq<(Outpoint, Coin)>): seq<Coin> {
    seq(|adds|, i requires 0 <= i < |adds| => adds[i].1)
  }

  /** Adding coins raises the unspent total by at most their value. */
  lemma {:induction false} UnspentAdd(
      x: Secrets, coins: seq<Entry>, adds: seq<(Outpoint, Coin)>, tags: map<Tag, nat>, height: nat)
    ensures Unspent(x, AddAll(coins, adds, height), tags) <= Unspent(x, coins, tags) + Worth(x, Coins(adds))
  {
    if adds != [] {
      var init := adds[..|adds| - 1];
      UnspentAdd(x, coins, init, tags, height);
      assert Coins(adds)[..|adds| - 1] == Coins(init);
    }
  }

  lemma {:induction false} CoverHeld(coins: seq<Entry>, coverSet: nat, anchor: nat, n: nat, c: Coin)
    requires n <= |coins| && c in CoverUpto(coins, coverSet, anchor, n)
    ensures Holds(coins, c)
  {
    if c in CoverUpto(coins, coverSet, anchor, n - 1) { CoverHeld(coins, coverSet, anchor, n - 1, c); }
  }

  /** One accepted transaction keeps the pool backed. */
  lemma BackedStep(be: Backend, x: Secrets, s: Pool, q: Pool, tx: ShieldedTx, height: nat)
    requires Authentic(be) && Conserving(be, x) && Backed(x, q) && s.coins <= q.coins
    requires V2(tx) ==>
      ShapeOk(be, s, tx, height) && Proven(be, s, tx).Some? && Markable(q.tags, Tags(be, tx.payload.value))
    ensures Backed(x, Advance(be, q, tx, height))
  {
    if V2(tx) {
      var p := tx.payload.value;
      assert Keyed(be, tx.inputs, p.outputs) == [];
      if p.mint.Some? {
        MintBacked(be, x, s, q, tx, height);
      } else {
        SpendBacked(be, x, s, q, tx, height);
      }
    }
  }

  lemma MintBacked(be: Backend, x: Secrets, s: Pool, q: Pool, tx: ShieldedTx, height: nat)
    requires Conserving(be, x) && Backed(x, q) && Mints(tx) && ShapeOk(be, s, tx, height)
    ensures Backed(x, Advance(be, q, tx, height))
  {
    var p := tx.payload.value;
    var coins := Minted(be, p);
    var adds := Keyed(be, tx.inputs, coins);
    UnspentAdd(x, q.coins, adds, q.tags, height);
    assert Coins(adds) == coins;
    assert Keyed(be, tx.inputs, p.outputs) == [] && Hashed(be, Released(be, p)) == [];
  }

  lemma SpendBacked(be: Backend, x: Secrets, s: Pool, q: Pool, tx: ShieldedTx, height: nat)
    requires Authentic(be) && Conserving(be, x) && Backed(x, q) && s.coins <= q.coins
    requires V2(tx) && !Mints(tx) && ShapeOk(be, s, tx, height) && Proven(be, s, tx).Some?
    requires Markable(q.tags, Tags(be, tx.payload.value))
    ensures Backed(x, Advance(be, q, tx, height))
  {
    var p := tx.payload.value;
    var b, ts := p.spend.value.bundle, Tags(be, p);
    var spent, outs, tags := x.consumed(b), Outs(be, b), MarkAll(q.tags, Tags(be, p), height);
    TagsAreProven(be, s, tx);
    assert Balances(be, x, Cover(s, p.spend.value), b, ts);
    forall i | 0 <= i < |spent| ensures Holds(q.coins, spent[i]) {
      CoverHeld(s.coins, p.spend.value.coverSet, p.spend.value.anchor, |s.coins|, spent[i]);
      var k :| 0 <= k < |s.coins| && s.coins[k].coin == spent[i];
      assert q.coins[k].coin == spent[i];
    }
    UnspentMarkAll(x, q.coins, q.tags, spent, ts, height);
    UnspentAdd(x, q.coins, Hashed(be, outs), tags, height);
    assert Coins(Hashed(be, outs)) == outs;
    assert Keyed(be, tx.inputs, p.outputs) == [] && Keyed(be, tx.inputs, Minted(be, p)) == [];
  }

  lemma {:induction false} BackedAll(be: Backend, x: Secrets, s: Pool, txs: seq<ShieldedTx>, n: nat, height: nat)
    requires Authentic(be) && Conserving(be, x) && ProofsOk(be, s, txs, height) && Backed(x, s) && n <= |txs|
    ensures Backed(x, AdvanceAll(be, s, txs[..n], height))
  {
    if n == 0 {
      assert txs[..0] == [];
    } else {
      var q, tx := AdvanceAll(be, s, txs[..n - 1], height), txs[n - 1];
      assert txs[..n][..n - 1] == txs[..n - 1];
      BackedAll(be, x, s, txs, n - 1, height);
      ReachedAll(be, s, txs, n - 1, height);
      hide Authentic, Conserving, Backed, Advance, ShapeOk, Proven, Markable;
      if V2(tx) { TagsFresh(be, s, txs, n - 1, q, height); }
      BackedStep(be, x, s, q, tx, height);
    }
  }

  /** For a backed pool the running underflow check never fires: a block whose proofs hold is accepted. */
  lemma UnderflowNeverFires(be: Backend, x: Secrets, s: Pool, txs: seq<ShieldedTx>, height: nat)
    requires Authentic(be) && Conserving(be, x) && Backed(x, s)
    ensures GateOk(be, s, txs, height) <==> ProofsOk(be, s, txs, height)
  {
    if ProofsOk(be, s, txs, height) {
      forall n | 0 < n <= |txs| && V2(txs[n - 1]) ensures Simulated(s.value, txs[..n]) >= 0 {
        ReachedAll(be, s, txs, n, height);
        BackedAll(be, x, s, txs, n, height);
      }
    }
  }

  // ---- over whole chains ----

  /** The pool after a chain of blocks, the first at height 1. */
  ghost function PoolOf(be: Backend, blocks: seq<seq<ShieldedTx>>): Pool {
    if blocks == [] then EMPTY
    else AdvanceAll(be, PoolOf(be, blocks[..|blocks| - 1]), blocks[|blocks| - 1], |blocks|)
  }

  /** Every block passed the gate on the pool of the blocks below it. */
  ghost predicate Admitted(be: Backend, blocks: seq<seq<ShieldedTx>>) {
    forall n | 0 <= n < |blocks| :: GateOk(be, PoolOf(be, blocks[..n]), blocks[n], n + 1)
  }

  /** No chain of admitted blocks brings out more than went in: the pool value covers all unspent coins, and so
      is never negative. */
  lemma {:induction false} VeilConserves(be: Backend, x: Secrets, blocks: seq<seq<ShieldedTx>>)
    requires Authentic(be) && Conserving(be, x) && Admitted(be, blocks)
    ensures Backed(x, PoolOf(be, blocks)) && PoolOf(be, blocks).value >= 0
  {
    if blocks != [] {
      var init, last := blocks[..|blocks| - 1], blocks[|blocks| - 1];
      assert Admitted(be, init) by {
        forall n | 0 <= n < |init| ensures GateOk(be, PoolOf(be, init[..n]), init[n], n + 1) {
          assert init[..n] == blocks[..n];
        }
      }
      VeilConserves(be, x, init);
      BackedAll(be, x, PoolOf(be, init), last, |last|, |blocks|);
      assert last[..|last|] == last;
    }
  }

  // ---- exact balance ----

  /** No two pool coins share a linking tag. */
  ghost predicate Twinless(x: Secrets, coins: seq<Entry>) {
    forall i, j | 0 <= i < j < |coins| :: x.tagOf(coins[i].coin) != x.tagOf(coins[j].coin)
  }

  ghost predicate Balanced(x: Secrets, s: Pool) {
    s.value == Unspent(x, s.coins, s.tags)
  }

  /** The transaction brings only new coins: none skipped, none a twin of a pool coin, none already spent; and a
      spend declares its whole fee. */
  ghost predicate Plain(be: Backend, x: Secrets, q: Pool, tx: ShieldedTx, height: nat) {
    V2(tx) ==>
      var p, r := tx.payload.value, Advance(be, q, tx, height);
      && (p.spend.Some? ==> be.spendFee(p.spend.value.bundle) == Some(p.valueBalance))
      && |r.coins| == |q.coins| + |Minted(be, p)| + |Released(be, p)|
      && Twinless(x, r.coins)
      && forall i | |q.coins| <= i < |r.coins| :: x.tagOf(r.coins[i].coin) !in r.tags
  }

  lemma {:induction false} TagAbsent(x: Secrets, coins: seq<Entry>, tags: map<Tag, nat>, t: Tag, height: nat)
    requires forall i | 0 <= i < |coins| :: x.tagOf(coins[i].coin) != t
    ensures Unspent(x, coins, tags[t := height]) == Unspent(x, coins, tags)
  {
    if coins != [] { TagAbsent(x, coins[..|coins| - 1], tags, t, height); }
  }

  /** Without twins, showing a tag takes exactly its coin's value out. */
  lemma {:induction false} MarkExact(x: Secrets, coins: seq<Entry>, tags: map<Tag, nat>, i: nat, height: nat)
    requires i < |coins| && x.tagOf(coins[i].coin) !in tags && Twinless(x, coins)
    ensures Unspent(x, coins, tags[x.tagOf(coins[i].coin) := height]) + x.worth(coins[i].coin) ==
      Unspent(x, coins, tags)
  {
    var init, t := coins[..|coins| - 1], x.tagOf(coins[i].coin);
    if i < |init| {
      MarkExact(x, init, tags, i, height);
    } else {
      TagAbsent(x, init, tags, t, height);
    }
  }

  lemma {:induction false} MarkAllExact(
      x: Secrets, coins: seq<Entry>, tags: map<Tag, nat>, spent: seq<Coin>, ts: seq<Tag>, height: nat)
    requires |ts| == |spent| && Markable(tags, ts) && Twinless(x, coins)
    requires forall i | 0 <= i < |spent| :: ts[i] == x.tagOf(spent[i]) && Holds(coins, spent[i])
    ensures Unspent(x, coins, MarkAll(tags, ts, height)) + Worth(x, spent) == Unspent(x, coins, tags)
  {
    if ts != [] {
      var k := |ts| - 1;
      MarkAllExact(x, coins, tags, spent[..k], ts[..k], height);
      MarkAllMarks(tags, ts[..k], height);
      assert ts[k] !in ts[..k];
      assert Holds(coins, spent[k]);
      var i :| 0 <= i < |coins| && coins[i].coin == spent[k];
      MarkExact(x, coins, MarkAll(tags, ts[..k], height), i, height);
    }
  }

  lemma {:induction false} AddAllCount(coins: seq<Entry>, adds: seq<(Outpoint, Coin)>, height: nat)
    ensures coins <= AddAll(coins, adds, height) && |AddAll(coins, adds, height)| <= |coins| + |adds|
  {
    if adds != [] { AddAllCount(coins, adds[..|adds| - 1], height); }
  }

  /** When no coin is skipped and none of them is spent, the unspent total grows by exactly their value. */
  lemma {:induction false} AddExact(
      x: Secrets, coins: seq<Entry>, adds: seq<(Outpoint, Coin)>, tags: map<Tag, nat>, height: nat)
    requires |AddAll(coins, adds, height)| == |coins| + |adds|
    requires
      var r := AddAll(coins, adds, height);
      forall i | |coins| <= i < |r| :: x.tagOf(r[i].coin) !in tags
    ensures Unspent(x, AddAll(coins, adds, height), tags) == Unspent(x, coins, tags) + Worth(x, Coins(adds))
  {
    if adds != [] {
      var init, last := adds[..|adds| - 1], adds[|adds| - 1];
      AddAllCount(coins, init, height);
      var before, r := AddAll(coins, init, height), AddAll(coins, adds, height);
      assert r == before + [Entry(last.0, last.1, height)];
      assert r[..|before|] == before && r[|before|].coin == last.1;
      AddExact(x, coins, init, tags, height);
      assert Coins(adds)[..|adds| - 1] == Coins(init);
    }
  }

  /** A plain transaction keeps the pool exactly balanced. */
  lemma BalancedStep(be: Backend, x: Secrets, s: Pool, q: Pool, tx: ShieldedTx, height: nat)
    requires Authentic(be) && Conserving(be, x) && Balanced(x, q) && s.coins <= q.coins
    requires V2(tx) ==>
      ShapeOk(be, s, tx, height) && Proven(be, s, tx).Some? && Markable(q.tags, Tags(be, tx.payload.value))
    requires Plain(be, x, q, tx, height)
    ensures Balanced(x, Advance(be, q, tx, height))
  {
    if V2(tx) {
      if Mints(tx) { MintBalanced(be, x, s, q, tx, height); } else { SpendBalanced(be, x, s, q, tx, height); }
    }
  }

  lemma MintBalanced(be: Backend, x: Secrets, s: Pool, q: Pool, tx: ShieldedTx, height: nat)
    requires Conserving(be, x) && Balanced(x, q) && Mints(tx) && ShapeOk(be, s, tx, height)
      && Plain(be, x, q, tx, height)
    ensures Balanced(x, Advance(be, q, tx, height))
  {
    var p := tx.payload.value;
    var adds := Keyed(be, tx.inputs, Minted(be, p));
    assert Keyed(be, tx.inputs, p.outputs) == [] && Hashed(be, Released(be, p)) == [];
    assert Advance(be, q, tx, height).coins == AddAll(q.coins, adds, height);
    AddExact(x, q.coins, adds, q.tags, height);
    assert Coins(adds) == Minted(be, p);
  }

  lemma SpendBalanced(be: Backend, x: Secrets, s: Pool, q: Pool, tx: ShieldedTx, height: nat)
    requires Authentic(be) && Conserving(be, x) && Balanced(x, q) && s.coins <= q.coins
    requires V2(tx) && !Mints(tx) && ShapeOk(be, s, tx, height) && Proven(be, s, tx).Some?
    requires Markable(q.tags, Tags(be, tx.payload.value)) && Plain(be, x, q, tx, height)
    ensures Balanced(x, Advance(be, q, tx, height))
  {
    var p := tx.payload.value;
    var b, ts := p.spend.value.bundle, Tags(be, p);
    var spent, outs, tags := x.consumed(b), Outs(be, b), MarkAll(q.tags, Tags(be, p), height);
    TagsAreProven(be, s, tx);
    assert Balances(be, x, Cover(s, p.spend.value), b, ts);
    forall i | 0 <= i < |spent| ensures Holds(q.coins, spent[i]) {
      CoverHeld(s.coins, p.spend.value.coverSet, p.spend.value.anchor, |s.coins|, spent[i]);
      var k :| 0 <= k < |s.coins| && s.coins[k].coin == spent[i];
      assert q.coins[k].coin == spent[i];
    }
    var adds := Hashed(be, outs);
    assert Keyed(be, tx.inputs, p.outputs) == [] && Keyed(be, tx.inputs, Minted(be, p)) == [];
    hide Authentic, Conserving, ShapeOk, Proven, Cover, Markable;
    var r := AddAll(q.coins, adds, height);
    assert Advance(be, q, tx, height) == Pool(r, tags, q.value - p.valueBalance);
    AddAllCount(q.coins, adds, height);
    assert Twinless(x, q.coins) by { assert forall i | 0 <= i < |q.coins| :: r[i] == q.coins[i]; }
    MarkAllExact(x, q.coins, q.tags, spent, ts, height);
    AddExact(x, q.coins, adds, tags, height);
    assert Coins(adds) == outs;
  }

  /** The first `n` transactions are plain, each on the pool the ones before it leave. */
  ghost predicate PlainAll(be: Backend, x: Secrets, s: Pool, txs: seq<ShieldedTx>, n: nat, height: nat)
    requires n <= |txs|
  {
    forall k | 0 <= k < n :: Plain(be, x, AdvanceAll(be, s, txs[..k], height), txs[k], height)
  }

  /** A block of plain transactions keeps the pool exactly balanced. */
  lemma {:induction false} BalancedAll(be: Backend, x: Secrets, s: Pool, txs: seq<ShieldedTx>, n: nat, height: nat)
    requires Authentic(be) && Conserving(be, x) && ProofsOk(be, s, txs, height) && Balanced(x, s)
    requires n <= |txs| && PlainAll(be, x, s, txs, n, height)
    ensures Balanced(x, AdvanceAll(be, s, txs[..n], height))
  {
    if n == 0 {
      assert txs[..0] == [];
    } else {
      var q, tx := AdvanceAll(be, s, txs[..n - 1], height), txs[n - 1];
      assert txs[..n][..n - 1] == txs[..n - 1];
      BalancedAll(be, x, s, txs, n - 1, height);
      ReachedAll(be, s, txs, n - 1, height);
      hide Authentic, Conserving, Balanced, Advance, ShapeOk, Proven, Markable, Plain;
      if V2(tx) { TagsFresh(be, s, txs, n - 1, q, height); }
      BalancedStep(be, x, s, q, tx, height);
    }
  }

  /** On every chain of admitted blocks of plain transactions the pool value is exactly that of the unspent coins. */
  lemma {:induction false} VeilBalances(be: Backend, x: Secrets, blocks: seq<seq<ShieldedTx>>)
    requires Authentic(be) && Conserving(be, x) && Admitted(be, blocks)
    requires forall n | 0 <= n < |blocks| :: PlainAll(be, x, PoolOf(be, blocks[..n]), blocks[n], |blocks[n]|, n + 1)
    ensures Balanced(x, PoolOf(be, blocks))
  {
    if blocks != [] {
      var init, last := blocks[..|blocks| - 1], blocks[|blocks| - 1];
      assert forall n | 0 <= n <= |init| :: init[..n] == blocks[..n];
      assert GateOk(be, PoolOf(be, init), last, |blocks|) && PlainAll(be, x, PoolOf(be, init), last, |last|, |blocks|);
      hide PlainAll, GateOk, Authentic, Conserving;
      VeilBalances(be, x, init);
      GateProves(be, PoolOf(be, init), last, |blocks|);
      BalancedAll(be, x, PoolOf(be, init), last, |last|, |blocks|);
      assert last[..|last|] == last;
    }
  }

  lemma GateProves(be: Backend, s: Pool, txs: seq<ShieldedTx>, height: nat)
    requires GateOk(be, s, txs, height)
    ensures ProofsOk(be, s, txs, height)
  {
  }

  // ---- reorg checkpoints ----

  /** A checkpoint taken before a block: its height, how many coins there were, and the pool value. */
  datatype Checkpoint = Checkpoint(height: nat, coinsLen: nat, value: int)

  /** `rewind`: coins past the boundary and tags spent at or above the height go. */
  function Rewound(s: Pool, c: Checkpoint): Pool
    requires c.coinsLen <= |s.coins|
  {
    Pool(s.coins[..c.coinsLen], map t | t in s.tags && s.tags[t] < c.height :: s.tags[t], c.value)
  }

  lemma {:induction false} AdvanceAllGrows(be: Backend, s: Pool, txs: seq<ShieldedTx>, height: nat)
    ensures
      var q := AdvanceAll(be, s, txs, height);
      && s.coins <= q.coins
      && (forall t | t in s.tags :: t in q.tags && q.tags[t] == s.tags[t])
      && (forall t | t in q.tags && t !in s.tags :: q.tags[t] == height)
  {
    if txs != [] {
      var before, tx := AdvanceAll(be, s, txs[..|txs| - 1], height), txs[|txs| - 1];
      AdvanceAllGrows(be, s, txs[..|txs| - 1], height);
      AdvanceGrows(be, before, tx, height);
      if V2(tx) { MarkAllMarks(before.tags, Tags(be, tx.payload.value), height); }
    }
  }

  /** Rewinding a block restores the pool exactly when every tag was spent below the block's height. */
  lemma RewindUndoes(be: Backend, s: Pool, txs: seq<ShieldedTx>, height: nat)
    ensures |s.coins| <= |AdvanceAll(be, s, txs, height).coins|
    ensures
      Rewound(AdvanceAll(be, s, txs, height), Checkpoint(height, |s.coins|, s.value)) == s
      <==> forall t | t in s.tags :: s.tags[t] < height
  {
    var q := AdvanceAll(be, s, txs, height);
    AdvanceAllGrows(be, s, txs, height);
    assert q.coins[..|s.coins|] == s.coins;
    var r := Rewound(q, Checkpoint(height, |s.coins|, s.value));
    if forall t | t in s.tags :: s.tags[t] < height {
      assert r.tags == s.tags;
    }
  }

  lemma {:induction false} TagHeights(be: Backend, blocks: seq<seq<ShieldedTx>>)
    ensures forall t | t in PoolOf(be, blocks).tags :: PoolOf(be, blocks).tags[t] <= |blocks|
  {
    if blocks != [] {
      var init := blocks[..|blocks| - 1];
      TagHeights(be, init);
      AdvanceAllGrows(be, PoolOf(be, init), blocks[|blocks| - 1], |blocks|);
    }
  }

  /** On a chain, disconnecting the last block by rewinding leaves the pool of the shorter chain. */
  lemma RewindChain(be: Backend, blocks: seq<seq<ShieldedTx>>)
    requires blocks != []
    ensures
      var low, s := PoolOf(be, blocks[..|blocks| - 1]), PoolOf(be, blocks);
      |low.coins| <= |s.coins| && Rewound(s, Checkpoint(|blocks|, |low.coins|, low.value)) == low
  {
    var init := blocks[..|blocks| - 1];
    TagHeights(be, init);
    RewindUndoes(be, PoolOf(be, init), blocks[|blocks| - 1], |blocks|);
  }
}
