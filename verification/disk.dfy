/** The durable side of the node: block bodies, height index, chain record and transaction index. */
module Disk {
  import opened Types
  import opened UtxoSet
  import opened Ledger
  import opened ForkWalk

  /** The persisted chain state; burned fees are narrowed to 64 bits on the way out. */
  datatype Record = Record(
    tip: Hash,
    height: nat,
    work: nat,
    supply: nat,
    burned: nat,
    lastCheckpoint: nat)

  datatype Database = Database(
    bodies: map<Hash, Block>,
    heights: map<nat, Hash>,
    record: Record,
    txIndex: map<Hash, (nat, nat)>)

  const U64: nat := 0x1_0000_0000_0000_0000

  /** Index entries of a block's transactions: `(id, height, position)`. */
  function TxEntries(txs: seq<Tx>, height: nat): seq<(Hash, nat, nat)> {
    seq(|txs|, i requires 0 <= i < |txs| => (txs[i].id, height, i))
  }

  /** Insert entries in order, a later one replacing an earlier one. */
  function InsertTx(m: map<Hash, (nat, nat)>, adds: seq<(Hash, nat, nat)>): map<Hash, (nat, nat)> {
    if adds == [] then m
    else
      var e := adds[|adds| - 1];
      InsertTx(m, adds[..|adds| - 1])[e.0 := (e.1, e.2)]
  }

  /** The transaction index of a chain, built block by block. */
  function TxIndexOf(c: seq<Block>): map<Hash, (nat, nat)> {
    if c == [] then map[]
    else InsertTx(TxIndexOf(c[..|c| - 1]), TxEntries(c[|c| - 1].txs, c[|c| - 1].height))
  }

  /** Identifiers of every transaction in a list of blocks. */
  function TxIds(blocks: seq<Block>): set<Hash> {
    set i, t | 0 <= i < |blocks| && 0 <= t < |blocks[i].txs| :: blocks[i].txs[t].id
  }

  function EntriesOf(blocks: seq<Block>): seq<(Hash, nat, nat)> {
    if blocks == [] then []
    else EntriesOf(blocks[..|blocks| - 1]) + TxEntries(blocks[|blocks| - 1].txs, blocks[|blocks| - 1].height)
  }

  /** Set heights to hashes in order. */
  function SetHeights(m: map<nat, Hash>, blocks: seq<Block>): map<nat, Hash> {
    if blocks == [] then m
    else SetHeights(m, blocks[..|blocks| - 1])[blocks[|blocks| - 1].height := blocks[|blocks| - 1].hash]
  }

  /** The bodies of `c` are present and the height index is that of `c`. */
  ghost predicate Placed(d: Database, c: seq<Block>) {
    && (forall i | 0 <= i < |c| :: c[i].hash in d.bodies && d.bodies[c[i].hash] == c[i])
    && Indexes(d.heights, c)
  }

  /** The chain record is that of tip `t` with totals `s`. */
  ghost predicate Recorded(record: Record, t: Block, s: State) {
    && record.tip == t.hash
    && record.height == t.height
    && record.work == s.work
    && record.supply == s.supply
    && record.burned == s.burned % U64
  }

  /** The database describes chain `c` and no other: height index, bodies and record agree on it. */
  ghost predicate Describes(d: Database, r: Rules, c: seq<Block>) {
    ChainOk(r, c) && Placed(d, c) && Recorded(d.record, c[|c| - 1], StateOf(r, c))
  }

  /** The transaction index is the one `c` builds. */
  ghost predicate Filed(d: Database, c: seq<Block>) {
    d.txIndex == TxIndexOf(c)
  }

  /** The database describes `c`; so does its transaction index if that is asked for. */
  ghost predicate Agrees(d: Database, r: Rules, c: seq<Block>, filed: bool) {
    Describes(d, r, c) && (filed ==> Filed(d, c))
  }

  // ---- the two atomic commits and the rollback clean-up ----

  /** `commit_block_atomic`: one block connected on the tip. */
  function CommitBlock(d: Database, b: Block, record: Record): Database {
    d.(heights := d.heights[b.height := b.hash],
       record := record,
       txIndex := InsertTx(d.txIndex, TxEntries(b.txs, b.height)))
  }

  /** `apply_reorg_atomic`: set the new heights, drop those between a lower new tip and the old one, remove the
      disconnected transactions, then add the connected ones. */
  function CommitReorg(
      d: Database, connected: seq<Block>, newTip: nat, oldTip: nat, removes: set<Hash>, record: Record): Database
  {
    var placed := SetHeights(d.heights, connected);
    d.(heights := map h | h in placed && !(newTip < h <= oldTip) :: placed[h],
       record := record,
       txIndex := InsertTx(d.txIndex - removes, EntriesOf(connected)))
  }

  /** What a completed rollback writes: heights above the target and the disconnected transactions go. */
  function CommitRollback(d: Database, target: nat, removes: set<Hash>, record: Record): Database {
    d.(heights := map h | h in d.heights && h <= target :: d.heights[h],
       record := record,
       txIndex := d.txIndex - removes)
  }

  // ---- what the transaction index says ----

  lemma {:induction false} InsertTxEntries(m: map<Hash, (nat, nat)>, txs: seq<Tx>, height: nat)
    requires forall i, j | 0 <= i < j < |txs| :: txs[i].id != txs[j].id
    ensures
      var n := InsertTx(m, TxEntries(txs, height));
      && (forall i | 0 <= i < |txs| :: txs[i].id in n && n[txs[i].id] == (height, i))
      && (forall x | x in n :: x in m || exists i | 0 <= i < |txs| :: txs[i].id == x)
      && (forall x | x in m :: x in n)
      && (forall x | x in m && (forall i | 0 <= i < |txs| :: txs[i].id != x) :: n[x] == m[x])
  {
    if txs == [] {
      assert TxEntries(txs, height) == [];
    } else {
      var init, last := txs[..|txs| - 1], txs[|txs| - 1];
      assert forall i | 0 <= i < |init| :: init[i] == txs[i];
      InsertTxEntries(m, init, height);
      assert TxEntries(txs, height)[..|txs| - 1] == TxEntries(init, height);
      assert TxEntries(txs, height)[|txs| - 1] == (last.id, height, |txs| - 1);
      var k := InsertTx(m, TxEntries(init, height));
      var n := InsertTx(m, TxEntries(txs, height));
      assert n == k[last.id := (height, |txs| - 1)];
      forall i | 0 <= i < |txs| ensures txs[i].id in n && n[txs[i].id] == (height, i) {
        if i < |init| { assert init[i].id in k && k[init[i].id] == (height, i); }
      }
      forall x | x in n && x !in m ensures exists i | 0 <= i < |txs| :: txs[i].id == x {
        if x != last.id {
          assert x in k;
          var i :| 0 <= i < |init| && init[i].id == x;
          assert txs[i].id == x;
        } else {
          assert txs[|txs| - 1].id == x;
        }
      }
    }
  }

  /** The index maps exactly the chain's transactions, each to its height and position. */
  ghost predicate Locates(m: map<Hash, (nat, nat)>, c: seq<Block>) {
    && m.Keys == TxIds(c)
    && forall i, t | 0 <= i < |c| && 0 <= t < |c[i].txs| :: c[i].txs[t].id in m && m[c[i].txs[t].id] == (i, t)
  }

  lemma {:induction false} AppendLocates(m: map<Hash, (nat, nat)>, c: seq<Block>, b: Block)
    requires Locates(m, c) && WellFormed(b) && b.height == |c|
    requires forall i, t, v | 0 <= i < |c| && 0 <= t < |c[i].txs| && 0 <= v < |b.txs| ::
               c[i].txs[t].id != b.txs[v].id
    ensures Locates(InsertTx(m, TxEntries(b.txs, b.height)), c + [b])
  {
    InsertTxEntries(m, b.txs, b.height);
    var n, d := InsertTx(m, TxEntries(b.txs, b.height)), c + [b];
    assert d[|c|] == b && forall i | 0 <= i < |c| :: d[i] == c[i];
    forall i, t | 0 <= i < |d| && 0 <= t < |d[i].txs|
      ensures d[i].txs[t].id in n && n[d[i].txs[t].id] == (i, t)
    {
      if i < |c| {
        var x := c[i].txs[t].id;
        assert x in m && m[x] == (i, t);
        assert forall v | 0 <= v < |b.txs| :: b.txs[v].id != x;
      }
    }
    forall x | x in n ensures x in TxIds(d) {
      if x in m {
        assert x in TxIds(c);
        var i, t :| 0 <= i < |c| && 0 <= t < |c[i].txs| && c[i].txs[t].id == x;
        assert d[i].txs[t].id == x;
      } else {
        var v :| 0 <= v < |b.txs| && b.txs[v].id == x;
        assert d[|c|].txs[v].id == x;
      }
    }
    assert n.Keys == TxIds(d);
  }

  lemma NothingFiled()
    ensures Locates(TxIndexOf([]), [])
  {
  }

  lemma IndexSnoc(init: seq<Block>, b: Block)
    ensures TxIndexOf(init + [b]) == InsertTx(TxIndexOf(init), TxEntries(b.txs, b.height))
  {
    assert (init + [b])[..|init|] == init;
  }

  /** A chain that repeats nothing, without its last block and against it. */
  lemma RepeatlessLast(init: seq<Block>, b: Block)
    requires Repeatless(init + [b])
    ensures Repeatless(init)
    ensures forall i, t, v | 0 <= i < |init| && 0 <= t < |init[i].txs| && 0 <= v < |b.txs| ::
              init[i].txs[t].id != b.txs[v].id
  {
    var c := init + [b];
    assert c[|init|] == b && forall i | 0 <= i < |init| :: c[i] == init[i];
  }

  lemma {:induction false} RepeatlessLocates(r: Rules, c: seq<Block>)
    requires ChainOk(r, c) && Repeatless(c)
    ensures Locates(TxIndexOf(c), c)
  {
    hide StateOf, Extends, Locates, InsertTx, TxEntries, WellFormed, Repeatless, TxIndexOf;
    var init, b := c[..|c| - 1], c[|c| - 1];
    assert c == init + [b];
    IndexSnoc(init, b);
    hide ChainOk;
    RepeatlessLast(init, b);
    Linked(r, c, |c| - 1);
    if |c| > 1 {
      PrefixOk(r, c, |c| - 1);
      RepeatlessLocates(r, init);
    } else {
      NothingFiled();
    }
    AppendLocates(TxIndexOf(init), init, b);
  }

  /** The index of a chain maps exactly its transactions, each to its own height and position, if and only if no
      identifier is in two of its blocks. */
  lemma IndexLocates(r: Rules, c: seq<Block>)
    requires ChainOk(r, c)
    ensures Locates(TxIndexOf(c), c) <==> Repeatless(c)
  {
    hide ChainOk, TxIndexOf;
    if Repeatless(c) { RepeatlessLocates(r, c); }
  }

  // ---- dropping the transactions of disconnected blocks ----

  lemma {:induction false} InsertElsewhere(m: map<Hash, (nat, nat)>, adds: seq<(Hash, nat, nat)>, x: Hash)
    requires forall i | 0 <= i < |adds| :: adds[i].0 != x
    ensures x in InsertTx(m, adds) <==> x in m
    ensures x in m ==> InsertTx(m, adds)[x] == m[x]
  {
    if adds != [] { InsertElsewhere(m, adds[..|adds| - 1], x); }
  }

  /** Where an identifier is inserted, what the map held before makes no difference. */
  lemma {:induction false} InsertHere(m: map<Hash, (nat, nat)>, k: map<Hash, (nat, nat)>,
    adds: seq<(Hash, nat, nat)>, i: nat)
    requires i < |adds|
    ensures
      var x := adds[i].0;
      x in InsertTx(m, adds) && x in InsertTx(k, adds) && InsertTx(m, adds)[x] == InsertTx(k, adds)[x]
  {
    if adds[|adds| - 1].0 != adds[i].0 { InsertHere(m, k, adds[..|adds| - 1], i); }
  }

  lemma {:induction false} EntryIds(blocks: seq<Block>, x: Hash)
    ensures x in TxIds(blocks) <==> exists i | 0 <= i < |EntriesOf(blocks)| :: EntriesOf(blocks)[i].0 == x
  {
    if blocks != [] {
      var init, last := blocks[..|blocks| - 1], blocks[|blocks| - 1];
      EntryIds(init, x);
      var es, ts := EntriesOf(init), TxEntries(last.txs, last.height);
      assert EntriesOf(blocks) == es + ts;
      assert x in TxIds(blocks) <==> x in TxIds(init) || exists t | 0 <= t < |last.txs| :: last.txs[t].id == x by {
        SnocIds(init, last, x);
      }
      hide EntriesOf, TxIds;
      if exists i | 0 <= i < |es| :: es[i].0 == x {
        var i :| 0 <= i < |es| && es[i].0 == x;
        assert (es + ts)[i].0 == x;
      }
      if t :| 0 <= t < |last.txs| && last.txs[t].id == x {
        assert (es + ts)[|es| + t].0 == x;
      }
    }
  }

  lemma SnocIds(init: seq<Block>, b: Block, x: Hash)
    ensures x in TxIds(init + [b]) <==> x in TxIds(init) || exists t | 0 <= t < |b.txs| :: b.txs[t].id == x
  {
    var c := init + [b];
    if x in TxIds(c) {
      var i, t :| 0 <= i < |c| && 0 <= t < |c[i].txs| && c[i].txs[t].id == x;
      if i < |init| { assert init[i].txs[t].id == x; } else { assert b.txs[t].id == x; }
    }
    if x in TxIds(init) {
      var i, t :| 0 <= i < |init| && 0 <= t < |init[i].txs| && init[i].txs[t].id == x;
      assert c[i].txs[t].id == x;
    }
    if t :| 0 <= t < |b.txs| && b.txs[t].id == x { assert c[|init|].txs[t].id == x; }
  }

  lemma {:induction false} InsertTxConcat(m: map<Hash, (nat, nat)>, a: seq<(Hash, nat, nat)>, b: seq<(Hash, nat, nat)>)
    ensures InsertTx(m, a + b) == InsertTx(InsertTx(m, a), b)
  {
    if b == [] {
      assert a + b == a;
    } else {
      InsertTxConcat(m, a, b[..|b| - 1]);
      assert (a + b)[..|a + b| - 1] == a + b[..|b| - 1];
    }
  }

  lemma {:induction false} IndexAppend(c: seq<Block>, blocks: seq<Block>)
    ensures InsertTx(TxIndexOf(c), EntriesOf(blocks)) == TxIndexOf(c + blocks)
  {
    if blocks == [] {
      assert c + blocks == c;
    } else {
      var init, last := blocks[..|blocks| - 1], blocks[|blocks| - 1];
      IndexAppend(c, init);
      InsertTxConcat(TxIndexOf(c), EntriesOf(init), TxEntries(last.txs, last.height));
      assert (c + blocks)[..|c + blocks| - 1] == c + init;
    }
  }

  /** The index over a chain, at identifiers the blocks above `n` have and at those they do not. */
  lemma AppendedAt(m: map<Hash, (nat, nat)>, k: map<Hash, (nat, nat)>, blocks: seq<Block>, x: Hash)
    ensures
      var a, b := InsertTx(m, EntriesOf(blocks)), InsertTx(k, EntriesOf(blocks));
      if x in TxIds(blocks) then x in a && x in b && a[x] == b[x]
      else (x in a <==> x in m) && (x in b <==> x in k) && (x in m ==> a[x] == m[x]) && (x in k ==> b[x] == k[x])
  {
    hide InsertTx, TxIds, EntriesOf;
    var es := EntriesOf(blocks);
    EntryIds(blocks, x);
    assert x !in TxIds(blocks) ==> forall i | 0 <= i < |es| :: es[i].0 != x;
    if x in TxIds(blocks) {
      var i :| 0 <= i < |es| && es[i].0 == x;
      InsertHere(m, k, es, i);
    } else {
      InsertElsewhere(m, es, x);
      InsertElsewhere(k, es, x);
    }
  }

  /** The index of a chain knows exactly its identifiers. */
  lemma IndexKeys(c: seq<Block>, x: Hash)
    ensures x in TxIndexOf(c) <==> x in TxIds(c)
  {
    IndexAppend([], c);
    assert [] + c == c;
    AppendedAt(map[], map[], c, x);
  }

  /** Every identifier that is in a block up to `p` and in a block above it comes again in the blocks that replace
      those above. */
  ghost predicate Rejoined(was: seq<Block>, now: seq<Block>, p: nat) {
    p < |was| && p < |now| && TxIds(was[..p + 1]) * TxIds(was[p + 1..]) <= TxIds(now[p + 1..])
  }

  lemma RepeatlessRejoined(was: seq<Block>, now: seq<Block>, p: nat)
    requires Repeatless(was) && p < |was| && p < |now|
    ensures Rejoined(was, now, p)
  {
    var low, high := was[..p + 1], was[p + 1..];
    forall x | x in TxIds(low) ensures x !in TxIds(high) {
      var i, t :| 0 <= i < |low| && 0 <= t < |low[i].txs| && low[i].txs[t].id == x;
      forall j, v | 0 <= j < |high| && 0 <= v < |high[j].txs| ensures high[j].txs[v].id != x {
        assert low[i] == was[i] && high[j] == was[p + 1 + j];
      }
    }
  }

  /** At one identifier: dropping those of the disconnected blocks and adding those of the connected ones gives the new
      index, unless the identifier goes with the former and does not come with the latter. */
  lemma ReindexedAt(was: seq<Block>, now: seq<Block>, p: nat, x: Hash)
    requires p < |now| && p < |was| && now[..p + 1] == was[..p + 1]
    ensures
      var made, want := InsertTx(TxIndexOf(was) - TxIds(was[p + 1..]), EntriesOf(now[p + 1..])), TxIndexOf(now);
      ((x in made <==> x in want) && (x in made ==> made[x] == want[x]))
      <==> !(x in TxIds(was[..p + 1]) && x in TxIds(was[p + 1..]) && x !in TxIds(now[p + 1..]))
  {
    hide TxIndexOf, TxIds, EntriesOf, InsertTx;
    var low := was[..p + 1];
    assert low + was[p + 1..] == was && low + now[p + 1..] == now;
    IndexAppend(low, was[p + 1..]);
    IndexAppend(low, now[p + 1..]);
    IndexKeys(low, x);
    AppendedAt(TxIndexOf(low), TxIndexOf(low), was[p + 1..], x);
    AppendedAt(TxIndexOf(was) - TxIds(was[p + 1..]), TxIndexOf(low), now[p + 1..], x);
  }

  /** The reorg's update of the index is exact if and only if every shared identifier is rejoined. */
  lemma CommitReorgIndex(was: seq<Block>, now: seq<Block>, p: nat)
    requires p < |now| && p < |was| && now[..p + 1] == was[..p + 1]
    ensures InsertTx(TxIndexOf(was) - TxIds(was[p + 1..]), EntriesOf(now[p + 1..])) == TxIndexOf(now)
       <==> Rejoined(was, now, p)
  {
    hide TxIndexOf, TxIds, EntriesOf, InsertTx;
    var made, want := InsertTx(TxIndexOf(was) - TxIds(was[p + 1..]), EntriesOf(now[p + 1..])), TxIndexOf(now);
    if Rejoined(was, now, p) {
      forall x ensures (x in made <==> x in want) && (x in made ==> made[x] == want[x]) { ReindexedAt(was, now, p, x); }
      assert made.Keys == want.Keys;
    } else {
      var x :| x in TxIds(was[..p + 1]) * TxIds(was[p + 1..]) && x !in TxIds(now[p + 1..]);
      ReindexedAt(was, now, p, x);
    }
  }

  /** No identifier is both in a block up to `target` and in one above it. */
  ghost predicate Apart(c: seq<Block>, target: nat) {
    target < |c| && TxIds(c[..target + 1]) !! TxIds(c[target + 1..])
  }

  lemma RepeatlessApart(c: seq<Block>, target: nat)
    requires Repeatless(c) && target < |c|
    ensures Apart(c, target)
  {
    assert c[..target + 1][target + 1..] == [];
    RepeatlessRejoined(c, c[..target + 1], target);
  }

  /** Dropping the transactions above a height leaves the index of the prefix if and only if they are apart from it. */
  lemma CommitRollbackIndex(c: seq<Block>, target: nat)
    requires target < |c|
    ensures TxIndexOf(c) - TxIds(c[target + 1..]) == TxIndexOf(c[..target + 1]) <==> Apart(c, target)
  {
    var low := c[..target + 1];
    assert low[target + 1..] == [] && low[..target + 1] == low;
    CommitReorgIndex(c, low, target);
  }

  lemma {:induction false} SetHeightsIndexes(m: map<nat, Hash>, c: seq<Block>, n: nat)
    requires 1 <= n <= |c| && forall i | 0 <= i < |c| :: c[i].height == i
    requires forall i | 0 <= i < n :: i in m && m[i] == c[i].hash
    ensures
      var s := SetHeights(m, c[n..]);
      && (forall h | h in s :: h in m || n <= h < |c|)
      && (forall i | 0 <= i < |c| :: i in s && s[i] == c[i].hash)
  {
    if n < |c| {
      var d := c[..|c| - 1];
      SetHeightsIndexes(m, d, n);
      assert c[n..][..|c| - n - 1] == d[n..];
      assert c[n..][|c| - n - 1] == c[|c| - 1];
    } else {
      assert c[n..] == [];
    }
  }

  // ---- each commit moves the database from one chain to another ----

  lemma {:induction false} CommitBlockDescribes(d: Database, r: Rules, c: seq<Block>, b: Block, record: Record)
    requires Describes(d, r, c) && Extends(r, c, b)
    requires b.hash in d.bodies && d.bodies[b.hash] == b
    requires Recorded(record, b, Step(r, StateOf(r, c), b))
    ensures Agrees(CommitBlock(d, b, record), r, c + [b], Filed(d, c))
  {
    hide StateOf, Step, InsertTx, TxEntries, TargetOk, WindowOf, Unseen, WellFormed, CommitmentOk;
    Snoc(r, c, b);
    assert (c + [b])[..|c|] == c;
  }

  lemma {:induction false} CommitReorgHeights(m: map<nat, Hash>, was: seq<Block>, now: seq<Block>, p: nat)
    requires Indexes(m, was) && forall i | 0 <= i < |now| :: now[i].height == i
    requires p + 1 < |now| && p < |was| && now[..p + 1] == was[..p + 1]
    ensures
      var placed := SetHeights(m, now[p + 1..]);
      Indexes(map h | h in placed && !(|now| - 1 < h <= |was| - 1) :: placed[h], now)
  {
    forall i | 0 <= i < p + 1 ensures i in m && m[i] == now[i].hash {
      assert was[i] == was[..p + 1][i] == now[..p + 1][i] == now[i];
    }
    SetHeightsIndexes(m, now, p + 1);
  }

  /** The reorg commit turns a description of the old chain into one of the new chain. */
  lemma {:induction false} CommitReorgDescribes(
      d: Database, r: Rules, was: seq<Block>, now: seq<Block>, p: nat, record: Record)
    requires Describes(d, r, was) && ChainOk(r, now)
    requires p + 1 < |now| && p < |was| && now[..p + 1] == was[..p + 1]
    requires forall i | 0 <= i < |now| :: now[i].hash in d.bodies && d.bodies[now[i].hash] == now[i]
    requires Recorded(record, now[|now| - 1], StateOf(r, now))
    ensures
      var e := CommitReorg(d, now[p + 1..], |now| - 1, |was| - 1, TxIds(was[p + 1..]), record);
      Describes(e, r, now) && (Filed(d, was) ==> (Filed(e, now) <==> Rejoined(was, now, p)))
  {
    hide ChainOk, StateOf, TxIndexOf, TxIds, Recorded, EntriesOf, SetHeights, InsertTx, Rejoined;
    forall i | 0 <= i < |now| ensures now[i].height == i { Linked(r, now, i); }
    CommitReorgHeights(d.heights, was, now, p);
    CommitReorgIndex(was, now, p);
  }

  lemma CommitRollbackHeights(m: map<nat, Hash>, c: seq<Block>, target: nat)
    requires Indexes(m, c) && target < |c|
    ensures Indexes(map h | h in m && h <= target :: m[h], c[..target + 1])
  {
  }

  lemma {:induction false} CommitRollbackDescribes(d: Database, r: Rules, c: seq<Block>, target: nat, record: Record)
    requires Describes(d, r, c) && target < |c|
    requires Recorded(record, c[target], StateOf(r, c[..target + 1]))
    ensures
      var e := CommitRollback(d, target, TxIds(c[target + 1..]), record);
      Describes(e, r, c[..target + 1]) && (Filed(d, c) ==> (Filed(e, c[..target + 1]) <==> Apart(c, target)))
  {
    hide ChainOk, StateOf, TxIndexOf, TxIds, Recorded, Apart;
    PrefixOk(r, c, target + 1);
    CommitRollbackIndex(c, target);
    CommitRollbackHeights(d.heights, c, target);
  }

  lemma IndexedAlike(m: map<nat, Hash>, n: map<nat, Hash>, c: seq<Block>)
    requires Indexes(m, c) && Indexes(n, c)
    ensures m == n
  {
  }

  /** A database describes at most one chain. */
  lemma DescribesOne(d: Database, r: Rules, a: seq<Block>, b: seq<Block>)
    requires Describes(d, r, a) && Describes(d, r, b)
    ensures a == b
  {
    hide ChainOk, StateOf, Recorded;
    assert |a| !in d.heights && |b| !in d.heights;
    forall i | 0 <= i < |a| ensures a[i] == b[i] {
      assert d.heights[i] == a[i].hash == b[i].hash;
    }
  }

  // ---- what a crash inside a rollback can leave ----

  /** No chain at all is described by the database. */
  ghost predicate DescribesNothing(d: Database, r: Rules) {
    forall c :: !Describes(d, r, c)
  }

  /** A rollback writes its clean-up in separate steps, after its loop has removed the transactions of the dropped
      blocks: between dropping their heights and saving the record the database describes no chain. */
  lemma TornRollback(d: Database, r: Rules, c: seq<Block>, target: nat)
    requires Describes(d, r, c) && target < |c| - 1
    ensures DescribesNothing(
      d.(txIndex := d.txIndex - TxIds(c[target + 1..]),
         heights := map h | h in d.heights && h <= target :: d.heights[h]), r)
  {
    hide StateOf, Extends, TxIds;
    var heights := map h | h in d.heights && h <= target :: d.heights[h];
    var e := d.(txIndex := d.txIndex - TxIds(c[target + 1..]), heights := heights);
    Linked(r, c, |c| - 1);
    forall any ensures !Describes(e, r, any) {
      if ChainOk(r, any) {
        Linked(r, any, |any| - 1);
        assert Placed(e, any) ==> |any| - 1 in e.heights;
      }
    }
  }
}
