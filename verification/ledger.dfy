/** The specification of the node's state: one fold over the canonical chain. */
module Ledger {
  import opened Types
  import opened UtxoSet

  /** The parts of consensus the chain state machine calls and does not look into. */
  datatype Rules = Rules(
    reward: nat -> nat,                                     // emission schedule by height
    burn: Block -> nat,                                     // fees the block burns
    headerOk: Block -> bool,                                // hardcoded checkpoint, median time, exact target
    arrivalOk: (Block, Option<Block>, Utxo, bool) -> bool,  // validation on arrival; the flag asks for UTXO checks
    fullOk: (Block, Option<Block>, Utxo) -> bool,           // validation during a reorg, always with UTXO checks
    gateOk: (Block, seq<nat>) -> bool,                      // store-aware shielded checks
    targetOk: (Block, seq<Sample>) -> bool,                 // exact difficulty target for a window
    digest: (nat, nat, nat) -> Hash,                        // supply commitment hash
    enforceHeight: nat,                                     // first height whose commitment is checked
    maxReorgDepth: nat)                                     // 100 on mainnet, 1000 elsewhere

  const MAX_SUPPLY: nat := 100_000_000 * 1_000_000_000_000

  /** A block whose shape is legal and none of whose outputs or key images are in the set. */
  ghost predicate Fresh(b: Block, u: Utxo) {
    WellFormed(b) && Unseen(b, u.outputs, u.keyImages)
  }

  /** What the chain relies on: a validated block is fresh, validation sees outputs, key images and the number of
      outputs available but not how often blocks were disconnected, validation without UTXO checks sees nothing of
      the set, and only the pinned genesis has height 0. */
  ghost predicate Sound(r: Rules) {
    && (forall b :: r.headerOk(b) ==> b.height > 0)
    && (forall b, p, u :: r.arrivalOk(b, p, u, true) ==> Fresh(b, u))
    && (forall b, p, u :: r.fullOk(b, p, u) ==> Fresh(b, u))
    && (forall b, p, u, v | Equivalent(u, v) :: r.fullOk(b, p, u) == r.fullOk(b, p, v))
    && (forall b, p, u, v | Equivalent(u, v) :: r.arrivalOk(b, p, u, true) == r.arrivalOk(b, p, v, true))
    && (forall b, p, u, v :: r.arrivalOk(b, p, u, false) == r.arrivalOk(b, p, v, false))
    && r.maxReorgDepth <= 1000
  }

  /** The assumptions can be met, and by rules that accept every fresh block: nothing below holds for want of a node. */
  lemma SoundIsPossible()
    ensures exists r :: Sound(r) && forall b, p, u :: r.fullOk(b, p, u) <==> Fresh(b, u)
  {
    var r := Rules(
      h => 0,
      b => 0,
      (b: Block) => b.height > 0,
      (b: Block, p: Option<Block>, u: Utxo, contextual: bool) => contextual ==> Fresh(b, u),
      (b: Block, p: Option<Block>, u: Utxo) => Fresh(b, u),
      (b, contents) => true,
      (b, window) => true,
      (emitted, burned, left) => 0,
      0,
      1000);
    assert Sound(r);
  }

  /** Everything about the canonical chain that the node keeps a running copy of. */
  datatype State = State(
    outputs: map<OutKey, OutRef>,
    keyImages: set<KeyImage>,
    outputTotal: nat,
    supply: nat,
    burned: nat,
    txTotal: nat,
    work: nat)

  function Genesis(r: Rules, g: Block): State {
    State(Created(g.txs, g.height), Spent(g.txs), OutputCount(g.txs), r.reward(0), 0, |g.txs|, 1)
  }

  function Step(r: Rules, s: State, b: Block): State {
    State(
      s.outputs + Created(b.txs, b.height),
      s.keyImages + Spent(b.txs),
      s.outputTotal + OutputCount(b.txs),
      s.supply + r.reward(b.height),
      s.burned + r.burn(b),
      s.txTotal + |b.txs|,
      s.work + Work(b.target))
  }

  /** The fold: genesis, then one step per block. */
  function StateOf(r: Rules, c: seq<Block>): State
    requires |c| >= 1
  {
    if |c| == 1 then Genesis(r, c[0]) else Step(r, StateOf(r, c[..|c| - 1]), c[|c| - 1])
  }

  /** The commitment a header must carry for the given post-block totals. */
  function Commitment(r: Rules, emitted: nat, burned: nat): Hash {
    r.digest(emitted, burned, if emitted <= MAX_SUPPLY then MAX_SUPPLY - emitted else 0)
  }

  /** `check_supply_commitment` for a block whose post-block totals are given. */
  predicate CommitmentOk(r: Rules, b: Block, emitted: nat, burned: nat) {
    b.height < r.enforceHeight || b.commitment == Commitment(r, emitted, burned)
  }

  const WINDOW: nat := 144

  /** Start of the difficulty window of a block at `height`. */
  function WindowStart(height: nat): nat {
    if height <= WINDOW then 0 else height - WINDOW
  }

  /** The samples below `height` on the block's own chain. */
  function WindowOf(c: seq<Block>, height: nat): seq<Sample>
    requires height <= |c|
  {
    seq(height - WindowStart(height), i requires 0 <= i < height - WindowStart(height) =>
      SampleOf(c[WindowStart(height) + i]))
  }

  /** The exact difficulty target, checked once the window holds two samples. */
  predicate TargetOk(r: Rules, b: Block, window: seq<Sample>) {
    |window| < 2 || r.targetOk(b, window)
  }

  /** `b` may be connected on top of `c`. */
  ghost predicate Extends(r: Rules, c: seq<Block>, b: Block)
    requires |c| >= 1
  {
    var s := StateOf(r, c);
    && b.height == |c|
    && b.prev == c[|c| - 1].hash
    && TargetOk(r, b, WindowOf(c, |c|))
    && WellFormed(b)
    && Unseen(b, s.outputs, s.keyImages)
    && CommitmentOk(r, b, s.supply + r.reward(b.height), s.burned + r.burn(b))
  }

  /** A chain every block of which was connectable when it was connected. */
  ghost predicate ChainOk(r: Rules, c: seq<Block>) {
    && |c| >= 1
    && if |c| == 1 then c[0].height == 0 && WellFormed(c[0])
       else ChainOk(r, c[..|c| - 1]) && Extends(r, c[..|c| - 1], c[|c| - 1])
  }

  /** The live set holds exactly the fold, and `ever - disconnects` counts the chain's outputs. */
  ghost predicate Holds(u: Utxo, s: State) {
    u.outputs == s.outputs && u.keyImages == s.keyImages && u.ever == u.disconnects + s.outputTotal
  }

  /** The set of a node that connected the chain and never disconnected anything. */
  function Untouched(s: State): Utxo {
    Utxo(s.outputs, s.keyImages, s.outputTotal, 0)
  }

  lemma HoldsEquivalent(u: Utxo, s: State)
    requires Holds(u, s)
    ensures Equivalent(u, Untouched(s))
  {
  }

  lemma {:induction false} Snoc(r: Rules, c: seq<Block>, b: Block)
    requires |c| >= 1
    ensures StateOf(r, c + [b]) == Step(r, StateOf(r, c), b)
    ensures ChainOk(r, c + [b]) <==> ChainOk(r, c) && Extends(r, c, b)
  {
    assert (c + [b])[..|c|] == c;
  }

  lemma {:induction false} PrefixOk(r: Rules, c: seq<Block>, n: nat)
    requires ChainOk(r, c) && 1 <= n <= |c|
    ensures ChainOk(r, c[..n])
  {
    if n == |c| {
      assert c[..n] == c;
    } else {
      PrefixOk(r, c[..|c| - 1], n);
      assert c[..|c| - 1][..n] == c[..n];
    }
  }

  lemma {:induction false} Linked(r: Rules, c: seq<Block>, i: nat)
    requires ChainOk(r, c) && i < |c|
    ensures c[i].height == i && WellFormed(c[i])
    ensures i > 0 ==> c[i].prev == c[i - 1].hash && Extends(r, c[..i], c[i])
  {
    hide StateOf, WindowOf, CommitmentOk, TargetOk, Unseen;
    PrefixOk(r, c, i + 1);
    assert c[..i + 1][..i] == c[..i];
  }

  /** Connecting a connectable block moves the set from one fold to the next. */
  lemma {:induction false} ConnectHolds(r: Rules, c: seq<Block>, b: Block, u: Utxo)
    requires |c| >= 1 && Holds(u, StateOf(r, c))
    ensures Holds(Connect(u, b), StateOf(r, c + [b]))
  {
    Snoc(r, c, b);
  }

  /** Disconnecting the last block moves the set one fold back. */
  lemma {:induction false} DisconnectHolds(r: Rules, c: seq<Block>, u: Utxo)
    requires ChainOk(r, c) && |c| >= 2 && Holds(u, StateOf(r, c))
    ensures Holds(Disconnect(u, c[|c| - 1]), StateOf(r, c[..|c| - 1]))
  {
    var b, s := c[|c| - 1], StateOf(r, c[..|c| - 1]);
    var before := Utxo(s.outputs, s.keyImages, u.ever, u.disconnects);
    DisconnectUndoesConnect(before, b);
    assert SameContents(Connect(before, b), u);
    var made := Created(b.txs, b.height);
    CreatedCount(b.txs, b.height);
    assert made.Keys * u.outputs.Keys == made.Keys;
  }

  /** `m` is part of `u`. */
  ghost predicate Within(m: map<OutKey, OutRef>, u: map<OutKey, OutRef>) {
    m.Keys <= u.Keys && forall k | k in m :: u[k] == m[k]
  }

  /** The set holds at least the fold. */
  ghost predicate Covers(u: Utxo, s: State) {
    Within(s.outputs, u.outputs) && s.keyImages <= u.keyImages
  }

  /** Disconnecting the last block of a covered chain leaves the shorter chain covered, and connecting
      it again leads back. */
  lemma {:induction false} DisconnectCovers(r: Rules, c: seq<Block>, u: Utxo)
    requires ChainOk(r, c) && |c| >= 2 && Covers(u, StateOf(r, c))
    ensures Covers(u, StateOf(r, c[..|c| - 1]))
    ensures Covers(Disconnect(u, c[|c| - 1]), StateOf(r, c[..|c| - 1]))
    ensures Equivalent(Connect(Disconnect(u, c[|c| - 1]), c[|c| - 1]), u)
  {
    CoversBefore(u, StateOf(r, c[..|c| - 1]), StateOf(r, c), c[|c| - 1]);
  }

  lemma WithinParts(u: map<OutKey, OutRef>, a: map<OutKey, OutRef>, b: map<OutKey, OutRef>)
    requires Within(a + b, u) && a.Keys !! b.Keys
    ensures Within(a, u) && Within(b, u) && Within(a, u - b.Keys)
  {
    forall k | k in a ensures k in u && u[k] == a[k] && k !in b { assert k in a + b; }
    forall k | k in b ensures k in u && u[k] == b[k] { assert k in a + b; }
  }

  lemma CoversBefore(u: Utxo, s: State, t: State, b: Block)
    requires Covers(u, t) && WellFormed(b) && Unseen(b, s.outputs, s.keyImages)
    requires t.outputs == s.outputs + Created(b.txs, b.height) && t.keyImages == s.keyImages + Spent(b.txs)
    ensures Covers(u, s) && Covers(Disconnect(u, b), s)
    ensures Equivalent(Connect(Disconnect(u, b), b), u)
  {
    hide Created, Spent, WellFormed, Equivalent, Connect;
    WithinParts(u.outputs, s.outputs, Created(b.txs, b.height));
    RedoEquivalent(u, b);
  }

  /** Σ reward(0..n-1). */
  function RewardSum(r: Rules, n: nat): nat {
    if n == 0 then 0 else RewardSum(r, n - 1) + r.reward(n - 1)
  }

  /** Total supply is the emission schedule summed up to the tip, whatever blocks are on the chain. */
  lemma {:induction false} SupplyIsSchedule(r: Rules, c: seq<Block>)
    requires ChainOk(r, c)
    ensures StateOf(r, c).supply == RewardSum(r, |c|)
  {
    if |c| == 1 {
      assert RewardSum(r, 1) == RewardSum(r, 0) + r.reward(0);
    } else {
      SupplyIsSchedule(r, c[..|c| - 1]);
    }
  }

  lemma {:induction false} ExtendsCommits(r: Rules, c: seq<Block>, b: Block)
    requires |c| >= 1 && Extends(r, c, b) && b.height >= r.enforceHeight
    ensures b.commitment == Commitment(r, StateOf(r, c + [b]).supply, StateOf(r, c + [b]).burned)
  {
    Snoc(r, c, b);
  }

  /** Every block from the enforcement height on commits to the totals of its own prefix. */
  lemma {:induction false} EveryBlockCommits(r: Rules, c: seq<Block>, i: nat)
    requires ChainOk(r, c) && 1 <= i < |c| && i >= r.enforceHeight
    ensures c[i].commitment == Commitment(r, StateOf(r, c[..i + 1]).supply, StateOf(r, c[..i + 1]).burned)
  {
    hide StateOf, ChainOk, Extends, Commitment;
    Linked(r, c, i);
    assert c[..i + 1] == c[..i] + [c[i]];
    ExtendsCommits(r, c[..i], c[i]);
  }

  /** Outputs created by any block of the chain are in the fold. */
  lemma {:induction false} OutputsStay(r: Rules, c: seq<Block>, i: nat)
    requires |c| >= 1 && i < |c|
    ensures Created(c[i].txs, c[i].height).Keys <= StateOf(r, c).outputs.Keys
  {
    if i < |c| - 1 {
      OutputsStay(r, c[..|c| - 1], i);
    }
  }

  /** No transaction identifier is in two blocks of the chain. */
  ghost predicate Repeatless(c: seq<Block>) {
    forall i, j, t, v | 0 <= i < j < |c| && 0 <= t < |c[i].txs| && 0 <= v < |c[j].txs| ::
      c[i].txs[t].id != c[j].txs[v].id
  }

  /** Key images spent by any block of the chain are in the fold. */
  lemma {:induction false} ImagesStay(r: Rules, c: seq<Block>, i: nat)
    requires |c| >= 1 && i < |c|
    ensures Spent(c[i].txs) <= StateOf(r, c).keyImages
  {
    if i < |c| - 1 {
      ImagesStay(r, c[..|c| - 1], i);
    }
  }

  /** The transaction creates a transparent output or spends a key image. */
  predicate Marks(tx: Tx) {
    tx.outputs != [] || (!tx.coinbase && tx.keyImages != [])
  }

  /** A transaction that creates an output or spends a key image is on the chain once; one that creates an output
      shares its identifier with no other that does. */
  lemma {:induction false} NoRepeat(r: Rules, c: seq<Block>, i: nat, j: nat, t: nat, v: nat)
    requires ChainOk(r, c) && i < j < |c| && t < |c[i].txs| && v < |c[j].txs|
    ensures Marks(c[i].txs[t]) ==> c[i].txs[t] != c[j].txs[v]
    ensures c[i].txs[t].outputs != [] && c[j].txs[v].outputs != [] ==> c[i].txs[t].id != c[j].txs[v].id
  {
    hide ChainOk, StateOf, Created;
    Linked(r, c, i);
    Linked(r, c, j);
    OutputsStay(r, c[..j], i);
    ImagesStay(r, c[..j], i);
    var x, y := c[i].txs[t], c[j].txs[v];
    if x.outputs != [] && y.outputs != [] {
      assert Owns(x, (x.id, 0)) && Owns(y, (y.id, 0));
      CreatedIds(c[i].txs, c[i].height, (x.id, 0));
      CreatedIds(c[j].txs, c[j].height, (y.id, 0));
    }
    assert !x.coinbase && x.keyImages != [] ==> x.keyImages[0] in Spent(c[i].txs);
    assert !y.coinbase && y.keyImages != [] ==> y.keyImages[0] in Spent(c[j].txs);
  }

  /** One identifier, one transaction: the identifier is a hash of the whole transaction. */
  ghost predicate IdsFix(c: seq<Block>) {
    forall i, j, t, v | 0 <= i < |c| && 0 <= j < |c| && 0 <= t < |c[i].txs| && 0 <= v < |c[j].txs| ::
      c[i].txs[t].id == c[j].txs[v].id ==> c[i].txs[t] == c[j].txs[v]
  }

  /** Output keys and key images stop every repetition but that of a transaction with neither: a pool-internal
      send, which the shielded pool stops by its linking tags. */
  lemma {:induction false} MarkedNoRepeat(r: Rules, c: seq<Block>)
    requires ChainOk(r, c) && IdsFix(c)
    requires forall i, t | 0 <= i < |c| && 0 <= t < |c[i].txs| :: Marks(c[i].txs[t])
    ensures Repeatless(c)
  {
    forall i, j, t, v | 0 <= i < j < |c| && 0 <= t < |c[i].txs| && 0 <= v < |c[j].txs|
      ensures c[i].txs[t].id != c[j].txs[v].id
    {
      NoRepeat(r, c, i, j, t, v);
    }
  }

  /** No output is ever overwritten: the live set has exactly the outputs the chain created. */
  lemma {:induction false} LiveCount(r: Rules, c: seq<Block>)
    requires ChainOk(r, c)
    ensures |StateOf(r, c).outputs| == StateOf(r, c).outputTotal
  {
    var b := c[|c| - 1];
    CreatedCount(b.txs, b.height);
    if |c| > 1 {
      LiveCount(r, c[..|c| - 1]);
      DisjointSize(StateOf(r, c[..|c| - 1]).outputs, Created(b.txs, b.height));
    }
  }

  lemma DisjointSize(m: map<OutKey, OutRef>, n: map<OutKey, OutRef>)
    requires m.Keys !! n.Keys
    ensures |m + n| == |m| + |n|
  {
    assert (m + n).Keys == m.Keys + n.Keys;
  }

  /** Cumulative work: 1 for genesis, then the work of each target. */
  function ChainWork(c: seq<Block>): nat {
    if |c| <= 1 then 1 else ChainWork(c[..|c| - 1]) + Work(c[|c| - 1].target)
  }

  lemma ChainWorkSnoc(c: seq<Block>, b: Block)
    requires |c| >= 1
    ensures ChainWork(c + [b]) == ChainWork(c) + Work(b.target)
  {
    assert (c + [b])[..|c|] == c;
  }

  lemma {:induction false} WorkOfState(r: Rules, c: seq<Block>)
    requires |c| >= 1
    ensures StateOf(r, c).work == ChainWork(c)
  {
    if |c| > 1 {
      WorkOfState(r, c[..|c| - 1]);
    }
  }
}
