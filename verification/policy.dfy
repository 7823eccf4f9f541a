/** Fork choice, the tiered reorg policy, and how far back the block cache must reach. */
module Policy {
  import opened Types

  /** The fork replaces the tip: more work, or equal work and a smaller tip hash. */
  predicate TakeFork(forkWork: nat, forkHash: Hash, work: nat, tipHash: Hash) {
    forkWork > work || (forkWork == work && forkHash < tipHash)
  }

  const UNCONDITIONAL_DEPTH: nat := 10
  const MESS_DIVISOR: nat := 20
  const BOOTSTRAP_HEIGHT: nat := 1000

  function Pow2(n: nat): (p: nat)
    ensures p >= 1
  {
    if n == 0 then 1 else 2 * Pow2(n - 1)
  }

  /** Work a fork of this depth must exceed once the chain is past its bootstrap phase. */
  function RequiredWork(depth: nat, honest: nat): nat
    requires depth > UNCONDITIONAL_DEPTH
  {
    var e := (depth - UNCONDITIONAL_DEPTH) / MESS_DIVISOR;
    var product := honest * Pow2(if e <= 40 then e else 40);
    if product <= U128_MAX then product else U128_MAX
  }

  /** `evaluate_reorg_acceptability`. */
  predicate Acceptable(depth: nat, forkWork: nat, honest: nat, height: nat, maxDepth: nat) {
    if depth > maxDepth then false
    else if depth <= UNCONDITIONAL_DEPTH || height < BOOTSTRAP_HEIGHT then forkWork >= honest
    else forkWork > RequiredWork(depth, honest)
  }

  lemma DepthAllowed(depth: nat, forkWork: nat, honest: nat, height: nat, maxDepth: nat)
    requires Acceptable(depth, forkWork, honest, height, maxDepth)
    ensures depth <= maxDepth
  {
  }

  lemma {:induction false} Pow2Monotone(a: nat, b: nat)
    requires a <= b
    ensures Pow2(a) <= Pow2(b)
    decreases b
  {
    if a < b { Pow2Monotone(a, b - 1); }
  }

  lemma RequiredWorkMonotone(d: nat, e: nat, honest: nat)
    requires UNCONDITIONAL_DEPTH < d <= e && honest <= U128_MAX
    ensures honest <= RequiredWork(d, honest) <= RequiredWork(e, honest)
  {
    var x, y := (d - UNCONDITIONAL_DEPTH) / MESS_DIVISOR, (e - UNCONDITIONAL_DEPTH) / MESS_DIVISOR;
    assert x <= y;
    var p, q := Pow2(if x <= 40 then x else 40), Pow2(if y <= 40 then y else 40);
    Pow2Monotone(if x <= 40 then x else 40, if y <= 40 then y else 40);
    assert honest * 1 <= honest * p <= honest * q by { Scale(honest, 1, p); Scale(honest, p, q); }
  }

  lemma Scale(n: nat, a: nat, b: nat)
    requires a <= b
    ensures n * a <= n * b
  {
    assert n * b == n * a + n * (b - a);
  }

  /** Depth only ever makes a reorg harder, and no reorg is accepted with less work than the tip. */
  lemma DeeperIsHarder(d: nat, e: nat, forkWork: nat, honest: nat, height: nat, maxDepth: nat)
    requires d <= e && honest <= U128_MAX && Acceptable(e, forkWork, honest, height, maxDepth)
    ensures Acceptable(d, forkWork, honest, height, maxDepth) && forkWork >= honest
  {
    if e > UNCONDITIONAL_DEPTH && height >= BOOTSTRAP_HEIGHT {
      RequiredWorkMonotone(if d > UNCONDITIONAL_DEPTH then d else e, e, honest);
    }
  }

  // ---- the finality floor and the cache ----

  const CHECKPOINT_INTERVAL: nat := 144
  const CACHE_DEPTH: nat := 200
  const MAX_BLOCK_CACHE: nat := 500

  /** The recorded checkpoint height once `b` is committed on the tip. */
  function LastCheckpoint(b: Block, last: nat): nat {
    if b.height % CHECKPOINT_INTERVAL == 0 then b.height else last
  }

  /** The lowest height a reorg may keep as its fork point: the tip minus one checkpoint interval. */
  function FinalityFloor(tipHeight: nat): nat {
    if tipHeight <= CHECKPOINT_INTERVAL then 0 else tipHeight - CHECKPOINT_INTERVAL
  }

  /** The policy lets a fork tip at `height` with fork point `p` replace a tip at `tipHeight`. */
  predicate Admits(height: nat, p: nat, forkWork: nat, work: nat, tipHeight: nat, maxDepth: nat)
    requires p <= height
  {
    Acceptable(height - p, forkWork, work, tipHeight, maxDepth) && FinalityFloor(tipHeight) <= p
  }

  /** Height `h` is certain to be cached by a node whose tip has been as high as `highest`. */
  predicate Retained(h: nat, highest: nat) {
    h + CACHE_DEPTH >= highest
  }

  /** The tip has not fallen so far that a permitted reorg could need an evicted block. */
  predicate WithinReach(tipHeight: nat, highest: nat) {
    highest <= (if tipHeight <= CHECKPOINT_INTERVAL then CHECKPOINT_INTERVAL else tipHeight) + 57
  }

  /** Height `h` is disconnected by a permitted reorg with fork point `p`. */
  predicate Disconnectable(p: nat, h: nat, tipHeight: nat) {
    FinalityFloor(tipHeight) <= p < h <= tipHeight
  }

  /** Every block any permitted reorg could disconnect is retained exactly when the tip is within
      57 blocks of the highest it has been. */
  lemma ReachIsExact(tipHeight: nat, highest: nat)
    requires tipHeight > 0
    ensures WithinReach(tipHeight, highest)
       <==> forall p, h | Disconnectable(p, h, tipHeight) :: Retained(h, highest)
  {
    var p := FinalityFloor(tipHeight);
    assert Disconnectable(p, p + 1, tipHeight);
  }
}
