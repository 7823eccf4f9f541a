/** Blocks, transactions and the rules a node is parameterised by. */
module Types {

  /** A 256-bit hash read as a big-endian number, so `<` is the byte-wise order of the source. */
  type Hash = nat

  type KeyImage = nat

  datatype Option<+T> = None | Some(value: T)

  /** A transaction: `id` is its hash, `outputs` one tag per transparent output. */
  datatype Tx = Tx(id: Hash, coinbase: bool, outputs: seq<nat>, keyImages: seq<KeyImage>)

  const U128_MAX: nat := 0xffff_ffff_ffff_ffff_ffff_ffff_ffff_ffff

  /** A 256-bit proof-of-work target. */
  type Target = t: nat | t < (U128_MAX + 1) * (U128_MAX + 1)

  /** A block: `hash` is the header hash, `target` its proof-of-work target, and `shielded`
      lists what the block does to the Phase-2 stores. */
  datatype Block = Block(
    hash: Hash,
    prev: Hash,
    height: nat,
    timestamp: nat,
    target: Target,
    commitment: Hash,
    txs: seq<Tx>,
    shielded: seq<nat>)

  /** One entry of the difficulty window (`DifficultyBlock`). */
  datatype Sample = Sample(height: nat, timestamp: nat, target: Target)

  function SampleOf(b: Block): Sample {
    Sample(b.height, b.timestamp, b.target)
  }

  /** The work a target stands for: `u128::MAX` divided by the top 128 bits of the target. */
  function Work(target: Target): (w: nat)
    ensures 1 <= w <= U128_MAX
  {
    var top := target / (U128_MAX + 1);
    if top == 0 then U128_MAX
    else
      assert U128_MAX / top <= U128_MAX by { QuotientAntitone(U128_MAX, 1, top); }
      assert U128_MAX / top >= 1 by { QuotientGreatest(U128_MAX, top, 1); }
      U128_MAX / top
  }

  /** `n / d` is the greatest `q` with `q * d <= n`. */
  lemma QuotientGreatest(n: nat, d: nat, q: nat)
    requires d > 0
    ensures q <= n / d <==> q * d <= n
  {
    var p := n / d;
    assert p * d <= n < p * d + d;
    if q <= p {
      assert (p - q) * d >= 0;
      assert q * d + (p - q) * d == p * d;
    } else {
      assert (q - p - 1) * d >= 0;
      assert q * d == (q - p - 1) * d + p * d + d;
    }
  }

  lemma QuotientAntitone(n: nat, c: nat, d: nat)
    requires 0 < c <= d
    ensures n / d <= n / c
  {
    var q := n / d;
    QuotientGreatest(n, d, q);
    assert q * (d - c) >= 0;
    assert q * d == q * c + q * (d - c);
    QuotientGreatest(n, c, q);
  }

  /** A harder (smaller) target never stands for less work. */
  lemma WorkAntitone(easy: Target, hard: Target)
    requires hard <= easy
    ensures Work(easy) <= Work(hard)
  {
    var unit := U128_MAX + 1;
    assert hard / unit <= easy / unit;
    if hard / unit > 0 {
      QuotientAntitone(U128_MAX, hard / unit, easy / unit);
    }
  }
}
