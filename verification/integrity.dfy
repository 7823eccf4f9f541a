/** The block-integrity detector and its live feed into a latched breaker. */
module Integrity {
  import opened Types
  import opened Breaker
  import UtxoSet
  import Ledger

  const U64_MAX: nat := 0xffff_ffff_ffff_ffff

  datatype Fault = NonMonotonicOutputs | AvailabilityUnderflow | LiveSetExceedsEver | UtxoRootMismatch

  datatype Observation = Observation(
    prevEver: nat,
    ever: nat,
    disconnects: nat,
    live: nat,
    computedRoot: Hash,
    committedRoot: Option<Hash>)

  /** Which faults an observation shows. */
  predicate Shows(o: Observation, f: Fault) {
    match f
    case NonMonotonicOutputs => o.ever < o.prevEver
    case AvailabilityUnderflow => o.disconnects > o.ever
    case LiveSetExceedsEver => o.live > o.ever
    case UtxoRootMismatch => o.committedRoot.Some? && o.committedRoot.value != o.computedRoot
  }

  /** Collect the faults: every one shown is listed, once, and no other. */
  method Detect(o: Observation) returns (faults: seq<Fault>)
    ensures forall f :: f in faults <==> Shows(o, f)
    ensures forall i, j | 0 <= i < j < |faults| :: faults[i] != faults[j]
    ensures faults != [] <==> Shows(o, NonMonotonicOutputs) || Shows(o, AvailabilityUnderflow)
                              || Shows(o, LiveSetExceedsEver) || Shows(o, UtxoRootMismatch)
  {
    faults := [];
    if o.ever < o.prevEver { faults := faults + [NonMonotonicOutputs]; }
    if o.disconnects > o.ever { faults := faults + [AvailabilityUnderflow]; }
    if o.live > o.ever { faults := faults + [LiveSetExceedsEver]; }
    if o.committedRoot.Some? {
      if o.committedRoot.value != o.computedRoot { faults := faults + [UtxoRootMismatch]; }
    }
  }

  datatype BreakerPolicy = Observe | Armed

  /** Reject exactly when armed and faulty. */
  method Evaluate(policy: BreakerPolicy, o: Observation) returns (rejects: bool, faults: seq<Fault>)
    ensures rejects <==> policy == Armed && exists f :: Shows(o, f)
    ensures rejects ==> forall f :: f in faults <==> Shows(o, f)
  {
    faults := Detect(o);
    if faults != [] { assert Shows(o, faults[0]); }
    rejects := policy == Armed && faults != [];
  }

  /** One connected block's counters. */
  datatype Reading = Reading(ever: nat, disconnects: nat, live: nat)

  /** The greatest outputs-ever value so far. */
  function Peak(rs: seq<Reading>): nat {
    if rs == [] then 0
    else
      var p := Peak(rs[..|rs| - 1]);
      if p < rs[|rs| - 1].ever then rs[|rs| - 1].ever else p
  }

  /** Reading `i` is below an earlier one, or inconsistent in itself. */
  ghost predicate Bad(rs: seq<Reading>, i: nat)
    requires i < |rs|
  {
    || (exists j | 0 <= j < i :: rs[i].ever < rs[j].ever)
    || rs[i].disconnects > rs[i].ever
    || rs[i].live > rs[i].ever
  }

  /** The events tell the bad readings from the others. */
  ghost predicate Logged(h: seq<Event>, rs: seq<Reading>) {
    |h| == |rs| && forall i | 0 <= i < |rs| :: h[i] == if Bad(rs, i) then Faulty else Healthy
  }

  lemma {:induction false} PeakMeaning(rs: seq<Reading>, e: nat)
    ensures e < Peak(rs) <==> exists j | 0 <= j < |rs| :: e < rs[j].ever
  {
    if rs != [] {
      var init := rs[..|rs| - 1];
      PeakMeaning(init, e);
      assert forall j | 0 <= j < |init| :: init[j] == rs[j];
      if e < Peak(init) {
        var j :| 0 <= j < |init| && e < init[j].ever;
        assert e < rs[j].ever;
      }
    }
  }

  /** A new reading is bad exactly when its observation against the remembered maximum shows a fault. */
  lemma LastIsBad(was: seq<Reading>, o: Observation)
    requires o.prevEver == (if was == [] then o.ever else Peak(was)) && o.committedRoot.None?
    ensures Bad(was + [Reading(o.ever, o.disconnects, o.live)], |was|) <==>
            Shows(o, NonMonotonicOutputs) || Shows(o, AvailabilityUnderflow) || Shows(o, LiveSetExceedsEver)
    ensures !Shows(o, UtxoRootMismatch)
  {
    var rs := was + [Reading(o.ever, o.disconnects, o.live)];
    PeakMeaning(was, o.ever);
    assert forall j | 0 <= j < |was| :: rs[j] == was[j];
    if exists j | 0 <= j < |was| :: o.ever < was[j].ever {
      var j :| 0 <= j < |was| && o.ever < was[j].ever;
      assert o.ever < rs[j].ever;
    }
  }

  /** The live feed: the remembered maximum and the latched breaker it drives. */
  class LiveFeed {
    var prevEver: nat
    const breaker: RecoveryBreaker
    ghost var readings: seq<Reading>

    ghost predicate Valid()
      reads this, breaker
    {
      && breaker.Valid() && breaker.policy == Latch
      && prevEver == (if readings == [] then U64_MAX else Peak(readings))
      && (readings != [] ==> Peak(readings) < U64_MAX)
      && Logged(breaker.history, readings)
    }

    constructor ()
      ensures Valid() && readings == [] && fresh(breaker)
    {
      prevEver := U64_MAX;
      breaker := new RecoveryBreaker(Latch);
      readings := [];
    }

    /** After a block connected: observe, remember the maximum, drive the breaker. */
    method OnBlockConnected(ever: nat, disconnects: nat, live: nat) returns (s: BreakerState)
      requires Valid() && ever < U64_MAX
      modifies this, breaker
      ensures Valid() && readings == old(readings) + [Reading(ever, disconnects, live)]
      ensures s == breaker.state
      ensures s == if exists i | 0 <= i < |readings| :: Bad(readings, i) then Open else Closed
    {
      hide Bad, Shows, SinceFault, Logged, Peak, StateAfter;
      ghost var was := readings;
      var prev := if prevEver == U64_MAX then ever else prevEver;
      var o := Observation(prev, ever, disconnects, live, 0, None);
      var faults := Detect(o);
      readings := readings + [Reading(ever, disconnects, live)];
      PeakNext(was, Reading(ever, disconnects, live));
      LastIsBad(was, o);
      LoggedNext(breaker.history, was, Reading(ever, disconnects, live));
      prevEver := if prev < ever then ever else prev;
      s := breaker.Observe(faults != []);
      OpenIff(breaker.history, readings);
    }
  }

  lemma PeakNext(was: seq<Reading>, r: Reading)
    ensures Peak(was + [r]) == if was == [] || Peak(was) < r.ever then r.ever else Peak(was)
  {
    assert (was + [r])[..|was|] == was;
  }

  /** A later reading does not make an earlier one bad or good. */
  lemma BadStays(was: seq<Reading>, r: Reading)
    ensures forall i | 0 <= i < |was| :: Bad(was + [r], i) == Bad(was, i)
  {
    var rs := was + [r];
    forall i | 0 <= i < |was| ensures Bad(rs, i) == Bad(was, i) {
      assert forall j | 0 <= j <= i :: rs[j] == was[j];
      if exists j | 0 <= j < i :: was[i].ever < was[j].ever {
        var j :| 0 <= j < i && was[i].ever < was[j].ever;
        assert rs[i].ever < rs[j].ever;
      }
    }
  }

  lemma LoggedNext(h: seq<Event>, was: seq<Reading>, r: Reading)
    requires Logged(h, was)
    ensures Logged(h + [if Bad(was + [r], |was|) then Faulty else Healthy], was + [r])
  {
    hide Bad;
    BadStays(was, r);
  }

  /** With no rearm, the latch is open exactly when some reading was bad. */
  lemma OpenIff(h: seq<Event>, rs: seq<Reading>)
    requires Logged(h, rs)
    ensures StateAfter(Latch, h) == if exists i | 0 <= i < |rs| :: Bad(rs, i) then Open else Closed
  {
    LatchIsolatesIff(h);
    if exists i | 0 <= i < |rs| :: Bad(rs, i) {
      var i :| 0 <= i < |rs| && Bad(rs, i);
      assert h[i] == Faulty;
    }
  }

  // ---- what the feed sees of a sound node ----

  /** A node whose output set is the fold of its chain shows no fault, as long as its counter did not go back:
      live outputs are exactly those ever created minus those disconnected. */
  lemma SoundNodeIsHealthy(r: Ledger.Rules, c: seq<Block>, u: UtxoSet.Utxo, prev: nat, f: Fault)
    requires Ledger.ChainOk(r, c) && Ledger.Holds(u, Ledger.StateOf(r, c)) && prev <= u.ever
    ensures u.ever == u.disconnects + |u.outputs|
    ensures !Shows(Observation(prev, u.ever, u.disconnects, |u.outputs|, 0, None), f)
  {
    Ledger.LiveCount(r, c);
  }
}
