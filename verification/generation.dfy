/** The stable-generation protocol: any number of updaters and a reader, interleaved atomic step by atomic step. */
module Generation {

  /** Where an updater is: outside, between raising the counter and bumping the generation (with or without a
      mutation made so far), or about to lower the counter. */
  datatype Phase = Idle | Active(dirty: bool) | Bumped

  /** The two shared counters, and how many times canonical state has been mutated. */
  datatype System = System(updaters: seq<Phase>, inProgress: nat, generation: nat, mutations: nat)

  datatype Step = Begin(u: nat) | Mutate(u: nat) | Bump(u: nat) | Lower(u: nat)

  /** `begin_state_update` raises the counter; dropping the guard bumps the generation and then lowers it. */
  predicate Enabled(s: System, e: Step) {
    && e.u < |s.updaters|
    && match e
       case Begin(u) => s.updaters[u].Idle?
       case Mutate(u) => s.updaters[u].Active?
       case Bump(u) => s.updaters[u].Active?
       case Lower(u) => s.updaters[u].Bumped? && s.inProgress > 0
  }

  function Take(s: System, e: Step): System
    requires Enabled(s, e)
  {
    match e
    case Begin(u) => s.(updaters := s.updaters[u := Active(false)], inProgress := s.inProgress + 1)
    case Mutate(u) => s.(updaters := s.updaters[u := Active(true)], mutations := s.mutations + 1)
    case Bump(u) => s.(updaters := s.updaters[u := Bumped], generation := s.generation + 1)
    case Lower(u) => s.(updaters := s.updaters[u := Idle], inProgress := s.inProgress - 1)
  }

  /** How many updaters are inside. */
  function Busy(us: seq<Phase>): nat {
    if us == [] then 0 else Busy(us[..|us| - 1]) + if us[|us| - 1].Idle? then 0 else 1
  }

  ghost predicate Counted(s: System) {
    s.inProgress == Busy(s.updaters)
  }

  lemma {:induction false} BusyUpdate(us: seq<Phase>, u: nat, p: Phase)
    requires u < |us|
    ensures Busy(us[u := p]) + (if us[u].Idle? then 0 else 1) == Busy(us) + if p.Idle? then 0 else 1
  {
    var init := us[..|us| - 1];
    if u == |us| - 1 {
      assert us[u := p][..|us| - 1] == init;
    } else {
      assert us[u := p][..|us| - 1] == init[u := p];
      BusyUpdate(init, u, p);
    }
  }

  lemma {:induction false} BusyNone(us: seq<Phase>)
    requires Busy(us) == 0
    ensures forall u | 0 <= u < |us| :: us[u].Idle?
  {
    if us != [] { BusyNone(us[..|us| - 1]); }
  }

  /** A run: states, and the step taken from each to the next. */
  ghost predicate Run(ss: seq<System>, es: seq<Step>) {
    && |ss| == |es| + 1
    && Counted(ss[0])
    && forall i {:trigger es[i]} | 0 <= i < |es| :: Enabled(ss[i], es[i]) && ss[i + 1] == Take(ss[i], es[i])
  }

  lemma {:induction false} AlwaysCounted(ss: seq<System>, es: seq<Step>, i: nat)
    requires Run(ss, es) && i < |ss|
    ensures Counted(ss[i])
  {
    if i > 0 {
      AlwaysCounted(ss, es, i - 1);
      var s, e := ss[i - 1], es[i - 1];
      assert ss[i] == Take(s, e);
      BusyUpdate(s.updaters, e.u, ss[i].updaters[e.u]);
    }
  }

  /** The counter can always be lowered: it never underflows. */
  lemma NeverUnderflows(ss: seq<System>, es: seq<Step>, i: nat, u: nat)
    requires Run(ss, es) && i < |ss| && u < |ss[i].updaters| && ss[i].updaters[u].Bumped?
    ensures Enabled(ss[i], Lower(u))
  {
    AlwaysCounted(ss, es, i);
    BusyUpdate(ss[i].updaters, u, Idle);
  }

  lemma {:induction false} GenerationGrows(ss: seq<System>, es: seq<Step>, i: nat, j: nat)
    requires Run(ss, es) && i <= j < |ss|
    ensures ss[i].generation <= ss[j].generation
    decreases j
  {
    if i < j {
      GenerationGrows(ss, es, i, j - 1);
      assert ss[j] == Take(ss[j - 1], es[j - 1]);
    }
  }

  /** Since any moment: nothing was mutated, or the generation has moved, or a mutating updater is still in. */
  lemma {:induction false} MutationLeavesTrace(ss: seq<System>, es: seq<Step>, i: nat, j: nat)
    requires Run(ss, es) && i <= j < |ss|
    ensures
      || ss[j].mutations == ss[i].mutations
      || ss[j].generation > ss[i].generation
      || exists u | 0 <= u < |ss[j].updaters| :: ss[j].updaters[u] == Active(true)
    decreases j
  {
    if i < j {
      MutationLeavesTrace(ss, es, i, j - 1);
      var s, e, t := ss[j - 1], es[j - 1], ss[j];
      assert t == Take(s, e);
      GenerationGrows(ss, es, i, j - 1);
      if s.generation == ss[i].generation && !e.Bump? {
        if e.Mutate? {
          assert t.updaters[e.u] == Active(true);
        } else if s.mutations != ss[i].mutations {
          var u :| 0 <= u < |s.updaters| && s.updaters[u] == Active(true);
          assert t.updaters[u] == Active(true);
        }
      }
    }
  }

  /** Equal generations at two moments, the later one quiet: no mutation in between. */
  lemma {:induction false} QuietMomentAgrees(ss: seq<System>, es: seq<Step>, i: nat, j: nat)
    requires Run(ss, es) && i <= j < |ss|
    requires ss[j].inProgress == 0 && ss[i].generation == ss[j].generation
    ensures ss[i].mutations == ss[j].mutations
  {
    MutationLeavesTrace(ss, es, i, j);
    AlwaysCounted(ss, es, j);
    BusyNone(ss[j].updaters);
  }

  /** A call of `stable_generation` that answers `g`: the counter is read as 0, the generation as `g`, and the
      counter as 0 again, with any steps of others between the three reads. */
  datatype Call = Call(first: nat, middle: nat, last: nat)

  ghost predicate Answers(ss: seq<System>, c: Call, g: nat) {
    && c.first <= c.middle <= c.last < |ss|
    && ss[c.first].inProgress == 0 && ss[c.middle].generation == g && ss[c.last].inProgress == 0
  }

  /** Two calls that give the same answer: nothing was mutated from the moment the first read the generation to the
      start of the second. */
  lemma {:induction false} SameAnswerNoMutation(ss: seq<System>, es: seq<Step>, a: Call, b: Call, g: nat)
    requires Run(ss, es) && Answers(ss, a, g) && Answers(ss, b, g) && a.middle <= b.first
    ensures ss[a.middle].mutations == ss[b.first].mutations
  {
    GenerationGrows(ss, es, a.middle, b.first);
    GenerationGrows(ss, es, b.first, b.middle);
    QuietMomentAgrees(ss, es, a.middle, b.first);
  }

  /** The bound is the start of the second call and not its end: an updater that slips in after the first read can
      mutate and leave before the last one. */
  lemma MutationInsideCall()
    ensures exists ss: seq<System>, es: seq<Step>, b: Call ::
              Run(ss, es) && Answers(ss, b, 0) && ss[b.first].mutations < ss[b.last].mutations
  {
    var s0 := System([Idle], 0, 0, 0);
    var s1 := Take(s0, Begin(0));
    var s2 := Take(s1, Mutate(0));
    var s3 := Take(s2, Bump(0));
    var s4 := Take(s3, Lower(0));
    var ss, es := [s0, s1, s2, s3, s4], [Begin(0), Mutate(0), Bump(0), Lower(0)];
    assert Run(ss, es);
    assert Answers(ss, Call(0, 2, 4), 0);
  }
}
