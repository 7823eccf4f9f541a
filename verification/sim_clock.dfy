/** The virtual monotonic clock: concurrent advances by compare-and-swap, interleaved step by step. */
module SimClock {

  const I64_MAX: nat := 0x7fff_ffff_ffff_ffff

  /** One call of `advance_sim_mono`: before its load, between load and compare-and-swap, or returned. `add` is
      the advance in nanoseconds, already capped at `I64_MAX`. */
  datatype Call =
    | Loop(add: nat)
    | Loaded(add: nat, cur: int)
    | Returned(add: nat, instant: nat)

  /** The shared clock (negative when not overridden), the calls, and the order in which they committed. */
  datatype System = System(clock: int, calls: seq<Call>, commits: seq<nat>)

  function Saturated(n: nat): nat {
    if n <= I64_MAX then n else I64_MAX
  }

  /** The value a call tries to install over what it loaded. */
  function Next(cur: int, add: nat): nat {
    Saturated((if cur < 0 then 0 else cur) + add)
  }

  datatype Step = Load(k: nat) | Swap(k: nat)

  predicate Enabled(s: System, e: Step) {
    && e.k < |s.calls|
    && match e
       case Load(k) => s.calls[k].Loop?
       case Swap(k) => s.calls[k].Loaded?
  }

  /** A load remembers the clock; a swap installs the next value if the clock still is what was loaded, and
      otherwise the call loops. */
  function Take(s: System, e: Step): System
    requires Enabled(s, e)
  {
    match e
    case Load(k) => s.(calls := s.calls[k := Loaded(s.calls[k].add, s.clock)])
    case Swap(k) =>
      var c := s.calls[k];
      if s.clock == c.cur then
        var next := Next(c.cur, c.add);
        System(next, s.calls[k := Returned(c.add, next)], s.commits + [k])
      else s.(calls := s.calls[k := Loop(c.add)])
  }

  ghost predicate Started(s: System) {
    s.clock <= I64_MAX && s.commits == [] && forall k | 0 <= k < |s.calls| ::
      s.calls[k].Loop? && s.calls[k].add <= I64_MAX
  }

  ghost predicate Run(ss: seq<System>, es: seq<Step>) {
    && |ss| == |es| + 1
    && Started(ss[0])
    && forall i {:trigger es[i]} | 0 <= i < |es| :: Enabled(ss[i], es[i]) && ss[i + 1] == Take(ss[i], es[i])
  }

  /** Sum of the advances of the listed calls. */
  function Total(calls: seq<Call>, ks: seq<nat>): nat {
    if ks == [] then 0
    else Total(calls, ks[..|ks| - 1]) + if ks[|ks| - 1] < |calls| then calls[ks[|ks| - 1]].add else 0
  }

  function Base(start: int): nat {
    if start < 0 then 0 else start
  }

  /** The clock once the listed calls, and no others, have committed. */
  function Reading(start: int, calls: seq<Call>, ks: seq<nat>): nat {
    Saturated(Base(start) + Total(calls, ks))
  }

  /** The log lists exactly the returned calls, each once. */
  ghost predicate Logged(s: System) {
    && (forall i | 0 <= i < |s.commits| :: s.commits[i] < |s.calls| && s.calls[s.commits[i]].Returned?)
    && (forall i, j | 0 <= i < j < |s.commits| :: s.commits[i] != s.commits[j])
    && (forall k | 0 <= k < |s.calls| && s.calls[k].Returned? :: k in s.commits)
  }

  /** The `i`-th call to commit returned the clock at its commit. */
  ghost predicate ReturnedAt(start: int, s: System, i: nat)
    requires i < |s.commits|
  {
    && s.commits[i] < |s.calls| && s.calls[s.commits[i]].Returned?
    && s.calls[s.commits[i]].instant == Reading(start, s.calls, s.commits[..i + 1])
  }

  /** Every returned instant is the clock at its commit, and the clock is that of the last commit. */
  ghost predicate Tallied(start: int, s: System) {
    && Logged(s)
    && (forall i | 0 <= i < |s.commits| :: ReturnedAt(start, s, i))
    && s.clock == (if s.commits == [] then start else Reading(start, s.calls, s.commits))
  }

  /** Readings only look at the advances. */
  lemma {:induction false} ReadingSame(start: int, a: seq<Call>, b: seq<Call>, ks: seq<nat>)
    requires |a| == |b| && (forall k | 0 <= k < |a| :: a[k].add == b[k].add)
    ensures Total(a, ks) == Total(b, ks) && Reading(start, a, ks) == Reading(start, b, ks)
  {
    if ks != [] { ReadingSame(start, a, b, ks[..|ks| - 1]); }
  }

  lemma SaturatedTwice(a: nat, b: nat)
    ensures Saturated(Saturated(a) + b) == Saturated(a + b)
  {
  }

  lemma TakeKeepsAdds(s: System, e: Step)
    requires Enabled(s, e)
    ensures |Take(s, e).calls| == |s.calls| && forall k | 0 <= k < |s.calls| ::
      Take(s, e).calls[k].add == s.calls[k].add
  {
  }

  lemma CommitLogged(s: System, k: nat)
    requires Logged(s) && Enabled(s, Swap(k)) && s.calls[k].cur == s.clock
    ensures Logged(Take(s, Swap(k)))
  {
    var t := Take(s, Swap(k));
    assert t.commits[|s.commits|] == k;
    assert forall i | 0 <= i < |s.commits| :: s.commits[i] != k;
    forall j | 0 <= j < |t.calls| && t.calls[j].Returned? ensures j in t.commits {
      assert j != k ==> j in s.commits;
    }
  }

  /** The value installed by a successful swap is the next reading. */
  lemma CommitReading(start: int, s: System, k: nat)
    requires Tallied(start, s) && Enabled(s, Swap(k)) && s.calls[k].cur == s.clock && start <= I64_MAX
    ensures
      var t := Take(s, Swap(k));
      t.clock == Reading(start, t.calls, t.commits) == t.calls[k].instant
  {
    var t := Take(s, Swap(k));
    TakeKeepsAdds(s, Swap(k));
    ReadingSame(start, s.calls, t.calls, s.commits);
    assert t.commits[..|s.commits|] == s.commits;
    SaturatedTwice(Base(start) + Total(t.calls, s.commits), s.calls[k].add);
  }

  /** A step leaves the instants returned before it as they were. */
  lemma StillReturned(start: int, s: System, e: Step, i: nat)
    requires Enabled(s, e) && i < |s.commits| && ReturnedAt(start, s, i)
    ensures i < |Take(s, e).commits| && ReturnedAt(start, Take(s, e), i)
  {
    var t := Take(s, e);
    hide Reading;
    TakeKeepsAdds(s, e);
    ReadingSame(start, s.calls, t.calls, s.commits[..i + 1]);
    assert t.commits[..i + 1] == s.commits[..i + 1];
  }

  /** A swap that succeeds adds one call to the tally. */
  lemma CommitTallied(start: int, s: System, k: nat)
    requires Tallied(start, s) && Enabled(s, Swap(k)) && s.calls[k].cur == s.clock && start <= I64_MAX
    ensures Tallied(start, Take(s, Swap(k)))
  {
    var t, n := Take(s, Swap(k)), |s.commits|;
    CommitLogged(s, k);
    CommitReading(start, s, k);
    hide Reading, Logged;
    forall i | 0 <= i < n ensures ReturnedAt(start, t, i) { StillReturned(start, s, Swap(k), i); }
    assert t.commits[..n + 1] == t.commits;
    assert ReturnedAt(start, t, n);
  }

  /** A load, or a swap that fails, changes no tally. */
  lemma RetryTallied(start: int, s: System, e: Step)
    requires Tallied(start, s) && Enabled(s, e) && (e.Swap? ==> s.calls[e.k].cur != s.clock)
    ensures Tallied(start, Take(s, e))
  {
    var t := Take(s, e);
    hide Reading, ReturnedAt;
    TakeKeepsAdds(s, e);
    ReadingSame(start, s.calls, t.calls, s.commits);
    forall i | 0 <= i < |s.commits| ensures ReturnedAt(start, t, i) { StillReturned(start, s, e, i); }
  }

  /** In every interleaving the clock is the start plus the advances of the committed calls, each counted once,
      and every returned instant is the prefix sum at its commit. */
  lemma {:induction false} NoTickLost(ss: seq<System>, es: seq<Step>, i: nat)
    requires Run(ss, es) && i < |ss|
    ensures Tallied(ss[0].clock, ss[i])
  {
    if i > 0 {
      NoTickLost(ss, es, i - 1);
      var s, e := ss[i - 1], es[i - 1];
      assert Enabled(s, e) && ss[i] == Take(s, e);
      if e.Swap? && s.calls[e.k].cur == s.clock {
        CommitTallied(ss[0].clock, s, e.k);
      } else {
        RetryTallied(ss[0].clock, s, e);
      }
    }
  }

  /** The advances of all calls. */
  function Sum(calls: seq<Call>): nat {
    if calls == [] then 0 else Sum(calls[..|calls| - 1]) + calls[|calls| - 1].add
  }

  /** Where in the sum a call is counted makes no difference. */
  lemma {:induction false} TotalWithout(calls: seq<Call>, ks: seq<nat>, i: nat)
    requires i < |ks|
    ensures Total(calls, ks) == Total(calls, ks[..i] + ks[i + 1..]) + if ks[i] < |calls| then calls[ks[i]].add else 0
  {
    var init, rest := ks[..|ks| - 1], ks[..i] + ks[i + 1..];
    if i == |ks| - 1 {
      assert rest == init;
    } else {
      TotalWithout(calls, init, i);
      assert rest[..|rest| - 1] == init[..i] + init[i + 1..];
    }
  }

  /** Calls that are not listed do not matter. */
  lemma {:induction false} TotalFewer(calls: seq<Call>, ks: seq<nat>)
    requires calls != [] && forall i | 0 <= i < |ks| :: ks[i] < |calls| - 1
    ensures Total(calls, ks) == Total(calls[..|calls| - 1], ks)
  {
    if ks != [] { TotalFewer(calls, ks[..|ks| - 1]); }
  }

  /** `ks` lists every number below `n`, each once. */
  ghost predicate Lists(ks: seq<nat>, n: nat) {
    && (forall i | 0 <= i < |ks| :: ks[i] < n)
    && (forall i, j | 0 <= i < j < |ks| :: ks[i] != ks[j])
    && (forall k | 0 <= k < n :: k in ks)
  }

  lemma ListsFewer(ks: seq<nat>, i: nat)
    requires i < |ks| && Lists(ks, ks[i] + 1)
    ensures Lists(ks[..i] + ks[i + 1..], ks[i])
  {
    var n, rest := ks[i], ks[..i] + ks[i + 1..];
    forall k | 0 <= k < n ensures k in rest {
      assert k in ks;
      var j :| 0 <= j < |ks| && ks[j] == k;
      assert rest[if j < i then j else j - 1] == k;
    }
    assert forall j | 0 <= j < |rest| :: rest[j] == ks[if j < i then j else j + 1];
  }

  /** Listing every call once, in any order, sums up all advances. */
  lemma {:induction false} TotalOfAll(calls: seq<Call>, ks: seq<nat>)
    requires Lists(ks, |calls|)
    ensures Total(calls, ks) == Sum(calls)
    decreases |calls|
  {
    if calls != [] {
      var n := |calls| - 1;
      assert n in ks;
      var i :| 0 <= i < |ks| && ks[i] == n;
      var rest := ks[..i] + ks[i + 1..];
      ListsFewer(ks, i);
      TotalWithout(calls, ks, i);
      TotalFewer(calls, rest);
      TotalOfAll(calls[..n], rest);
    }
  }

  lemma {:induction false} SumSame(a: seq<Call>, b: seq<Call>)
    requires |a| == |b| && forall k | 0 <= k < |a| :: a[k].add == b[k].add
    ensures Sum(a) == Sum(b)
  {
    if a != [] { SumSame(a[..|a| - 1], b[..|b| - 1]); }
  }

  lemma {:induction false} RunKeepsSum(ss: seq<System>, es: seq<Step>, i: nat)
    requires Run(ss, es) && i < |ss|
    ensures |ss[i].calls| == |ss[0].calls| && Sum(ss[i].calls) == Sum(ss[0].calls)
  {
    if i > 0 {
      RunKeepsSum(ss, es, i - 1);
      assert Enabled(ss[i - 1], es[i - 1]) && ss[i] == Take(ss[i - 1], es[i - 1]);
      TakeKeepsAdds(ss[i - 1], es[i - 1]);
      SumSame(ss[i].calls, ss[i - 1].calls);
    }
  }

  /** When all calls have returned, the clock is the saturated sum of all advances asked for on top of the start. */
  lemma AllCommitted(ss: seq<System>, es: seq<Step>)
    requires Run(ss, es) && ss[|es|].calls != [] && forall k | 0 <= k < |ss[|es|].calls| :: ss[|es|].calls[k].Returned?
    ensures
      var last := ss[|es|];
      && Logged(last)
      && (forall k | 0 <= k < |last.calls| :: k in last.commits)
      && last.clock == Saturated(Base(ss[0].clock) + Sum(ss[0].calls))
  {
    NoTickLost(ss, es, |es|);
    RunKeepsSum(ss, es, |es|);
    var last := ss[|es|];
    TotalOfAll(last.calls, last.commits);
    hide Run, Saturated, Total, ReturnedAt, Sum;
    assert last.calls[0].Returned?;
  }

  /** In commit order, returned instants never decrease. */
  lemma InstantsGrow(start: int, s: System, i: nat, j: nat)
    requires Tallied(start, s) && i <= j < |s.commits|
    ensures s.commits[i] < |s.calls| && s.calls[s.commits[i]].Returned?
    ensures s.commits[j] < |s.calls| && s.calls[s.commits[j]].Returned?
    ensures s.calls[s.commits[i]].instant <= s.calls[s.commits[j]].instant
  {
    hide Total;
    assert ReturnedAt(start, s, i) && ReturnedAt(start, s, j);
    TotalGrows(s.calls, s.commits, i + 1, j + 1);
  }

  lemma {:induction false} TotalGrows(calls: seq<Call>, ks: seq<nat>, i: nat, j: nat)
    requires i <= j <= |ks|
    ensures Total(calls, ks[..i]) <= Total(calls, ks[..j])
    decreases j
  {
    if i < j {
      TotalGrows(calls, ks, i, j - 1);
      assert ks[..j][..j - 1] == ks[..j - 1];
    }
  }
}
