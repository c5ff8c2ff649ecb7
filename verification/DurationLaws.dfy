/** When the remaining-time estimate is exact, over all timings. */
module DurationLaws {
  import opened Prelude
  import opened Duration
  import SweepPlan

  // ---- Medians and majorities -----------------------------------------------------------

  lemma {:induction false} CountAtMost(s: seq<real>, v: real)
    ensures multiset(s)[v] <= |s|
    ensures (forall i :: 0 <= i < |s| ==> s[i] != v) ==> multiset(s)[v] == 0
    ensures (forall i :: 0 <= i < |s| ==> s[i] == v) ==> multiset(s)[v] == |s|
    decreases |s|
  {
    if s != [] {
      CountAtMost(s[1..], v);
      assert s == [s[0]] + s[1..];
      assert forall i :: 0 <= i < |s[1..]| ==> s[1..][i] == s[i + 1];
    }
  }

  lemma {:induction false} CountSplits(s: seq<real>, k: nat, v: real)
    requires k <= |s|
    ensures multiset(s)[v] == multiset(s[..k])[v] + multiset(s[k..])[v]
  {
    assert s == s[..k] + s[k..];
  }

  lemma {:induction false} AllBelow(s: seq<real>, v: real, k: nat)
    requires Ascending(s) && k < |s| && s[k] > v
    ensures multiset(s)[v] <= k
  {
    var tail := s[k..];
    CountSplits(s, k, v);
    CountAtMost(s[..k], v);
    assert forall i :: 0 <= i < |tail| ==> tail[i] == s[k + i] && tail[i] != v;
    CountAtMost(tail, v);
  }

  lemma {:induction false} AllAbove(s: seq<real>, v: real, k: nat)
    requires Ascending(s) && k < |s| && s[k] < v
    ensures multiset(s)[v] <= |s| - k - 1
  {
    var head := s[..k + 1];
    CountSplits(s, k + 1, v);
    CountAtMost(s[k + 1..], v);
    assert forall i :: 0 <= i < |head| ==> head[i] == s[i] && head[i] != v;
    CountAtMost(head, v);
  }

  lemma {:induction false} LeastFirst(s: seq<real>, v: real, k: nat)
    requires Ascending(s) && k < |s| && s[k] == v && s[0] >= v
    ensures multiset(s)[v] >= k + 1
  {
    var head := s[..k + 1];
    CountSplits(s, k + 1, v);
    assert forall i :: 0 <= i < |head| ==> head[i] == s[i] == v;
    CountAtMost(head, v);
  }

  /** In an ascending sequence more than half of which is `v`, both middles are `v`. */
  lemma {:induction false} MiddleOfMajority(s: seq<real>, v: real, k: nat)
    requires Ascending(s) && 2 * multiset(s)[v] > |s| && k < |s| && |s| <= 2 * k + 2 && 2 * k <= |s|
    ensures s[k] == v
  {
    if s[k] > v { AllBelow(s, v, k); }
    if s[k] < v { AllAbove(s, v, k); }
  }

  lemma {:induction false} MajorityIsMedian(s: seq<real>, v: real)
    requires 2 * multiset(s)[v] > |s|
    ensures Median(s) == Some(v)
  {
    SortedForMedian(s);
    var sorted := SortReals(s);
    CountAtMost(s, v);
    MiddleOfMajority(sorted, v, |s| / 2);
    if |s| % 2 == 0 { MiddleOfMajority(sorted, v, |s| / 2 - 1); }
  }

  lemma {:induction false} SortedAtLeast(s: seq<real>, v: real)
    requires forall u :: u in s ==> u >= v
    ensures forall i :: 0 <= i < |SortReals(s)| ==> SortReals(s)[i] >= v
  {
    SortedForMedian(s);
    var sorted := SortReals(s);
    forall i | 0 <= i < |sorted| ensures sorted[i] >= v {
      assert sorted[i] in multiset(sorted);
      assert sorted[i] in s;
    }
  }

  /** A value that is least and not in the majority is below the median. */
  lemma {:induction false} MinorityIsNotMedian(s: seq<real>, v: real)
    requires s != [] && 2 * multiset(s)[v] <= |s| && forall u :: u in s ==> u >= v
    ensures Median(s).Some? && Median(s).value > v
  {
    SortedForMedian(s);
    SortedAtLeast(s, v);
    var sorted := SortReals(s);
    if sorted[|s| / 2] == v { LeastFirst(sorted, v, |s| / 2); }
  }

  // ---- Exact for every timing --------------------------------------------------------------

  /** The workload runs without a load somewhere in the shape. */
  ghost predicate AloneIn(shape: seq<PlannedRun>, w: string) {
    exists r :: r in shape && !r.needsEngineLoad && r.workload == w
  }

  /** The timings of these runs when every workload takes `b` and every load adds `load`. */
  function Timed(shape: seq<PlannedRun>, b: string -> real, load: real): (r: seq<RunTiming>)
    ensures |r| == |shape|
    ensures forall i :: 0 <= i < |r| ==> r[i] == TimingOf(shape[i], b, load)
  {
    seq(|shape|, i requires 0 <= i < |shape| => TimingOf(shape[i], b, load))
  }

  function TimingOf(r: PlannedRun, b: string -> real, load: real): RunTiming {
    RunTiming(r.workload, b(r.workload) + (if r.needsEngineLoad then load else 0.0), r.needsEngineLoad)
  }

  predicate Exact(observed: seq<RunTiming>, remaining: seq<PlannedRun>, b: string -> real, load: real) {
    EstimateRemaining(observed, remaining).seconds == Some(TrueTotal(remaining, b, load))
  }

  lemma {:induction false} TimedIn(shape: seq<PlannedRun>, b: string -> real, load: real)
    ensures Follows(Timed(shape, b, load), b, load)
    ensures forall r :: r in shape ==> TimingOf(r, b, load) in Timed(shape, b, load)
    ensures forall t :: t in Timed(shape, b, load) ==> exists r :: r in shape && t == TimingOf(r, b, load)
  {
    var ts := Timed(shape, b, load);
    forall t | t in ts ensures exists r :: r in shape && t == TimingOf(r, b, load) {
      var i :| 0 <= i < |ts| && ts[i] == t;
      assert shape[i] in shape;
    }
    forall r | r in shape ensures TimingOf(r, b, load) in ts {
      var i :| 0 <= i < |shape| && shape[i] == r;
      assert ts[i] == TimingOf(r, b, load);
    }
  }

  lemma {:induction false} TimedAloneIff(shape: seq<PlannedRun>, b: string -> real, load: real, w: string)
    ensures TimedAlone(Timed(shape, b, load), w) <==> AloneIn(shape, w)
  {
    var ts := Timed(shape, b, load);
    TimedIn(shape, b, load);
    if AloneIn(shape, w) {
      var r :| r in shape && !r.needsEngineLoad && r.workload == w;
      assert TimingOf(r, b, load) in ts;
    }
    if TimedAlone(ts, w) {
      var t :| t in ts && !t.includedEngineLoad && t.workload == w;
      var r :| r in shape && t == TimingOf(r, b, load);
    }
  }

  /** How many of these runs load an engine and are of a workload that `known` rejects. */
  ghost function Unknown(shape: seq<PlannedRun>, known: string -> bool): (n: nat)
    ensures n <= LoadCount(shape)
    decreases |shape|
  {
    if shape == [] then 0
    else (if shape[0].needsEngineLoad && !known(shape[0].workload) then 1 else 0) + Unknown(shape[1..], known)
  }

  ghost function KnownIn(shape: seq<PlannedRun>): string -> bool {
    w => AloneIn(shape, w)
  }

  /** Loads observed on workloads that were never observed alone. */
  ghost function UnmatchedLoads(shape: seq<PlannedRun>): nat {
    Unknown(shape, KnownIn(shape))
  }

  /** The overheads of known workloads are the load itself. */
  lemma {:induction false} KnownOverheads(shape: seq<PlannedRun>, cost: string -> real, known: string -> bool, b: string -> real, load: real)
    requires load >= 0.0 && forall w :: known(w) ==> cost(w) == b(w)
    ensures var o := Overheads(Timed(shape, b, load), cost);
            |o| == LoadCount(shape) && multiset(o)[load] >= LoadCount(shape) - Unknown(shape, known)
    decreases |shape|
  {
    if shape != [] {
      KnownOverheads(shape[1..], cost, known, b, load);
      assert Timed(shape, b, load)[1..] == Timed(shape[1..], b, load);
    }
  }

  /** When unknown workloads seem to add more than the load, the count is exact. */
  lemma {:induction false} UnknownOverheads(shape: seq<PlannedRun>, cost: string -> real, known: string -> bool, b: string -> real, load: real)
    requires load >= 0.0 && forall w :: if known(w) then cost(w) == b(w) else b(w) > cost(w)
    ensures var o := Overheads(Timed(shape, b, load), cost);
            && |o| == LoadCount(shape) && multiset(o)[load] == LoadCount(shape) - Unknown(shape, known)
            && forall i :: 0 <= i < |o| ==> o[i] >= load
    decreases |shape|
  {
    if shape != [] {
      UnknownOverheads(shape[1..], cost, known, b, load);
      assert Timed(shape, b, load)[1..] == Timed(shape[1..], b, load);
      var excess := AtLeastZero(TimingOf(shape[0], b, load).seconds - cost(shape[0].workload));
      assert shape[0].needsEngineLoad ==> if known(shape[0].workload) then excess == load else excess > load;
    }
  }

  lemma {:induction false} MedianLoadIs(shape: seq<PlannedRun>, remaining: seq<PlannedRun>, b: string -> real, load: real)
    requires remaining != [] && forall r :: r in remaining ==> AloneIn(shape, r.workload)
    ensures var obs := Timed(shape, b, load);
            && EstimateRemaining(obs, remaining).medianLoad == Median(Overheads(obs, CostsOf(obs)))
            && (Exact(obs, remaining, b, load) <==>
                  LoadCount(remaining) == 0 || OrZero(Median(Overheads(obs, CostsOf(obs)))) == load)
  {
    var obs := Timed(shape, b, load);
    TimedIn(shape, b, load);
    forall r | r in remaining ensures TimedAlone(obs, r.workload) { TimedAloneIff(shape, b, load, r.workload); }
    EstimateIsExactIff(obs, remaining, b, load);
    ErrorIsInTheLoads(obs, remaining, b, load);
    assert remaining[0] in remaining;
    AloneIsBenchmark(obs, remaining[0].workload);
    UsesParts(obs, remaining);
  }

  lemma {:induction false} KnownCosts(shape: seq<PlannedRun>, b: string -> real, load: real)
    ensures forall w :: KnownIn(shape)(w) ==> CostsOf(Timed(shape, b, load))(w) == b(w)
  {
    var obs := Timed(shape, b, load);
    TimedIn(shape, b, load);
    forall w | KnownIn(shape)(w) ensures CostsOf(obs)(w) == b(w) {
      TimedAloneIff(shape, b, load, w);
      BenchCostIsTrue(obs, w, b, load);
    }
  }

  lemma {:induction false} FewUnmatchedAreExact(shape: seq<PlannedRun>, remaining: seq<PlannedRun>, b: string -> real, load: real)
    requires remaining != [] && forall r :: r in remaining ==> AloneIn(shape, r.workload)
    requires 2 * UnmatchedLoads(shape) < LoadCount(shape) && load >= 0.0
    ensures Exact(Timed(shape, b, load), remaining, b, load)
  {
    var obs := Timed(shape, b, load);
    KnownCosts(shape, b, load);
    KnownOverheads(shape, CostsOf(obs), KnownIn(shape), b, load);
    MajorityIsMedian(Overheads(obs, CostsOf(obs)), load);
    MedianLoadIs(shape, remaining, b, load);
  }

  /** Timings that mislead: workloads seen alone take no time, the others and a load take one. */
  ghost function Misleading(shape: seq<PlannedRun>): string -> real {
    w => if AloneIn(shape, w) then 0.0 else 1.0
  }

  lemma {:induction false} MisleadingCosts(shape: seq<PlannedRun>)
    ensures var b := Misleading(shape);
            forall w :: CostsOf(Timed(shape, b, 1.0))(w) == 0.0
  {
    var b := Misleading(shape);
    var obs := Timed(shape, b, 1.0);
    TimedIn(shape, b, 1.0);
    KnownCosts(shape, b, 1.0);
    forall w ensures CostsOf(obs)(w) == 0.0 {
      if !AloneIn(shape, w) {
        TimedAloneIff(shape, b, 1.0, w);
        CostOfOthers(obs, w, 0.0) by {
          forall t | t in obs && !t.includedEngineLoad ensures t.seconds == 0.0 {
            var r :| r in shape && t == TimingOf(r, b, 1.0);
            assert AloneIn(shape, r.workload);
          }
        }
      }
    }
  }

  lemma {:induction false} CostOfOthers(observed: seq<RunTiming>, w: string, v: real)
    requires !TimedAlone(observed, w) && forall t :: t in observed && !t.includedEngineLoad ==> t.seconds == v
    ensures CostsOf(observed)(w) == if Benchmarks(observed) == [] then 0.0 else v
  {
    SecondsAre(observed, OfWorkload(w));
    SecondsAre(observed, OfBenchmarks());
    assert forall t :: t in observed && OfWorkload(w)(t) ==> TimedAlone(observed, w);
    if Benchmarks(observed) != [] { MedianOfEqual(Benchmarks(observed), v); }
  }

  lemma {:induction false} ManyUnmatchedMislead(shape: seq<PlannedRun>, remaining: seq<PlannedRun>)
    requires LoadCount(remaining) > 0 && forall r :: r in remaining ==> AloneIn(shape, r.workload)
    requires 2 * UnmatchedLoads(shape) >= LoadCount(shape)
    ensures !Exact(Timed(shape, Misleading(shape), 1.0), remaining, Misleading(shape), 1.0)
  {
    var b := Misleading(shape);
    var obs := Timed(shape, b, 1.0);
    MisleadingCosts(shape);
    UnknownOverheads(shape, CostsOf(obs), KnownIn(shape), b, 1.0);
    var o := Overheads(obs, CostsOf(obs));
    if o != [] { MinorityIsNotMedian(o, 1.0); }
    MedianLoadIs(shape, remaining, b, 1.0);
  }

  ghost predicate AlwaysExact(shape: seq<PlannedRun>, remaining: seq<PlannedRun>) {
    forall b: string -> real, load: real :: load >= 0.0 ==> Exact(Timed(shape, b, load), remaining, b, load)
  }

  /** Main result: with every remaining workload seen alone and loads remaining, the estimate
      is exact whatever the workloads and the load take, if and only if fewer than half of the
      loads seen were on workloads never seen alone. */
  lemma {:induction false} AlwaysExactIff(shape: seq<PlannedRun>, remaining: seq<PlannedRun>)
    requires LoadCount(remaining) > 0 && forall r :: r in remaining ==> AloneIn(shape, r.workload)
    ensures AlwaysExact(shape, remaining) <==> 2 * UnmatchedLoads(shape) < LoadCount(shape)
  {
    if 2 * UnmatchedLoads(shape) < LoadCount(shape) {
      forall b: string -> real, load: real | load >= 0.0 ensures Exact(Timed(shape, b, load), remaining, b, load) {
        FewUnmatchedAreExact(shape, remaining, b, load);
      }
    } else {
      ManyUnmatchedMislead(shape, remaining);
      assert !Exact(Timed(shape, Misleading(shape), 1.0), remaining, Misleading(shape), 1.0);
    }
  }

  /** Off plans a silent estimate can be wrong: it is, for some timings, as soon as half of the
      loads seen were on workloads never seen alone. */
  lemma {:induction false} SilentCanMislead(shape: seq<PlannedRun>, remaining: seq<PlannedRun>)
    requires LoadCount(remaining) > 0 && forall r :: r in remaining ==> AloneIn(shape, r.workload)
    requires LoadCount(shape) > 0 && 2 * UnmatchedLoads(shape) >= LoadCount(shape)
    ensures var obs := Timed(shape, Misleading(shape), 1.0);
            EstimateRemaining(obs, remaining).caveats == [] && !Exact(obs, remaining, Misleading(shape), 1.0)
  {
    var b := Misleading(shape);
    var obs := Timed(shape, b, 1.0);
    ManyUnmatchedMislead(shape, remaining);
    forall r | r in remaining ensures TimedAlone(obs, r.workload) { TimedAloneIff(shape, b, 1.0, r.workload); }
    TimedIn(shape, b, 1.0);
    var r := LoadedRun(shape);
    assert TimingOf(r, b, 1.0) in obs;
    AloneIsBenchmark(obs, remaining[0].workload);
    SilentIff(obs, remaining);
  }

  lemma {:induction false} LoadedRun(shape: seq<PlannedRun>) returns (r: PlannedRun)
    requires LoadCount(shape) > 0
    ensures r in shape && r.needsEngineLoad
    decreases |shape|
  {
    if shape[0].needsEngineLoad { r := shape[0]; } else { r := LoadedRun(shape[1..]); }
  }

  // ---- All loads on one workload --------------------------------------------------------------

  /** How many of the remaining runs are of workload `w`. */
  function CountOf(remaining: seq<PlannedRun>, w: string): nat
    decreases |remaining|
  {
    if remaining == [] then 0 else (if remaining[0].workload == w then 1 else 0) + CountOf(remaining[1..], w)
  }

  lemma {:induction false} CountOfIs(remaining: seq<PlannedRun>, w: string)
    ensures CountOf(remaining, w) > 0 <==> exists r :: r in remaining && r.workload == w
    decreases |remaining|
  {
    if remaining != [] {
      CountOfIs(remaining[1..], w);
      assert forall r :: r in remaining <==> r == remaining[0] || r in remaining[1..];
    }
  }

  ghost predicate LoadsOnlyOn(runs: seq<PlannedRun>, w: string) {
    forall r :: r in runs && r.needsEngineLoad ==> r.workload == w
  }

  lemma {:induction false} LoadsAreOf(remaining: seq<PlannedRun>, w: string)
    requires LoadsOnlyOn(remaining, w)
    ensures LoadCount(remaining) <= CountOf(remaining, w)
    ensures LoadCount(remaining) == CountOf(remaining, w) <==> forall r :: r in remaining && r.workload == w ==> r.needsEngineLoad
    decreases |remaining|
  {
    if remaining != [] {
      assert forall r :: r in remaining <==> r == remaining[0] || r in remaining[1..];
      LoadsAreOf(remaining[1..], w);
    }
  }

  lemma {:induction false} TotalDiffers(remaining: seq<PlannedRun>, w: string, cost: string -> real, b: string -> real, load: real)
    requires forall r :: r in remaining && r.workload != w ==> cost(r.workload) == b(r.workload)
    ensures BenchTotal(remaining, cost) + Times(LoadCount(remaining), load) - TrueTotal(remaining, b, load) ==
      Times(CountOf(remaining, w), cost(w) - b(w))
    decreases |remaining|
  {
    if remaining != [] {
      assert remaining[0] in remaining;
      TotalDiffers(remaining[1..], w, cost, b, load);
    }
  }

  lemma {:induction false} TimesAdds(n: nat, m: nat, v: real)
    ensures Times(n + m, v) == Times(n, v) + Times(m, v)
  {
    if n > 0 { TimesAdds(n - 1, m, v); }
  }

  lemma {:induction false} TimesOfSum(n: nat, u: real, v: real)
    ensures Times(n, u + v) == Times(n, u) + Times(n, v)
  {
    if n > 0 { TimesOfSum(n - 1, u, v); }
  }

  /** When do `n` loads and `q` further runs, each costed at `m` instead of `b`, cancel? */
  lemma {:induction false} ErrorsCancelIff(n: nat, q: nat, m: real, b: real, load: real)
    requires n + q > 0 && load >= 0.0
    ensures Times(n + q, m - b) + Times(n, AtLeastZero(b + load - m) - load) == 0.0 <==> b + load >= m && (q == 0 || m == b)
  {
    TimesAdds(n, q, m - b);
    TimesOfSum(n, m - b, AtLeastZero(b + load - m) - load);
    if b + load >= m {
      assert m - b + (AtLeastZero(b + load - m) - load) == 0.0;
      TimesIsZeroIff(n, 0.0);
      TimesIsZeroIff(q, m - b);
    } else {
      TimesIsZeroIff(n, m - b - load);
      TimesIsZeroIff(q, m - b);
      assert m - b + (AtLeastZero(b + load - m) - load) == m - b - load;
    }
  }

  lemma {:induction false} OneOverhead(observed: seq<RunTiming>, w: string, cost: string -> real, b: string -> real, load: real)
    requires Follows(observed, b, load) && (exists t :: t in observed && t.includedEngineLoad)
    requires forall t :: t in observed && t.includedEngineLoad ==> t.workload == w
    ensures Median(Overheads(observed, cost)) == Some(AtLeastZero(b(w) + load - cost(w)))
  {
    OverheadsAre(observed, cost);
    MedianOfEqual(Overheads(observed, cost), AtLeastZero(b(w) + load - cost(w)));
  }

  /** The seconds of an estimate from parts. */
  function PartsTotal(remaining: seq<PlannedRun>, cost: string -> real, overhead: real): real {
    BenchTotal(remaining, cost) + Times(LoadCount(remaining), overhead)
  }

  lemma {:induction false} PartsTotalIs(observed: seq<RunTiming>, remaining: seq<PlannedRun>)
    requires remaining != [] && Benchmarks(observed) != []
    ensures EstimateRemaining(observed, remaining).seconds ==
      Some(PartsTotal(remaining, CostsOf(observed), OrZero(Median(Overheads(observed, CostsOf(observed))))))
  {
    UsesParts(observed, remaining);
  }

  /** The total when all loads are on `w`, and when that is the truth. */
  lemma {:induction false} TotalIsTrueIff(remaining: seq<PlannedRun>, w: string, cost: string -> real, b: string -> real, load: real)
    requires load >= 0.0 && LoadsOnlyOn(remaining, w) && exists r :: r in remaining && r.workload == w
    requires forall r :: r in remaining && r.workload != w ==> cost(r.workload) == b(r.workload)
    ensures PartsTotal(remaining, cost, AtLeastZero(b(w) + load - cost(w))) == TrueTotal(remaining, b, load) <==>
      b(w) + load >= cost(w) && ((forall r :: r in remaining && r.workload == w ==> r.needsEngineLoad) || cost(w) == b(w))
  {
    var n, c := LoadCount(remaining), CountOf(remaining, w);
    var overhead := AtLeastZero(b(w) + load - cost(w));
    CountOfIs(remaining, w);
    LoadsAreOf(remaining, w);
    TotalDiffers(remaining, w, cost, b, load);
    TimesDistributes(n, overhead, load);
    ErrorsCancelIff(n, c - n, cost(w), b(w), load);
  }

  lemma {:induction false} KnownRemaining(observed: seq<RunTiming>, remaining: seq<PlannedRun>, w: string, b: string -> real, load: real)
    requires Follows(observed, b, load) && forall r :: r in remaining && r.workload != w ==> TimedAlone(observed, r.workload)
    ensures forall r :: r in remaining && r.workload != w ==> CostsOf(observed)(r.workload) == b(r.workload)
  {
    forall r | r in remaining && r.workload != w ensures CostsOf(observed)(r.workload) == b(r.workload) {
      BenchCostIsTrue(observed, r.workload, b, load);
    }
  }

  lemma {:induction false} CostedTotalIsTrueIff(observed: seq<RunTiming>, remaining: seq<PlannedRun>, w: string, b: string -> real, load: real)
    requires Follows(observed, b, load) && load >= 0.0
    requires (exists t :: t in observed && t.includedEngineLoad) && forall t :: t in observed && t.includedEngineLoad ==> t.workload == w
    requires LoadsOnlyOn(remaining, w) && (exists r :: r in remaining && r.workload == w) && !TimedAlone(observed, w)
    requires forall r :: r in remaining && r.workload != w ==> TimedAlone(observed, r.workload)
    ensures var m := OrZero(Median(Benchmarks(observed)));
            PartsTotal(remaining, CostsOf(observed), OrZero(Median(Overheads(observed, CostsOf(observed))))) == TrueTotal(remaining, b, load) <==>
              b(w) + load >= m && ((forall r :: r in remaining && r.workload == w ==> r.needsEngineLoad) || m == b(w))
  {
    UnknownCost(observed, w);
    KnownRemaining(observed, remaining, w, b, load);
    OneOverhead(observed, w, CostsOf(observed), b, load);
    TotalIsTrueIff(remaining, w, CostsOf(observed), b, load);
  }

  /** Main result: when every load, seen or to come, is on one workload that still has runs and
      was never timed alone, the estimate is exact if and only if a loaded run of it takes at
      least the median of what it is costed at, and either all its remaining runs load an
      engine or it takes just that median. */
  lemma {:induction false} OneWorkloadLoadsIff(observed: seq<RunTiming>, remaining: seq<PlannedRun>, w: string, b: string -> real, load: real)
    requires Follows(observed, b, load) && load >= 0.0 && Benchmarks(observed) != []
    requires (exists t :: t in observed && t.includedEngineLoad) && forall t :: t in observed && t.includedEngineLoad ==> t.workload == w
    requires LoadsOnlyOn(remaining, w) && (exists r :: r in remaining && r.workload == w) && !TimedAlone(observed, w)
    requires forall r :: r in remaining && r.workload != w ==> TimedAlone(observed, r.workload)
    ensures var m := OrZero(Median(Benchmarks(observed)));
            Exact(observed, remaining, b, load) <==>
              b(w) + load >= m && ((forall r :: r in remaining && r.workload == w ==> r.needsEngineLoad) || m == b(w))
  {
    assert remaining != [];
    PartsTotalIs(observed, remaining);
    CostedTotalIsTrueIff(observed, remaining, w, b, load);
  }

  lemma {:induction false} UnknownCost(observed: seq<RunTiming>, w: string)
    requires !TimedAlone(observed, w)
    ensures CostsOf(observed)(w) == OrZero(Median(Benchmarks(observed)))
  {
    SecondsAre(observed, OfWorkload(w));
    assert forall t :: t in observed && OfWorkload(w)(t) ==> TimedAlone(observed, w);
  }

  /** A workload timed alone, or with no runs left, spoils nothing. */
  lemma {:induction false} OneKnownWorkloadIsExact(observed: seq<RunTiming>, remaining: seq<PlannedRun>, w: string, b: string -> real, load: real)
    requires Follows(observed, b, load) && load >= 0.0 && remaining != []
    requires (exists t :: t in observed && t.includedEngineLoad) && forall t :: t in observed && t.includedEngineLoad ==> t.workload == w
    requires LoadsOnlyOn(remaining, w) && (TimedAlone(observed, w) || forall r :: r in remaining ==> r.workload != w)
    requires forall r :: r in remaining && r.workload != w ==> TimedAlone(observed, r.workload)
    ensures Exact(observed, remaining, b, load)
  {
    if TimedAlone(observed, w) {
      MatchedLoadsMakeItExact(observed, remaining, b, load);
    } else {
      LoadsAreOf(remaining, w);
      CountOfIs(remaining, w);
      EstimateIsExactIff(observed, remaining, b, load);
      ErrorIsInTheLoads(observed, remaining, b, load);
    }
  }
}
