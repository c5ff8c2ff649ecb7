/** How long a sweep still takes, from medians of what has already run. */
module Duration {
  import opened Prelude

  /** A completed run. */
  datatype RunTiming = RunTiming(workload: string, seconds: real, includedEngineLoad: bool)

  /** A run still to come. */
  datatype PlannedRun = PlannedRun(workload: string, needsEngineLoad: bool)

  datatype Basis = NONE | THIS_SWEEP

  datatype Caveat = NothingFinished | OnlyLoadsSeen | LoadsNotSeparated | UnmeasuredWorkloads(count: nat) | UntimedLoads(count: nat)

  datatype Estimate = Estimate(runsRemaining: nat, loadsRemaining: nat, seconds: Option<real>,
                               medianRun: Option<real>, medianLoad: Option<real>,
                               basis: Basis, sampleSize: nat, caveats: seq<Caveat>)

  // ---- Medians ----------------------------------------------------------------------------

  function InsertReal(v: real, s: seq<real>): (r: seq<real>)
    ensures |r| == |s| + 1
    decreases |s|
  {
    if s == [] || v <= s[0] then [v] + s else [s[0]] + InsertReal(v, s[1..])
  }

  function SortReals(s: seq<real>): (r: seq<real>)
    ensures |r| == |s|
    decreases |s|
  {
    if s == [] then [] else InsertReal(s[0], SortReals(s[1..]))
  }

  function Median(s: seq<real>): Option<real> {
    if s == [] then None
    else
      var sorted := SortReals(s);
      var mid := |s| / 2;
      if |s| % 2 == 1 then Some(sorted[mid]) else Some((sorted[mid - 1] + sorted[mid]) / 2.0)
  }

  ghost predicate Ascending(s: seq<real>) {
    forall i, j :: 0 <= i < j < |s| ==> s[i] <= s[j]
  }

  lemma {:induction false} InsertKeepsAll(v: real, s: seq<real>)
    ensures multiset(InsertReal(v, s)) == multiset(s) + multiset{v}
    decreases |s|
  {
    if s != [] {
      InsertKeepsAll(v, s[1..]);
      assert s == [s[0]] + s[1..];
    }
  }

  lemma {:induction false} InsertedAtLeast(v: real, s: seq<real>, low: real)
    requires low <= v && forall i :: 0 <= i < |s| ==> low <= s[i]
    ensures forall i :: 0 <= i <= |s| ==> low <= InsertReal(v, s)[i]
    decreases |s|
  {
    if s != [] { InsertedAtLeast(v, s[1..], low); }
  }

  lemma {:induction false} InsertAscends(v: real, s: seq<real>)
    requires Ascending(s)
    ensures Ascending(InsertReal(v, s))
    decreases |s|
  {
    if s != [] && v > s[0] {
      InsertAscends(v, s[1..]);
      InsertedAtLeast(v, s[1..], s[0]);
    }
  }

  /** The values a median is read from are all of them, in ascending order. */
  lemma {:induction false} SortedForMedian(s: seq<real>)
    ensures Ascending(SortReals(s)) && multiset(SortReals(s)) == multiset(s)
    decreases |s|
  {
    if s != [] {
      SortedForMedian(s[1..]);
      InsertAscends(s[0], SortReals(s[1..]));
      InsertKeepsAll(s[0], SortReals(s[1..]));
      assert s == [s[0]] + s[1..];
    }
  }

  lemma {:induction false} HeadIsLeast(s: seq<real>, v: real)
    requires Ascending(s) && v in s
    ensures s[0] <= v
  {
    var i :| 0 <= i < |s| && s[i] == v;
    assert i > 0 ==> s[0] <= s[i];
  }

  lemma {:induction false} WithoutHead(s: seq<real>)
    requires Ascending(s) && s != []
    ensures Ascending(s[1..]) && multiset(s[1..]) == multiset(s) - multiset{s[0]}
  {
    assert s == [s[0]] + s[1..];
  }

  lemma {:induction false} SameHead(a: seq<real>, b: seq<real>)
    requires Ascending(a) && Ascending(b) && multiset(a) == multiset(b) && a != []
    ensures b != [] && a[0] == b[0]
  {
    assert a[0] in multiset(b);
    assert b[0] in multiset(a);
    HeadIsLeast(a, b[0]);
    HeadIsLeast(b, a[0]);
  }

  lemma {:induction false} AscendingIsUnique(a: seq<real>, b: seq<real>)
    requires Ascending(a) && Ascending(b) && multiset(a) == multiset(b)
    ensures a == b
    decreases |a|
  {
    assert |multiset(a)| == |a| && |multiset(b)| == |b|;
    if a != [] {
      SameHead(a, b);
      WithoutHead(a);
      WithoutHead(b);
      AscendingIsUnique(a[1..], b[1..]);
      assert a == [a[0]] + a[1..] && b == [b[0]] + b[1..];
    }
  }

  /** The median of any values, read from any ascending order of them: the one in the middle,
      or halfway between the two that are. */
  lemma {:induction false} MedianIs(s: seq<real>, r: seq<real>, k: nat)
    requires Ascending(r) && multiset(r) == multiset(s)
    ensures |s| == 2 * k + 1 ==> |r| == |s| && Median(s) == Some(r[k])
    ensures |s| == 2 * k && k > 0 ==> |r| == |s| && Median(s).Some? && 2.0 * Median(s).value == r[k - 1] + r[k]
  {
    SortedForMedian(s);
    AscendingIsUnique(r, SortReals(s));
  }

  lemma {:induction false} InsertEqual(v: real, s: seq<real>)
    requires forall i :: 0 <= i < |s| ==> s[i] == v
    ensures forall i :: 0 <= i <= |s| ==> InsertReal(v, s)[i] == v
  {
  }

  lemma {:induction false} SortEqual(s: seq<real>, v: real)
    requires forall i :: 0 <= i < |s| ==> s[i] == v
    ensures forall i :: 0 <= i < |s| ==> SortReals(s)[i] == v
    decreases |s|
  {
    if s != [] {
      SortEqual(s[1..], v);
      InsertEqual(v, SortReals(s[1..]));
    }
  }

  lemma {:induction false} MedianOfEqual(s: seq<real>, v: real)
    requires s != [] && forall u :: u in s ==> u == v
    ensures Median(s) == Some(v)
  {
    assert forall i :: 0 <= i < |s| ==> s[i] in s;
    SortEqual(s, v);
  }

  // ---- The estimate -----------------------------------------------------------------------

  function SecondsWhere(observed: seq<RunTiming>, keep: RunTiming -> bool): seq<real>
    decreases |observed|
  {
    if observed == [] then []
    else (if keep(observed[0]) then [observed[0].seconds] else []) + SecondsWhere(observed[1..], keep)
  }

  lemma {:induction false} SecondsAre(observed: seq<RunTiming>, keep: RunTiming -> bool)
    ensures forall u :: u in SecondsWhere(observed, keep) ==> exists t :: t in observed && keep(t) && t.seconds == u
    ensures SecondsWhere(observed, keep) == [] <==> forall t :: t in observed ==> !keep(t)
    decreases |observed|
  {
    if observed != [] {
      SecondsAre(observed[1..], keep);
      assert forall t :: t in observed <==> t == observed[0] || t in observed[1..];
    }
  }

  function OfBenchmarks(): RunTiming -> bool {
    (t: RunTiming) => !t.includedEngineLoad
  }

  function OfLoads(): RunTiming -> bool {
    (t: RunTiming) => t.includedEngineLoad
  }

  function OfWorkload(w: string): RunTiming -> bool {
    (t: RunTiming) => !t.includedEngineLoad && t.workload == w
  }

  /** The workloads timed without an engine load. */
  function Matched(observed: seq<RunTiming>): set<string> {
    set t | t in observed && !t.includedEngineLoad :: t.workload
  }

  function Benchmarks(observed: seq<RunTiming>): seq<real> {
    SecondsWhere(observed, OfBenchmarks())
  }

  ghost predicate TimedAlone(observed: seq<RunTiming>, w: string) {
    exists t :: t in observed && !t.includedEngineLoad && t.workload == w
  }

  /** The workload's own median, or the median of all benchmarks when it was never timed. */
  function BenchCost(observed: seq<RunTiming>, w: string): real {
    var own := Median(SecondsWhere(observed, OfWorkload(w)));
    if own.Some? then own.value else OrZero(Median(Benchmarks(observed)))
  }

  function CostsOf(observed: seq<RunTiming>): string -> real {
    w => BenchCost(observed, w)
  }

  function OrZero(v: Option<real>): real {
    if v.Some? then v.value else 0.0
  }

  function AtLeastZero(v: real): real {
    if v > 0.0 then v else 0.0
  }

  /** What each engine load seems to have added. */
  function Overheads(observed: seq<RunTiming>, cost: string -> real): seq<real>
    decreases |observed|
  {
    if observed == [] then []
    else
      var t := observed[0];
      (if t.includedEngineLoad then [AtLeastZero(t.seconds - cost(t.workload))] else []) + Overheads(observed[1..], cost)
  }

  lemma {:induction false} OverheadsAre(observed: seq<RunTiming>, cost: string -> real)
    ensures Overheads(observed, cost) == [] <==> forall t :: t in observed ==> !t.includedEngineLoad
    ensures forall u :: u in Overheads(observed, cost) ==>
      exists t :: t in observed && t.includedEngineLoad && u == AtLeastZero(t.seconds - cost(t.workload))
    decreases |observed|
  {
    if observed != [] {
      OverheadsAre(observed[1..], cost);
      assert forall t :: t in observed <==> t == observed[0] || t in observed[1..];
    }
  }

  function LoadCount(remaining: seq<PlannedRun>): (n: nat)
    ensures n <= |remaining|
    decreases |remaining|
  {
    if remaining == [] then 0 else (if remaining[0].needsEngineLoad then 1 else 0) + LoadCount(remaining[1..])
  }

  function BenchTotal(remaining: seq<PlannedRun>, cost: string -> real): real
    decreases |remaining|
  {
    if remaining == [] then 0.0 else cost(remaining[0].workload) + BenchTotal(remaining[1..], cost)
  }

  function Unmatched(observed: seq<RunTiming>, remaining: seq<PlannedRun>): set<string> {
    (set r | r in remaining :: r.workload) - Matched(observed)
  }

  /** `n * v`, counted out. */
  function Times(n: nat, v: real): real {
    if n == 0 then 0.0 else v + Times(n - 1, v)
  }

  lemma {:induction false} TimesIsProduct(n: nat, v: real)
    ensures Times(n, v) == n as real * v
  {
    if n > 0 {
      TimesIsProduct(n - 1, v);
      assert (n - 1) as real * v + v == ((n - 1) as real + 1.0) * v;
    }
  }

  lemma {:induction false} TimesDistributes(n: nat, a: real, b: real)
    ensures Times(n, a) - Times(n, b) == Times(n, a - b)
  {
    if n > 0 { TimesDistributes(n - 1, a, b); }
  }

  function Nothing(observed: seq<RunTiming>, remaining: seq<PlannedRun>, caveat: Caveat): Estimate {
    Estimate(|remaining|, LoadCount(remaining), None, None, None, NONE, |observed|, [caveat])
  }

  /** Every completed run started an engine: only whole runs can be counted. */
  function FromWholeRuns(observed: seq<RunTiming>, remaining: seq<PlannedRun>): Estimate {
    var whole := Median(SecondsWhere(observed, OfLoads()));
    if whole.None? || LoadCount(remaining) != |remaining| then Nothing(observed, remaining, OnlyLoadsSeen)
    else
      Estimate(|remaining|, LoadCount(remaining), Some(Times(|remaining|, whole.value)), None, None,
               THIS_SWEEP, |observed|, [LoadsNotSeparated])
  }

  function CaveatsOf(observed: seq<RunTiming>, remaining: seq<PlannedRun>, overhead: Option<real>): seq<Caveat> {
    (if Unmatched(observed, remaining) != {} then [UnmeasuredWorkloads(|Unmatched(observed, remaining)|)] else [])
    + (if LoadCount(remaining) > 0 && overhead.None? then [UntimedLoads(LoadCount(remaining))] else [])
  }

  function Combined(observed: seq<RunTiming>, remaining: seq<PlannedRun>, cost: string -> real, overhead: Option<real>): Estimate {
    Estimate(|remaining|, LoadCount(remaining),
             Some(BenchTotal(remaining, cost) + Times(LoadCount(remaining), OrZero(overhead))),
             Median(Benchmarks(observed)), overhead,
             THIS_SWEEP, |observed|, CaveatsOf(observed, remaining, overhead))
  }

  /** Benchmark time and load time told apart. */
  function FromParts(observed: seq<RunTiming>, remaining: seq<PlannedRun>): Estimate {
    Combined(observed, remaining, CostsOf(observed), Median(Overheads(observed, CostsOf(observed))))
  }

  function EstimateRemaining(observed: seq<RunTiming>, remaining: seq<PlannedRun>): Estimate {
    if remaining == [] then Estimate(0, 0, Some(0.0), None, None, NONE, |observed|, [])
    else if observed == [] then Nothing(observed, remaining, NothingFinished)
    else if Benchmarks(observed) == [] then FromWholeRuns(observed, remaining)
    else FromParts(observed, remaining)
  }

  // ---- What the estimate is worth ----------------------------------------------------------

  /** A sweep in which every run of a workload takes the same time, and every engine load
      adds the same. */
  ghost predicate Follows(observed: seq<RunTiming>, b: string -> real, load: real) {
    forall t :: t in observed ==> t.seconds == b(t.workload) + if t.includedEngineLoad then load else 0.0
  }

  function TrueTotal(remaining: seq<PlannedRun>, b: string -> real, load: real): real
    decreases |remaining|
  {
    if remaining == [] then 0.0
    else b(remaining[0].workload) + (if remaining[0].needsEngineLoad then load else 0.0) + TrueTotal(remaining[1..], b, load)
  }

  lemma {:induction false} BenchCostIsTrue(observed: seq<RunTiming>, w: string, b: string -> real, load: real)
    requires Follows(observed, b, load) && TimedAlone(observed, w)
    ensures BenchCost(observed, w) == b(w)
  {
    var own := SecondsWhere(observed, OfWorkload(w));
    SecondsAre(observed, OfWorkload(w));
    var t :| t in observed && !t.includedEngineLoad && t.workload == w;
    assert OfWorkload(w)(t);
    MedianOfEqual(own, b(w));
  }

  lemma {:induction false} TotalSplits(remaining: seq<PlannedRun>, cost: string -> real, b: string -> real, load: real)
    requires forall r :: r in remaining ==> cost(r.workload) == b(r.workload)
    ensures TrueTotal(remaining, b, load) == BenchTotal(remaining, cost) + Times(LoadCount(remaining), load)
    decreases |remaining|
  {
    if remaining != [] {
      assert remaining[0] in remaining;
      TotalSplits(remaining[1..], cost, b, load);
    }
  }

  lemma {:induction false} AloneIsBenchmark(observed: seq<RunTiming>, w: string)
    requires TimedAlone(observed, w)
    ensures Benchmarks(observed) != []
  {
    var t :| t in observed && !t.includedEngineLoad && t.workload == w;
    assert OfBenchmarks()(t);
    SecondsAre(observed, OfBenchmarks());
  }

  lemma {:induction false} UsesParts(observed: seq<RunTiming>, remaining: seq<PlannedRun>)
    requires remaining != [] && Benchmarks(observed) != []
    ensures EstimateRemaining(observed, remaining) == FromParts(observed, remaining)
  {
  }

  lemma {:induction false} CostsAreTrue(observed: seq<RunTiming>, remaining: seq<PlannedRun>, b: string -> real, load: real)
    requires Follows(observed, b, load) && forall r :: r in remaining ==> TimedAlone(observed, r.workload)
    ensures forall r :: r in remaining ==> CostsOf(observed)(r.workload) == b(r.workload)
  {
    forall r | r in remaining ensures CostsOf(observed)(r.workload) == b(r.workload) {
      BenchCostIsTrue(observed, r.workload, b, load);
    }
  }

  lemma {:induction false} SumsDiffer(remaining: seq<PlannedRun>, cost: string -> real, overhead: real, b: string -> real, load: real)
    requires forall r :: r in remaining ==> cost(r.workload) == b(r.workload)
    ensures BenchTotal(remaining, cost) + Times(LoadCount(remaining), overhead) - TrueTotal(remaining, b, load) ==
      Times(LoadCount(remaining), overhead - load)
  {
    TotalSplits(remaining, cost, b, load);
    TimesDistributes(LoadCount(remaining), overhead, load);
  }

  /** The estimate is off by the number of remaining loads times the error of the load median. */
  predicate OffByTheLoads(e: Estimate, truth: real, load: real) {
    e.seconds.Some? && e.seconds.value - truth == Times(e.loadsRemaining, OrZero(e.medianLoad) - load)
  }

  lemma {:induction false} CombinedError(observed: seq<RunTiming>, remaining: seq<PlannedRun>, cost: string -> real,
                                         overhead: Option<real>, b: string -> real, load: real)
    requires forall r :: r in remaining ==> cost(r.workload) == b(r.workload)
    ensures OffByTheLoads(Combined(observed, remaining, cost, overhead), TrueTotal(remaining, b, load), load)
  {
    SumsDiffer(remaining, cost, OrZero(overhead), b, load);
  }

  lemma {:induction false} PartsError(observed: seq<RunTiming>, remaining: seq<PlannedRun>, b: string -> real, load: real)
    requires Follows(observed, b, load) && forall r :: r in remaining ==> TimedAlone(observed, r.workload)
    ensures OffByTheLoads(FromParts(observed, remaining), TrueTotal(remaining, b, load), load)
  {
    CostsAreTrue(observed, remaining, b, load);
    CombinedError(observed, remaining, CostsOf(observed), Median(Overheads(observed, CostsOf(observed))), b, load);
  }

  /** Once every remaining workload was timed on its own, the whole error of the estimate is
      the number of remaining loads times the error of the load median. */
  lemma {:induction false} ErrorIsInTheLoads(observed: seq<RunTiming>, remaining: seq<PlannedRun>, b: string -> real, load: real)
    requires Follows(observed, b, load) && remaining != []
    requires forall r :: r in remaining ==> TimedAlone(observed, r.workload)
    ensures OffByTheLoads(EstimateRemaining(observed, remaining), TrueTotal(remaining, b, load), load)
    ensures EstimateRemaining(observed, remaining).loadsRemaining == LoadCount(remaining)
  {
    assert remaining[0] in remaining;
    AloneIsBenchmark(observed, remaining[0].workload);
    UsesParts(observed, remaining);
    PartsError(observed, remaining, b, load);
  }

  lemma {:induction false} KnownExcess(observed: seq<RunTiming>, t: RunTiming, b: string -> real, load: real)
    requires Follows(observed, b, load) && load >= 0.0 && t in observed && t.includedEngineLoad && TimedAlone(observed, t.workload)
    ensures AtLeastZero(t.seconds - CostsOf(observed)(t.workload)) == load
  {
    BenchCostIsTrue(observed, t.workload, b, load);
  }

  lemma {:induction false} OverheadIsTrue(observed: seq<RunTiming>, b: string -> real, load: real)
    requires Follows(observed, b, load) && load >= 0.0
    requires exists t :: t in observed && t.includedEngineLoad
    requires forall t :: t in observed && t.includedEngineLoad ==> TimedAlone(observed, t.workload)
    ensures Median(Overheads(observed, CostsOf(observed))) == Some(load)
  {
    var o := Overheads(observed, CostsOf(observed));
    OverheadsAre(observed, CostsOf(observed));
    forall u | u in o ensures u == load {
      var t :| t in observed && t.includedEngineLoad && u == AtLeastZero(t.seconds - CostsOf(observed)(t.workload));
      KnownExcess(observed, t, b, load);
    }
    MedianOfEqual(o, load);
  }

  lemma {:induction false} TimesIsZeroIff(n: nat, v: real)
    ensures Times(n, v) == 0.0 <==> n == 0 || v == 0.0
    ensures v >= 0.0 ==> Times(n, v) >= 0.0
    ensures v <= 0.0 ==> Times(n, v) <= 0.0
  {
    if n > 0 { TimesIsZeroIff(n - 1, v); }
  }

  lemma {:induction false} NoErrorIff(e: Estimate, truth: real, load: real)
    requires OffByTheLoads(e, truth, load)
    ensures e.seconds == Some(truth) <==> e.loadsRemaining == 0 || OrZero(e.medianLoad) == load
  {
    TimesIsZeroIff(e.loadsRemaining, OrZero(e.medianLoad) - load);
  }

  /** The estimate is exact if and only if no load remains or the load median is right. */
  lemma {:induction false} EstimateIsExactIff(observed: seq<RunTiming>, remaining: seq<PlannedRun>, b: string -> real, load: real)
    requires Follows(observed, b, load) && remaining != []
    requires forall r :: r in remaining ==> TimedAlone(observed, r.workload)
    ensures var e := EstimateRemaining(observed, remaining);
            e.seconds == Some(TrueTotal(remaining, b, load)) <==> e.loadsRemaining == 0 || OrZero(e.medianLoad) == load
  {
    ErrorIsInTheLoads(observed, remaining, b, load);
    NoErrorIff(EstimateRemaining(observed, remaining), TrueTotal(remaining, b, load), load);
  }

  lemma {:induction false} NothingUnmatched(observed: seq<RunTiming>, remaining: seq<PlannedRun>)
    requires forall r :: r in remaining ==> TimedAlone(observed, r.workload)
    ensures Unmatched(observed, remaining) == {}
  {
    forall r | r in remaining ensures r.workload in Matched(observed) {
      assert TimedAlone(observed, r.workload);
    }
  }

  /** The load median is right when loads were timed, and only on workloads that were also
      timed on their own. Then the estimate is exact and warns of nothing. */
  lemma {:induction false} MatchedLoadsMakeItExact(observed: seq<RunTiming>, remaining: seq<PlannedRun>, b: string -> real, load: real)
    requires Follows(observed, b, load) && load >= 0.0 && remaining != []
    requires forall r :: r in remaining ==> TimedAlone(observed, r.workload)
    requires exists t :: t in observed && t.includedEngineLoad
    requires forall t :: t in observed && t.includedEngineLoad ==> TimedAlone(observed, t.workload)
    ensures EstimateRemaining(observed, remaining).seconds == Some(TrueTotal(remaining, b, load))
    ensures EstimateRemaining(observed, remaining).caveats == []
  {
    assert remaining[0] in remaining;
    AloneIsBenchmark(observed, remaining[0].workload);
    OverheadIsTrue(observed, b, load);
    EstimateIsExactIff(observed, remaining, b, load);
    UsesParts(observed, remaining);
    NothingUnmatched(observed, remaining);
  }

  lemma {:induction false} OnlyLoads(observed: seq<RunTiming>)
    requires Benchmarks(observed) == [] && observed != []
    ensures SecondsWhere(observed, OfLoads()) != []
  {
    SecondsAre(observed, OfBenchmarks());
    SecondsAre(observed, OfLoads());
    assert observed[0] in observed && (OfBenchmarks()(observed[0]) || OfLoads()(observed[0]));
  }

  /** There is an estimate unless runs remain and none has finished, or only loaded runs have
      finished and some remaining run needs no load. */
  lemma {:induction false} EstimatedIff(observed: seq<RunTiming>, remaining: seq<PlannedRun>)
    ensures EstimateRemaining(observed, remaining).seconds.Some? <==>
      remaining == [] || (exists t :: t in observed && !t.includedEngineLoad)
      || (observed != [] && forall r :: r in remaining ==> r.needsEngineLoad)
  {
    AllNeedLoads(remaining);
    BenchmarksSeen(observed);
    if observed != [] && Benchmarks(observed) == [] { OnlyLoads(observed); }
  }

  lemma {:induction false} BenchmarksSeen(observed: seq<RunTiming>)
    ensures Benchmarks(observed) != [] <==> exists t :: t in observed && !t.includedEngineLoad
  {
    SecondsAre(observed, OfBenchmarks());
    if t :| t in observed && !t.includedEngineLoad {
      assert OfBenchmarks()(t);
    } else {
      assert forall t :: t in observed ==> !OfBenchmarks()(t);
    }
  }

  lemma {:induction false} AllNeedLoads(remaining: seq<PlannedRun>)
    ensures LoadCount(remaining) == |remaining| <==> forall r :: r in remaining ==> r.needsEngineLoad
    decreases |remaining|
  {
    if remaining != [] {
      AllNeedLoads(remaining[1..]);
      assert forall r :: r in remaining <==> r == remaining[0] || r in remaining[1..];
    }
  }

  lemma {:induction false} AllOfWorkload(remaining: seq<PlannedRun>, w: string, b: string -> real, load: real)
    requires forall r :: r in remaining ==> r.workload == w && r.needsEngineLoad
    ensures TrueTotal(remaining, b, load) == Times(|remaining|, b(w) + load) && LoadCount(remaining) == |remaining|
    decreases |remaining|
  {
    if remaining != [] {
      assert remaining[0] in remaining;
      AllOfWorkload(remaining[1..], w, b, load);
    }
  }

  /** When only loaded runs were seen, whole runs are counted, which is exact for one workload
      whose every run loads an engine. */
  lemma {:induction false} WholeRunsAreExact(observed: seq<RunTiming>, remaining: seq<PlannedRun>, w: string, b: string -> real, load: real)
    requires Follows(observed, b, load) && observed != [] && remaining != []
    requires forall t :: t in observed ==> t.includedEngineLoad && t.workload == w
    requires forall r :: r in remaining ==> r.workload == w && r.needsEngineLoad
    ensures EstimateRemaining(observed, remaining).seconds == Some(TrueTotal(remaining, b, load))
    ensures EstimateRemaining(observed, remaining).caveats == [LoadsNotSeparated]
  {
    BenchmarksSeen(observed);
    OnlyLoads(observed);
    SecondsAre(observed, OfLoads());
    MedianOfEqual(SecondsWhere(observed, OfLoads()), b(w) + load);
    AllOfWorkload(remaining, w, b, load);
  }

  lemma {:induction false} UnmatchedIs(observed: seq<RunTiming>, remaining: seq<PlannedRun>)
    ensures Unmatched(observed, remaining) == {} <==> forall r :: r in remaining ==> TimedAlone(observed, r.workload)
  {
    if forall r :: r in remaining ==> TimedAlone(observed, r.workload) {
      NothingUnmatched(observed, remaining);
    } else {
      var r :| r in remaining && !TimedAlone(observed, r.workload);
      assert r.workload in Unmatched(observed, remaining);
    }
  }

  /** An estimate from separated parts warns of nothing exactly when every remaining workload
      was timed alone and, if loads remain, one was timed. */
  lemma {:induction false} SilentIff(observed: seq<RunTiming>, remaining: seq<PlannedRun>)
    requires remaining != [] && Benchmarks(observed) != []
    ensures EstimateRemaining(observed, remaining).caveats == [] <==>
      (forall r :: r in remaining ==> TimedAlone(observed, r.workload))
      && (LoadCount(remaining) == 0 || exists t :: t in observed && t.includedEngineLoad)
  {
    UsesParts(observed, remaining);
    UnmatchedIs(observed, remaining);
    OverheadsAre(observed, CostsOf(observed));
  }

  /** What an estimate from separated parts warns of: how many workloads are still to run that
      were never timed alone, and how many loads when none was timed. */
  lemma {:induction false} PartsWarnings(observed: seq<RunTiming>, remaining: seq<PlannedRun>, c: Caveat)
    requires remaining != [] && Benchmarks(observed) != []
    ensures var untimed := set r | r in remaining && !TimedAlone(observed, r.workload) :: r.workload;
            c in EstimateRemaining(observed, remaining).caveats <==>
              || (untimed != {} && c == UnmeasuredWorkloads(|untimed|))
              || ((exists r :: r in remaining && r.needsEngineLoad) && (forall t :: t in observed ==> !t.includedEngineLoad)
                  && c == UntimedLoads(LoadCount(remaining)))
  {
    UsesParts(observed, remaining);
    UnmatchedAre(observed, remaining);
    OverheadsAre(observed, CostsOf(observed));
    SomeNeedLoads(remaining);
  }

  lemma {:induction false} UnmatchedAre(observed: seq<RunTiming>, remaining: seq<PlannedRun>)
    ensures Unmatched(observed, remaining) == set r | r in remaining && !TimedAlone(observed, r.workload) :: r.workload
  {
    forall w ensures w in Matched(observed) <==> TimedAlone(observed, w) {
      if TimedAlone(observed, w) {
        var t :| t in observed && !t.includedEngineLoad && t.workload == w;
      }
    }
  }

  lemma {:induction false} SomeNeedLoads(remaining: seq<PlannedRun>)
    ensures LoadCount(remaining) > 0 <==> exists r :: r in remaining && r.needsEngineLoad
    decreases |remaining|
  {
    if remaining != [] {
      SomeNeedLoads(remaining[1..]);
      assert forall r :: r in remaining <==> r == remaining[0] || r in remaining[1..];
    }
  }

  /** What stands beside the figure: what was counted, what it rests on, and the medians it was
      put together from; and the warning of an estimate without separated parts. */
  lemma {:induction false} ReportIs(observed: seq<RunTiming>, remaining: seq<PlannedRun>)
    ensures var e := EstimateRemaining(observed, remaining);
            var alone := exists t :: t in observed && !t.includedEngineLoad;
            var loaded := exists t :: t in observed && t.includedEngineLoad;
            && e.runsRemaining == |remaining| && e.loadsRemaining == LoadCount(remaining) && e.sampleSize == |observed|
            && e.basis == (if remaining != [] && e.seconds.Some? then THIS_SWEEP else NONE)
            && e.medianRun == (if remaining != [] then Median(SecondsWhere(observed, OfBenchmarks())) else None)
            && (e.medianLoad.Some? <==> remaining != [] && alone && loaded)
            && (remaining == [] ==> e.seconds == Some(0.0) && e.caveats == [])
            && (remaining != [] && !alone ==>
                  e.caveats == if !loaded then [NothingFinished] else if e.seconds.Some? then [LoadsNotSeparated] else [OnlyLoadsSeen])
  {
    BenchmarksSeen(observed);
    OverheadsAre(observed, CostsOf(observed));
    LoadsSeen(observed);
  }

  lemma {:induction false} LoadsSeen(observed: seq<RunTiming>)
    ensures observed == [] ==> SecondsWhere(observed, OfBenchmarks()) == []
    ensures observed != [] ==> observed[0] in observed
    ensures Benchmarks(observed) == [] && observed != [] ==> SecondsWhere(observed, OfLoads()) != []
  {
    if Benchmarks(observed) == [] && observed != [] { OnlyLoads(observed); }
  }

  /** Without a run timed alone there is always a warning. */
  lemma {:induction false} UnseparatedIsNotSilent(observed: seq<RunTiming>, remaining: seq<PlannedRun>)
    requires remaining != [] && Benchmarks(observed) == []
    ensures EstimateRemaining(observed, remaining).caveats != []
  {
  }

  lemma {:induction false} UsesWholeRuns(observed: seq<RunTiming>, remaining: seq<PlannedRun>)
    requires observed != [] && remaining != [] && Benchmarks(observed) == []
    ensures EstimateRemaining(observed, remaining) == FromWholeRuns(observed, remaining)
    ensures Median(SecondsWhere(observed, OfLoads())).Some?
  {
    OnlyLoads(observed);
  }

  /** When only loaded runs were seen and only such remain, each of these costs the median of
      all that were seen. */
  lemma {:induction false} WholeRunsAre(observed: seq<RunTiming>, remaining: seq<PlannedRun>)
    requires observed != [] && remaining != []
    requires (forall t :: t in observed ==> t.includedEngineLoad) && forall r :: r in remaining ==> r.needsEngineLoad
    ensures var whole := Median(SecondsWhere(observed, OfLoads()));
            whole.Some? && EstimateRemaining(observed, remaining).seconds == Some(Times(|remaining|, whole.value))
  {
    BenchmarksSeen(observed);
    assert Benchmarks(observed) == [];
    UsesWholeRuns(observed, remaining);
    AllNeedLoads(remaining);
  }

  lemma {:induction false} SecondsOneMore(observed: seq<RunTiming>, t: RunTiming, keep: RunTiming -> bool)
    ensures SecondsWhere(observed + [t], keep) == SecondsWhere(observed, keep) + if keep(t) then [t.seconds] else []
    decreases |observed|
  {
    if observed != [] {
      assert (observed + [t])[1..] == observed[1..] + [t];
      SecondsOneMore(observed[1..], t, keep);
    }
  }

  /** Where the timings stand that `keep` selects and that took `v`. */
  ghost function Positions(observed: seq<RunTiming>, keep: RunTiming -> bool, v: real): set<nat> {
    set i: nat | i < |observed| && keep(observed[i]) && observed[i].seconds == v
  }

  lemma {:induction false} PositionsOneMore(observed: seq<RunTiming>, t: RunTiming, keep: RunTiming -> bool, v: real)
    ensures |Positions(observed + [t], keep, v)| == |Positions(observed, keep, v)| + if keep(t) && t.seconds == v then 1 else 0
  {
    var more := if keep(t) && t.seconds == v then {|observed|} else {};
    assert Positions(observed + [t], keep, v) == Positions(observed, keep, v) + more;
  }

  /** Every timing counts towards a median, equal ones each on their own. */
  lemma {:induction false} SecondsAreCounted(observed: seq<RunTiming>, keep: RunTiming -> bool, v: real)
    ensures multiset(SecondsWhere(observed, keep))[v] == |Positions(observed, keep, v)|
    decreases |observed|
  {
    if observed != [] {
      var before, t := observed[..|observed| - 1], observed[|observed| - 1];
      assert observed == before + [t];
      SecondsAreCounted(before, keep, v);
      SecondsOneMore(before, t, keep);
      PositionsOneMore(before, t, keep, v);
    }
  }

  // ---- As the source computes it ----------------------------------------------------------------

  lemma {:induction false} OwnMedian(observed: seq<RunTiming>, w: string)
    requires w in Matched(observed)
    ensures Median(SecondsWhere(observed, OfWorkload(w))) == Some(BenchCost(observed, w))
  {
    var t :| t in observed && !t.includedEngineLoad && t.workload == w;
    SecondsAre(observed, OfWorkload(w));
    assert OfWorkload(w)(t);
  }

  method MediansByWorkload(observed: seq<RunTiming>) returns (byWorkload: map<string, real>)
    ensures byWorkload.Keys == Matched(observed)
    ensures forall w :: w in byWorkload ==> byWorkload[w] == BenchCost(observed, w)
  {
    byWorkload := map[];
    var pending := Matched(observed);
    while pending != {}
      invariant pending <= Matched(observed) && byWorkload.Keys == Matched(observed) - pending
      invariant forall w :: w in byWorkload ==> byWorkload[w] == BenchCost(observed, w)
      decreases |pending|
    {
      var w :| w in pending;
      OwnMedian(observed, w);
      var own := Median(SecondsWhere(observed, OfWorkload(w)));
      byWorkload := byWorkload[w := own.value];
      pending := pending - {w};
    }
  }

  lemma {:induction false} CostWithoutOwn(observed: seq<RunTiming>, w: string)
    requires w !in Matched(observed)
    ensures BenchCost(observed, w) == OrZero(Median(Benchmarks(observed)))
  {
    SecondsAre(observed, OfWorkload(w));
    assert forall t :: t in observed && OfWorkload(w)(t) ==> t.workload in Matched(observed);
  }

  lemma {:induction false} SameCosts(observed: seq<RunTiming>, remaining: seq<PlannedRun>, c: string -> real, d: string -> real)
    requires forall w :: c(w) == d(w)
    ensures Overheads(observed, c) == Overheads(observed, d) && BenchTotal(remaining, c) == BenchTotal(remaining, d)
    decreases |observed| + |remaining|
  {
    if observed != [] {
      SameCosts(observed[1..], remaining, c, d);
    } else if remaining != [] {
      SameCosts(observed, remaining[1..], c, d);
    }
  }

  lemma {:induction false} OverheadsFrom(observed: seq<RunTiming>, i: nat, cost: string -> real)
    requires i < |observed|
    ensures Overheads(observed[i..], cost) ==
      (if observed[i].includedEngineLoad then [AtLeastZero(observed[i].seconds - cost(observed[i].workload))] else [])
      + Overheads(observed[i + 1..], cost)
  {
    assert observed[i..][1..] == observed[i + 1..];
  }

  lemma {:induction false} Reassociate(a: seq<real>, b: seq<real>, c: seq<real>)
    ensures a + b + c == a + (b + c) && a + [] == a && [] + a == a
  {
  }

  method LoadOverheads(observed: seq<RunTiming>, benchCost: string -> real) returns (overheads: seq<real>)
    ensures overheads == Overheads(observed, benchCost)
  {
    overheads := [];
    for i := 0 to |observed|
      invariant overheads + Overheads(observed[i..], benchCost) == Overheads(observed, benchCost)
    {
      var t := observed[i];
      OverheadsFrom(observed, i, benchCost);
      if t.includedEngineLoad {
        var excess := t.seconds - benchCost(t.workload);
        var floored := if excess > 0.0 then excess else 0.0;
        Reassociate(overheads, [floored], Overheads(observed[i + 1..], benchCost));
        overheads := overheads + [floored];
      }
    }
    assert observed[|observed|..] == [];
  }

  method SumBenchmarks(remaining: seq<PlannedRun>, benchCost: string -> real) returns (total: real)
    ensures total == BenchTotal(remaining, benchCost)
  {
    total := 0.0;
    for i := 0 to |remaining|
      invariant total + BenchTotal(remaining[i..], benchCost) == BenchTotal(remaining, benchCost)
    {
      assert remaining[i..][1..] == remaining[i + 1..];
      total := total + benchCost(remaining[i].workload);
    }
  }

  /** The cost of a workload, from its own median or the overall one. */
  method BenchCosts(observed: seq<RunTiming>) returns (byWorkload: map<string, real>, benchCost: string -> real)
    ensures byWorkload.Keys == Matched(observed)
    ensures forall w :: benchCost(w) == CostsOf(observed)(w)
  {
    var overall := OrZero(Median(Benchmarks(observed)));
    byWorkload := MediansByWorkload(observed);
    var medians := byWorkload;
    benchCost := w => if w in medians then medians[w] else overall;
    forall w ensures benchCost(w) == CostsOf(observed)(w) {
      if w !in medians { CostWithoutOwn(observed, w); }
    }
  }

  /** The remaining time, or why there is none. */
  method EstimateTime(observed: seq<RunTiming>, remaining: seq<PlannedRun>) returns (e: Estimate)
    ensures e == EstimateRemaining(observed, remaining)
  {
    if remaining == [] { return Estimate(0, 0, Some(0.0), None, None, NONE, |observed|, []); }
    if observed == [] { return Nothing(observed, remaining, NothingFinished); }
    if Benchmarks(observed) == [] { return FromWholeRuns(observed, remaining); }
    e := EstimateParts(observed, remaining);
  }

  method CollectCaveats(observed: seq<RunTiming>, remaining: seq<PlannedRun>, measured: set<string>, overhead: Option<real>)
      returns (caveats: seq<Caveat>)
    requires measured == Matched(observed)
    ensures caveats == CaveatsOf(observed, remaining, overhead)
  {
    caveats := [];
    var unmatched := (set r | r in remaining :: r.workload) - measured;
    if unmatched != {} { caveats := caveats + [UnmeasuredWorkloads(|unmatched|)]; }
    var loads := LoadCount(remaining);
    if loads > 0 && overhead.None? { caveats := caveats + [UntimedLoads(loads)]; }
  }

  /** Benchmark total and load median, by way of the two loops. */
  method TimeParts(observed: seq<RunTiming>, remaining: seq<PlannedRun>, benchCost: string -> real)
      returns (total: real, overhead: Option<real>)
    ensures overhead == Median(Overheads(observed, benchCost))
    ensures total == BenchTotal(remaining, benchCost) + Times(LoadCount(remaining), OrZero(overhead))
  {
    var overheads := LoadOverheads(observed, benchCost);
    total := SumBenchmarks(remaining, benchCost);
    overhead := Median(overheads);
    total := total + Times(LoadCount(remaining), OrZero(overhead));
  }

  /** The estimate over whatever cost function the medians gave. */
  method EstimateOver(observed: seq<RunTiming>, remaining: seq<PlannedRun>, measured: set<string>, benchCost: string -> real) returns (e: Estimate)
    requires measured == Matched(observed)
    ensures e == Combined(observed, remaining, benchCost, Median(Overheads(observed, benchCost)))
  {
    var total, overhead := TimeParts(observed, remaining, benchCost);
    var caveats := CollectCaveats(observed, remaining, measured, overhead);
    e := Estimate(|remaining|, LoadCount(remaining), Some(total), Median(Benchmarks(observed)), overhead,
                  THIS_SWEEP, |observed|, caveats);
  }

  lemma {:induction false} CombinedSame(observed: seq<RunTiming>, remaining: seq<PlannedRun>, c: string -> real, d: string -> real, o: Option<real>)
    requires BenchTotal(remaining, c) == BenchTotal(remaining, d)
    ensures Combined(observed, remaining, c, o) == Combined(observed, remaining, d, o)
  {
  }

  lemma {:induction false} SameEstimate(observed: seq<RunTiming>, remaining: seq<PlannedRun>, c: string -> real)
    requires forall w :: c(w) == CostsOf(observed)(w)
    ensures Combined(observed, remaining, c, Median(Overheads(observed, c))) == FromParts(observed, remaining)
  {
    var d := CostsOf(observed);
    SameCosts(observed, remaining, c, d);
    CombinedSame(observed, remaining, c, d, Median(Overheads(observed, d)));
  }

  method EstimateParts(observed: seq<RunTiming>, remaining: seq<PlannedRun>) returns (e: Estimate)
    ensures e == FromParts(observed, remaining)
  {
    var byWorkload, benchCost := BenchCosts(observed);
    e := EstimateOver(observed, remaining, byWorkload.Keys, benchCost);
    SameEstimate(observed, remaining, benchCost);
  }
}
