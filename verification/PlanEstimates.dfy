/** When the remaining-time estimate is exact on the plans sweeps are run in. */
module PlanEstimates {
  import opened Prelude
  import opened Duration
  import opened DurationLaws
  import SP = SweepPlan

  // ---- Which runs of a plan load an engine ------------------------------------------------

  /** The triple after `t` in nested-loop order. */
  function Next(t: SP.Triple, b: nat, c: nat): SP.Triple {
    if t.k + 1 < c then SP.Triple(t.i, t.j, t.k + 1)
    else if t.j + 1 < b then SP.Triple(t.i, t.j + 1, 0)
    else SP.Triple(t.i + 1, 0, 0)
  }

  lemma {:induction false} NextPosition(t: SP.Triple, a: nat, b: nat, c: nat)
    requires SP.Below(t, a, b, c)
    ensures SP.Position(Next(t, b, c), b, c) == SP.Position(t, b, c) + 1
  {
    if t.k + 1 == c {
      assert SP.Times(t.j + 1, c) == SP.Times(t.j, c) + c;
      if t.j + 1 == b {
        assert SP.Times(t.i + 1, SP.Times(b, c)) == SP.Times(t.i, SP.Times(b, c)) + SP.Times(b, c);
      }
    }
  }

  lemma {:induction false} LastPosition(t: SP.Triple, a: nat, b: nat, c: nat)
    requires SP.Below(t, a, b, c) && t.i + 1 == a && t.j + 1 == b && t.k + 1 == c
    ensures SP.Position(t, b, c) + 1 == |SP.Nested(a, b, c)|
  {
    NextPosition(t, a, b, c);
    SP.NestedLength(a, b, c);
  }

  lemma {:induction false} NestedNext(a: nat, b: nat, c: nat, p: nat)
    requires p + 1 < |SP.Nested(a, b, c)|
    ensures SP.Nested(a, b, c)[p + 1] == Next(SP.Nested(a, b, c)[p], b, c)
  {
    var t := SP.Nested(a, b, c)[p];
    SP.NestedCovers(a, b, c, p);
    NextPosition(t, a, b, c);
    if t.i + 1 == a && t.j + 1 == b && t.k + 1 == c { LastPosition(t, a, b, c); }
    SP.NestedAt(a, b, c, Next(t, b, c));
  }

  predicate Valid(plan: seq<SP.PlannedRun>, names: seq<string>) {
    && (forall p :: 0 <= p < |plan| ==> plan[p].workloadIndex < |names|)
    && forall u, v :: 0 <= u < v < |names| ==> names[u] != names[v]
  }

  predicate NeedsLoad(plan: seq<SP.PlannedRun>, p: nat)
    requires p < |plan|
  {
    p == 0 || plan[p].configIndex != plan[p - 1].configIndex
  }

  /** The runs of a plan as the estimator is given them: a run loads an engine when its config
      is not that of the run before. */
  function Shape(plan: seq<SP.PlannedRun>, names: seq<string>): (shape: seq<PlannedRun>)
    requires Valid(plan, names)
    ensures |shape| == |plan|
    ensures forall p {:trigger shape[p]} :: 0 <= p < |plan| ==> shape[p] == PlannedRun(names[plan[p].workloadIndex], NeedsLoad(plan, p))
  {
    seq(|plan|, p requires 0 <= p < |plan| => PlannedRun(names[plan[p].workloadIndex], NeedsLoad(plan, p)))
  }

  /** The flags are those the plan's hashes give, for distinct configs with distinct hashes. */
  lemma {:induction false} ShapeHasTheLoads(plan: seq<SP.PlannedRun>, names: seq<string>, configHashes: seq<string>, hashes: seq<string>, p: nat)
    requires Valid(plan, names) && p < |plan| == |hashes|
    requires forall q :: 0 <= q < |plan| ==> plan[q].configIndex < |configHashes| && hashes[q] == configHashes[plan[q].configIndex]
    requires forall u, v :: 0 <= u < v < |configHashes| ==> configHashes[u] != configHashes[v]
    ensures Shape(plan, names)[p].needsEngineLoad <==> p == 0 || hashes[p] != hashes[p - 1]
  {
    if p > 0 {
      var u, v := plan[p].configIndex, plan[p - 1].configIndex;
      assert hashes[p] == configHashes[u] && hashes[p - 1] == configHashes[v];
      assert u != v ==> configHashes[u] != configHashes[v] by {
        if u < v { assert configHashes[u] != configHashes[v]; }
        if v < u { assert configHashes[v] != configHashes[u]; }
      }
    }
  }

  /** Whether the run at a place in the matrix starts an engine. */
  predicate StartsBlock(order: SP.ReplicateOrder, configs: nat, r: SP.PlannedRun) {
    match order
    case GROUPED => r.workloadIndex == 0 && r.replicateIdx == 0
    case INTERLEAVED => r.workloadIndex == 0 && (configs > 1 || r.pos == 0)
  }

  lemma {:induction false} FirstOfPlan(order: SP.ReplicateOrder, configs: nat, workloads: nat, replicates: nat)
    requires configs > 0 && workloads > 0 && replicates > 0
    ensures var plan := SP.Plan(order, configs, workloads, replicates);
            plan != [] && plan[0] == SP.PlannedRun(0, 0, 0, 0)
  {
    match order
    case GROUPED => SP.NestedAt(configs, workloads, replicates, SP.Triple(0, 0, 0));
    case INTERLEAVED => SP.NestedAt(replicates, configs, workloads, SP.Triple(0, 0, 0));
  }

  lemma {:induction false} GroupedChangesIff(configs: nat, workloads: nat, replicates: nat, p: nat)
    requires 0 < p < |SP.Nested(configs, workloads, replicates)|
    ensures var ts := SP.Nested(configs, workloads, replicates); ts[p].i != ts[p - 1].i <==> ts[p].j == 0 && ts[p].k == 0
  {
    NestedNext(configs, workloads, replicates, p - 1);
    SP.NestedCovers(configs, workloads, replicates, p - 1);
  }

  lemma {:induction false} InterleavedChangesIff(configs: nat, workloads: nat, replicates: nat, p: nat)
    requires 0 < p < |SP.Nested(replicates, configs, workloads)|
    ensures var ts := SP.Nested(replicates, configs, workloads); ts[p].j != ts[p - 1].j <==> ts[p].k == 0 && configs > 1
  {
    NestedNext(replicates, configs, workloads, p - 1);
    SP.NestedCovers(replicates, configs, workloads, p - 1);
  }

  lemma {:induction false} ConfigChangesIff(order: SP.ReplicateOrder, configs: nat, workloads: nat, replicates: nat, p: nat)
    requires 0 < p < |SP.Plan(order, configs, workloads, replicates)|
    ensures var plan := SP.Plan(order, configs, workloads, replicates);
            NeedsLoad(plan, p) <==> StartsBlock(order, configs, plan[p])
  {
    match order {
      case GROUPED => GroupedChangesIff(configs, workloads, replicates, p);
      case INTERLEAVED => InterleavedChangesIff(configs, workloads, replicates, p);
    }
  }

  /** The runs of a plan as the estimator sees them. Every load is on the first workload. */
  lemma {:induction false} LoadsOfPlan(order: SP.ReplicateOrder, configs: nat, workloads: nat, replicates: nat, names: seq<string>, p: nat)
    requires configs > 0 && workloads > 0 && replicates > 0 && Valid(SP.Plan(order, configs, workloads, replicates), names)
    requires p < |SP.Plan(order, configs, workloads, replicates)|
    ensures var plan := SP.Plan(order, configs, workloads, replicates);
            && Shape(plan, names)[p] == PlannedRun(names[plan[p].workloadIndex], StartsBlock(order, configs, plan[p]))
            && SP.InMatrix(plan[p], configs, workloads, replicates)
  {
    if p == 0 { FirstOfPlan(order, configs, workloads, replicates); } else { ConfigChangesIff(order, configs, workloads, replicates, p); }
    SP.PlanIsTheMatrix(order, configs, workloads, replicates);
  }

  // ---- A plan cut after its first block -----------------------------------------------------

  /** The runs after which every workload but the first has run without a load. */
  function FirstBlock(order: SP.ReplicateOrder, workloads: nat, replicates: nat): nat {
    match order
    case GROUPED => SP.Times(workloads, replicates)
    case INTERLEAVED => workloads
  }

  /** A sweep whose first `p` runs are done. */
  ghost predicate Started(order: SP.ReplicateOrder, configs: nat, workloads: nat, replicates: nat, names: seq<string>, shape: seq<PlannedRun>, p: nat) {
    var plan := SP.Plan(order, configs, workloads, replicates);
    && configs > 0 && workloads > 0 && replicates > 0 && Valid(plan, names) && workloads <= |names|
    && shape == Shape(plan, names) && 0 < p < |plan|
  }

  /** The same, past the first block. */
  ghost predicate Cut(order: SP.ReplicateOrder, configs: nat, workloads: nat, replicates: nat, names: seq<string>, shape: seq<PlannedRun>, p: nat) {
    Started(order, configs, workloads, replicates, names, shape, p) && FirstBlock(order, workloads, replicates) <= p
  }

  lemma {:induction false} PlanAt(order: SP.ReplicateOrder, configs: nat, workloads: nat, replicates: nat, r: SP.PlannedRun)
    requires SP.InMatrix(r, configs, workloads, replicates) && r.pos == SP.Slot(order, configs, workloads, replicates, r)
    ensures var plan := SP.Plan(order, configs, workloads, replicates); r.pos < |plan| && plan[r.pos] == r
  {
    match order {
      case GROUPED => SP.NestedAt(configs, workloads, replicates, SP.Triple(r.configIndex, r.workloadIndex, r.replicateIdx));
      case INTERLEAVED => SP.NestedAt(replicates, configs, workloads, SP.Triple(r.replicateIdx, r.configIndex, r.workloadIndex));
    }
  }

  /** A place in the matrix whose run comes early enough has run, with its flag. */
  lemma {:induction false} HasRun(order: SP.ReplicateOrder, configs: nat, workloads: nat, replicates: nat, names: seq<string>,
                                  shape: seq<PlannedRun>, p: nat, r: SP.PlannedRun)
    requires Started(order, configs, workloads, replicates, names, shape, p)
    requires SP.InMatrix(r, configs, workloads, replicates) && r.pos == SP.Slot(order, configs, workloads, replicates, r) < p
    ensures PlannedRun(names[r.workloadIndex], StartsBlock(order, configs, r)) in shape[..p]
  {
    PlanAt(order, configs, workloads, replicates, r);
    LoadsOfPlan(order, configs, workloads, replicates, names, r.pos);
    assert shape[..p][r.pos] == shape[r.pos];
  }

  lemma {:induction false} TimesGrows(m: nat, n: nat, c: nat)
    requires m < n && c > 0
    ensures SP.Times(m, c) + c <= SP.Times(n, c)
  {
    if m + 1 < n { TimesGrows(m, n - 1, c); }
  }

  /** After the first block every other workload was seen alone. */
  lemma {:induction false} OthersSeenAlone(order: SP.ReplicateOrder, configs: nat, workloads: nat, replicates: nat, names: seq<string>,
                                           shape: seq<PlannedRun>, p: nat, v: nat)
    requires Cut(order, configs, workloads, replicates, names, shape, p) && 0 < v < workloads
    ensures AloneIn(shape[..p], names[v])
  {
    match order {
      case GROUPED =>
        TimesGrows(v, workloads, replicates);
        HasRun(order, configs, workloads, replicates, names, shape, p, SP.PlannedRun(SP.Times(v, replicates), 0, v, 0));
      case INTERLEAVED =>
        HasRun(order, configs, workloads, replicates, names, shape, p, SP.PlannedRun(v, 0, v, 0));
    }
  }

  /** Where a run of the shape comes from. */
  lemma {:induction false} PartOf(order: SP.ReplicateOrder, configs: nat, workloads: nat, replicates: nat, names: seq<string>,
                                  shape: seq<PlannedRun>, p: nat, r: PlannedRun) returns (run: SP.PlannedRun)
    requires Started(order, configs, workloads, replicates, names, shape, p) && r in shape
    ensures SP.InMatrix(run, configs, workloads, replicates)
    ensures r == PlannedRun(names[run.workloadIndex], StartsBlock(order, configs, run))
  {
    var q :| 0 <= q < |shape| && shape[q] == r;
    LoadsOfPlan(order, configs, workloads, replicates, names, q);
    run := SP.Plan(order, configs, workloads, replicates)[q];
  }

  lemma {:induction false} PartsAreIn(shape: seq<PlannedRun>, p: nat)
    requires p <= |shape|
    ensures forall r :: r in shape[..p] || r in shape[p..] ==> r in shape
  {
  }

  /** What every started plan gives the estimator: the first run, and loads on the first
      workload only. */
  lemma {:induction false} StartedGives(order: SP.ReplicateOrder, configs: nat, workloads: nat, replicates: nat, names: seq<string>,
                                        shape: seq<PlannedRun>, p: nat)
    requires Started(order, configs, workloads, replicates, names, shape, p)
    ensures PlannedRun(names[0], true) in shape[..p] && shape[p..] != []
    ensures LoadsOnlyOn(shape[..p], names[0]) && LoadsOnlyOn(shape[p..], names[0])
  {
    HasRun(order, configs, workloads, replicates, names, shape, p, SP.PlannedRun(0, 0, 0, 0));
    PartsAreIn(shape, p);
    forall r | r in shape && r.needsEngineLoad ensures r.workload == names[0] {
      var run := PartOf(order, configs, workloads, replicates, names, shape, p, r);
    }
  }

  /** What every plan cut gives the estimator: the first run, loads on the first workload only,
      and the others seen alone. */
  ghost predicate CutFacts(seen: seq<PlannedRun>, left: seq<PlannedRun>, w: string) {
    && PlannedRun(w, true) in seen && left != []
    && LoadsOnlyOn(seen, w) && LoadsOnlyOn(left, w)
    && forall r :: r in left && r.workload != w ==> AloneIn(seen, r.workload)
  }

  lemma {:induction false} CutGives(order: SP.ReplicateOrder, configs: nat, workloads: nat, replicates: nat, names: seq<string>,
                                    shape: seq<PlannedRun>, p: nat)
    requires Cut(order, configs, workloads, replicates, names, shape, p)
    ensures CutFacts(shape[..p], shape[p..], names[0])
  {
    var w := names[0];
    StartedGives(order, configs, workloads, replicates, names, shape, p);
    PartsAreIn(shape, p);
    forall r | r in shape && r.workload != w ensures AloneIn(shape[..p], r.workload) {
      var run := PartOf(order, configs, workloads, replicates, names, shape, p, r);
      OthersSeenAlone(order, configs, workloads, replicates, names, shape, p, run.workloadIndex);
    }
  }

  lemma {:induction false} TimedCut(seen: seq<PlannedRun>, left: seq<PlannedRun>, w: string, b: string -> real, load: real)
    requires CutFacts(seen, left, w)
    ensures var obs := Timed(seen, b, load);
            && Follows(obs, b, load)
            && (exists t :: t in obs && t.includedEngineLoad)
            && (forall t :: t in obs && t.includedEngineLoad ==> t.workload == w)
            && (forall r :: r in left && r.workload != w ==> TimedAlone(obs, r.workload))
            && (TimedAlone(obs, w) <==> AloneIn(seen, w))
  {
    var obs := Timed(seen, b, load);
    TimedIn(seen, b, load);
    assert TimingOf(PlannedRun(w, true), b, load) in obs;
    forall r | r in left && r.workload != w ensures TimedAlone(obs, r.workload) { TimedAloneIff(seen, b, load, r.workload); }
    TimedAloneIff(seen, b, load, w);
  }

  // ---- Exactness on plans ------------------------------------------------------------------------

  /** Main result: with replicates grouped and at least two of them, from the end of the first
      config's block on the estimate is exact, whatever workloads and loads take. */
  lemma {:induction false} GroupedReplicatesAreExact(configs: nat, workloads: nat, replicates: nat, names: seq<string>,
                                                     shape: seq<PlannedRun>, p: nat, b: string -> real, load: real)
    requires Cut(SP.GROUPED, configs, workloads, replicates, names, shape, p) && replicates >= 2 && load >= 0.0
    ensures Exact(Timed(shape[..p], b, load), shape[p..], b, load)
  {
    CutGives(SP.GROUPED, configs, workloads, replicates, names, shape, p);
    TimedCut(shape[..p], shape[p..], names[0], b, load);
    TimesGrows(0, workloads, replicates);
    HasRun(SP.GROUPED, configs, workloads, replicates, names, shape, p, SP.PlannedRun(1, 0, 0, 1));
    assert AloneIn(shape[..p], names[0]);
    OneKnownWorkloadIsExact(Timed(shape[..p], b, load), shape[p..], names[0], b, load);
  }

  /** The runs as the estimator is given them when configs may share a hash and workloads may
      repeat: a run loads an engine when its hash is not that of the run before. */
  ghost predicate ShapeByHash(plan: seq<SP.PlannedRun>, names: seq<string>, configHashes: seq<string>, shape: seq<PlannedRun>) {
    && |shape| == |plan|
    && (forall p :: 0 <= p < |plan| ==> plan[p].workloadIndex < |names| && plan[p].configIndex < |configHashes|)
    && forall p {:trigger shape[p]} :: 0 <= p < |plan| ==>
         shape[p] == PlannedRun(names[plan[p].workloadIndex],
                                p == 0 || configHashes[plan[p].configIndex] != configHashes[plan[p - 1].configIndex])
  }

  lemma {:induction false} HashLoadsAreOnTheFirst(order: SP.ReplicateOrder, configs: nat, workloads: nat, replicates: nat, names: seq<string>,
                                                  configHashes: seq<string>, shape: seq<PlannedRun>, p: nat)
    requires configs > 0 && workloads > 0 && replicates > 0
    requires ShapeByHash(SP.Plan(order, configs, workloads, replicates), names, configHashes, shape) && p < |shape|
    ensures p == 0 ==> shape[p] == PlannedRun(names[0], true)
    ensures shape[p].needsEngineLoad ==> shape[p].workload == names[0]
  {
    if p == 0 { FirstOfPlan(order, configs, workloads, replicates); } else { ConfigChangesIff(order, configs, workloads, replicates, p); }
  }

  /** Main result: on a plan, in either order, whatever hashes its configs and workloads have,
      and after any number of runs, an estimate that warns of nothing is exact, whatever
      workloads and loads take. */
  lemma {:induction false} SilentEstimatesAreExact(order: SP.ReplicateOrder, configs: nat, workloads: nat, replicates: nat, names: seq<string>,
                                                   configHashes: seq<string>, shape: seq<PlannedRun>, p: nat, b: string -> real, load: real)
    requires configs > 0 && workloads > 0 && replicates > 0
    requires ShapeByHash(SP.Plan(order, configs, workloads, replicates), names, configHashes, shape) && 0 < p < |shape|
    requires load >= 0.0 && EstimateRemaining(Timed(shape[..p], b, load), shape[p..]).caveats == []
    ensures Exact(Timed(shape[..p], b, load), shape[p..], b, load)
  {
    HashLoadsAreOnTheFirst(order, configs, workloads, replicates, names, configHashes, shape, 0);
    assert shape[..p][0] == shape[0];
    PartsAreIn(shape, p);
    forall r | r in shape && r.needsEngineLoad ensures r.workload == names[0] {
      var q :| 0 <= q < |shape| && shape[q] == r;
      HashLoadsAreOnTheFirst(order, configs, workloads, replicates, names, configHashes, shape, q);
    }
    SilentShapeIsExact(shape[..p], shape[p..], names[0], b, load);
  }

  lemma {:induction false} SilentShapeIsExact(seen: seq<PlannedRun>, left: seq<PlannedRun>, w: string, b: string -> real, load: real)
    requires PlannedRun(w, true) in seen && left != [] && LoadsOnlyOn(seen, w) && LoadsOnlyOn(left, w) && load >= 0.0
    requires EstimateRemaining(Timed(seen, b, load), left).caveats == []
    ensures Exact(Timed(seen, b, load), left, b, load)
  {
    var obs := Timed(seen, b, load);
    TimedIn(seen, b, load);
    assert TimingOf(PlannedRun(w, true), b, load) in obs;
    SilentIsExact(obs, left, w, b, load);
  }

  lemma {:induction false} SilentIsExact(observed: seq<RunTiming>, remaining: seq<PlannedRun>, w: string, b: string -> real, load: real)
    requires Follows(observed, b, load) && load >= 0.0 && remaining != []
    requires (exists t :: t in observed && t.includedEngineLoad) && forall t :: t in observed && t.includedEngineLoad ==> t.workload == w
    requires LoadsOnlyOn(remaining, w) && EstimateRemaining(observed, remaining).caveats == []
    ensures Exact(observed, remaining, b, load)
  {
    SilentTimedAll(observed, remaining);
    AllTimedIsExact(observed, remaining, w, b, load);
  }

  ghost predicate AllTimed(observed: seq<RunTiming>, remaining: seq<PlannedRun>) {
    forall r :: r in remaining ==> TimedAlone(observed, r.workload)
  }

  lemma {:induction false} SilentTimedAll(observed: seq<RunTiming>, remaining: seq<PlannedRun>)
    requires remaining != [] && EstimateRemaining(observed, remaining).caveats == []
    ensures AllTimed(observed, remaining)
  {
    if Benchmarks(observed) == [] { UnseparatedIsNotSilent(observed, remaining); } else { SilentIff(observed, remaining); }
  }

  lemma {:induction false} AllTimedIsExact(observed: seq<RunTiming>, remaining: seq<PlannedRun>, w: string, b: string -> real, load: real)
    requires Follows(observed, b, load) && load >= 0.0 && remaining != []
    requires (exists t :: t in observed && t.includedEngineLoad) && forall t :: t in observed && t.includedEngineLoad ==> t.workload == w
    requires LoadsOnlyOn(remaining, w) && AllTimed(observed, remaining)
    ensures Exact(observed, remaining, b, load)
  {
    if r :| r in remaining && r.workload == w { assert TimedAlone(observed, r.workload); }
    OneKnownWorkloadIsExact(observed, remaining, w, b, load);
  }

  /** Every run of the first workload loads an engine. */
  predicate FirstAlwaysLoads(order: SP.ReplicateOrder, configs: nat, replicates: nat) {
    match order
    case GROUPED => replicates == 1
    case INTERLEAVED => configs > 1
  }

  lemma {:induction false} FirstWorkloadLoads(order: SP.ReplicateOrder, configs: nat, workloads: nat, replicates: nat, names: seq<string>,
                                              shape: seq<PlannedRun>, p: nat)
    requires Cut(order, configs, workloads, replicates, names, shape, p) && FirstAlwaysLoads(order, configs, replicates)
    ensures forall r :: r in shape && r.workload == names[0] ==> r.needsEngineLoad
  {
    forall r | r in shape && r.workload == names[0] ensures r.needsEngineLoad {
      var run := PartOf(order, configs, workloads, replicates, names, shape, p, r);
      assert run.workloadIndex == 0;
    }
  }

  /** Main result: with single runs grouped, or replicates interleaved over several configs, the
      first workload never runs without a load. From the end of the first block on the estimate
      is exact if and only if no run of it is left, or a loaded run of it takes at least the
      median of all benchmarks: then the two errors cancel. */
  lemma {:induction false} AlwaysLoadedIsExactIff(order: SP.ReplicateOrder, configs: nat, workloads: nat, replicates: nat, names: seq<string>,
                                                  shape: seq<PlannedRun>, p: nat, b: string -> real, load: real)
    requires Cut(order, configs, workloads, replicates, names, shape, p) && FirstAlwaysLoads(order, configs, replicates)
    requires workloads >= 2 && load >= 0.0
    ensures Exact(Timed(shape[..p], b, load), shape[p..], b, load) <==>
      (forall r :: r in shape[p..] ==> r.workload != names[0])
      || b(names[0]) + load >= OrZero(Median(Benchmarks(Timed(shape[..p], b, load))))
  {
    var obs, left, w := Timed(shape[..p], b, load), shape[p..], names[0];
    CutGives(order, configs, workloads, replicates, names, shape, p);
    TimedCut(shape[..p], left, w, b, load);
    FirstWorkloadLoads(order, configs, workloads, replicates, names, shape, p);
    PartsAreIn(shape, p);
    OthersSeenAlone(order, configs, workloads, replicates, names, shape, p, 1);
    TimedAloneIff(shape[..p], b, load, names[1]);
    AloneIsBenchmark(obs, names[1]);
    if forall r :: r in left ==> r.workload != w {
      OneKnownWorkloadIsExact(obs, left, w, b, load);
    } else {
      assert !AloneIn(shape[..p], w);
      OneWorkloadLoadsIff(obs, left, w, b, load);
    }
  }

  /** With a single workload that always loads, whole runs are counted, exactly. */
  lemma {:induction false} SingleWorkloadIsExact(order: SP.ReplicateOrder, configs: nat, replicates: nat, names: seq<string>,
                                                 shape: seq<PlannedRun>, p: nat, b: string -> real, load: real)
    requires Cut(order, configs, 1, replicates, names, shape, p) && FirstAlwaysLoads(order, configs, replicates)
    ensures Exact(Timed(shape[..p], b, load), shape[p..], b, load)
  {
    var obs, w := Timed(shape[..p], b, load), names[0];
    FirstWorkloadLoads(order, configs, 1, replicates, names, shape, p);
    forall r | r in shape ensures r.workload == w && r.needsEngineLoad {
      var run := PartOf(order, configs, 1, replicates, names, shape, p, r);
    }
    TimedIn(shape[..p], b, load);
    PartsAreIn(shape, p);
    WholeRunsAreExact(obs, shape[p..], w, b, load);
  }

  /** With one config and replicates interleaved the only load is the first run. Past the first
      round the estimate is exact; right at its end it is if and only if the first workload,
      not yet timed alone, takes just the median of the others. */
  lemma {:induction false} SingleConfigIsExactIff(workloads: nat, replicates: nat, names: seq<string>,
                                                  shape: seq<PlannedRun>, p: nat, b: string -> real, load: real)
    requires Cut(SP.INTERLEAVED, 1, workloads, replicates, names, shape, p) && workloads >= 2 && load >= 0.0
    ensures Exact(Timed(shape[..p], b, load), shape[p..], b, load) <==>
      p > workloads || OrZero(Median(Benchmarks(Timed(shape[..p], b, load)))) == b(names[0])
  {
    var obs, left, w := Timed(shape[..p], b, load), shape[p..], names[0];
    CutGives(SP.INTERLEAVED, 1, workloads, replicates, names, shape, p);
    TimedCut(shape[..p], left, w, b, load);
    SP.PlanIsTheMatrix(SP.INTERLEAVED, 1, workloads, replicates);
    assert replicates > 1;
    if p > workloads {
      SecondRoundStarts(workloads, replicates, names, shape, p);
      OneKnownWorkloadIsExact(obs, left, w, b, load);
    } else {
      FirstRoundOnly(workloads, replicates, names, shape);
      OthersSeenAlone(SP.INTERLEAVED, 1, workloads, replicates, names, shape, p, 1);
      TimedAloneIff(shape[..p], b, load, names[1]);
      AloneIsBenchmark(obs, names[1]);
      OneWorkloadLoadsIff(obs, left, w, b, load);
    }
  }

  lemma {:induction false} SecondRoundStarts(workloads: nat, replicates: nat, names: seq<string>, shape: seq<PlannedRun>, p: nat)
    requires Cut(SP.INTERLEAVED, 1, workloads, replicates, names, shape, p) && p > workloads && replicates > 1
    ensures AloneIn(shape[..p], names[0])
  {
    assert SP.Times(1, SP.Times(1, workloads)) == workloads;
    HasRun(SP.INTERLEAVED, 1, workloads, replicates, names, shape, p, SP.PlannedRun(workloads, 0, 0, 1));
  }

  lemma {:induction false} FirstRoundAt(workloads: nat, replicates: nat, names: seq<string>, shape: seq<PlannedRun>, q: nat)
    requires Cut(SP.INTERLEAVED, 1, workloads, replicates, names, shape, workloads) && q < workloads
    ensures shape[q] == PlannedRun(names[q], q == 0)
  {
    PlanAt(SP.INTERLEAVED, 1, workloads, replicates, SP.PlannedRun(q, 0, q, 0));
    LoadsOfPlan(SP.INTERLEAVED, 1, workloads, replicates, names, q);
  }

  lemma {:induction false} FirstRoundOnly(workloads: nat, replicates: nat, names: seq<string>, shape: seq<PlannedRun>)
    requires Cut(SP.INTERLEAVED, 1, workloads, replicates, names, shape, workloads) && replicates > 1
    ensures !AloneIn(shape[..workloads], names[0])
    ensures PlannedRun(names[0], false) in shape[workloads..]
  {
    forall r | r in shape[..workloads] && !r.needsEngineLoad ensures r.workload != names[0] {
      var q :| 0 <= q < workloads && shape[..workloads][q] == r;
      FirstRoundAt(workloads, replicates, names, shape, q);
    }
    SecondRoundAt(workloads, replicates, names, shape);
    assert shape[workloads..][0] == shape[workloads];
  }

  lemma {:induction false} SecondRoundAt(workloads: nat, replicates: nat, names: seq<string>, shape: seq<PlannedRun>)
    requires Cut(SP.INTERLEAVED, 1, workloads, replicates, names, shape, workloads) && replicates > 1
    ensures shape[workloads] == PlannedRun(names[0], false)
  {
    assert SP.Times(1, SP.Times(1, workloads)) == workloads;
    PlanAt(SP.INTERLEAVED, 1, workloads, replicates, SP.PlannedRun(workloads, 0, 0, 1));
    LoadsOfPlan(SP.INTERLEAVED, 1, workloads, replicates, names, workloads);
  }
}
