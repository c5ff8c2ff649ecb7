/** The executor refines the planner: it starts exactly the engines a plan was costed at. */
module PlanRefinement {
  import opened Prelude
  import opened Runner
  import RunnerLaws
  import opened RunnerTrace
  import SweepPlan

  // ---- One sweep among other work --------------------------------------------------------

  /** One sweep's rows, materialised in plan order in one transaction; `rows[k]` is where its
      run `k` stands in the table. */
  datatype Job = Job(host: nat, sweep: nat, queuedAt: int, hashes: seq<string>, rows: seq<nat>)

  ghost predicate IsJob(j: Job) {
    |j.rows| == |j.hashes| && forall p, q :: 0 <= p < q < |j.rows| ==> j.rows[p] != j.rows[q]
  }

  function Row(j: Job, k: nat, st: RunStatus): Run
    requires k < |j.hashes|
  {
    Run(j.host, j.hashes[k], Some(j.sweep), Some(k), j.queuedAt, st, None)
  }

  predicate SameAsPrevious(j: Job, k: nat) {
    0 < k < |j.hashes| && j.hashes[k] == j.hashes[k - 1]
  }

  function UpFor(j: Job, k: nat): Engine
    requires k < |j.hashes|
  {
    Engine(READY, Some(j.hashes[k]))
  }

  /** What executing run `k` looks like from outside. */
  function Trace(j: Job, k: nat): seq<Event>
    requires k < |j.hashes| == |j.rows|
  {
    [Claimed(j.rows[k]),
     if SameAsPrevious(j, k) then Reused(j.rows[k]) else StartRequested(j.rows[k], j.hashes[k]),
     BenchIssued(j.rows[k], UpFor(j, k)),
     Finished(j.rows[k], SUCCEEDED),
     if SameAsPrevious(j, k + 1) then LeftLoaded(j.rows[k]) else StopRequested(j.rows[k])]
  }

  function Traces(j: Job, k: nat): seq<Event>
    requires k <= |j.hashes| == |j.rows|
  {
    if k == 0 then [] else Traces(j, k - 1) + Trace(j, k - 1)
  }

  /** The events that speak of these rows. */
  function OfRows(log: seq<Event>, rows: seq<nat>): seq<Event>
    decreases |log|
  {
    if log == [] then []
    else OfRows(log[..|log| - 1], rows) + if log[|log| - 1].run in rows then [log[|log| - 1]] else []
  }

  lemma {:induction false} OfRowsConcat(a: seq<Event>, b: seq<Event>, rows: seq<nat>)
    ensures OfRows(a + b, rows) == OfRows(a, rows) + OfRows(b, rows)
    decreases |b|
  {
    if b == [] {
      assert a + b == a;
    } else {
      assert (a + b)[..|a + b| - 1] == a + b[..|b| - 1];
      OfRowsConcat(a, b[..|b| - 1], rows);
    }
  }

  lemma {:induction false} OfRowsOfOne(evs: seq<Event>, rows: seq<nat>, i: nat)
    requires forall n :: 0 <= n < |evs| ==> evs[n].run == i
    ensures OfRows(evs, rows) == if i in rows then evs else []
    decreases |evs|
  {
    if evs != [] { OfRowsOfOne(evs[..|evs| - 1], rows, i); }
  }

  /** The job's rows when its first `k` runs are done and run `k` is at `mid`. */
  ghost predicate RowsAre(w: World, j: Job, k: nat, mid: RunStatus) {
    && IsJob(j) && k <= |j.rows|
    && (forall p :: 0 <= p < |j.rows| ==> j.rows[p] < |w.runs|)
    && (forall p :: 0 <= p < |j.rows| ==>
          w.runs[j.rows[p]] == Row(j, p, if p < k then SUCCEEDED else if p == k then mid else QUEUED))
  }

  /** Nothing else is queued for the host. */
  ghost predicate OthersIdle(w: World, j: Job) {
    forall q :: 0 <= q < |w.runs| && w.runs[q].host == j.host && w.runs[q].status.QUEUED? ==> q in j.rows
  }

  /** The state after `k` runs of the job: its own rows, no other work queued for its host,
      its own events after `base`, and the host's engine. All else is arbitrary. */
  ghost predicate AfterRuns(w: World, j: Job, k: nat, base: seq<Event>) {
    && RowsAre(w, j, k, QUEUED) && OthersIdle(w, j)
    && OfRows(w.log, j.rows) == base + Traces(j, k)
    && (if SameAsPrevious(j, k) then EngineAt(w, j.host) == UpFor(j, k - 1) else !Loaded(EngineAt(w, j.host)))
  }

  // ---- What others may do -------------------------------------------------------------------

  /** Others do not cancel the sweep, queue work for its host or restart the host's agent. */
  predicate Apart(x: External, j: Job) {
    x != CancelSweep(j.sweep) && (x.Enqueue? ==> x.added.host != j.host) && x != AgentRestarted(j.host)
  }

  predicate AllApart(xs: seq<External>, j: Job) {
    forall k :: 0 <= k < |xs| ==> Apart(xs[k], j)
  }

  predicate ActApart(a: Action, j: Job) {
    match a
    case Polled(e) => AllApart(e.during, j) && AllApart(e.late, j)
    case Died(e) => AllApart(e.during, j) && AllApart(e.late, j)
    case Outside(x) => Apart(x, j)
  }

  lemma {:induction false} ApartMeansNoRestart(xs: seq<External>, j: Job)
    requires AllApart(xs, j)
    ensures !Restarts(xs, j.host)
  {
  }

  lemma {:induction false} InterfereKeepsRows(w: World, x: External, j: Job, k: nat, mid: RunStatus)
    requires RowsAre(w, j, k, mid) && OthersIdle(w, j) && Apart(x, j)
    ensures RowsAre(Interfere(w, x), j, k, mid) && OthersIdle(Interfere(w, x), j)
  {
    var w' := Interfere(w, x);
    assert forall p :: 0 <= p < |j.rows| ==> w.runs[j.rows[p]].sweep == Some(j.sweep);
    forall q | 0 <= q < |w'.runs| && w'.runs[q].host == j.host && w'.runs[q].status.QUEUED? ensures q in j.rows {
      assert q < |w.runs| && w'.runs[q] == w.runs[q];
    }
  }

  lemma {:induction false} InterferenceKeepsRows(w: World, xs: seq<External>, j: Job, k: nat, mid: RunStatus)
    requires RowsAre(w, j, k, mid) && OthersIdle(w, j) && AllApart(xs, j)
    ensures RowsAre(InterfereAll(w, xs), j, k, mid) && OthersIdle(InterfereAll(w, xs), j)
    decreases |xs|
  {
    if xs != [] {
      InterfereKeepsRows(w, xs[0], j, k, mid);
      assert AllApart(xs[1..], j) by { assert forall n :: 0 <= n < |xs[1..]| ==> xs[1..][n] == xs[n + 1]; }
      InterferenceKeepsRows(Interfere(w, xs[0]), xs[1..], j, k, mid);
    }
  }

  // ---- A poll for another host ----------------------------------------------------------------

  lemma {:induction false} NotMine(w: World, i: nat, j: Job, k: nat, mid: RunStatus)
    requires RowsAre(w, j, k, mid) && i < |w.runs| && w.runs[i].host != j.host
    ensures i !in j.rows
  {
    forall p | 0 <= p < |j.rows| ensures j.rows[p] != i {
      assert w.runs[j.rows[p]].host == j.host;
    }
  }

  lemma {:induction false} OtherRowChanges(w: World, w': World, i: nat, j: Job, k: nat, mid: RunStatus)
    requires RowsAre(w, j, k, mid) && OthersIdle(w, j) && i < |w.runs| && w.runs[i].host != j.host
    requires |w'.runs| == |w.runs| && w'.runs[i].host == w.runs[i].host
    requires forall q :: 0 <= q < |w.runs| && q != i ==> w'.runs[q] == w.runs[q]
    ensures RowsAre(w', j, k, mid) && OthersIdle(w', j)
  {
    NotMine(w, i, j, k, mid);
    forall p | 0 <= p < |j.rows| ensures w'.runs[j.rows[p]] == w.runs[j.rows[p]] {
      assert j.rows[p] in j.rows;
    }
    forall q | 0 <= q < |w'.runs| && w'.runs[q].host == j.host && w'.runs[q].status.QUEUED? ensures q in j.rows {
      assert w'.runs[q] == w.runs[q];
    }
  }

  lemma {:induction false} DriveOnlyTouches(w: World, i: nat, e: Env)
    requires i < |w.runs|
    ensures var d := Drive(w, i, e);
            && |d.w.runs| == |w.runs| && d.w.runs[i] == w.runs[i].(status := d.w.runs[i].status)
            && forall q :: 0 <= q < |w.runs| && q != i ==> d.w.runs[q] == w.runs[q]
  {
  }

  lemma {:induction false} OtherUnsettled(w: World, i: nat, e: Env, j: Job, k: nat)
    requires RowsAre(w, j, k, QUEUED) && OthersIdle(w, j) && i < |w.runs| && w.runs[i].host != j.host
    requires !w.runs[i].status.QUEUED? && AllApart(e.during, j) && AllApart(e.late, j)
    ensures RowsAre(Unsettled(w, i, e), j, k, QUEUED) && OthersIdle(Unsettled(w, i, e), j)
  {
    var d, r := Drive(w, i, e), Recorded(w, i, e);
    DriveOnlyTouches(w, i, e);
    OtherRowChanges(w, d.w, i, j, k, QUEUED);
    InterferenceKeepsRows(d.w, e.during, j, k, QUEUED);
    RunnerLaws.RecordedFollows(w, i, e);
    OtherRowChanges(InterfereAll(d.w, e.during), r, i, j, k, QUEUED);
    var t := if d.serverStarted then TearDown(r, i, e, d.verdict) else r;
    assert t.runs == r.runs;
    InterferenceKeepsRows(t, e.late, j, k, QUEUED);
  }

  lemma {:induction false} OtherPollRows(w: World, e: Env, j: Job, k: nat)
    requires RowsAre(w, j, k, QUEUED) && OthersIdle(w, j) && e.claim < |w.runs| && w.runs[e.claim].host != j.host
    requires AllApart(e.during, j) && AllApart(e.late, j)
    ensures RowsAre(PollUnsettled(w, e), j, k, QUEUED) && OthersIdle(PollUnsettled(w, e), j)
  {
    var c, i := Claim(w, e.claim), e.claim;
    OtherRowChanges(w, c, i, j, k, QUEUED);
    if e.refsPresent { OtherUnsettled(c, i, e, j, k); } else { OtherRowChanges(c, PollUnsettled(w, e), i, j, k, QUEUED); }
  }

  lemma {:induction false} PollOfRows(w: World, a: Action, rows: seq<nat>)
    requires CanAct(w, a)
    ensures OfRows(Act(w, a).log, rows) ==
      OfRows(w.log, rows) + if !a.Outside? && a.e.claim in rows then PollEvents(w, a.e) else []
  {
    ActLogIs(w, a);
    if a.Outside? {
      assert w.log + [] == w.log;
    } else {
      EventsSpeakOfTheClaim(w, a.e);
      OfRowsMore(w.log, PollEvents(w, a.e), rows, a.e.claim);
    }
  }

  lemma {:induction false} OfRowsMore(log: seq<Event>, evs: seq<Event>, rows: seq<nat>, i: nat)
    requires forall n :: 0 <= n < |evs| ==> evs[n].run == i
    ensures OfRows(log + evs, rows) == OfRows(log, rows) + if i in rows then evs else []
  {
    OfRowsConcat(log, evs, rows);
    OfRowsOfOne(evs, rows, i);
  }

  lemma {:induction false} OtherActRows(w: World, a: Action, j: Job, k: nat)
    requires RowsAre(w, j, k, QUEUED) && OthersIdle(w, j) && CanAct(w, a) && ActApart(a, j)
    requires !a.Outside? ==> w.runs[a.e.claim].host != j.host
    ensures RowsAre(Act(w, a), j, k, QUEUED) && OthersIdle(Act(w, a), j)
  {
    if a.Outside? {
      InterfereKeepsRows(w, a.x, j, k, QUEUED);
    } else {
      OtherPollRows(w, a.e, j, k);
      PollEngines(w, a.e);
    }
  }

  lemma {:induction false} OtherActEngine(w: World, a: Action, j: Job)
    requires CanAct(w, a) && ActApart(a, j) && (!a.Outside? ==> w.runs[a.e.claim].host != j.host)
    ensures EngineAt(Act(w, a), j.host) == EngineAt(w, j.host)
  {
    OtherHostEngine(w, a, j.host);
    if !a.Outside? {
      ApartMeansNoRestart(a.e.during, j);
      ApartMeansNoRestart(a.e.late, j);
    }
  }

  /** A run of another host leaves the job where it was. */
  lemma {:induction false} OtherAct(w: World, a: Action, j: Job, k: nat, base: seq<Event>)
    requires AfterRuns(w, j, k, base) && CanAct(w, a) && ActApart(a, j)
    requires !a.Outside? ==> w.runs[a.e.claim].host != j.host
    ensures AfterRuns(Act(w, a), j, k, base)
  {
    OtherActRows(w, a, j, k);
    OtherActEngine(w, a, j);
    PollOfRows(w, a, j.rows);
    if !a.Outside? { NotMine(w, a.e.claim, j, k, QUEUED); }
  }

  // ---- A poll for the job -------------------------------------------------------------------------

  /** Nothing fails, and the agent's answer to a start is the engine asked for. */
  predicate AllWell(w: World, e: Env) {
    && e.refsPresent && !e.cancelSet && e.budgetsRead && Reach(e.attempts, RECONNECT_ATTEMPTS).None?
    && e.status.Answered? && e.stopOld.Answered? && e.start.Answered?
    && e.claim < |w.runs| && e.startLeaves == OwnReady(w.runs[e.claim])
    && e.modelLine && e.bench.BenchDone? && e.flatten.Flattened?
    && !e.lookAheadRaises && e.finalStop.Stopped?
  }

  lemma {:induction false} NextClaim(w: World, j: Job, k: nat, i: nat)
    requires RowsAre(w, j, k, QUEUED) && OthersIdle(w, j) && IsHead(w.runs, i) && w.runs[i].host == j.host
    ensures k < |j.rows| && i == j.rows[k]
  {
    assert i in j.rows;
    var p :| 0 <= p < |j.rows| && j.rows[p] == i;
    assert w.runs[i] == Row(j, p, QUEUED) && k <= p;
    assert w.runs[j.rows[k]] == Row(j, k, QUEUED);
    assert NotAfter(w.runs[i], w.runs[j.rows[k]]);
  }

  lemma {:induction false} SetMid(w: World, w': World, j: Job, k: nat, mid: RunStatus, mid': RunStatus)
    requires RowsAre(w, j, k, mid) && OthersIdle(w, j) && k < |j.rows|
    requires w'.runs == w.runs[j.rows[k] := Row(j, k, mid')]
    ensures RowsAre(w', j, k, mid') && OthersIdle(w', j)
    ensures mid' == SUCCEEDED ==> RowsAre(w', j, k + 1, QUEUED)
  {
    assert j.rows[k] in j.rows;
    forall q | 0 <= q < |w'.runs| && w'.runs[q].host == j.host && w'.runs[q].status.QUEUED? ensures q in j.rows {
      if q != j.rows[k] { assert w'.runs[q] == w.runs[q]; }
    }
  }

  lemma {:induction false} DrivenRun(w: World, j: Job, k: nat, e: Env)
    requires RowsAre(w, j, k, QUEUED) && OthersIdle(w, j) && k < |j.rows| && e.claim == j.rows[k] && AllWell(w, e)
    ensures var d := Drive(Claim(w, e.claim), e.claim, e);
            && d.verdict == Success && d.serverStarted
            && RowsAre(d.w, j, k, BENCHMARKING) && OthersIdle(d.w, j)
  {
    var c := Claim(w, e.claim);
    SetMid(w, c, j, k, QUEUED, STARTING);
    var d := Drive(c, e.claim, e);
    assert c.runs[e.claim] == Row(j, k, STARTING);
    DriveOnlyTouches(c, e.claim, e);
    assert d.w.runs[e.claim].status == BENCHMARKING;
    assert d.w.runs == c.runs[e.claim := Row(j, k, BENCHMARKING)];
    SetMid(c, d.w, j, k, STARTING, BENCHMARKING);
  }

  lemma {:induction false} RecordedRun(w: World, j: Job, k: nat, e: Env)
    requires RowsAre(w, j, k, QUEUED) && OthersIdle(w, j) && k < |j.rows| && e.claim == j.rows[k] && AllWell(w, e)
    requires AllApart(e.during, j)
    ensures var r := Recorded(Claim(w, e.claim), e.claim, e); RowsAre(r, j, k + 1, QUEUED) && OthersIdle(r, j)
  {
    var c := Claim(w, e.claim);
    var d := Drive(c, e.claim, e);
    DrivenRun(w, j, k, e);
    InterferenceKeepsRows(d.w, e.during, j, k, BENCHMARKING);
    var m := InterfereAll(d.w, e.during);
    assert m.runs[e.claim] == Row(j, k, BENCHMARKING);
    SetMid(m, Recorded(c, e.claim, e), j, k, BENCHMARKING, SUCCEEDED);
  }

  lemma {:induction false} NextOnHost(w: World, j: Job, k: nat, next: Option<nat>)
    requires RowsAre(w, j, k, QUEUED) && OthersIdle(w, j)
    requires if next.Some? then IsHostHead(w.runs, j.host, next.value) else NoneQueued(w.runs, Some(j.host))
    ensures next == if k < |j.rows| then Some(j.rows[k]) else None
  {
    if k < |j.rows| { assert w.runs[j.rows[k]] == Row(j, k, QUEUED); }
    if next.Some? {
      var i := next.value;
      assert i in j.rows;
      var p :| 0 <= p < |j.rows| && j.rows[p] == i;
      assert w.runs[i] == Row(j, p, QUEUED) && k <= p;
      assert NotAfter(w.runs[i], w.runs[j.rows[k]]);
    }
  }

  lemma {:induction false} KeepsIff(w: World, j: Job, k: nat, e: Env)
    requires RowsAre(w, j, k, QUEUED) && OthersIdle(w, j) && k < |j.rows| && e.claim == j.rows[k] && AllWell(w, e)
    requires AllApart(e.during, j) && Possible(w, e)
    ensures KeepsLoaded(w, e) <==> SameAsPrevious(j, k + 1)
  {
    var r := Recorded(Claim(w, e.claim), e.claim, e);
    DrivenRun(w, j, k, e);
    RecordedRun(w, j, k, e);
    NextOnHost(r, j, k + 1, e.next);
    assert r.runs[e.claim] == Row(j, k, SUCCEEDED);
    if k + 1 < |j.rows| { assert r.runs[j.rows[k + 1]] == Row(j, k + 1, QUEUED); }
  }

  lemma {:induction false} EventsAreTrace(w: World, j: Job, k: nat, e: Env, base: seq<Event>)
    requires AfterRuns(w, j, k, base) && k < |j.rows| && e.claim == j.rows[k] && AllWell(w, e)
    requires AllApart(e.during, j) && Possible(w, e)
    ensures PollEvents(w, e) == Trace(j, k) && BenchReport(w, e) == Some(UpFor(j, k))
  {
    KeepsIff(w, j, k, e);
    DrivenRun(w, j, k, e);
    assert w.runs[e.claim] == Row(j, k, QUEUED);
    assert Reuses(w, e) <==> SameAsPrevious(j, k);
    assert !StopsOld(w, e);
    assert EngineEvents(w, e) == Trace(j, k)[1..3];
    assert FinalEvents(w, e) == Trace(j, k)[3..];
  }

  lemma {:induction false} RowsAfterPoll(w: World, j: Job, k: nat, e: Env)
    requires RowsAre(w, j, k, QUEUED) && OthersIdle(w, j) && k < |j.rows| && e.claim == j.rows[k] && AllWell(w, e)
    requires AllApart(e.during, j) && AllApart(e.late, j)
    ensures RowsAre(PollUnsettled(w, e), j, k + 1, QUEUED) && OthersIdle(PollUnsettled(w, e), j)
  {
    var c := Claim(w, e.claim);
    var d, r := Drive(c, e.claim, e), Recorded(c, e.claim, e);
    RecordedRun(w, j, k, e);
    var t := if d.serverStarted then TearDown(r, e.claim, e, d.verdict) else r;
    assert t.runs == r.runs;
    InterferenceKeepsRows(t, e.late, j, k + 1, QUEUED);
  }

  lemma {:induction false} EngineAfterPoll(w: World, j: Job, k: nat, e: Env, base: seq<Event>)
    requires AfterRuns(w, j, k, base) && k < |j.rows| && e.claim == j.rows[k] && AllWell(w, e)
    requires AllApart(e.during, j) && AllApart(e.late, j) && Possible(w, e)
    ensures var u := PollUnsettled(w, e);
            if SameAsPrevious(j, k + 1) then EngineAt(u, j.host) == UpFor(j, k) else !Loaded(EngineAt(u, j.host))
  {
    ApartMeansNoRestart(e.during, j);
    ApartMeansNoRestart(e.late, j);
    EventsAreTrace(w, j, k, e, base);
    KeepsIff(w, j, k, e);
    assert w.runs[e.claim] == Row(j, k, QUEUED);
    if SameAsPrevious(j, k + 1) {
      KeptEngineIs(w, e);
    } else {
      var c := Claim(w, e.claim);
      var d, r := Drive(c, e.claim, e), Recorded(c, e.claim, e);
      DrivenRun(w, j, k, e);
      RecordedRun(w, j, k, e);
      assert r.runs[e.claim] == Row(j, k, SUCCEEDED);
      InterferenceEngineIs(TearDown(r, e.claim, e, d.verdict), e.late, j.host);
    }
  }

  /** One more poll of the job: the next run in plan order, reusing the engine exactly when
      the config has not changed, and leaving it loaded exactly when it will not; also when
      the orchestrator dies before settling the sweep. */
  lemma {:induction false} OneMoreRun(w: World, a: Action, j: Job, k: nat, base: seq<Event>)
    requires AfterRuns(w, j, k, base) && !a.Outside? && CanAct(w, a) && ActApart(a, j)
    requires w.runs[a.e.claim].host == j.host && AllWell(w, a.e)
    ensures k < |j.rows| && a.e.claim == j.rows[k] && AfterRuns(Act(w, a), j, k + 1, base)
  {
    NextClaim(w, j, k, a.e.claim);
    JobPoll(w, a, j, k, base);
  }

  lemma {:induction false} JobPoll(w: World, a: Action, j: Job, k: nat, base: seq<Event>)
    requires AfterRuns(w, j, k, base) && !a.Outside? && CanAct(w, a) && ActApart(a, j)
    requires k < |j.rows| && a.e.claim == j.rows[k] && AllWell(w, a.e)
    ensures AfterRuns(Act(w, a), j, k + 1, base)
  {
    EventsAreTrace(w, j, k, a.e, base);
    RowsAfterPoll(w, j, k, a.e);
    EngineAfterPoll(w, j, k, a.e, base);
    PollEngines(w, a.e);
    PollOfRows(w, a, j.rows);
    TracesGrow(j, k, base);
    assert EngineAt(Act(w, a), j.host) == EngineAt(PollUnsettled(w, a.e), j.host);
    assert Act(w, a).runs == PollUnsettled(w, a.e).runs;
  }

  lemma {:induction false} TracesGrow(j: Job, k: nat, base: seq<Event>)
    requires k < |j.hashes| == |j.rows|
    ensures base + Traces(j, k) + Trace(j, k) == base + Traces(j, k + 1)
  {
  }

  // ---- Whole histories ---------------------------------------------------------------------------

  /** A history in which nothing goes wrong for the job; other hosts' runs may fail or succeed
      in between, and others may act on everything that is not the job's. */
  predicate GoesWell(w: World, acts: seq<Action>, j: Job)
    requires History(w, acts)
    decreases |acts|
  {
    acts != [] ==>
      GoodAct(w, acts[0], j) && GoesWell(Act(w, acts[0]), acts[1..], j)
  }

  function JobPolls(w: World, acts: seq<Action>, j: Job): nat
    requires History(w, acts)
    decreases |acts|
  {
    if acts == [] then 0
    else
      (if ForJob(w, acts[0], j) then 1 else 0) + JobPolls(Act(w, acts[0]), acts[1..], j)
  }

  predicate ForJob(w: World, a: Action, j: Job)
    requires CanAct(w, a)
  {
    !a.Outside? && w.runs[a.e.claim].host == j.host
  }

  lemma {:induction false} OneMoreAct(w: World, a: Action, j: Job, k: nat, base: seq<Event>)
    requires AfterRuns(w, j, k, base) && CanAct(w, a) && GoodAct(w, a, j)
    ensures AfterRuns(Act(w, a), j, k + (if ForJob(w, a, j) then 1 else 0), base)
  {
    if ForJob(w, a, j) { OneMoreRun(w, a, j, k, base); } else { OtherAct(w, a, j, k, base); }
  }

  /** Nothing goes wrong for the job in this act. */
  predicate GoodAct(w: World, a: Action, j: Job)
    requires CanAct(w, a)
  {
    ActApart(a, j) && (ForJob(w, a, j) ==> AllWell(w, a.e))
  }

  /** What every good act moves on with the job's polls, a history moves on with their number. */
  lemma {:induction false} HistoryMovesOn(w: World, acts: seq<Action>, j: Job, k: nat, inv: (World, nat) -> bool)
    requires inv(w, k) && History(w, acts) && GoesWell(w, acts, j)
    requires forall v: World, a: Action, m: nat :: inv(v, m) && CanAct(v, a) && GoodAct(v, a, j) ==>
      inv(Act(v, a), m + if ForJob(v, a, j) then 1 else 0)
    ensures inv(Play(w, acts), k + JobPolls(w, acts, j))
    decreases |acts|
  {
    if acts != [] {
      var m := k + if ForJob(w, acts[0], j) then 1 else 0;
      assert inv(Act(w, acts[0]), m);
      HistoryMovesOn(Act(w, acts[0]), acts[1..], j, m, inv);
    }
  }

  ghost function StageOf(j: Job, base: seq<Event>): (inv: (World, nat) -> bool)
    ensures forall v: World, m: nat :: inv(v, m) <==> AfterRuns(v, j, m, base)
  {
    (v: World, m: nat) => AfterRuns(v, j, m, base)
  }

  lemma {:induction false} EachActMovesOn(j: Job, base: seq<Event>, inv: (World, nat) -> bool, v: World, a: Action, m: nat)
    requires inv == StageOf(j, base) && inv(v, m) && CanAct(v, a) && GoodAct(v, a, j)
    ensures inv(Act(v, a), m + if ForJob(v, a, j) then 1 else 0)
  {
    OneMoreAct(v, a, j, m, base);
  }

  lemma {:induction false} RunsDone(w: World, acts: seq<Action>, j: Job, k: nat, base: seq<Event>)
    requires StageOf(j, base)(w, k) && History(w, acts) && GoesWell(w, acts, j)
    ensures StageOf(j, base)(Play(w, acts), k + JobPolls(w, acts, j))
  {
    var inv := StageOf(j, base);
    forall v: World, a: Action, m: nat | inv(v, m) && CanAct(v, a) && GoodAct(v, a, j)
      ensures inv(Act(v, a), m + if ForJob(v, a, j) then 1 else 0)
    {
      EachActMovesOn(j, base, inv, v, a, m);
    }
    HistoryMovesOn(w, acts, j, k, inv);
  }

  // ---- Counting the starts --------------------------------------------------------------------------

  function StartCount(log: seq<Event>): nat
    decreases |log|
  {
    if log == [] then 0
    else StartCount(log[..|log| - 1]) + if log[|log| - 1].StartRequested? then 1 else 0
  }

  lemma {:induction false} StartCountConcat(a: seq<Event>, b: seq<Event>)
    ensures StartCount(a + b) == StartCount(a) + StartCount(b)
    decreases |b|
  {
    if b == [] {
      assert a + b == a;
    } else {
      assert (a + b)[..|a + b| - 1] == a + b[..|b| - 1];
      StartCountConcat(a, b[..|b| - 1]);
    }
  }

  lemma {:induction false} StartCountOfTrace(j: Job, k: nat)
    requires k < |j.hashes| == |j.rows|
    ensures StartCount(Trace(j, k)) == if SameAsPrevious(j, k) then 0 else 1
  {
    var t := Trace(j, k);
    assert t == [t[0]] + [t[1]] + [t[2]] + [t[3]] + [t[4]];
    StartCountConcat([t[0]] + [t[1]] + [t[2]] + [t[3]], [t[4]]);
    StartCountConcat([t[0]] + [t[1]] + [t[2]], [t[3]]);
    StartCountConcat([t[0]] + [t[1]], [t[2]]);
    StartCountConcat([t[0]], [t[1]]);
    forall x: Event ensures StartCount([x]) == if x.StartRequested? then 1 else 0 {
      assert [x][..0] == [];
    }
  }

  lemma {:induction false} StartCountOfTraces(j: Job, k: nat)
    requires k <= |j.hashes| == |j.rows|
    ensures StartCount(Traces(j, k)) == SweepPlan.Starts(j.hashes[..k])
  {
    if k > 0 {
      StartCountOfTraces(j, k - 1);
      StartCountOfTrace(j, k - 1);
      StartCountConcat(Traces(j, k - 1), Trace(j, k - 1));
      assert j.hashes[..k][..k - 1] == j.hashes[..k - 1];
    }
  }

  lemma {:induction false} TraceIn(j: Job, k: nat, n: nat, ev: Event)
    requires IsJob(j) && k < n <= |j.hashes| && ev.run == j.rows[k]
    ensures ev in Traces(j, n) <==> ev in Trace(j, k)
  {
    if k < n - 1 {
      TraceIn(j, k, n - 1, ev);
      NotInTrace(j, n - 1, ev);
    } else {
      NotInEarlierTraces(j, k, k, ev);
    }
  }

  lemma {:induction false} NotInTrace(j: Job, k: nat, ev: Event)
    requires k < |j.hashes| == |j.rows| && ev.run != j.rows[k]
    ensures ev !in Trace(j, k)
  {
  }

  lemma {:induction false} NotInEarlierTraces(j: Job, n: nat, m: nat, ev: Event)
    requires IsJob(j) && n <= m < |j.hashes| && ev.run == j.rows[m]
    ensures ev !in Traces(j, n)
  {
    if n > 0 {
      NotInEarlierTraces(j, n - 1, m, ev);
      NotInTrace(j, n - 1, ev);
    }
  }

  lemma {:induction false} KeptInTrace(j: Job, k: nat)
    requires k < |j.hashes| == |j.rows|
    ensures LeftLoaded(j.rows[k]) in Trace(j, k) <==> SameAsPrevious(j, k + 1)
    ensures Reused(j.rows[k]) in Trace(j, k) <==> SameAsPrevious(j, k)
  {
    var t := Trace(j, k);
    assert t[4] in t && t[1] in t;
  }

  lemma {:induction false} KeptInTraces(j: Job, k: nat)
    requires IsJob(j) && k < |j.hashes|
    ensures LeftLoaded(j.rows[k]) in Traces(j, |j.hashes|) <==> SameAsPrevious(j, k + 1)
    ensures Reused(j.rows[k]) in Traces(j, |j.hashes|) <==> SameAsPrevious(j, k)
  {
    TraceIn(j, k, |j.hashes|, LeftLoaded(j.rows[k]));
    TraceIn(j, k, |j.hashes|, Reused(j.rows[k]));
    KeptInTrace(j, k);
  }

  /** In the job's own events, an engine left loaded is reused by the next run, and an engine
      is reused only when the run before left it. */
  lemma {:induction false} KeptIffReused(j: Job, k: nat)
    requires IsJob(j) && k + 1 < |j.hashes|
    ensures LeftLoaded(j.rows[k]) in Traces(j, |j.hashes|) <==> Reused(j.rows[k + 1]) in Traces(j, |j.hashes|)
  {
    KeptInTraces(j, k);
    KeptInTraces(j, k + 1);
  }

  /** The hashes a plan materialises: each run has its config's. Configs may share a hash. */
  predicate HashesOf(plan: seq<SweepPlan.PlannedRun>, configHashes: seq<string>, hashes: seq<string>) {
    && |hashes| == |plan|
    && forall p :: 0 <= p < |plan| ==>
         plan[p].configIndex < |configHashes| && hashes[p] == configHashes[plan[p].configIndex]
  }

  /** Where the plan changes from one config to another, their hashes differ. */
  predicate ChangesShow(plan: seq<SweepPlan.PlannedRun>, hashes: seq<string>)
    requires |hashes| == |plan|
  {
    forall p :: 0 < p < |plan| && plan[p].configIndex != plan[p - 1].configIndex ==> hashes[p] != hashes[p - 1]
  }

  lemma {:induction false} CostByHash(plan: seq<SweepPlan.PlannedRun>, configHashes: seq<string>, hashes: seq<string>)
    requires HashesOf(plan, configHashes, hashes)
    ensures SweepPlan.Starts(hashes) <= SweepPlan.Starts(SweepPlan.Configs(plan))
    ensures SweepPlan.Starts(hashes) == SweepPlan.Starts(SweepPlan.Configs(plan)) <==> ChangesShow(plan, hashes)
  {
    var keys := SweepPlan.Configs(plan);
    assert forall i :: 0 <= i < |keys| ==> keys[i] == plan[i].configIndex;
    SweepPlan.StartsRenamed<nat, string>(keys, hashes);
  }

  lemma {:induction false} AllDone(w: World, acts: seq<Action>, j: Job, base: seq<Event>)
    requires AfterRuns(w, j, 0, base) && History(w, acts) && GoesWell(w, acts, j)
    requires forall p :: 0 <= p < |j.rows| && j.rows[p] < |Play(w, acts).runs| ==> !Play(w, acts).runs[j.rows[p]].status.QUEUED?
    ensures AfterRuns(Play(w, acts), j, |j.hashes|, base) && JobPolls(w, acts, j) == |j.hashes|
  {
    var k := JobPolls(w, acts, j);
    RunsDone(w, acts, j, 0, base);
    SomeStillQueued(Play(w, acts), j, k);
  }

  lemma {:induction false} SomeStillQueued(w: World, j: Job, k: nat)
    requires RowsAre(w, j, k, QUEUED)
    ensures k < |j.rows| ==> exists p :: 0 <= p < |j.rows| && w.runs[j.rows[p]].status.QUEUED?
  {
    if k < |j.rows| { StillQueued(w, j, k); }
  }

  lemma {:induction false} StillQueued(w: World, j: Job, k: nat)
    requires RowsAre(w, j, k, QUEUED) && k < |j.rows|
    ensures j.rows[k] < |w.runs| && w.runs[j.rows[k]].status.QUEUED?
  {
    assert w.runs[j.rows[k]] == Row(j, k, QUEUED);
  }

  /** Main result: from an unloaded engine, with the sweep the only work queued for its host,
      through any history in which nothing goes wrong for it, once none of its rows is queued:
      its own events are its runs in plan order, the engine starts requested are the changes of
      hash along it, at most what the planner costed and exactly that if and only if configs
      planned one after the other differ in hash, an engine was left loaded exactly when the
      next run reused it, and none is left at the end. Rows of finished sweeps, earlier events
      and the work of other hosts, however that goes, are arbitrary. */
  lemma {:induction false} ExecutorMeetsThePlan(order: SweepPlan.ReplicateOrder, configs: nat, workloads: nat, replicates: nat,
                                                configHashes: seq<string>, j: Job, w: World, acts: seq<Action>)
    requires configs > 0 && workloads > 0 && replicates > 0
    requires HashesOf(SweepPlan.Plan(order, configs, workloads, replicates), configHashes, j.hashes)
    requires RowsAre(w, j, 0, QUEUED) && OthersIdle(w, j) && !Loaded(EngineAt(w, j.host))
    requires History(w, acts) && GoesWell(w, acts, j)
    requires forall p :: 0 <= p < |j.rows| && j.rows[p] < |Play(w, acts).runs| ==> !Play(w, acts).runs[j.rows[p]].status.QUEUED?
    ensures JobIsDone(w, Play(w, acts), j)
    ensures MeetsTheCost(order, configs, workloads, replicates, j)
    ensures KeptAreReused(j)
  {
    StartCostOfJob(order, configs, workloads, replicates, configHashes, j);
    KeptIffReusedThroughout(j);
    ExecutorRunsTheJob(j, w, acts);
  }

  /** The job's rows have all succeeded, its events since are its runs in plan order, and no
      engine is left. */
  ghost predicate JobIsDone(w: World, w': World, j: Job) {
    && RowsAre(w', j, |j.hashes|, QUEUED)
    && OfRows(w'.log, j.rows) == OfRows(w.log, j.rows) + Traces(j, |j.hashes|) && !Loaded(EngineAt(w', j.host))
  }

  /** An engine is left loaded after a run exactly when the next run reuses it. */
  predicate KeptAreReused(j: Job)
    requires |j.hashes| == |j.rows|
  {
    forall k :: 0 <= k < |j.hashes| - 1 ==>
      (LeftLoaded(j.rows[k]) in Traces(j, |j.hashes|) <==> Reused(j.rows[k + 1]) in Traces(j, |j.hashes|))
  }

  lemma {:induction false} ExecutorRunsTheJob(j: Job, w: World, acts: seq<Action>)
    requires RowsAre(w, j, 0, QUEUED) && OthersIdle(w, j) && !Loaded(EngineAt(w, j.host))
    requires History(w, acts) && GoesWell(w, acts, j)
    requires forall p :: 0 <= p < |j.rows| && j.rows[p] < |Play(w, acts).runs| ==> !Play(w, acts).runs[j.rows[p]].status.QUEUED?
    ensures JobIsDone(w, Play(w, acts), j)
  {
    var base := OfRows(w.log, j.rows);
    assert base + Traces(j, 0) == base;
    AllDone(w, acts, j, base);
  }

  /** What the planner tells the user a matrix costs in engine starts. */
  function Planned(order: SweepPlan.ReplicateOrder, configs: nat, replicates: nat): nat {
    if order.GROUPED? || configs == 1 then configs else configs * replicates
  }

  /** The starts requested, against the hashes and against the planner's cost. */
  predicate MeetsTheCost(order: SweepPlan.ReplicateOrder, configs: nat, workloads: nat, replicates: nat, j: Job)
    requires configs > 0 && workloads > 0 && replicates > 0 && |j.hashes| == |j.rows|
  {
    var plan := SweepPlan.Plan(order, configs, workloads, replicates);
    var starts := StartCount(Traces(j, |j.hashes|));
    && starts == SweepPlan.Starts(j.hashes) <= Planned(order, configs, replicates)
    && |j.hashes| == |plan|
    && (starts == Planned(order, configs, replicates) <==> ChangesShow(plan, j.hashes))
  }

  lemma {:induction false} KeptIffReusedThroughout(j: Job)
    requires IsJob(j)
    ensures KeptAreReused(j)
  {
    forall k | 0 <= k < |j.hashes| - 1
      ensures LeftLoaded(j.rows[k]) in Traces(j, |j.hashes|) <==> Reused(j.rows[k + 1]) in Traces(j, |j.hashes|)
    {
      KeptIffReused(j, k);
    }
  }

  lemma {:induction false} StartCostOfJob(order: SweepPlan.ReplicateOrder, configs: nat, workloads: nat, replicates: nat,
                                          configHashes: seq<string>, j: Job)
    requires configs > 0 && workloads > 0 && replicates > 0 && IsJob(j)
    requires HashesOf(SweepPlan.Plan(order, configs, workloads, replicates), configHashes, j.hashes)
    ensures MeetsTheCost(order, configs, workloads, replicates, j)
  {
    StartCountOfTraces(j, |j.hashes|);
    assert j.hashes[..|j.hashes|] == j.hashes;
    CostByHash(SweepPlan.Plan(order, configs, workloads, replicates), configHashes, j.hashes);
    SweepPlan.PlanCost(order, configs, workloads, replicates);
  }

  // ---- Runs that show what is lost ----------------------------------------------------------------------

  /** Everything answers; the look-ahead finds `next`. */
  function Calm(hash: string, next: Option<nat>): Env {
    Env(0, true, false, true, [Reached, Reached, Reached, Reached, Reached], Answered, Answered, Off,
        Answered, Engine(READY, Some(hash)), true, BenchDone, Flattened, [],
        false, next, Stopped, Off, [], false)
  }

  function TwoRuns(hash: string): Job {
    Job(0, 7, 0, [hash, hash], [0, 1])
  }

  predicate IsTwoRuns(w: World, hash: string) {
    w == World([Row(TwoRuns(hash), 0, QUEUED), Row(TwoRuns(hash), 1, QUEUED)], map[7 := SWEEP_QUEUED], map[], [])
  }

  lemma {:induction false} TwoRunsStart(hash: string, w: World)
    requires IsTwoRuns(w, hash)
    ensures AfterRuns(w, TwoRuns(hash), 0, []) && AllWell(w, Calm(hash, Some(1))) && Possible(w, Calm(hash, Some(1)))
  {
    var j, e := TwoRuns(hash), Calm(hash, Some(1));
    assert RowsAre(w, j, 0, QUEUED) && OthersIdle(w, j);
    RecordedRun(w, j, 0, e);
    assert IsHostHead(Recorded(Claim(w, 0), 0, e).runs, 0, 1);
  }

  /** An engine kept for the next run stays loaded when that run is then cancelled: nothing is
      queued, no call failed, and the engine still holds the host's memory. */
  lemma {:induction false} KeptEngineOutlivesItsQueue(hash: string, w: World)
    requires IsTwoRuns(w, hash)
    ensures Possible(w, Calm(hash, Some(1)))
    ensures var w' := Interfere(Poll(w, Calm(hash, Some(1))), CancelSweep(7));
            NoneQueued(w'.runs, Some(0)) && EngineAt(w', 0) == Engine(READY, Some(hash))
  {
    var j, e := TwoRuns(hash), Calm(hash, Some(1));
    TwoRunsStart(hash, w);
    OneMoreRun(w, Polled(e), j, 0, []);
    SweepStaysOpen(w, e, 7);
    OnlyTwoRows(Poll(w, e), hash);
  }

  lemma {:induction false} SweepStaysOpen(w: World, e: Env, sweep: nat)
    requires e.claim < |w.runs| && e.refsPresent && sweep in w.sweeps && !Closed(w.sweeps[sweep])
    requires e.during == [] && e.late == [] && w.runs[e.claim].sweep == Some(sweep)
    requires exists i :: 0 <= i < |Poll(w, e).runs| && Poll(w, e).runs[i].status.QUEUED? && Poll(w, e).runs[i].sweep == Some(sweep)
    ensures sweep in Poll(w, e).sweeps && !Closed(Poll(w, e).sweeps[sweep])
  {
    RunnerLaws.UnsettledCloses(Claim(w, e.claim), e.claim, e, sweep);
    PollEngines(w, e);
    var i :| 0 <= i < |Poll(w, e).runs| && Poll(w, e).runs[i].status.QUEUED? && Poll(w, e).runs[i].sweep == Some(sweep);
    SettleWaits(PollUnsettled(w, e), sweep, i);
  }

  lemma {:induction false} OnlyTwoRows(w: World, hash: string)
    requires RowsAre(w, TwoRuns(hash), 1, QUEUED) && OthersIdle(w, TwoRuns(hash))
    ensures forall q :: 0 <= q < |w.runs| && w.runs[q].host == 0 && w.runs[q].status.QUEUED? ==> q == 1
  {
    assert w.runs[TwoRuns(hash).rows[0]] == Row(TwoRuns(hash), 0, SUCCEEDED);
    assert w.runs[TwoRuns(hash).rows[1]] == Row(TwoRuns(hash), 1, QUEUED);
  }

  lemma {:induction false} SettleWaits(w: World, sweep: nat, i: nat)
    requires i < |w.runs| && w.runs[i].status.QUEUED? && w.runs[i].sweep == Some(sweep)
    ensures Settle(w, sweep) == w
  {
    RunnerLaws.SummaryMeans(w.runs, sweep);
  }

  /** A kill after the only run of a sweep was recorded strands the sweep. */
  lemma {:induction false} KillStrandsASweep(hash: string, w: World)
    requires w == World([Row(Job(0, 7, 0, [hash], [0]), 0, QUEUED)], map[7 := SWEEP_QUEUED], map[], [])
    ensures CanAct(w, Died(Calm(hash, None)))
    ensures RunnerLaws.Stranded(Act(w, Died(Calm(hash, None))), 7)
    ensures Act(w, Died(Calm(hash, None))).runs[0].status.SUCCEEDED?
  {
    var j, e := Job(0, 7, 0, [hash], [0]), Calm(hash, None);
    assert RowsAre(w, j, 0, QUEUED) && OthersIdle(w, j);
    RecordedRun(w, j, 0, e);
    RowsAfterPoll(w, j, 0, e);
    RunnerLaws.LastRunStrandsIff(w, Died(e), 7);
  }
}
