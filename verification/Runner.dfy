/** The orchestrator's transitions over run and sweep rows and over agents whose calls may fail. */
module Runner {
  import opened Prelude

  datatype RunStatus = QUEUED | STARTING | BENCHMARKING | SUCCEEDED | FAILED | CANCELLED

  datatype SweepStatus =
    | SWEEP_DRAFT | SWEEP_QUEUED | SWEEP_RUNNING | SWEEP_SUCCEEDED | SWEEP_FAILED | SWEEP_CANCELLED

  datatype FailureKind =
    | AGENT_UNREACHABLE | AGENT_AUTH | PROTOCOL_MISMATCH
    | ENGINE_OUT_OF_MEMORY | ENGINE_CONFIG_REJECTED | ENGINE_LOAD_FAILED | ENGINE_NOT_READY | ENGINE_CRASHED
    | HOST_DISK_FULL | BENCHMARK_TIMEOUT | BENCHMARK_FAILED | RESULT_SCHEMA_MISMATCH | INTERNAL

  datatype Run = Run(host: nat, hash: string, sweep: Option<nat>, sweepSeq: Option<nat>, queuedAt: int,
                     status: RunStatus, kind: Option<FailureKind>)

  datatype ServerState = STOPPED | LOADING | READY | LOAD_FAILED | STOPPING

  /** What an agent reports about the engine it owns. */
  datatype Engine = Engine(state: ServerState, hash: Option<string>)

  /** What the orchestrator did, in order. `BenchIssued` carries the last report it had. */
  datatype Event =
    | Claimed(run: nat)
    | Reused(run: nat)
    | StartRequested(run: nat, hash: string)
    | StopRequested(run: nat)
    | BenchIssued(run: nat, report: Engine)
    | Finished(run: nat, status: RunStatus)
    | LeftLoaded(run: nat)

  datatype World = World(runs: seq<Run>, sweeps: map<nat, SweepStatus>, engines: map<nat, Engine>, log: seq<Event>)

  predicate Terminal(s: RunStatus) {
    s.SUCCEEDED? || s.FAILED? || s.CANCELLED?
  }

  predicate Closed(s: SweepStatus) {
    s.SWEEP_SUCCEEDED? || s.SWEEP_FAILED? || s.SWEEP_CANCELLED?
  }

  predicate Loaded(e: Engine) {
    e.state.READY? || e.state.LOADING?
  }

  function EngineAt(w: World, host: nat): Engine {
    if host in w.engines then w.engines[host] else Engine(STOPPED, None)
  }

  function SetEngine(w: World, host: nat, e: Engine): World {
    w.(engines := w.engines[host := e])
  }

  function Log(w: World, ev: Event): World {
    w.(log := w.log + [ev])
  }

  function SetStatus(w: World, i: nat, s: RunStatus): World
    requires i < |w.runs|
  {
    w.(runs := w.runs[i := w.runs[i].(status := s)])
  }

  // ---- The queue ------------------------------------------------------------------

  /** `queued_at`, then `sweep_seq` with nulls first. */
  predicate NotAfter(a: Run, b: Run) {
    || a.queuedAt < b.queuedAt
    || (a.queuedAt == b.queuedAt && (a.sweepSeq.None? || (b.sweepSeq.Some? && a.sweepSeq.value <= b.sweepSeq.value)))
  }

  /** A row the claiming query may return. Rows with equal keys may come in any order. */
  predicate IsHead(runs: seq<Run>, i: nat) {
    && i < |runs| && runs[i].status.QUEUED?
    && forall j :: 0 <= j < |runs| && runs[j].status.QUEUED? ==> NotAfter(runs[i], runs[j])
  }

  /** A row the look-ahead query may return for one host. */
  predicate IsHostHead(runs: seq<Run>, host: nat, i: nat) {
    && i < |runs| && runs[i].status.QUEUED? && runs[i].host == host
    && forall j :: 0 <= j < |runs| && runs[j].status.QUEUED? && runs[j].host == host ==> NotAfter(runs[i], runs[j])
  }

  predicate NoneQueued(runs: seq<Run>, host: Option<nat>) {
    forall j :: 0 <= j < |runs| && (host.None? || runs[j].host == host.value) ==> !runs[j].status.QUEUED?
  }

  // ---- What the outside world answers during one poll ------------------------------

  datatype Call = Answered | AgentErrorRaised(kind: Option<FailureKind>) | UnexpectedError

  datatype Attempt = Reached | Unreachable | Refused(kind: Option<FailureKind>) | AttemptUnexpected

  datatype Bench = BenchDone | BenchStoppedByCancel | BenchAgentError(kind: Option<FailureKind>) | BenchUnexpected

  datatype Flatten = Flattened | EmptyResult | SchemaMismatch | ResultUnexpected

  datatype FinalStop = Stopped | StopRefused | StopRaised

  /** What other processes do to the rows and the agents while a run executes. */
  datatype External = CancelSweep(sweep: nat) | Enqueue(added: Run) | AgentRestarted(host: nat)

  datatype Env = Env(
    claim: nat,                 // the row the claiming query returned
    refsPresent: bool,          // host, config and workload rows still exist
    cancelSet: bool,            // cancellation already requested
    budgetsRead: bool,
    attempts: seq<Attempt>,     // the reconnect window
    status: Call,
    stopOld: Call, stopOldLeaves: Engine,
    start: Call, startLeaves: Engine,   // an answer carries what the agent is left in
    modelLine: bool,            // the config has a `model:` entry
    bench: Bench,
    flatten: Flatten,
    during: seq<External>,      // before the look-ahead
    lookAheadRaises: bool, next: Option<nat>,
    finalStop: FinalStop, finalStopLeaves: Engine,
    late: seq<External>,        // between teardown and settling
    settleRaises: bool)

  const RECONNECT_ATTEMPTS: nat := 5

  // ---- Other processes ------------------------------------------------------------

  function CancelQueuedOf(runs: seq<Run>, sweep: nat): (r: seq<Run>)
    ensures |r| == |runs|
    ensures forall j :: 0 <= j < |runs| ==>
      r[j] == if runs[j].status.QUEUED? && runs[j].sweep == Some(sweep) then runs[j].(status := CANCELLED) else runs[j]
  {
    seq(|runs|, j requires 0 <= j < |runs| =>
      if runs[j].status.QUEUED? && runs[j].sweep == Some(sweep) then runs[j].(status := CANCELLED) else runs[j])
  }

  function Interfere(w: World, x: External): (w': World)
    ensures |w'.runs| >= |w.runs|
  {
    match x
    case CancelSweep(s) =>
      if s in w.sweeps && !Closed(w.sweeps[s])
      then w.(runs := CancelQueuedOf(w.runs, s), sweeps := w.sweeps[s := SWEEP_CANCELLED])
      else w
    case Enqueue(r) =>
      // A sweep's rows are written with it; a closed sweep gains no more.
      if r.sweep.Some? && r.sweep.value in w.sweeps && Closed(w.sweeps[r.sweep.value]) then w
      else w.(runs := w.runs + [r.(status := QUEUED, kind := None)])
    case AgentRestarted(h) => SetEngine(w, h, Engine(STOPPED, None))
  }

  function InterfereAll(w: World, xs: seq<External>): (w': World)
    ensures |w'.runs| >= |w.runs|
    decreases |xs|
  {
    if xs == [] then w else InterfereAll(Interfere(w, xs[0]), xs[1..])
  }

  // ---- One run ---------------------------------------------------------------------

  datatype Verdict = Success | Cancel | Fail(kind: FailureKind)

  function StatusOf(v: Verdict): RunStatus {
    match v
    case Success => SUCCEEDED
    case Cancel => CANCELLED
    case Fail(_) => FAILED
  }

  /** The classification of a failed call: what the agent said, or the phase's default. An
      error that is not the agent's is filed as internal. */
  function KindOf(c: Call, phase: FailureKind): FailureKind {
    match c
    case AgentErrorRaised(Some(k)) => k
    case AgentErrorRaised(None) => phase
    case _ => INTERNAL
  }

  /** Reaching the host: only an unreachable agent is retried, at most four times. */
  function Reach(attempts: seq<Attempt>, left: nat): Option<FailureKind>
    decreases left
  {
    if left == 0 || attempts == [] then Some(AGENT_UNREACHABLE)
    else match attempts[0]
      case Reached => None
      case Refused(Some(k)) => Some(k)
      case Refused(None) => Some(INTERNAL)
      case AttemptUnexpected => Some(INTERNAL)
      case Unreachable => Reach(attempts[1..], left - 1)
  }

  /** The report a run goes on with is the agent's word; nothing checks that it says ready. */
  datatype Ensured = Proceeds(w: World, report: Engine) | NoEngine(w: World, kind: FailureKind)

  function OwnReady(r: Run): Engine {
    Engine(READY, Some(r.hash))
  }

  function EnsureServer(w: World, i: nat, e: Env): (r: Ensured)
    requires i < |w.runs|
    ensures r.w.runs == w.runs && r.w.sweeps == w.sweeps
  {
    var r := w.runs[i];
    var current := EngineAt(w, r.host);
    if !e.status.Answered? then NoEngine(w, KindOf(e.status, ENGINE_LOAD_FAILED))
    else if current.state.READY? && current.hash == Some(r.hash) then Proceeds(Log(w, Reused(i)), current)
    else if Loaded(current) then
      var asked := Log(w, StopRequested(i));
      if e.stopOld.Answered? then StartServer(SetEngine(asked, r.host, Engine(STOPPED, None)), i, e)
      else NoEngine(SetEngine(asked, r.host, e.stopOldLeaves), KindOf(e.stopOld, ENGINE_LOAD_FAILED))
    else StartServer(w, i, e)
  }

  function StartServer(w: World, i: nat, e: Env): (r: Ensured)
    requires i < |w.runs|
    ensures r.w.runs == w.runs && r.w.sweeps == w.sweeps
  {
    var r := w.runs[i];
    var asked := SetEngine(Log(w, StartRequested(i, r.hash)), r.host, e.startLeaves);
    if e.start.Answered? then Proceeds(asked, e.startLeaves) else NoEngine(asked, KindOf(e.start, ENGINE_LOAD_FAILED))
  }

  datatype Driven = Driven(w: World, verdict: Verdict, serverStarted: bool)

  /** The body of the run, up to the verdict it will be recorded with. */
  function Drive(w: World, i: nat, e: Env): (d: Driven)
    requires i < |w.runs|
    ensures |d.w.runs| == |w.runs| && d.w.sweeps == w.sweeps
  {
    if e.cancelSet then Driven(w, Cancel, false)
    else if !e.budgetsRead then Driven(w, Fail(INTERNAL), false)
    else
      var reached := Reach(e.attempts, RECONNECT_ATTEMPTS);
      if reached.Some? then Driven(w, Fail(reached.value), false)
      else match EnsureServer(w, i, e)
        case NoEngine(w1, k) => Driven(w1, Fail(k), true)
        case Proceeds(w1, report) => Measure(w1, i, e, report)
  }

  function Measure(w: World, i: nat, e: Env, report: Engine): (d: Driven)
    requires i < |w.runs|
    ensures |d.w.runs| == |w.runs| && d.w.sweeps == w.sweeps
  {
    var w1 := SetStatus(w, i, BENCHMARKING);
    if !e.modelLine then Driven(w1, Fail(ENGINE_CONFIG_REJECTED), true)
    else
      Driven(Log(w1, BenchIssued(i, report)),
             match e.bench
             case BenchStoppedByCancel => Cancel
             case BenchAgentError(k) => Fail(KindOf(AgentErrorRaised(k), BENCHMARK_FAILED))
             case BenchUnexpected => Fail(INTERNAL)
             case BenchDone =>
               match e.flatten
               case Flattened => Success
               case EmptyResult => Fail(BENCHMARK_FAILED)
               case SchemaMismatch => Fail(RESULT_SCHEMA_MISMATCH)
               case ResultUnexpected => Fail(INTERNAL),
             true)
  }

  /** The one write that makes a run terminal. */
  function Finish(w: World, i: nat, v: Verdict): World
    requires i < |w.runs|
  {
    var r := w.runs[i].(status := StatusOf(v), kind := if v.Fail? then Some(v.kind) else w.runs[i].kind);
    Log(w.(runs := w.runs[i := r]), Finished(i, StatusOf(v)))
  }

  /** Whether the look-ahead decides to leave the engine loaded. */
  predicate Keeps(w: World, i: nat, e: Env, v: Verdict)
    requires i < |w.runs|
  {
    && v.Success? && !e.lookAheadRaises
    && e.next.Some? && e.next.value < |w.runs| && w.runs[e.next.value].hash == w.runs[i].hash
  }

  function TearDown(w: World, i: nat, e: Env, v: Verdict): World
    requires i < |w.runs|
  {
    if Keeps(w, i, e, v) then Log(w, LeftLoaded(i))
    else
      SetEngine(Log(w, StopRequested(i)), w.runs[i].host,
                if e.finalStop.Stopped? then Engine(STOPPED, None) else e.finalStopLeaves)
  }

  // ---- Closing a sweep --------------------------------------------------------------

  /** The statuses of a sweep's runs. */
  function StatusesOf(runs: seq<Run>, sweep: nat): multiset<RunStatus>
    decreases |runs|
  {
    if runs == [] then multiset{}
    else
      var last := runs[|runs| - 1];
      StatusesOf(runs[..|runs| - 1], sweep) + if last.sweep == Some(sweep) then multiset{last.status} else multiset{}
  }

  /** What a multiset of run statuses closes a sweep as, or nothing while a run can change. */
  function Summary(m: multiset<RunStatus>): Option<SweepStatus> {
    if m[QUEUED] + m[STARTING] + m[BENCHMARKING] > 0 then None
    else if m[FAILED] > 0 then Some(SWEEP_FAILED)
    else if m[CANCELLED] > 0 && m[SUCCEEDED] == 0 then Some(SWEEP_CANCELLED)
    else Some(SWEEP_SUCCEEDED)
  }

  function Settle(w: World, sweep: nat): World {
    if sweep !in w.sweeps || Closed(w.sweeps[sweep]) then w
    else
      var s := Summary(StatusesOf(w.runs, sweep));
      if s.None? then w else w.(sweeps := w.sweeps[sweep := s.value])
  }

  // ---- One poll -----------------------------------------------------------------------

  function Claim(w: World, i: nat): World
    requires i < |w.runs|
  {
    var w1 := SetStatus(w, i, STARTING);
    var s := w.runs[i].sweep;
    Log(if s.Some? && s.value in w1.sweeps && w1.sweeps[s.value].SWEEP_QUEUED?
        then w1.(sweeps := w1.sweeps[s.value := SWEEP_RUNNING]) else w1,
        Claimed(i))
  }

  /** The row when the look-ahead runs: the run is recorded, and others have had their say. */
  function Recorded(w: World, i: nat, e: Env): (w': World)
    requires i < |w.runs|
    ensures |w'.runs| >= |w.runs|
  {
    var d := Drive(w, i, e);
    Finish(InterfereAll(d.w, e.during), i, d.verdict)
  }

  /** Everything but settling: the run recorded, the engine torn down or left, and others
      having had their say again. */
  function Unsettled(w: World, i: nat, e: Env): (w': World)
    requires i < |w.runs|
    ensures |w'.runs| >= |w.runs|
  {
    var d, r := Drive(w, i, e), Recorded(w, i, e);
    InterfereAll(if d.serverStarted then TearDown(r, i, e, d.verdict) else r, e.late)
  }

  function Execute(w: World, i: nat, e: Env): World
    requires i < |w.runs|
  {
    if !e.refsPresent then Finish(w, i, Fail(INTERNAL))
    else if w.runs[i].sweep.Some? && Settles(w, i, e) then Settle(Unsettled(w, i, e), w.runs[i].sweep.value)
    else Unsettled(w, i, e)
  }

  /** Whether the sweep is looked at again after the run: not when the rows the run refers to
      are gone, nor when an exception escapes teardown or settling. */
  predicate Settles(w: World, i: nat, e: Env)
    requires i < |w.runs|
  {
    var d := Drive(w, i, e);
    && e.refsPresent && !e.settleRaises
    && (d.serverStarted && e.finalStop.StopRaised? ==> Keeps(Recorded(w, i, e), i, e, d.verdict))
  }

  function Poll(w: World, e: Env): World
    requires e.claim < |w.runs|
  {
    Execute(Claim(w, e.claim), e.claim, e)
  }

  /** The answers are ones the database could give. */
  predicate Possible(w: World, e: Env) {
    && IsHead(w.runs, e.claim) && |e.attempts| >= RECONNECT_ATTEMPTS
    && var r := Recorded(Claim(w, e.claim), e.claim, e);
       var host := w.runs[e.claim].host;
       if e.next.Some? then IsHostHead(r.runs, host, e.next.value) else NoneQueued(r.runs, Some(host))
  }

  // ---- Over whole histories: executed once, terminal once --------------------------

  /** `Died`: the orchestrator is killed after the run's outcome was committed and before its
      sweep was settled. A kill before teardown is one whose final stop changed nothing. Kills
      before the outcome is committed are in RunnerKills. */
  datatype Action = Polled(e: Env) | Died(e: Env) | Outside(x: External)

  predicate CanAct(w: World, a: Action) {
    a.Polled? || a.Died? ==> Possible(w, a.e)
  }

  function PollUnsettled(w: World, e: Env): World
    requires e.claim < |w.runs|
  {
    var c := Claim(w, e.claim);
    if e.refsPresent then Unsettled(c, e.claim, e) else Finish(c, e.claim, Fail(INTERNAL))
  }

  function Act(w: World, a: Action): World
    requires CanAct(w, a)
  {
    match a
    case Polled(e) => Poll(w, e)
    case Died(e) => PollUnsettled(w, e)
    case Outside(x) => Interfere(w, x)
  }

  /** A history the database and the host could produce. */
  predicate History(w: World, acts: seq<Action>)
    decreases |acts|
  {
    acts == [] || (CanAct(w, acts[0]) && History(Act(w, acts[0]), acts[1..]))
  }

  function Play(w: World, acts: seq<Action>): World
    requires History(w, acts)
    decreases |acts|
  {
    if acts == [] then w else Play(Act(w, acts[0]), acts[1..])
  }

  ghost function Claims(w: World, i: nat): nat {
    multiset(w.log)[Claimed(i)]
  }

  ghost function Finishes(w: World, i: nat): nat {
    multiset(w.log)[Finished(i, SUCCEEDED)] + multiset(w.log)[Finished(i, FAILED)] + multiset(w.log)[Finished(i, CANCELLED)]
  }

  /** A row and its history agree. `inFlight` are the runs claimed and not yet recorded: the one
      being executed, and those whose orchestrator was killed. */
  ghost predicate RowOk(w: World, i: nat, inFlight: set<nat>)
    requires i < |w.runs|
  {
    var r := w.runs[i];
    && (r.status.FAILED? ==> r.kind.Some?)
    && if i in inFlight
       then (r.status.STARTING? || r.status.BENCHMARKING?) && Claims(w, i) == 1 && Finishes(w, i) == 0
       else if Claims(w, i) == 0
       then (r.status.QUEUED? || r.status.CANCELLED?) && Finishes(w, i) == 0
       else Claims(w, i) == 1 && Finishes(w, i) == 1 && Terminal(r.status) && Finished(i, r.status) in w.log
  }

  /** A benchmark goes to an engine last reported ready with the run's own config, or to
      whatever the agent reported when it was asked to start that config. */
  predicate BenchOk(w: World, ev: Event)
    requires ev.BenchIssued?
  {
    ev.run < |w.runs|
    && (ev.report == OwnReady(w.runs[ev.run]) || StartRequested(ev.run, w.runs[ev.run].hash) in w.log)
  }

  ghost predicate LogOk(w: World) {
    && (forall i :: i >= |w.runs| ==> Claims(w, i) == 0 && Finishes(w, i) == 0)
    && (forall ev :: ev in w.log && ev.BenchIssued? ==> BenchOk(w, ev))
  }

  ghost predicate Inv(w: World, inFlight: set<nat>) {
    && LogOk(w)
    && (forall i :: i in inFlight ==> i < |w.runs|)
    && forall i :: 0 <= i < |w.runs| ==> RowOk(w, i, inFlight)
  }

  ghost predicate Fresh(w: World) {
    w.log == [] && forall r :: r in w.runs ==> r.status.QUEUED?
  }

  lemma {:induction false} FreshInv(w: World)
    requires Fresh(w)
    ensures Inv(w, {})
  {
    forall i | 0 <= i < |w.runs| ensures RowOk(w, i, {}) { assert w.runs[i] in w.runs; }
  }

  /** An event the log of `w` may gain. */
  predicate MayLog(w: World, ev: Event) {
    && (ev.Claimed? || ev.Finished? ==> ev.run < |w.runs|)
    && (ev.BenchIssued? ==> BenchOk(w, ev))
  }

  predicate RowsGrow(a: seq<Run>, b: seq<Run>) {
    |a| <= |b| && forall j :: 0 <= j < |a| ==> b[j].hash == a[j].hash && b[j].host == a[j].host && b[j].sweep == a[j].sweep
  }

  lemma {:induction false} LogCarries(w: World, w': World, evs: seq<Event>)
    requires LogOk(w) && RowsGrow(w.runs, w'.runs) && w'.log == w.log + evs
    requires |evs| <= 1 && forall ev :: ev in evs ==> MayLog(w', ev)
    ensures LogOk(w')
  {
    forall j: nat | j >= |w'.runs| ensures Claims(w', j) == 0 && Finishes(w', j) == 0 {
      assert Claims(w, j) == 0 && Finishes(w, j) == 0;
      if evs != [] { assert evs[0] in evs && evs == [evs[0]]; }
    }
  }

  lemma {:induction false} ClaimInv(w: World, i: nat, fl: set<nat>)
    requires Inv(w, fl) && i < |w.runs| && w.runs[i].status.QUEUED?
    ensures i !in fl && Inv(Claim(w, i), fl + {i})
  {
    var w' := Claim(w, i);
    assert RowOk(w, i, fl);
    LogCarries(w, w', [Claimed(i)]);
    forall j | 0 <= j < |w'.runs| ensures RowOk(w', j, fl + {i}) { assert RowOk(w, j, fl); }
  }

  /** Events that neither claim nor finish a run. */
  predicate Neutral(ev: Event) {
    !ev.Claimed? && !ev.Finished? && !ev.BenchIssued?
  }

  lemma {:induction false} NeutralEventInv(w: World, ev: Event, fl: set<nat>)
    requires Inv(w, fl) && Neutral(ev)
    ensures Inv(Log(w, ev), fl)
  {
    LogCarries(w, Log(w, ev), [ev]);
    forall j | 0 <= j < |w.runs| ensures RowOk(Log(w, ev), j, fl) { assert RowOk(w, j, fl); }
  }

  lemma {:induction false} EngineInv(w: World, h: nat, e: Engine, fl: set<nat>)
    requires Inv(w, fl)
    ensures Inv(SetEngine(w, h, e), fl)
  {
    LogCarries(w, SetEngine(w, h, e), []);
    forall j | 0 <= j < |w.runs| ensures RowOk(SetEngine(w, h, e), j, fl) { assert RowOk(w, j, fl); }
  }

  /** What a run may go on with. */
  predicate MayMeasure(w: World, i: nat, report: Engine)
    requires i < |w.runs|
  {
    report == OwnReady(w.runs[i]) || StartRequested(i, w.runs[i].hash) in w.log
  }

  lemma {:induction false} StartServerInv(w: World, i: nat, e: Env, fl: set<nat>)
    requires Inv(w, fl) && i < |w.runs|
    ensures Inv(StartServer(w, i, e).w, fl)
    ensures var r := StartServer(w, i, e); r.Proceeds? ==> MayMeasure(r.w, i, r.report)
  {
    var ev := StartRequested(i, w.runs[i].hash);
    NeutralEventInv(w, ev, fl);
    EngineInv(Log(w, ev), w.runs[i].host, e.startLeaves, fl);
  }

  lemma {:induction false} EnsureServerInv(w: World, i: nat, e: Env, fl: set<nat>)
    requires Inv(w, fl) && i < |w.runs|
    ensures Inv(EnsureServer(w, i, e).w, fl)
    ensures var r := EnsureServer(w, i, e); r.Proceeds? ==> MayMeasure(r.w, i, r.report)
  {
    var h := w.runs[i].host;
    NeutralEventInv(w, Reused(i), fl);
    NeutralEventInv(w, StopRequested(i), fl);
    var asked := Log(w, StopRequested(i));
    EngineInv(asked, h, Engine(STOPPED, None), fl);
    EngineInv(asked, h, e.stopOldLeaves, fl);
    StartServerInv(w, i, e, fl);
    StartServerInv(SetEngine(asked, h, Engine(STOPPED, None)), i, e, fl);
  }

  lemma {:induction false} MeasureInv(w: World, i: nat, e: Env, report: Engine, fl: set<nat>)
    requires Inv(w, fl) && i in fl && i < |w.runs| && MayMeasure(w, i, report)
    ensures Inv(Measure(w, i, e, report).w, fl)
  {
    var w1 := SetStatus(w, i, BENCHMARKING);
    assert RowOk(w, i, fl);
    LogCarries(w, w1, []);
    forall j | 0 <= j < |w1.runs| ensures RowOk(w1, j, fl) { assert RowOk(w, j, fl); }
    assert Inv(w1, fl);
    var w2 := Log(w1, BenchIssued(i, report));
    LogCarries(w1, w2, [BenchIssued(i, report)]);
    forall j | 0 <= j < |w2.runs| ensures RowOk(w2, j, fl) { assert RowOk(w1, j, fl); }
  }

  lemma {:induction false} DriveInv(w: World, i: nat, e: Env, fl: set<nat>)
    requires Inv(w, fl) && i in fl && i < |w.runs|
    ensures Inv(Drive(w, i, e).w, fl)
  {
    EnsureServerInv(w, i, e, fl);
    var r := EnsureServer(w, i, e);
    if r.Proceeds? { MeasureInv(r.w, i, e, r.report, fl); }
  }

  lemma {:induction false} InterfereInv(w: World, x: External, fl: set<nat>)
    requires Inv(w, fl)
    ensures Inv(Interfere(w, x), fl)
  {
    var w' := Interfere(w, x);
    LogCarries(w, w', []);
    forall j | 0 <= j < |w'.runs| ensures RowOk(w', j, fl) {
      if j < |w.runs| { assert RowOk(w, j, fl); }
    }
  }

  lemma {:induction false} InterfereAllInv(w: World, xs: seq<External>, fl: set<nat>)
    requires Inv(w, fl)
    ensures Inv(InterfereAll(w, xs), fl)
    decreases |xs|
  {
    if xs != [] {
      InterfereInv(w, xs[0], fl);
      InterfereAllInv(Interfere(w, xs[0]), xs[1..], fl);
    }
  }

  lemma {:induction false} FinishInv(w: World, i: nat, v: Verdict, fl: set<nat>)
    requires Inv(w, fl) && i in fl && i < |w.runs|
    ensures Inv(Finish(w, i, v), fl - {i})
  {
    var w' := Finish(w, i, v);
    assert RowOk(w, i, fl);
    LogCarries(w, w', [Finished(i, StatusOf(v))]);
    forall j | 0 <= j < |w'.runs| ensures RowOk(w', j, fl - {i}) {
      assert RowOk(w, j, fl);
      if j !in fl && Claims(w, j) > 0 { assert Finished(j, w.runs[j].status) in w.log; }
    }
  }

  lemma {:induction false} TearDownInv(w: World, i: nat, e: Env, v: Verdict, fl: set<nat>)
    requires Inv(w, fl) && i < |w.runs|
    ensures Inv(TearDown(w, i, e, v), fl)
  {
    NeutralEventInv(w, LeftLoaded(i), fl);
    NeutralEventInv(w, StopRequested(i), fl);
    EngineInv(Log(w, StopRequested(i)), w.runs[i].host,
              if e.finalStop.Stopped? then Engine(STOPPED, None) else e.finalStopLeaves, fl);
  }

  lemma {:induction false} SettleInv(w: World, s: nat, fl: set<nat>)
    requires Inv(w, fl)
    ensures Inv(Settle(w, s), fl)
  {
    LogCarries(w, Settle(w, s), []);
    forall j | 0 <= j < |w.runs| ensures RowOk(Settle(w, s), j, fl) { assert RowOk(w, j, fl); }
  }

  lemma {:induction false} UnrecordedInv(w: World, i: nat, e: Env, fl: set<nat>)
    requires Inv(w, fl) && i in fl && i < |w.runs|
    ensures Inv(InterfereAll(Drive(w, i, e).w, e.during), fl)
  {
    DriveInv(w, i, e, fl);
    InterfereAllInv(Drive(w, i, e).w, e.during, fl);
  }

  lemma {:induction false} UnsettledInv(w: World, i: nat, e: Env, fl: set<nat>)
    requires Inv(w, fl) && i in fl && i < |w.runs|
    ensures Inv(Unsettled(w, i, e), fl - {i})
  {
    var d, r := Drive(w, i, e), Recorded(w, i, e);
    UnrecordedInv(w, i, e, fl);
    FinishInv(InterfereAll(d.w, e.during), i, d.verdict, fl);
    TearDownInv(r, i, e, d.verdict, fl - {i});
    InterfereAllInv(if d.serverStarted then TearDown(r, i, e, d.verdict) else r, e.late, fl - {i});
  }

  lemma {:induction false} ExecuteInv(w: World, i: nat, e: Env, fl: set<nat>)
    requires Inv(w, fl) && i in fl && i < |w.runs|
    ensures Inv(Execute(w, i, e), fl - {i})
  {
    if !e.refsPresent {
      FinishInv(w, i, Fail(INTERNAL), fl);
    } else {
      UnsettledInv(w, i, e, fl);
      if w.runs[i].sweep.Some? { SettleInv(Unsettled(w, i, e), w.runs[i].sweep.value, fl - {i}); }
    }
  }

  lemma {:induction false} ActInv(w: World, a: Action, fl: set<nat>)
    requires Inv(w, fl) && CanAct(w, a)
    ensures Inv(Act(w, a), fl)
  {
    match a
    case Polled(e) =>
      ClaimInv(w, e.claim, fl);
      ExecuteInv(Claim(w, e.claim), e.claim, e, fl + {e.claim});
      assert fl + {e.claim} - {e.claim} == fl;
    case Died(e) =>
      ClaimInv(w, e.claim, fl);
      if e.refsPresent {
        UnsettledInv(Claim(w, e.claim), e.claim, e, fl + {e.claim});
      } else {
        FinishInv(Claim(w, e.claim), e.claim, Fail(INTERNAL), fl + {e.claim});
      }
      assert fl + {e.claim} - {e.claim} == fl;
    case Outside(x) => InterfereInv(w, x, fl);
  }

  /** Main result: through any history of polls, kills after a run is recorded, agent failures,
      cancellations and new work, a run is claimed at most once; once claimed it has been
      recorded terminal exactly once, with the status it still has, unless it was claimed and
      unrecorded before; a failed run has a kind; and no benchmark was issued except for a run
      whose own config was reported ready or asked to be started. */
  lemma {:induction false} ExecutedOnce(w: World, acts: seq<Action>, fl: set<nat>)
    requires Inv(w, fl) && History(w, acts)
    ensures Inv(Play(w, acts), fl)
    decreases |acts|
  {
    if acts != [] {
      ActInv(w, acts[0], fl);
      ExecutedOnce(Act(w, acts[0]), acts[1..], fl);
    }
  }
}
