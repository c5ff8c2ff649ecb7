/** The orchestrator's loop and its phases, updating rows, sweeps and engines in place; each
    is proved to be the transition that the laws about whole histories speak of. */
module Orchestrator {
  import opened Prelude
  import opened Runner
  import RunnerLaws

  /** The reconnect window. Only an unreachable agent is asked again, and never more than
      five times in all. */
  method ReachHost(attempts: seq<Attempt>) returns (failed: Option<FailureKind>, calls: nat)
    requires |attempts| >= RECONNECT_ATTEMPTS
    ensures failed == Reach(attempts, RECONNECT_ATTEMPTS)
    ensures 1 <= calls <= RECONNECT_ATTEMPTS
    ensures forall k :: 0 <= k < calls - 1 ==> attempts[k].Unreachable?
    ensures calls < RECONNECT_ATTEMPTS ==> !attempts[calls - 1].Unreachable?
    ensures failed.None? <==> attempts[calls - 1].Reached?
    ensures attempts[calls - 1].Unreachable? ==> failed == Some(AGENT_UNREACHABLE)
  {
    for attempt := 0 to RECONNECT_ATTEMPTS
      invariant forall k :: 0 <= k < attempt ==> attempts[k].Unreachable?
      invariant Reach(attempts, RECONNECT_ATTEMPTS) == Reach(attempts[attempt..], RECONNECT_ATTEMPTS - attempt)
    {
      calls := attempt + 1;
      match attempts[attempt] {
        case Reached => return None, calls;
        case Refused(kind) => return Some(if kind.Some? then kind.value else INTERNAL), calls;
        case AttemptUnexpected => return Some(INTERNAL), calls;
        case Unreachable =>
          assert attempts[attempt..][1..] == attempts[attempt + 1..];
          if attempt + 1 == RECONNECT_ATTEMPTS { break; }
      }
    }
    failed, calls := Some(AGENT_UNREACHABLE), RECONNECT_ATTEMPTS;
  }

  /** The grouped count of a sweep's runs by status. */
  method CountStatuses(runs: seq<Run>, sweep: nat) returns (counts: map<RunStatus, nat>)
    ensures forall st :: (if st in counts then counts[st] else 0) == StatusesOf(runs, sweep)[st]
  {
    counts := map[];
    for k := 0 to |runs|
      invariant forall st :: (if st in counts then counts[st] else 0) == StatusesOf(runs[..k], sweep)[st]
    {
      assert runs[..k + 1][..k] == runs[..k];
      if runs[k].sweep == Some(sweep) {
        var st := runs[k].status;
        counts := counts[st := (if st in counts then counts[st] else 0) + 1];
      }
    }
    assert runs[..|runs|] == runs;
  }

  class Orchestrator {
    var runs: seq<Run>
    var sweeps: map<nat, SweepStatus>
    var engines: map<nat, Engine>
    var log: seq<Event>

    function State(): World
      reads this
    {
      World(runs, sweeps, engines, log)
    }

    constructor (w: World)
      ensures State() == w
    {
      runs, sweeps, engines, log := w.runs, w.sweeps, w.engines, w.log;
    }

    /** `row` is what the claiming query returned. */
    method ClaimNextRun(row: Option<nat>) returns (claimed: Option<nat>)
      requires if row.Some? then IsHead(runs, row.value) else NoneQueued(runs, None)
      modifies this
      ensures claimed == row
      ensures State() == if row.Some? then Claim(old(State()), row.value) else old(State())
    {
      if row.None? { return None; }
      var i := row.value;
      runs := runs[i := runs[i].(status := STARTING)];
      if runs[i].sweep.Some? {
        MarkSweepRunning(runs[i].sweep.value);
      }
      log := log + [Claimed(i)];
      claimed := row;
    }

    method MarkSweepRunning(sweep: nat)
      modifies `sweeps
      ensures sweeps == if sweep in old(sweeps) && old(sweeps)[sweep].SWEEP_QUEUED?
                        then old(sweeps)[sweep := SWEEP_RUNNING] else old(sweeps)
    {
      if sweep !in sweeps || !sweeps[sweep].SWEEP_QUEUED? { return; }
      sweeps := sweeps[sweep := SWEEP_RUNNING];
    }

    method SettleSweep(sweep: nat)
      modifies `sweeps
      ensures State() == Settle(old(State()), sweep)
    {
      if sweep !in sweeps || Closed(sweeps[sweep]) { return; }
      var counts := CountStatuses(runs, sweep);
      var queued := if QUEUED in counts then counts[QUEUED] else 0;
      var starting := if STARTING in counts then counts[STARTING] else 0;
      var benchmarking := if BENCHMARKING in counts then counts[BENCHMARKING] else 0;
      if queued + starting + benchmarking > 0 { return; }
      var failed := if FAILED in counts then counts[FAILED] else 0;
      var cancelled := if CANCELLED in counts then counts[CANCELLED] else 0;
      var succeeded := if SUCCEEDED in counts then counts[SUCCEEDED] else 0;
      if failed > 0 {
        sweeps := sweeps[sweep := SWEEP_FAILED];
      } else if cancelled > 0 && succeeded == 0 {
        sweeps := sweeps[sweep := SWEEP_CANCELLED];
      } else {
        sweeps := sweeps[sweep := SWEEP_SUCCEEDED];
      }
    }

    /** Get an engine for the run's config, reusing the one the agent reports. What an answered
        start reports is passed on as it is. */
    method EnsureEngine(i: nat, e: Env) returns (report: Option<Engine>, kind: FailureKind)
      requires i < |runs|
      modifies `engines, `log
      ensures var r := EnsureServer(old(State()), i, e);
              && State() == r.w
              && (report.Some? <==> r.Proceeds?)
              && (report.Some? ==> report.value == r.report)
              && (report.None? ==> kind == r.kind)
    {
      var host, hash := runs[i].host, runs[i].hash;
      kind := INTERNAL;
      if !e.status.Answered? { return None, KindOf(e.status, ENGINE_LOAD_FAILED); }
      var current := if host in engines then engines[host] else Engine(STOPPED, None);
      if current.state.READY? && current.hash == Some(hash) {
        log := log + [Reused(i)];
        return Some(current), INTERNAL;
      }
      if Loaded(current) {
        log := log + [StopRequested(i)];
        if !e.stopOld.Answered? {
          engines := engines[host := e.stopOldLeaves];
          return None, KindOf(e.stopOld, ENGINE_LOAD_FAILED);
        }
        engines := engines[host := Engine(STOPPED, None)];
      }
      log := log + [StartRequested(i, hash)];
      engines := engines[host := e.startLeaves];
      if !e.start.Answered? {
        return None, KindOf(e.start, ENGINE_LOAD_FAILED);
      }
      report := Some(e.startLeaves);
    }

    /** Drive the run to the verdict it will be recorded with. */
    method DriveRun(i: nat, e: Env) returns (verdict: Verdict, serverStarted: bool)
      requires i < |runs| && |e.attempts| >= RECONNECT_ATTEMPTS
      modifies `runs, `engines, `log
      ensures Driven(State(), verdict, serverStarted) == Drive(old(State()), i, e)
    {
      if e.cancelSet { return Cancel, false; }
      if !e.budgetsRead { return Fail(INTERNAL), false; }
      var unreachable, _ := ReachHost(e.attempts);
      if unreachable.Some? { return Fail(unreachable.value), false; }

      serverStarted := true;
      var report, kind := EnsureEngine(i, e);
      if report.None? { return Fail(kind), true; }

      runs := runs[i := runs[i].(status := BENCHMARKING)];
      if !e.modelLine { return Fail(ENGINE_CONFIG_REJECTED), true; }
      log := log + [BenchIssued(i, report.value)];
      match e.bench {
        case BenchStoppedByCancel => verdict := Cancel;
        case BenchAgentError(k) => verdict := Fail(KindOf(AgentErrorRaised(k), BENCHMARK_FAILED));
        case BenchUnexpected => verdict := Fail(INTERNAL);
        case BenchDone =>
          match e.flatten {
            case Flattened => verdict := Success;
            case EmptyResult => verdict := Fail(BENCHMARK_FAILED);
            case SchemaMismatch => verdict := Fail(RESULT_SCHEMA_MISMATCH);
            case ResultUnexpected => verdict := Fail(INTERNAL);
          }
      }
    }

    method Record(i: nat, v: Verdict)
      requires i < |runs|
      modifies `runs, `log
      ensures State() == Finish(old(State()), i, v)
    {
      match v {
        case Success => runs := runs[i := runs[i].(status := SUCCEEDED)];
        case Cancel => runs := runs[i := runs[i].(status := CANCELLED)];
        case Fail(kind) => runs := runs[i := runs[i].(status := FAILED, kind := Some(kind))];
      }
      log := log + [Finished(i, runs[i].status)];
    }

    /** Leave the engine loaded for the next run, or stop it. Says whether an exception
        escapes. */
    method TearDownEngine(i: nat, e: Env, v: Verdict) returns (escaped: bool)
      requires i < |runs|
      modifies `engines, `log
      ensures State() == TearDown(old(State()), i, e, v)
      ensures escaped <==> e.finalStop.StopRaised? && !Keeps(old(State()), i, e, v)
    {
      var keep := false;
      if v.Success? && !e.lookAheadRaises {
        keep := e.next.Some? && e.next.value < |runs| && runs[e.next.value].hash == runs[i].hash;
      }
      escaped := false;
      if keep {
        log := log + [LeftLoaded(i)];
      } else {
        log := log + [StopRequested(i)];
        engines := engines[runs[i].host := if e.finalStop.Stopped? then Engine(STOPPED, None) else e.finalStopLeaves];
        escaped := e.finalStop.StopRaised?;
      }
    }

    /** What other processes do while this one waits. */
    method OthersAct(xs: seq<External>)
      modifies this
      ensures State() == InterfereAll(old(State()), xs)
    {
      ghost var w0 := State();
      for k := 0 to |xs|
        invariant InterfereAll(w0, xs) == InterfereAll(State(), xs[k..])
      {
        assert xs[k..][0] == xs[k] && xs[k..][1..] == xs[k + 1..];
        var w := Interfere(State(), xs[k]);
        runs, sweeps, engines, log := w.runs, w.sweeps, w.engines, w.log;
      }
      assert xs[|xs|..] == [];
    }

    /** Up to the point where a kill would lose only the settling. */
    method ExecuteUnsettled(i: nat, e: Env) returns (escaped: bool)
      requires i < |runs| && |e.attempts| >= RECONNECT_ATTEMPTS && e.refsPresent
      modifies this
      ensures State() == Unsettled(old(State()), i, e)
      ensures escaped <==> (var w := old(State());
                            var d := Drive(w, i, e);
                            d.serverStarted && e.finalStop.StopRaised? && !Keeps(Recorded(w, i, e), i, e, d.verdict))
    {
      var verdict, serverStarted := DriveRun(i, e);
      OthersAct(e.during);
      Record(i, verdict);
      escaped := false;
      if serverStarted {
        escaped := TearDownEngine(i, e, verdict);
      }
      OthersAct(e.late);
    }

    /** One claimed run to a terminal state, its engine torn down or kept, its sweep settled. */
    method ExecuteRun(i: nat, e: Env)
      requires i < |runs| && |e.attempts| >= RECONNECT_ATTEMPTS
      modifies this
      ensures State() == Execute(old(State()), i, e)
    {
      if !e.refsPresent {
        Record(i, Fail(INTERNAL));
        return;
      }
      var sweep := runs[i].sweep;
      var escaped := ExecuteUnsettled(i, e);
      if escaped { return; }
      if sweep.Some? && !e.settleRaises {
        SettleSweep(sweep.value);
      }
    }

    /** The same, killed before settling. */
    method ExecuteKilled(e: Env)
      requires Possible(State(), e)
      modifies this
      ensures State() == PollUnsettled(old(State()), e)
    {
      var claimed := ClaimNextRun(Some(e.claim));
      if e.refsPresent {
        var _ := ExecuteUnsettled(claimed.value, e);
      } else {
        Record(claimed.value, Fail(INTERNAL));
      }
    }

    /** Claim and execute one run. */
    method PollOnce(e: Env) returns (worked: bool)
      requires NoneQueued(runs, None) || Possible(State(), e)
      modifies this
      ensures worked <==> !NoneQueued(old(runs), None)
      ensures State() == if worked then Poll(old(State()), e) else old(State())
    {
      var idle := forall k :: 0 <= k < |runs| ==> !runs[k].status.QUEUED?;
      if idle { return false; }
      var claimed := ClaimNextRun(Some(e.claim));
      ExecuteRun(claimed.value, e);
      worked := true;
    }

    /** The service's loop, restarted after every kill, over any history of polls and of what
        other processes do: it ends with every run claimed in it recorded terminal exactly
        once. `stuck` are rows that earlier kills left claimed. */
    method Serve(acts: seq<Action>, ghost stuck: set<nat>)
      requires Inv(State(), stuck) && History(State(), acts)
      modifies this
      ensures State() == Play(old(State()), acts) && Inv(State(), stuck)
      ensures |old(runs)| <= |runs|
      ensures forall j :: 0 <= j < |old(runs)| && Terminal(old(runs)[j].status) ==> runs[j] == old(runs)[j]
    {
      ghost var w0 := State();
      for k := 0 to |acts|
        invariant History(State(), acts[k..]) && Play(w0, acts) == Play(State(), acts[k..])
      {
        assert acts[k..][0] == acts[k] && acts[k..][1..] == acts[k + 1..];
        match acts[k] {
          case Polled(e) =>
            var worked := PollOnce(e);
          case Died(e) =>
            ExecuteKilled(e);
          case Outside(x) =>
            assert InterfereAll(State(), [x]) == Interfere(State(), x) by { assert [x][1..] == []; }
            OthersAct([x]);
        }
      }
      assert acts[|acts|..] == [];
      ExecutedOnce(w0, acts, stuck);
      RunnerLaws.OutcomesAreFinal(w0, acts);
    }
  }
}
