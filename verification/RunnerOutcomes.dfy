/** How each run ends: the outcome of a poll over the answers given during it. */
module RunnerOutcomes {
  import opened Prelude
  import opened Runner
  import opened RunnerLaws
  import opened RunnerTrace

  // ---- Reaching the host ---------------------------------------------------------------

  /** Attempt `n` is the first of the `tries` allowed that does not find the agent away. */
  predicate SettledBy(attempts: seq<Attempt>, tries: nat, n: nat) {
    && n < tries && n < |attempts| && !attempts[n].Unreachable?
    && forall m :: 0 <= m < n ==> attempts[m].Unreachable?
  }

  predicate AllUnreachable(attempts: seq<Attempt>, tries: nat) {
    forall m :: 0 <= m < tries && m < |attempts| ==> attempts[m].Unreachable?
  }

  ghost predicate HostAnswers(attempts: seq<Attempt>, tries: nat) {
    exists n: nat :: SettledBy(attempts, tries, n) && attempts[n].Reached?
  }

  /** What a failing attempt is filed as; an agent that gives no kind is filed as internal. */
  predicate AttemptFailsAs(a: Attempt, k: FailureKind) {
    a == Refused(Some(k)) || ((a == Refused(None) || a.AttemptUnexpected?) && k.INTERNAL?)
  }

  ghost predicate HostFailsAs(attempts: seq<Attempt>, tries: nat, k: FailureKind) {
    || (AllUnreachable(attempts, tries) && k.AGENT_UNREACHABLE?)
    || exists n: nat :: SettledBy(attempts, tries, n) && AttemptFailsAs(attempts[n], k)
  }

  /** Reaching the host goes by the first answer that is not an absence. */
  lemma {:induction false} ReachIs(attempts: seq<Attempt>, tries: nat)
    ensures Reach(attempts, tries).None? <==> HostAnswers(attempts, tries)
    ensures forall k :: Reach(attempts, tries) == Some(k) <==> HostFailsAs(attempts, tries, k)
    decreases tries
  {
    if tries > 0 && attempts != [] {
      if attempts[0].Unreachable? {
        ReachIs(attempts[1..], tries - 1);
        AwayFirst(attempts, tries);
      } else {
        assert SettledBy(attempts, tries, 0);
        assert forall n: nat :: SettledBy(attempts, tries, n) ==> n == 0;
      }
    }
  }

  lemma {:induction false} AwayFirst(attempts: seq<Attempt>, tries: nat)
    requires tries > 0 && attempts != [] && attempts[0].Unreachable?
    ensures HostAnswers(attempts, tries) <==> HostAnswers(attempts[1..], tries - 1)
    ensures forall k :: HostFailsAs(attempts, tries, k) <==> HostFailsAs(attempts[1..], tries - 1, k)
  {
    var rest, fewer := attempts[1..], tries - 1;
    assert forall m :: 0 < m < |attempts| ==> attempts[m] == rest[m - 1];
    forall n: nat | SettledBy(rest, fewer, n) ensures SettledBy(attempts, tries, n + 1) && attempts[n + 1] == rest[n] {
      assert forall m :: 0 < m < n + 1 ==> attempts[m] == rest[m - 1];
    }
    forall n: nat | SettledBy(attempts, tries, n) ensures n > 0 && SettledBy(rest, fewer, n - 1) && attempts[n] == rest[n - 1] {
      assert forall m :: 0 <= m < n - 1 ==> rest[m] == attempts[m + 1];
    }
    assert AllUnreachable(attempts, tries) <==> AllUnreachable(rest, tries - 1) by {
      assert forall m :: 0 <= m < |rest| ==> rest[m] == attempts[m + 1];
    }
  }

  // ---- What ends a run -------------------------------------------------------------------

  /** The run gets as far as asking the agent for its engine: five attempts are allowed. */
  ghost predicate AsksForEngine(e: Env) {
    e.refsPresent && !e.cancelSet && e.budgetsRead && HostAnswers(e.attempts, 5)
  }

  /** The agent holds the run's own config, ready. */
  predicate HasOwnEngine(w: World, e: Env)
    requires e.claim < |w.runs|
  {
    var r := w.runs[e.claim];
    r.host in w.engines && w.engines[r.host] == Engine(READY, Some(r.hash))
  }

  /** The agent holds another engine, which has to be stopped first. */
  predicate HasOtherEngine(w: World, e: Env)
    requires e.claim < |w.runs|
  {
    var r := w.runs[e.claim];
    && !HasOwnEngine(w, e) && r.host in w.engines
    && (w.engines[r.host].state.READY? || w.engines[r.host].state.LOADING?)
  }

  /** The calls made for the engine, up to one that failed. */
  predicate EngineCall(w: World, e: Env, c: Call)
    requires e.claim < |w.runs|
  {
    || c == e.status
    || (e.status.Answered? && HasOtherEngine(w, e) && c == e.stopOld)
    || (e.status.Answered? && !HasOwnEngine(w, e) && (HasOtherEngine(w, e) ==> e.stopOld.Answered?) && c == e.start)
  }

  /** The benchmark is issued: every call for the engine was answered, and a model is named. */
  ghost predicate Benchmarks(w: World, e: Env)
    requires e.claim < |w.runs|
  {
    AsksForEngine(e) && (forall c :: EngineCall(w, e, c) ==> c.Answered?) && e.modelLine
  }

  ghost predicate Succeeds(w: World, e: Env)
    requires e.claim < |w.runs|
  {
    Benchmarks(w, e) && e.bench.BenchDone? && e.flatten.Flattened?
  }

  ghost predicate EndsCancelled(w: World, e: Env)
    requires e.claim < |w.runs|
  {
    (e.refsPresent && e.cancelSet) || (Benchmarks(w, e) && e.bench.BenchStoppedByCancel?)
  }

  /** What the agent said, or what the phase stands for when it said nothing. */
  predicate CallFailsAs(c: Call, phase: FailureKind, k: FailureKind) {
    c == AgentErrorRaised(Some(k)) || (c == AgentErrorRaised(None) && k == phase) || (c.UnexpectedError? && k.INTERNAL?)
  }

  predicate BenchFailsAs(b: Bench, k: FailureKind) {
    || b == BenchAgentError(Some(k))
    || (b == BenchAgentError(None) && k.BENCHMARK_FAILED?)
    || (b.BenchUnexpected? && k.INTERNAL?)
  }

  predicate ResultFailsAs(f: Flatten, k: FailureKind) {
    || (f.EmptyResult? && k.BENCHMARK_FAILED?)
    || (f.SchemaMismatch? && k.RESULT_SCHEMA_MISMATCH?)
    || (f.ResultUnexpected? && k.INTERNAL?)
  }

  /** What keeps the run from asking for an engine: rows that are gone, budgets that cannot be
      read, a host that does not answer. */
  ghost predicate FailsEarlyAs(e: Env, k: FailureKind) {
    || (!e.refsPresent && k.INTERNAL?)
    || (e.refsPresent && !e.cancelSet && !e.budgetsRead && k.INTERNAL?)
    || (e.refsPresent && !e.cancelSet && e.budgetsRead && HostFailsAs(e.attempts, 5, k))
  }

  /** Every cause a run fails for, and the kind it is recorded with. */
  ghost predicate FailsAs(w: World, e: Env, k: FailureKind)
    requires e.claim < |w.runs|
  {
    || FailsEarlyAs(e, k)
    || (AsksForEngine(e) && exists c :: EngineCall(w, e, c) && CallFailsAs(c, ENGINE_LOAD_FAILED, k))
    || (AsksForEngine(e) && (forall c :: EngineCall(w, e, c) ==> c.Answered?) && !e.modelLine && k.ENGINE_CONFIG_REJECTED?)
    || (Benchmarks(w, e) && BenchFailsAs(e.bench, k))
    || (Benchmarks(w, e) && e.bench.BenchDone? && ResultFailsAs(e.flatten, k))
  }

  /** The claimed row as a poll leaves it. */
  ghost predicate EndsAs(w: World, e: Env, row: Run)
    requires e.claim < |w.runs|
  {
    && (row.status.SUCCEEDED? <==> Succeeds(w, e))
    && (row.status.CANCELLED? <==> EndsCancelled(w, e))
    && (row.status.FAILED? <==> !Succeeds(w, e) && !EndsCancelled(w, e))
    && (forall k :: FailsAs(w, e, k) <==> row.status.FAILED? && row.kind == Some(k))
    && row == w.runs[e.claim].(status := row.status, kind := if row.status.FAILED? then row.kind else w.runs[e.claim].kind)
  }

  lemma {:induction false} EngineOutcomeIs(w: World, e: Env)
    requires e.claim < |w.runs|
    ensures var r := EnsureServer(Claim(w, e.claim), e.claim, e);
            && (r.Proceeds? <==> forall c :: EngineCall(w, e, c) ==> c.Answered?)
            && forall k :: r == NoEngine(r.w, k) <==> exists c :: EngineCall(w, e, c) && CallFailsAs(c, ENGINE_LOAD_FAILED, k)
  {
    var r := EnsureServer(Claim(w, e.claim), e.claim, e);
    assert EngineCall(w, e, e.status);
    if e.status.Answered? && HasOtherEngine(w, e) { assert EngineCall(w, e, e.stopOld); }
    if e.status.Answered? && !HasOwnEngine(w, e) && (HasOtherEngine(w, e) ==> e.stopOld.Answered?) { assert EngineCall(w, e, e.start); }
  }

  /** The verdict a run is recorded with. */
  ghost predicate VerdictFits(w: World, e: Env, v: Verdict)
    requires e.claim < |w.runs|
  {
    && (v.Success? <==> Succeeds(w, e))
    && (v.Cancel? <==> EndsCancelled(w, e))
    && (forall k :: v == Fail(k) <==> FailsAs(w, e, k))
  }

  lemma {:induction false} VerdictIs(w: World, e: Env)
    requires e.claim < |w.runs|
    ensures VerdictFits(w, e, VerdictOf(w, e))
  {
    ReachIs(e.attempts, 5);
    EngineOutcomeIs(w, e);
  }

  lemma {:induction false} DrivenRowIs(w: World, e: Env)
    requires e.claim < |w.runs|
    ensures var c, i := Claim(w, e.claim), e.claim;
            var r := InterfereAll(Drive(c, i, e).w, e.during).runs[i];
            r == w.runs[i].(status := r.status) && !r.status.QUEUED?
  {
    InterferenceFollows(Drive(Claim(w, e.claim), e.claim, e).w, e.during);
  }

  lemma {:induction false} LateRowsKeep(c: World, i: nat, e: Env)
    requires i < |c.runs|
    ensures Follows(Recorded(c, i, e), Unsettled(c, i, e), -1)
  {
    var d, r := Drive(c, i, e), Recorded(c, i, e);
    InterferenceFollows(if d.serverStarted then TearDown(r, i, e, d.verdict) else r, e.late);
  }

  lemma {:induction false} FinishedRowIs(w: World, e: Env)
    requires e.claim < |w.runs| && e.refsPresent
    ensures var i := e.claim;
            var u := Unsettled(Claim(w, i), i, e);
            && i < |u.runs|
            && u.runs[i].status == StatusOf(VerdictOf(w, e))
            && u.runs[i] == w.runs[i].(status := u.runs[i].status,
                                       kind := if VerdictOf(w, e).Fail? then Some(VerdictOf(w, e).kind) else w.runs[i].kind)
  {
    DrivenRowIs(w, e);
    LateRowsKeep(Claim(w, e.claim), e.claim, e);
  }

  /** Main result: the status and the kind a run ends with, over the answers given during the
      poll, whether or not the orchestrator lives to settle the sweep: it succeeds exactly when
      everything on its way did, is cancelled exactly when a cancellation was found before it
      began or during its benchmark, and fails in every other case with the kind its cause
      stands for. */
  lemma {:induction false} OutcomeIs(w: World, e: Env)
    requires e.claim < |w.runs|
    ensures e.claim < |Poll(w, e).runs| && EndsAs(w, e, Poll(w, e).runs[e.claim])
    ensures e.claim < |PollUnsettled(w, e).runs| && EndsAs(w, e, PollUnsettled(w, e).runs[e.claim])
  {
    VerdictIs(w, e);
    if e.refsPresent { FinishedRowIs(w, e); }
  }

  // ---- What becomes of the engine ----------------------------------------------------------

  /** The run succeeded and the next row of its host, looked up afterwards, has its hash. */
  ghost predicate LeavesEngine(w: World, e: Env, after: World)
    requires e.claim < |w.runs|
  {
    && Succeeds(w, e) && !e.lookAheadRaises
    && e.next.Some? && e.next.value < |after.runs| && after.runs[e.next.value].hash == w.runs[e.claim].hash
  }

  lemma {:induction false} HashesStay(w: World, e: Env, n: nat)
    requires e.claim < |w.runs| && e.refsPresent && n < |Recorded(Claim(w, e.claim), e.claim, e).runs|
    ensures n < |Poll(w, e).runs| && Poll(w, e).runs[n].hash == Recorded(Claim(w, e.claim), e.claim, e).runs[n].hash
  {
    LateRowsKeep(Claim(w, e.claim), e.claim, e);
  }

  lemma {:induction false} AskingIs(e: Env)
    ensures GetsToTheEngine(e) <==> AsksForEngine(e)
  {
    ReachIs(e.attempts, 5);
  }

  lemma {:induction false} LeavesEngineIff(w: World, e: Env)
    requires Possible(w, e)
    ensures KeepsLoaded(w, e) <==> LeavesEngine(w, e, Poll(w, e))
  {
    VerdictIs(w, e);
    AskingIs(e);
    if e.refsPresent {
      RecordedFollows(Claim(w, e.claim), e.claim, e);
      if e.next.Some? { HashesStay(w, e, e.next.value); }
    }
  }

  /** The last thing a poll does: a run that asked for an engine leaves it loaded exactly when
      it succeeded and the next run of its host has the same hash, and has it stopped otherwise;
      one that never asked only records its outcome. */
  lemma {:induction false} LastEventIs(w: World, e: Env)
    requires Possible(w, e)
    ensures var log := Poll(w, e).log;
            && |log| > |w.log|
            && log[|log| - 1] ==
                 if !AsksForEngine(e) then Finished(e.claim, Poll(w, e).runs[e.claim].status)
                 else if LeavesEngine(w, e, Poll(w, e)) then LeftLoaded(e.claim)
                 else StopRequested(e.claim)
  {
    PollLogIs(w, e);
    LeavesEngineIff(w, e);
    AskingIs(e);
    OutcomeIs(w, e);
    if e.refsPresent { FinishedRowIs(w, e); }
    assert FinalEvents(w, e) != [];
  }

  /** The engine of a run's host after its poll, when the final stop is issued: gone if the
      agent confirms it, otherwise what the agent is left with. */
  lemma {:induction false} StoppedEngineIs(w: World, e: Env)
    requires Possible(w, e) && AsksForEngine(e) && !LeavesEngine(w, e, Poll(w, e))
    ensures EngineAt(Poll(w, e), w.runs[e.claim].host) ==
              if e.finalStop.Stopped? || AgentRestarted(w.runs[e.claim].host) in e.late then Engine(STOPPED, None) else e.finalStopLeaves
  {
    var c, i, h := Claim(w, e.claim), e.claim, w.runs[e.claim].host;
    var d, r := Drive(c, i, e), Recorded(c, i, e);
    LeavesEngineIff(w, e);
    AskingIs(e);
    DriveLogIs(w, e);
    RecordedFollows(c, i, e);
    InterferenceEngineIs(TearDown(r, i, e, d.verdict), e.late, h);
  }

  /** The engine once the calls for it are over, before anything is torn down: what the last
      call that reached the agent left. */
  lemma {:induction false} CalledEngineIs(w: World, e: Env)
    requires e.claim < |w.runs| && e.refsPresent
    ensures var h := w.runs[e.claim].host;
            EngineAt(Drive(Claim(w, e.claim), e.claim, e).w, h) ==
              if !AsksForEngine(e) || !e.status.Answered? || HasOwnEngine(w, e) then EngineAt(w, h)
              else if HasOtherEngine(w, e) && !e.stopOld.Answered? then e.stopOldLeaves
              else e.startLeaves
  {
    AskingIs(e);
  }

  /** When the run's sweep is looked at again. */
  lemma {:induction false} SettlesIff(w: World, e: Env)
    requires Possible(w, e)
    ensures Settles(Claim(w, e.claim), e.claim, e) <==>
      e.refsPresent && !e.settleRaises && (AsksForEngine(e) && e.finalStop.StopRaised? ==> LeavesEngine(w, e, Poll(w, e)))
  {
    LeavesEngineIff(w, e);
    AskingIs(e);
    if e.refsPresent { DriveLogIs(w, e); }
  }

  // ---- The order of the queue ---------------------------------------------------------------

  /** Queued before, or at the same time and placed before in a sweep; runs outside sweeps
      come first. */
  predicate Earlier(a: Run, b: Run) {
    || a.queuedAt < b.queuedAt
    || (a.queuedAt == b.queuedAt && b.sweepSeq.Some? && (a.sweepSeq.None? || a.sweepSeq.value < b.sweepSeq.value))
  }

  /** The log only grew, and run `i` was not claimed in what it gained. */
  ghost predicate Unclaimed(before: seq<Event>, log: seq<Event>, i: nat) {
    Extends(before, log) && forall n :: |before| <= n < |log| ==> log[n] != Claimed(i)
  }

  lemma {:induction false} StillUnclaimed(a: seq<Event>, b: seq<Event>, c: seq<Event>, i: nat)
    requires Unclaimed(a, b, i) && Unclaimed(b, c, i)
    ensures Unclaimed(a, c, i)
  {
    assert c[..|a|] == c[..|b|][..|a|];
    forall n | |a| <= n < |c| ensures c[n] != Claimed(i) {
      if n < |b| { assert c[n] == c[..|b|][n]; }
    }
  }

  lemma {:induction false} OtherClaim(w: World, a: Action, i: nat)
    requires CanAct(w, a) && (!a.Outside? ==> a.e.claim != i)
    ensures Unclaimed(w.log, Act(w, a).log, i)
  {
    ActLogIs(w, a);
    if !a.Outside? { EventsSpeakOfTheClaim(w, a.e); }
  }

  lemma {:induction false} LeavingTheQueueIsForGood(w: World, acts: seq<Action>, i: nat)
    requires History(w, acts) && i < |w.runs| && !w.runs[i].status.QUEUED?
    ensures i < |Play(w, acts).runs| && !Play(w, acts).runs[i].status.QUEUED?
    ensures Unclaimed(w.log, Play(w, acts).log, i)
    decreases |acts|
  {
    if acts != [] {
      var w1 := Act(w, acts[0]);
      ActFollows(w, acts[0]);
      OtherClaim(w, acts[0], i);
      LeavingTheQueueIsForGood(w1, acts[1..], i);
      StillUnclaimed(w.log, w1.log, Play(w1, acts[1..]).log, i);
    }
  }

  /** Run `j` is claimed only after `i` has left the queue, and `i` is not claimed after it. */
  ghost predicate InOrder(w: World, w': World, i: nat, j: nat) {
    && i < |w'.runs| && |w.log| <= |w'.log|
    && forall n :: |w.log| <= n < |w'.log| && w'.log[n] == Claimed(j) ==>
         !w'.runs[i].status.QUEUED? && forall m :: n <= m < |w'.log| ==> w'.log[m] != Claimed(i)
  }

  lemma {:induction false} OrderFromLater(w: World, w1: World, w': World, i: nat, j: nat)
    requires Unclaimed(w.log, w1.log, j) && Extends(w1.log, w'.log) && InOrder(w1, w', i, j)
    ensures InOrder(w, w', i, j)
  {
    forall n | |w.log| <= n < |w1.log| ensures w'.log[n] != Claimed(j) {
      assert w'.log[..|w1.log|][n] == w1.log[n];
    }
  }

  lemma {:induction false} HeadIsEarliest(w: World, a: Action, i: nat, j: nat)
    requires CanAct(w, a) && i < |w.runs| && j < |w.runs|
    requires w.runs[i].status.QUEUED? && Earlier(w.runs[i], w.runs[j])
    ensures !a.Outside? ==> a.e.claim != j
  {
  }

  predicate Extends(before: seq<Event>, log: seq<Event>) {
    |before| <= |log| && log[..|before|] == before
  }

  lemma {:induction false} ExtendsTwice(a: seq<Event>, b: seq<Event>, c: seq<Event>)
    requires Extends(a, b) && Extends(b, c)
    ensures Extends(a, c)
  {
    assert c[..|a|] == c[..|b|][..|a|];
  }

  lemma {:induction false} ActExtends(w: World, a: Action)
    requires CanAct(w, a)
    ensures Extends(w.log, Act(w, a).log)
  {
    ActLogIs(w, a);
  }

  lemma {:induction false} LogOnlyGrows(w: World, acts: seq<Action>)
    requires History(w, acts)
    ensures Extends(w.log, Play(w, acts).log)
    decreases |acts|
  {
    if acts != [] {
      ActExtends(w, acts[0]);
      LogOnlyGrows(Act(w, acts[0]), acts[1..]);
      ExtendsTwice(w.log, Act(w, acts[0]).log, Play(w, acts).log);
    }
  }

  /** Main result: of two queued runs the earlier goes first, whatever else happens: over any
      history, by the time the later one is claimed the earlier has left the queue, and it is
      not claimed after it. */
  lemma {:induction false} EarlierGoesFirst(w: World, acts: seq<Action>, i: nat, j: nat)
    requires History(w, acts) && i < |w.runs| && j < |w.runs|
    requires w.runs[i].status.QUEUED? && w.runs[j].status.QUEUED? && Earlier(w.runs[i], w.runs[j])
    ensures InOrder(w, Play(w, acts), i, j)
    decreases |acts|
  {
    if acts != [] {
      var w1 := Act(w, acts[0]);
      HeadIsEarliest(w, acts[0], i, j);
      OtherClaim(w, acts[0], j);
      RowsStay(w, acts[0], i);
      RowsStay(w, acts[0], j);
      ActFollows(w, acts[0]);
      LogOnlyGrows(w1, acts[1..]);
      if !w1.runs[i].status.QUEUED? {
        LeavingTheQueueIsForGood(w1, acts[1..], i);
      } else if !w1.runs[j].status.QUEUED? {
        LeavingTheQueueIsForGood(w1, acts[1..], j);
        OutcomesAreFinal(w1, acts[1..]);
      } else {
        EarlierGoesFirst(w1, acts[1..], i, j);
      }
      OrderFromLater(w, w1, Play(w1, acts[1..]), i, j);
    }
  }
}
