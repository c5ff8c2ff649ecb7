/** What each poll does in order, and what becomes of a kept engine. */
module RunnerTrace {
  import opened Prelude
  import opened Runner
  import opened RunnerLaws

  // ---- The log of a poll ----------------------------------------------------------------

  /** Nothing keeps the run from asking the agent for its engine. */
  predicate GetsToTheEngine(e: Env) {
    e.refsPresent && !e.cancelSet && e.budgetsRead && Reach(e.attempts, RECONNECT_ATTEMPTS).None?
  }

  predicate Reuses(w: World, e: Env)
    requires e.claim < |w.runs|
  {
    GetsToTheEngine(e) && e.status.Answered? && EngineAt(w, w.runs[e.claim].host) == OwnReady(w.runs[e.claim])
  }

  predicate StopsOld(w: World, e: Env)
    requires e.claim < |w.runs|
  {
    GetsToTheEngine(e) && e.status.Answered? && !Reuses(w, e) && Loaded(EngineAt(w, w.runs[e.claim].host))
  }

  /** A start of the run's config is requested. */
  predicate Starts(w: World, e: Env)
    requires e.claim < |w.runs|
  {
    GetsToTheEngine(e) && e.status.Answered? && !Reuses(w, e) && (StopsOld(w, e) ==> e.stopOld.Answered?)
  }

  /** The report the benchmark is issued on, if one is issued. */
  function BenchReport(w: World, e: Env): Option<Engine>
    requires e.claim < |w.runs|
  {
    if !e.modelLine then None
    else if Reuses(w, e) then Some(OwnReady(w.runs[e.claim]))
    else if Starts(w, e) && e.start.Answered? then Some(e.startLeaves)
    else None
  }

  function EngineEvents(w: World, e: Env): seq<Event>
    requires e.claim < |w.runs|
  {
    (if StopsOld(w, e) then [StopRequested(e.claim)] else [])
    + (if Starts(w, e) then [StartRequested(e.claim, w.runs[e.claim].hash)] else [])
    + (if Reuses(w, e) then [Reused(e.claim)] else [])
    + (if BenchReport(w, e).Some? then [BenchIssued(e.claim, BenchReport(w, e).value)] else [])
  }

  function VerdictOf(w: World, e: Env): Verdict
    requires e.claim < |w.runs|
  {
    if e.refsPresent then Drive(Claim(w, e.claim), e.claim, e).verdict else Fail(INTERNAL)
  }

  predicate KeepsLoaded(w: World, e: Env)
    requires e.claim < |w.runs|
  {
    GetsToTheEngine(e) && Keeps(Recorded(Claim(w, e.claim), e.claim, e), e.claim, e, VerdictOf(w, e))
  }

  function FinalEvents(w: World, e: Env): seq<Event>
    requires e.claim < |w.runs|
  {
    [Finished(e.claim, StatusOf(VerdictOf(w, e)))]
    + if !GetsToTheEngine(e) then [] else if KeepsLoaded(w, e) then [LeftLoaded(e.claim)] else [StopRequested(e.claim)]
  }

  function PollEvents(w: World, e: Env): seq<Event>
    requires e.claim < |w.runs|
  {
    [Claimed(e.claim)] + EngineEvents(w, e) + FinalEvents(w, e)
  }

  lemma {:induction false} InterferenceKeepsLog(w: World, xs: seq<External>)
    ensures InterfereAll(w, xs).log == w.log
    decreases |xs|
  {
    if xs != [] { InterferenceKeepsLog(Interfere(w, xs[0]), xs[1..]); }
  }

  lemma {:induction false} EnsureLogIs(w: World, e: Env)
    requires e.claim < |w.runs| && GetsToTheEngine(e)
    ensures var i := e.claim;
            var r := EnsureServer(Claim(w, i), i, e);
            && (r.Proceeds? <==> Reuses(w, e) || (Starts(w, e) && e.start.Answered?))
            && (r.Proceeds? && e.modelLine ==> Some(r.report) == BenchReport(w, e))
            && r.w.log == Claim(w, i).log
                 + ((if StopsOld(w, e) then [StopRequested(i)] else [])
                    + (if Starts(w, e) then [StartRequested(i, w.runs[i].hash)] else [])
                    + (if Reuses(w, e) then [Reused(i)] else []))
  {
    var c := Claim(w, e.claim);
    assert EngineAt(c, c.runs[e.claim].host) == EngineAt(w, w.runs[e.claim].host);
  }

  lemma {:induction false} DriveLogIs(w: World, e: Env)
    requires e.claim < |w.runs| && e.refsPresent
    ensures var c, d := Claim(w, e.claim), Drive(Claim(w, e.claim), e.claim, e);
            d.w.log == c.log + EngineEvents(w, e) && d.serverStarted == GetsToTheEngine(e)
  {
    if GetsToTheEngine(e) { EnsureLogIs(w, e); }
  }

  lemma {:induction false} Regroup(a: seq<Event>, b: seq<Event>, c: seq<Event>, d: seq<Event>)
    ensures a + b + c + d == a + (b + c + d)
  {
  }

  lemma {:induction false} UnsettledLogIs(w: World, e: Env)
    requires e.claim < |w.runs| && e.refsPresent
    ensures Unsettled(Claim(w, e.claim), e.claim, e).log == w.log + PollEvents(w, e)
  {
    var i := e.claim;
    var c := Claim(w, i);
    var d, r := Drive(c, i, e), Recorded(c, i, e);
    DriveLogIs(w, e);
    InterferenceKeepsLog(d.w, e.during);
    var t := if d.serverStarted then TearDown(r, i, e, d.verdict) else r;
    InterferenceKeepsLog(t, e.late);
    assert t.log == d.w.log + FinalEvents(w, e);
    Regroup(w.log, [Claimed(i)], EngineEvents(w, e), FinalEvents(w, e));
  }

  /** The log of a poll, whether or not the orchestrator lives to settle the sweep. */
  lemma {:induction false} PollLogIs(w: World, e: Env)
    requires e.claim < |w.runs|
    ensures Poll(w, e).log == w.log + PollEvents(w, e) && PollUnsettled(w, e).log == w.log + PollEvents(w, e)
  {
    if e.refsPresent {
      UnsettledLogIs(w, e);
    } else {
      Regroup(w.log, [Claimed(e.claim)], EngineEvents(w, e), FinalEvents(w, e));
      assert EngineEvents(w, e) == [];
    }
  }

  lemma {:induction false} EventsSpeakOfTheClaim(w: World, e: Env)
    requires e.claim < |w.runs|
    ensures forall n :: 0 <= n < |PollEvents(w, e)| ==> PollEvents(w, e)[n].run == e.claim
  {
  }

  lemma {:induction false} ActLogIs(w: World, a: Action)
    requires CanAct(w, a)
    ensures Act(w, a).log == w.log + if a.Outside? then [] else PollEvents(w, a.e)
  {
    if !a.Outside? { PollLogIs(w, a.e); }
  }

  // ---- What benchmarks are issued on ------------------------------------------------------

  ghost predicate GoodBenches(w: World) {
    forall ev :: ev in w.log && ev.BenchIssued? ==> ev.run < |w.runs| && ev.report == OwnReady(w.runs[ev.run])
  }

  /** If this act starts an engine, is answered, and issues the benchmark, the answer said the
      run's own config is ready. */
  predicate StartsReady(w: World, a: Action)
    requires CanAct(w, a)
  {
    !a.Outside? && Starts(w, a.e) && a.e.start.Answered? && a.e.modelLine ==> a.e.startLeaves == OwnReady(w.runs[a.e.claim])
  }

  predicate AllStartReady(w: World, acts: seq<Action>)
    requires History(w, acts)
    decreases |acts|
  {
    acts != [] ==> StartsReady(w, acts[0]) && AllStartReady(Act(w, acts[0]), acts[1..])
  }

  /** Exactly which benchmark one poll issues: on a reused engine the report is the run's own
      config ready, after a start it is whatever the agent answered. */
  lemma {:induction false} BenchIsIssuedIff(w: World, e: Env, report: Engine)
    requires e.claim < |w.runs|
    ensures BenchIssued(e.claim, report) in PollEvents(w, e) <==>
      && e.modelLine
      && (|| (Reuses(w, e) && report == OwnReady(w.runs[e.claim]))
          || (Starts(w, e) && e.start.Answered? && report == e.startLeaves))
  {
    if BenchReport(w, e).Some? {
      assert BenchIssued(e.claim, BenchReport(w, e).value) in EngineEvents(w, e);
    }
  }

  lemma {:induction false} ClaimedRowKeeps(w: World, e: Env)
    requires IsHead(w.runs, e.claim)
    ensures var i := e.claim;
            && i < |Poll(w, e).runs| && i < |PollUnsettled(w, e).runs|
            && SameRow(w.runs[i], Poll(w, e).runs[i]) && SameRow(w.runs[i], PollUnsettled(w, e).runs[i])
  {
    if e.refsPresent { UnsettledKeepsTheRow(Claim(w, e.claim), e.claim, e); }
  }

  lemma {:induction false} UnsettledKeepsTheRow(c: World, i: nat, e: Env)
    requires i < |c.runs| && c.runs[i].status.STARTING?
    ensures i < |Unsettled(c, i, e).runs| && SameRow(c.runs[i], Unsettled(c, i, e).runs[i])
  {
    var d, r := Drive(c, i, e), Recorded(c, i, e);
    RecordedFollows(c, i, e);
    InterferenceFollows(if d.serverStarted then TearDown(r, i, e, d.verdict) else r, e.late);
  }

  /** Rows differ in status and kind only. */
  predicate SameRow(a: Run, b: Run) {
    b == a.(status := b.status, kind := b.kind)
  }

  lemma {:induction false} RowsStay(w: World, a: Action, j: nat)
    requires CanAct(w, a) && j < |w.runs|
    ensures j < |Act(w, a).runs| && SameRow(w.runs[j], Act(w, a).runs[j])
  {
    ActFollows(w, a);
    if !a.Outside? { ClaimedRowKeeps(w, a.e); }
  }

  lemma {:induction false} OldBenches(w: World, a: Action, fl: set<nat>)
    requires CanAct(w, a) && Inv(w, fl)
    ensures forall ev :: ev in w.log && ev.BenchIssued? ==>
      ev.run < |w.runs| && ev.run < |Act(w, a).runs| && OwnReady(Act(w, a).runs[ev.run]) == OwnReady(w.runs[ev.run])
  {
    forall ev | ev in w.log && ev.BenchIssued?
      ensures ev.run < |w.runs| && ev.run < |Act(w, a).runs| && OwnReady(Act(w, a).runs[ev.run]) == OwnReady(w.runs[ev.run])
    {
      assert BenchOk(w, ev);
      RowsStay(w, a, ev.run);
    }
  }

  lemma {:induction false} NewBench(w: World, e: Env, ev: Event)
    requires e.claim < |w.runs| && ev.BenchIssued?
    ensures ev in PollEvents(w, e) <==> ev.run == e.claim && BenchReport(w, e) == Some(ev.report)
  {
    if ev.run == e.claim { BenchIsIssuedIff(w, e, ev.report); }
  }

  lemma {:induction false} ActBenches(w: World, a: Action, fl: set<nat>)
    requires CanAct(w, a) && Inv(w, fl)
    ensures GoodBenches(Act(w, a)) <==> GoodBenches(w) && StartsReady(w, a)
  {
    var w' := Act(w, a);
    OldBenches(w, a, fl);
    if !a.Outside? {
      var i, report := a.e.claim, BenchReport(w, a.e);
      PollLogIs(w, a.e);
      RowsStay(w, a, i);
      forall ev: Event | ev.BenchIssued? ensures ev in PollEvents(w, a.e) <==> ev.run == i && report == Some(ev.report) {
        NewBench(w, a.e, ev);
      }
      assert forall ev: Event :: ev in w'.log <==> ev in w.log || ev in PollEvents(w, a.e);
      if report.Some? { assert BenchIssued(i, report.value) in w'.log; }
    }
  }

  /** Main result: over any history, every benchmark was issued on an engine reported ready
      with the run's own config if and only if every answered start that led to one said so.
      Nothing in the orchestrator looks. */
  lemma {:induction false} BenchesAreReadyIff(w: World, acts: seq<Action>, fl: set<nat>)
    requires Inv(w, fl) && GoodBenches(w) && History(w, acts)
    ensures GoodBenches(Play(w, acts)) <==> AllStartReady(w, acts)
    decreases |acts|
  {
    if acts != [] {
      ActBenches(w, acts[0], fl);
      ActInv(w, acts[0], fl);
      if StartsReady(w, acts[0]) {
        BenchesAreReadyIff(Act(w, acts[0]), acts[1..], fl);
      } else {
        BadStaysBad(Act(w, acts[0]), acts[1..], fl);
      }
    }
  }

  lemma {:induction false} BadStaysBad(w: World, acts: seq<Action>, fl: set<nat>)
    requires Inv(w, fl) && !GoodBenches(w) && History(w, acts)
    ensures !GoodBenches(Play(w, acts))
    decreases |acts|
  {
    if acts != [] {
      ActBenches(w, acts[0], fl);
      ActInv(w, acts[0], fl);
      BadStaysBad(Act(w, acts[0]), acts[1..], fl);
    }
  }

  // ---- What becomes of a kept engine ---------------------------------------------------------

  const Off: Engine := Engine(STOPPED, None)

  predicate Restarts(xs: seq<External>, host: nat) {
    AgentRestarted(host) in xs
  }

  lemma {:induction false} InterferenceEngineIs(w: World, xs: seq<External>, host: nat)
    ensures EngineAt(InterfereAll(w, xs), host) == if Restarts(xs, host) then Off else EngineAt(w, host)
    decreases |xs|
  {
    if xs != [] {
      InterferenceEngineIs(Interfere(w, xs[0]), xs[1..], host);
      assert Restarts(xs, host) <==> xs[0] == AgentRestarted(host) || Restarts(xs[1..], host);
    }
  }

  predicate RestartedBy(a: Action, host: nat) {
    match a
    case Polled(e) => e.refsPresent && (Restarts(e.during, host) || Restarts(e.late, host))
    case Died(e) => e.refsPresent && (Restarts(e.during, host) || Restarts(e.late, host))
    case Outside(x) => x == AgentRestarted(host)
  }

  lemma {:induction false} DriveOtherHost(w: World, i: nat, e: Env, host: nat)
    requires i < |w.runs| && w.runs[i].host != host
    ensures EngineAt(Drive(w, i, e).w, host) == EngineAt(w, host) && Drive(w, i, e).w.runs[i].host == w.runs[i].host
  {
  }

  lemma {:induction false} UnsettledOtherHost(w: World, i: nat, e: Env, host: nat)
    requires i < |w.runs| && w.runs[i].host != host && !w.runs[i].status.QUEUED?
    ensures EngineAt(Unsettled(w, i, e), host) == if Restarts(e.during, host) || Restarts(e.late, host) then Off else EngineAt(w, host)
  {
    var d, r := Drive(w, i, e), Recorded(w, i, e);
    DriveOtherHost(w, i, e, host);
    RecordedFollows(w, i, e);
    InterferenceEngineIs(d.w, e.during, host);
    var t := if d.serverStarted then TearDown(r, i, e, d.verdict) else r;
    assert EngineAt(t, host) == EngineAt(r, host);
    InterferenceEngineIs(t, e.late, host);
  }

  lemma {:induction false} OtherHostEngine(w: World, a: Action, host: nat)
    requires CanAct(w, a) && (!a.Outside? ==> w.runs[a.e.claim].host != host)
    ensures EngineAt(Act(w, a), host) == if RestartedBy(a, host) then Off else EngineAt(w, host)
  {
    if !a.Outside? {
      PollEngines(w, a.e);
      if a.e.refsPresent { UnsettledOtherHost(Claim(w, a.e.claim), a.e.claim, a.e, host); }
    }
  }

  lemma {:induction false} PollEngines(w: World, e: Env)
    requires e.claim < |w.runs|
    ensures Poll(w, e).engines == PollUnsettled(w, e).engines && Poll(w, e).runs == PollUnsettled(w, e).runs
    ensures !e.refsPresent ==> Poll(w, e).engines == w.engines
  {
  }

  /** The engine a successful run was measured on. */
  lemma {:induction false} KeptEngineIs(w: World, e: Env)
    requires Possible(w, e) && KeepsLoaded(w, e)
    ensures BenchReport(w, e).Some?
    ensures var h := w.runs[e.claim].host;
            && EngineAt(Poll(w, e), h) == EngineAt(PollUnsettled(w, e), h)
            && EngineAt(Poll(w, e), h) == if RestartedBy(Polled(e), h) then Off else BenchReport(w, e).value
  {
    var c, i, h := Claim(w, e.claim), e.claim, w.runs[e.claim].host;
    var d, r := Drive(c, i, e), Recorded(c, i, e);
    DrivenEngineIs(w, e);
    InterferenceEngineIs(d.w, e.during, h);
    InterferenceEngineIs(TearDown(r, i, e, d.verdict), e.late, h);
  }

  lemma {:induction false} DrivenEngineIs(w: World, e: Env)
    requires e.claim < |w.runs| && e.refsPresent && VerdictOf(w, e).Success?
    ensures var d := Drive(Claim(w, e.claim), e.claim, e);
            && BenchReport(w, e).Some? && d.serverStarted
            && EngineAt(d.w, w.runs[e.claim].host) == BenchReport(w, e).value
  {
    var c := Claim(w, e.claim);
    assert EngineAt(c, c.runs[e.claim].host) == EngineAt(w, w.runs[e.claim].host);
  }

  predicate AllElsewhere(w: World, acts: seq<Action>, host: nat)
    requires History(w, acts)
    decreases |acts|
  {
    acts != [] ==>
      (!acts[0].Outside? ==> w.runs[acts[0].e.claim].host != host) && AllElsewhere(Act(w, acts[0]), acts[1..], host)
  }

  predicate AnyRestart(acts: seq<Action>, host: nat)
    decreases |acts|
  {
    acts != [] && (RestartedBy(acts[0], host) || AnyRestart(acts[1..], host))
  }

  /** While no run of the host is polled, its engine changes only by a restart of its agent. */
  lemma {:induction false} QuietHostKeepsItsEngine(w: World, acts: seq<Action>, host: nat)
    requires History(w, acts) && AllElsewhere(w, acts, host)
    ensures EngineAt(Play(w, acts), host) == if AnyRestart(acts, host) then Off else EngineAt(w, host)
    decreases |acts|
  {
    if acts != [] {
      OtherHostEngine(w, acts[0], host);
      QuietHostKeepsItsEngine(Act(w, acts[0]), acts[1..], host);
    }
  }

  lemma {:induction false} ReusedIff(w: World, e: Env)
    requires e.claim < |w.runs|
    ensures Reused(e.claim) in PollEvents(w, e) <==> Reuses(w, e)
  {
    if Reuses(w, e) { assert Reused(e.claim) in EngineEvents(w, e); }
  }

  lemma {:induction false} LeftLoadedIff(w: World, e: Env)
    requires e.claim < |w.runs|
    ensures LeftLoaded(e.claim) in PollEvents(w, e) <==> KeepsLoaded(w, e)
  {
    if KeepsLoaded(w, e) { assert LeftLoaded(e.claim) in FinalEvents(w, e); }
  }

  /** Main result: an engine left loaded is reused by the next run polled on its host if and
      only if that run gets as far as asking the agent, the agent answers and was not
      restarted meanwhile, and the report the engine was kept on is ready with that run's
      hash. */
  lemma {:induction false} KeptEngineIsReusedIff(w: World, e0: Env, acts: seq<Action>, e: Env)
    requires Possible(w, e0) && LeftLoaded(e0.claim) in PollEvents(w, e0)
    requires History(Poll(w, e0), acts) && AllElsewhere(Poll(w, e0), acts, w.runs[e0.claim].host)
    requires var w2 := Play(Poll(w, e0), acts); Possible(w2, e) && w2.runs[e.claim].host == w.runs[e0.claim].host
    ensures var w2, h := Play(Poll(w, e0), acts), w.runs[e0.claim].host;
            Reused(e.claim) in PollEvents(w2, e) <==>
              && GetsToTheEngine(e) && e.status.Answered?
              && !RestartedBy(Polled(e0), h) && !AnyRestart(acts, h)
              && BenchReport(w, e0) == Some(OwnReady(w2.runs[e.claim]))
    ensures StartsReady(w, Polled(e0)) ==> BenchReport(w, e0) == Some(OwnReady(w.runs[e0.claim]))
  {
    var h := w.runs[e0.claim].host;
    LeftLoadedIff(w, e0);
    KeptEngineIs(w, e0);
    QuietHostKeepsItsEngine(Poll(w, e0), acts, h);
    ReusedIff(Play(Poll(w, e0), acts), e);
  }

  /** Otherwise a loaded engine is asked to stop by that run exactly when the run gets as far
      as the engine; when it does not, the engine stays as it was. */
  lemma {:induction false} UnusedEngineStopsIff(w: World, e: Env)
    requires Possible(w, e) && Loaded(EngineAt(w, w.runs[e.claim].host)) && !Reuses(w, e)
    ensures StopRequested(e.claim) in PollEvents(w, e) <==> GetsToTheEngine(e)
    ensures var h := w.runs[e.claim].host;
            !GetsToTheEngine(e) ==> EngineAt(Poll(w, e), h) == if RestartedBy(Polled(e), h) then Off else EngineAt(w, h)
  {
    if StopsOld(w, e) { assert StopRequested(e.claim) in EngineEvents(w, e); }
    if !GetsToTheEngine(e) {
      UntouchedEngineIs(w, e);
    } else if !StopsOld(w, e) {
      assert !KeepsLoaded(w, e);
      assert StopRequested(e.claim) in FinalEvents(w, e);
    }
  }

  lemma {:induction false} UntouchedEngineIs(w: World, e: Env)
    requires Possible(w, e) && !GetsToTheEngine(e)
    ensures var h := w.runs[e.claim].host;
            EngineAt(Poll(w, e), h) == if RestartedBy(Polled(e), h) then Off else EngineAt(w, h)
  {
    var c, i, h := Claim(w, e.claim), e.claim, w.runs[e.claim].host;
    if e.refsPresent {
      InterferenceEngineIs(Drive(c, i, e).w, e.during, h);
      InterferenceEngineIs(Recorded(c, i, e), e.late, h);
    }
  }

  predicate AddsTo(xs: seq<External>, host: nat) {
    exists k :: 0 <= k < |xs| && xs[k].Enqueue? && xs[k].added.host == host
  }

  predicate AddedBy(a: Action, host: nat) {
    match a
    case Polled(e) => AddsTo(e.during, host) || AddsTo(e.late, host)
    case Died(e) => AddsTo(e.during, host) || AddsTo(e.late, host)
    case Outside(x) => x.Enqueue? && x.added.host == host
  }

  lemma {:induction false} InterferenceKeepsIdle(w: World, xs: seq<External>, host: nat)
    requires NoneQueued(w.runs, Some(host)) && !AddsTo(xs, host)
    ensures NoneQueued(InterfereAll(w, xs).runs, Some(host))
    decreases |xs|
  {
    if xs != [] {
      assert forall k :: 0 <= k < |xs[1..]| ==> xs[1..][k] == xs[k + 1];
      InterferenceKeepsIdle(Interfere(w, xs[0]), xs[1..], host);
    }
  }

  lemma {:induction false} UnsettledKeepsIdle(w: World, i: nat, e: Env, host: nat)
    requires i < |w.runs| && NoneQueued(w.runs, Some(host)) && !AddsTo(e.during, host) && !AddsTo(e.late, host)
    ensures NoneQueued(Unsettled(w, i, e).runs, Some(host))
  {
    var d, r := Drive(w, i, e), Recorded(w, i, e);
    assert NoneQueued(d.w.runs, Some(host));
    InterferenceKeepsIdle(d.w, e.during, host);
    assert NoneQueued(r.runs, Some(host));
    InterferenceKeepsIdle(if d.serverStarted then TearDown(r, i, e, d.verdict) else r, e.late, host);
  }

  lemma {:induction false} ActKeepsIdle(w: World, a: Action, host: nat)
    requires CanAct(w, a) && NoneQueued(w.runs, Some(host)) && !AddedBy(a, host)
    ensures NoneQueued(Act(w, a).runs, Some(host))
    ensures !a.Outside? ==> w.runs[a.e.claim].host != host
  {
    if !a.Outside? {
      PollEngines(w, a.e);
      if a.e.refsPresent { UnsettledKeepsIdle(Claim(w, a.e.claim), a.e.claim, a.e, host); }
    }
  }

  /** Main result: once nothing is queued for a host, and until work is added for it or its
      agent restarts, its engine stays as it is, loaded or not. */
  lemma {:induction false} IdleHostKeepsItsEngine(w: World, acts: seq<Action>, host: nat)
    requires History(w, acts) && NoneQueued(w.runs, Some(host))
    requires forall n :: 0 <= n < |acts| ==> !AddedBy(acts[n], host)
    ensures NoneQueued(Play(w, acts).runs, Some(host)) && AllElsewhere(w, acts, host)
    ensures EngineAt(Play(w, acts), host) == if AnyRestart(acts, host) then Off else EngineAt(w, host)
    decreases |acts|
  {
    if acts != [] {
      ActKeepsIdle(w, acts[0], host);
      assert forall n :: 0 <= n < |acts[1..]| ==> acts[1..][n] == acts[n + 1];
      IdleHostKeepsItsEngine(Act(w, acts[0]), acts[1..], host);
    }
    QuietHostKeepsItsEngine(w, acts, host);
  }

  /** So cancelling the sweep that an engine was kept for leaves the host idle with the engine
      still loaded, whenever only that sweep had work queued there. */
  lemma {:induction false} CancellingTheNextRunKeepsTheEngine(w: World, e0: Env, sweep: nat)
    requires Possible(w, e0) && LeftLoaded(e0.claim) in PollEvents(w, e0) && !RestartedBy(Polled(e0), w.runs[e0.claim].host)
    requires var w1 := Poll(w, e0);
             && sweep in w1.sweeps && !Closed(w1.sweeps[sweep])
             && forall j :: 0 <= j < |w1.runs| && w1.runs[j].host == w.runs[e0.claim].host && w1.runs[j].status.QUEUED? ==>
                  w1.runs[j].sweep == Some(sweep)
    ensures var w2, h := Interfere(Poll(w, e0), CancelSweep(sweep)), w.runs[e0.claim].host;
            NoneQueued(w2.runs, Some(h)) && Some(EngineAt(w2, h)) == BenchReport(w, e0)
  {
    LeftLoadedIff(w, e0);
    KeptEngineIs(w, e0);
  }
}
