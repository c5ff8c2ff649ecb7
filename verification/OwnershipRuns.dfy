/** Runs of the ownership protocol that show each exception to its laws is real. Each is played
    step by step from a fresh host, with the state between any two steps written out. */
module OwnershipRuns {
  import opened Prelude
  import opened Ownership
  import opened OwnershipLaws

  lemma {:induction false} Then(steps: seq<Step>, w: World, s: Step, w': World)
    requires Play(steps) == w && After(w, s) == w'
    ensures Play(steps + [s]) == w'
  {
    PlayStep(steps, s);
  }

  /** A start time on both clocks, far apart. */
  function At(seconds: real): Birth {
    Birth(1000000.0 + seconds, 100.0 * seconds)
  }

  const OnEpoch: Option<Clock> := Some(Epoch)

  // ---- An engine comes up ---------------------------------------------------------------

  const Booted: seq<Step> := [] + [Boot] + [ReapDecide(OnEpoch)]
  const Spawned: seq<Step> := Booted + [BeginStart(true)] + [Spawn(7, At(100.0))]
  const EngineUp: seq<Step> := Spawned + [Record(OnEpoch)]

  function Engine(status: Liveness, fate: Fate): Process {
    Process(7, At(100.0), true, 1, status, fate)
  }

  const AfterBoot: World := World([], None, Serving, 1, STOPPED, None, Free, [], [])
  const AfterSpawn: World :=
    World([Engine(Live, Untracked)], None, Serving, 1, STARTING, None, HeldByStart(0), [StartCall(Some(0), Point.Spawned)], [])

  /** The server once its engine is recorded, and one start is the only call. */
  function Up(status: Liveness, state: ServerState, lock: Lock, at: Point, sent: seq<Signal>): World {
    World([Engine(status, Recorded)], Some(Owned(7, At(100.0).epoch, 0, OnEpoch)), Serving, 1, state, Some(0), lock, [StartCall(Some(0), at)], sent)
  }

  /** The same server after a stop ran to its end. */
  function Stopped(at: Point): World {
    World([Engine(Gone, Recorded)], None, Serving, 1, STOPPED, None, Free, [StartCall(Some(0), at)], [Signal(Stopper, 0)])
  }

  lemma {:induction false} HostIsBooted()
    ensures Play(Booted) == AfterBoot
  {
    Then([], Fresh, Boot, World([], None, Booting, 1, STOPPED, None, Free, [], []));
    Then([] + [Boot], World([], None, Booting, 1, STOPPED, None, Free, [], []), ReapDecide(OnEpoch), AfterBoot);
  }

  lemma {:induction false} EngineIsSpawned()
    ensures Play(Spawned) == AfterSpawn
  {
    HostIsBooted();
    var launching := World([], None, Serving, 1, STARTING, None, HeldByStart(0), [StartCall(None, Launching)], []);
    Then(Booted, AfterBoot, BeginStart(true), launching);
    Then(Booted + [BeginStart(true)], launching, Spawn(7, At(100.0)), AfterSpawn);
  }

  lemma {:induction false} EngineIsUp()
    ensures Play(EngineUp) == Up(Live, STARTING, Free, Looking, [])
  {
    EngineIsSpawned();
    Then(Spawned, AfterSpawn, Record(OnEpoch), Up(Live, STARTING, Free, Looking, []));
  }

  const Stopping: Lock := HeldByStop(0, false, None)
  const Killed: Lock := HeldByStop(0, true, None)

  lemma {:induction false} StopIsBegun(state: ServerState, at: Point)
    ensures After(Up(Live, state, Free, at, []), BeginStop(None)) == Up(Live, STOPPING, Stopping, at, [])
  {
  }

  lemma {:induction false} ChildIsKilled(at: Point)
    ensures After(Up(Live, STOPPING, Stopping, at, []), Terminate) == Up(Gone, STOPPING, Killed, at, [Signal(Stopper, 0)])
  {
  }

  lemma {:induction false} StopKills(steps: seq<Step>, state: ServerState, at: Point)
    requires Play(steps) == Up(Live, state, Free, at, [])
    ensures Play(steps + [BeginStop(None)] + [Terminate] + [FinishStop]) == Stopped(at)
  {
    StopIsBegun(state, at);
    ChildIsKilled(at);
    Then(steps, Up(Live, state, Free, at, []), BeginStop(None), Up(Live, STOPPING, Stopping, at, []));
    Then(steps + [BeginStop(None)], Up(Live, STOPPING, Stopping, at, []), Terminate,
         Up(Gone, STOPPING, Killed, at, [Signal(Stopper, 0)]));
    Then(steps + [BeginStop(None)] + [Terminate], Up(Gone, STOPPING, Killed, at, [Signal(Stopper, 0)]), FinishStop, Stopped(at));
  }

  // ---- Engines left behind ----------------------------------------------------------------

  ghost predicate LeftBehind(w: World) {
    w.mode.Serving? && w.record.None? && Ours(w, 0) && w.procs[0].status.Live?
  }

  const CrashedUnrecorded: seq<Step> := Spawned + [Crash] + [Boot] + [ReapDecide(OnEpoch)]

  lemma {:induction false} CrashLeavesAnEngine()
    ensures LeftBehind(Play(CrashedUnrecorded))
  {
    EngineIsSpawned();
    var lost := Engine(Live, CrashedBeforeRecord);
    var down, booting := World([lost], None, Down, 1, STOPPED, None, Free, [], []), World([lost], None, Booting, 2, STOPPED, None, Free, [], []);
    Then(Spawned, AfterSpawn, Crash, down);
    Then(Spawned + [Crash], down, Boot, booting);
    Then(Spawned + [Crash] + [Boot], booting, ReapDecide(OnEpoch), booting.(mode := Serving));
  }

  lemma {:induction false} FailedRecordingLeavesAnEngine()
    ensures LeftBehind(Play(Spawned + [RecordRaises]))
  {
    EngineIsSpawned();
    Then(Spawned, AfterSpawn, RecordRaises,
         World([Engine(Live, RecordingRaised)], None, Serving, 1, STARTING, Some(0), Free, [StartCall(Some(0), Raised)], []));
  }

  const Unreadable: seq<Step> := Spawned + [Record(None)] + [Crash] + [Boot]
  const RefusedByReap: seq<Step> := Unreadable + [ReapDecide(OnEpoch)] + [ReapClear]

  lemma {:induction false} UnreadableRecordIsKept()
    ensures Play(Unreadable) == World([Engine(Live, Recorded)], Some(Owned(7, 0.0, 0, None)), Booting, 2, STOPPED, None, Free, [], [])
  {
    EngineIsSpawned();
    var procs, record := [Engine(Live, Recorded)], Some(Owned(7, 0.0, 0, None));
    var looking := World(procs, record, Serving, 1, STARTING, Some(0), Free, [StartCall(Some(0), Looking)], []);
    var down := World(procs, record, Down, 1, STOPPED, None, Free, [], []);
    Then(Spawned, AfterSpawn, Record(None), looking);
    Then(Spawned + [Record(None)], looking, Crash, down);
    Then(Spawned + [Record(None)] + [Crash], down, Boot, World(procs, record, Booting, 2, STOPPED, None, Free, [], []));
  }

  lemma {:induction false} RefusalLeavesAnEngine()
    ensures LeftBehind(Play(RefusedByReap))
  {
    UnreadableRecordIsKept();
    var booting := World([Engine(Live, Recorded)], Some(Owned(7, 0.0, 0, None)), Booting, 2, STOPPED, None, Free, [], []);
    Then(Unreadable, booting, ReapDecide(OnEpoch), booting.(mode := Clearing(Unverifiable)));
    Then(Unreadable + [ReapDecide(OnEpoch)], booting.(mode := Clearing(Unverifiable)), ReapClear,
         World([Engine(Live, ReapRefused)], None, Serving, 2, STOPPED, None, Free, [], []));
  }

  const Restarted: seq<Step> := EngineUp + [Crash] + [Boot]
  const MistakenByReap: seq<Step> := Restarted + [ReapDecide(Some(Ticks))] + [ReapClear]

  lemma {:induction false} RecordSurvivesTheCrash()
    ensures Play(Restarted) ==
      World([Engine(Live, Recorded)], Some(Owned(7, At(100.0).epoch, 0, OnEpoch)), Booting, 2, STOPPED, None, Free, [], [])
  {
    EngineIsUp();
    var down := World([Engine(Live, Recorded)], Some(Owned(7, At(100.0).epoch, 0, OnEpoch)), Down, 1, STOPPED, None, Free, [], []);
    Then(EngineUp, Up(Live, STARTING, Free, Looking, []), Crash, down);
    Then(EngineUp + [Crash], down, Boot, down.(mode := Booting, life := 2));
  }

  /** Recorded in seconds since the epoch and read in ticks since boot, a live engine's own
      record does not fit it. */
  lemma {:induction false} OtherClockLeavesAnEngine()
    ensures LeftBehind(Play(MistakenByReap))
  {
    RecordSurvivesTheCrash();
    var booting := World([Engine(Live, Recorded)], Some(Owned(7, At(100.0).epoch, 0, OnEpoch)), Booting, 2, STOPPED, None, Free, [], []);
    Then(Restarted, booting, ReapDecide(Some(Ticks)), booting.(mode := Clearing(Recycled)));
    Then(Restarted + [ReapDecide(Some(Ticks))], booting.(mode := Clearing(Recycled)), ReapClear,
         World([Engine(Live, ReapMistaken)], None, Serving, 2, STOPPED, None, Free, [], []));
  }

  // ---- Stops that overtake a start -----------------------------------------------------------

  const Asked: seq<Step> := EngineUp + [Look(0, false)]
  const StoppedWhileAsking: seq<Step> := Asked + [BeginStop(None)] + [Terminate] + [FinishStop]

  lemma {:induction false} StartWasOvertaken()
    ensures Play(StoppedWhileAsking) == Stopped(Asking)
  {
    EngineIsUp();
    Then(EngineUp, Up(Live, STARTING, Free, Looking, []), Look(0, false), Up(Live, STARTING, Free, Asking, []));
    StopKills(Asked, STARTING, Asking);
  }

  /** A late reply does make a stopped server READY. */
  lemma {:induction false} LateReplyHappens()
    ensures ReadyWithoutProcess(Play(StoppedWhileAsking + [Reply(0, Serves)]))
  {
    StartWasOvertaken();
    Then(StoppedWhileAsking, Stopped(Asking), Reply(0, Serves), Stopped(Capturing).(state := READY));
  }

  const Answered: seq<Step> := Asked + [Reply(0, Serves)]
  const StoppedWhileCapturing: seq<Step> := Answered + [BeginStop(None)] + [Terminate] + [FinishStop]

  /** A start returns to its caller with the server STOPPED and its engine killed. */
  lemma {:induction false} StartReturnsStopped()
    ensures Play(StoppedWhileCapturing + [Captured(0, true)]) == Stopped(Returned)
  {
    EngineIsUp();
    Then(EngineUp, Up(Live, STARTING, Free, Looking, []), Look(0, false), Up(Live, STARTING, Free, Asking, []));
    Then(Asked, Up(Live, STARTING, Free, Asking, []), Reply(0, Serves), Up(Live, READY, Free, Capturing, []));
    StopKills(Answered, READY, Capturing);
    Then(StoppedWhileCapturing, Stopped(Capturing), Captured(0, true), Stopped(Returned));
  }

  // ---- Starts that overlap ---------------------------------------------------------------------

  const Overtaken: seq<Step> := StoppedWhileAsking + [BeginStart(true)] + [Reply(0, NotYet)] + [Look(0, true)]
  const SecondEngine: seq<Step> := Overtaken + [Spawn(8, At(200.0))] + [Record(OnEpoch)]
  const ThirdEngine: seq<Step> := SecondEngine + [BeginStart(true)] + [Spawn(9, At(300.0))]

  const Second: Process := Process(8, At(200.0), true, 1, Live, Recorded)

  /** The first start was overtaken by a stop; the second holds the lock or has recorded. */
  function Overlapped(state: ServerState, first: Point, second: StartCall, lock: Lock): World {
    World([Engine(Gone, Recorded)], None, Serving, 1, state, None, lock, [StartCall(Some(0), first), second], [Signal(Stopper, 0)])
  }

  lemma {:induction false} OvertakenStartFails()
    ensures Play(Overtaken) == Overlapped(FAILED, Failing, StartCall(None, Launching), HeldByStart(1))
  {
    StartWasOvertaken();
    var launching := StartCall(None, Launching);
    Then(StoppedWhileAsking, Stopped(Asking), BeginStart(true), Overlapped(STARTING, Asking, launching, HeldByStart(1)));
    Then(StoppedWhileAsking + [BeginStart(true)], Overlapped(STARTING, Asking, launching, HeldByStart(1)), Reply(0, NotYet),
         Overlapped(STARTING, Looking, launching, HeldByStart(1)));
    Then(StoppedWhileAsking + [BeginStart(true)] + [Reply(0, NotYet)], Overlapped(STARTING, Looking, launching, HeldByStart(1)),
         Look(0, true), Overlapped(FAILED, Failing, launching, HeldByStart(1)));
  }

  /** The second engine is recorded, and the failing first start has left the state FAILED. */
  function SecondUp(): World {
    World([Engine(Gone, Recorded), Second], Some(Owned(8, At(200.0).epoch, 1, OnEpoch)), Serving, 1, FAILED, Some(1), Free,
          [StartCall(Some(0), Failing), StartCall(Some(1), Looking)], [Signal(Stopper, 0)])
  }

  lemma {:induction false} SecondEngineIsUp()
    ensures Play(SecondEngine) == SecondUp()
  {
    OvertakenStartFails();
    var spawned := World([Engine(Gone, Recorded), Process(8, At(200.0), true, 1, Live, Untracked)], None, Serving, 1, FAILED, None,
                         HeldByStart(1), [StartCall(Some(0), Failing), StartCall(Some(1), Point.Spawned)], [Signal(Stopper, 0)]);
    Then(Overtaken, Overlapped(FAILED, Failing, StartCall(None, Launching), HeldByStart(1)), Spawn(8, At(200.0)), spawned);
    Then(Overtaken + [Spawn(8, At(200.0))], spawned, Record(OnEpoch), SecondUp());
  }

  /** With starts that overlap, one that a stop overtook can reopen the guard through FAILED
      while a second holds the lock, and a third then spawns a second engine. */
  lemma {:induction false} OverlappingStartsMakeTwoEngines()
    ensures Unguarded(Play(SecondEngine), BeginStart(true)) && Crowded(Play(ThirdEngine))
  {
    SecondEngineIsUp();
    var starting := SecondUp().(state := STARTING, lock := HeldByStart(2), calls := SecondUp().calls + [StartCall(None, Launching)]);
    Then(SecondEngine, SecondUp(), BeginStart(true), starting);
    var third := starting.(procs := starting.procs + [Process(9, At(300.0), true, 1, Live, Untracked)],
                           calls := SecondUp().calls + [StartCall(Some(2), Point.Spawned)]);
    Then(SecondEngine + [BeginStart(true)], starting, Spawn(9, At(300.0)), third);
    assert Current(third, 1) && Current(third, 2);
  }

  // ---- A pid handed out again --------------------------------------------------------------------

  const PidReused: seq<Step> := EngineUp + [Exit(0)] + [Look(0, false)] + [Appear(7, At(200.0))] + [BeginStop(Some(0))]

  lemma {:induction false} PidIsReused()
    ensures Play(PidReused) ==
      World([Engine(Gone, Recorded), Process(7, At(200.0), false, 0, Live, Untracked)],
            Some(Owned(7, At(100.0).epoch, 0, OnEpoch)), Serving, 1, STOPPING, Some(0), HeldByStop(0, false, Some(0)),
            [StartCall(Some(0), Failing)], [])
  {
    EngineIsUp();
    var found := Up(Gone, FAILED, Free, Failing, []);
    var reused := found.(procs := [Engine(Gone, Recorded), Process(7, At(200.0), false, 0, Live, Untracked)]);
    Then(EngineUp, Up(Live, STARTING, Free, Looking, []), Exit(0), Up(Zombie, STARTING, Free, Looking, []));
    Then(EngineUp + [Exit(0)], Up(Zombie, STARTING, Free, Looking, []), Look(0, false), found);
    Then(EngineUp + [Exit(0)] + [Look(0, false)], found, Appear(7, At(200.0)), reused);
    Then(EngineUp + [Exit(0)] + [Look(0, false)] + [Appear(7, At(200.0))], reused, BeginStop(Some(0)),
         reused.(state := STOPPING, lock := HeldByStop(0, false, Some(0))));
  }

  /** A failing start whose engine died can signal whoever got the engine's pid since. */
  lemma {:induction false} StopHitsAStranger()
    ensures var w := Play(PidReused + [Terminate]);
            |w.procs| == 2 && !w.procs[1].engine && w.signals == [Signal(Stopper, 1)]
  {
    PidIsReused();
    PlayStep(PidReused, Terminate);
  }
}
