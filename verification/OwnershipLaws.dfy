/** What the ownership protocol keeps over every run, and where it does not. */
module OwnershipLaws {
  import opened Prelude
  import opened Ownership

  predicate HostStep(s: Step) {
    s.Appear? || s.Exit? || s.Crash? || s.Boot? || s.ReapDecide? || s.ReapClear?
  }

  predicate LaunchStep(s: Step) {
    s.ConfigRaises? || s.SpawnFails? || s.Spawn? || s.Record? || s.RecordRaises?
  }

  predicate StopStep(s: Step) {
    s.BeginStop? || s.Terminate? || s.FinishStop? || s.StopRaises?
  }

  // ---- What every run keeps -----------------------------------------------------------

  /** One holder to a pid, and start times of processes sharing one are over a second apart. */
  ghost predicate PidsApart(procs: seq<Process>) {
    forall i, j :: 0 <= i < j < |procs| && procs[i].pid == procs[j].pid ==>
      BornApart(procs[i].born, procs[j].born) && (procs[i].status.Gone? || procs[j].status.Gone?)
  }

  ghost predicate Ours(w: World, i: nat) {
    i < |w.procs| && w.procs[i].engine
  }

  ghost predicate Current(w: World, i: nat) {
    Ours(w, i) && w.procs[i].life == w.life
  }

  ghost predicate RecordTrue(w: World) {
    w.record.Some? ==>
      var o := w.record.value;
      Ours(w, o.whose) && w.procs[o.whose].pid == o.pid
      && o.createTime == RecordedTime(w.procs[o.whose].born, o.clock)
  }

  ghost predicate CallSound(w: World, k: nat)
    requires k < |w.calls|
  {
    var c := w.calls[k];
    && (c.child.Some? ==> Current(w, c.child.value))
    && (c.at.Launching? ==> c.child.None? && w.lock == HeldByStart(k))
    && (c.at.Spawned? ==> c.child.Some? && w.lock == HeldByStart(k) && w.process != c.child
                          && !w.procs[c.child.value].status.Gone?)
  }

  ghost predicate LockSound(w: World) {
    match w.lock
    case Free => true
    case HeldByStart(k) => k < |w.calls| && (w.calls[k].at.Launching? || w.calls[k].at.Spawned?)
    case HeldByStop(t, killed, caller) =>
      && w.process == Some(t) && t < |w.procs| && (killed ==> w.procs[t].status.Gone?)
      && (caller.Some? ==> CallAt(w, caller.value, Failing))
  }

  ghost predicate Core(w: World) {
    && PidsApart(w.procs)
    && RecordTrue(w)
    && (forall k :: 0 <= k < |w.calls| ==> CallSound(w, k))
    && LockSound(w)
    && (w.process.Some? ==> Current(w, w.process.value))
    && (!w.mode.Serving? ==> w.calls == [] && w.lock.Free? && w.process.None?)
  }

  lemma {:induction false} CoreAfterExit(w: World, i: nat)
    requires Core(w)
    ensures Core(Exits(w, i))
  {
    var w' := Exits(w, i);
    forall k | 0 <= k < |w'.calls| ensures CallSound(w', k) {
      assert CallSound(w, k);
    }
    assert PidsApart(w'.procs);
    assert RecordTrue(w');
    assert LockSound(w');
    assert (w'.process.Some? ==> Current(w', w'.process.value));
  }

  lemma {:induction false} CoreAfterHostStep(w: World, s: Step)
    requires Core(w) && HostStep(s)
    ensures Core(After(w, s))
  {
    if s.Exit? {
      CoreAfterExit(w, s.i);
    } else {
      var w' := After(w, s);
      forall k | 0 <= k < |w'.calls| ensures CallSound(w', k) {
        assert CallSound(w, k);
      }
    }
  }

  lemma {:induction false} CoreAfterRecording(w: World, s: Step)
    requires Core(w) && (s.Record? || s.RecordRaises?)
    ensures Core(After(w, s))
  {
    var w' := After(w, s);
    forall k | 0 <= k < |w'.calls| ensures CallSound(w', k) {
      assert CallSound(w, k);
    }
    if HasUnrecordedChild(w) {
      assert CallSound(w, w.lock.call);
    }
  }

  lemma {:induction false} CoreAfterBegin(w: World, executable: bool)
    requires Core(w)
    ensures Core(BeginsStart(w, executable))
  {
    var w' := BeginsStart(w, executable);
    forall k | 0 <= k < |w'.calls| ensures CallSound(w', k) {
      assert k < |w.calls| ==> CallSound(w, k);
    }
  }

  lemma {:induction false} CoreAfterLaunch(w: World, s: Step)
    requires Core(w) && (s.ConfigRaises? || s.SpawnFails? || s.Spawn?)
    ensures Core(After(w, s))
  {
    var w' := After(w, s);
    forall k | 0 <= k < |w'.calls| ensures CallSound(w', k) {
      assert CallSound(w, k);
    }
    assert PidsApart(w'.procs) && RecordTrue(w') && LockSound(w');
  }

  lemma {:induction false} MoveKeepsCore(w: World, k: nat, p: Point)
    requires Core(w) && k < |w.calls| && !p.Launching? && !p.Spawned?
    requires w.calls[k].at.Looking? || w.calls[k].at.Asking? || w.calls[k].at.Capturing?
    ensures Core(MoveCall(w, k, p))
  {
    var w' := MoveCall(w, k, p);
    forall j | 0 <= j < |w'.calls| ensures CallSound(w', j) {
      assert CallSound(w, j);
    }
  }

  lemma {:induction false} WaitingKeepsCore(w: World, i: nat)
    requires Core(w) && w.process == Some(i) && i < |w.procs|
    ensures Core(w.(procs := Waited(w.procs, i)))
  {
    var w' := w.(procs := Waited(w.procs, i));
    forall j | 0 <= j < |w'.calls| ensures CallSound(w', j) {
      assert CallSound(w, j);
    }
  }

  lemma {:induction false} StateIsNotInCore(w: World, s: ServerState)
    requires Core(w)
    ensures Core(w.(state := s))
  {
    var w' := w.(state := s);
    forall k | 0 <= k < |w'.calls| ensures CallSound(w', k) {
      assert CallSound(w, k);
    }
  }

  lemma {:induction false} CoreAfterLook(w: World, k: nat, late: bool)
    requires Core(w)
    ensures Core(Looks(w, k, late))
  {
    if CallAt(w, k, Looking) {
      MoveKeepsCore(w, k, Failing);
      MoveKeepsCore(w, k, Asking);
      var failing := MoveCall(w, k, Failing);
      StateIsNotInCore(failing, FAILED);
      if w.process.Some? {
        WaitingKeepsCore(failing.(state := FAILED), w.process.value);
      }
    }
  }

  lemma {:induction false} CoreAfterReply(w: World, s: Step)
    requires Core(w) && (s.Reply? || s.Captured?)
    ensures Core(After(w, s))
  {
    var k := s.call;
    if CallAt(w, k, Asking) || CallAt(w, k, Capturing) {
      MoveKeepsCore(w, k, Looking);
      MoveKeepsCore(w, k, Failing);
      MoveKeepsCore(w, k, Returned);
      MoveKeepsCore(w, k, Capturing);
      StateIsNotInCore(MoveCall(w, k, Capturing), READY);
    }
  }

  lemma {:induction false} CoreAfterStopping(w: World, s: Step)
    requires Core(w) && (s.BeginStop? || s.Terminate?)
    ensures Core(After(w, s))
  {
    var w' := After(w, s);
    forall k | 0 <= k < |w'.calls| ensures CallSound(w', k) {
      assert CallSound(w, k);
    }
  }

  lemma {:induction false} CoreAfterStop(w: World, s: Step)
    requires Core(w) && (s.FinishStop? || s.StopRaises?)
    ensures Core(After(w, s))
  {
    var w' := After(w, s);
    forall k | 0 <= k < |w'.calls| ensures CallSound(w', k) {
      assert CallSound(w, k);
    }
  }

  lemma {:induction false} CoreAfter(w: World, s: Step)
    requires Core(w)
    ensures Core(After(w, s))
  {
    match s {
      case Appear(_, _) => CoreAfterHostStep(w, s);
      case Exit(_) => CoreAfterHostStep(w, s);
      case Crash => CoreAfterHostStep(w, s);
      case Boot => CoreAfterHostStep(w, s);
      case ReapDecide(_) => CoreAfterHostStep(w, s);
      case ReapClear => CoreAfterHostStep(w, s);
      case BeginStart(executable) => CoreAfterBegin(w, executable);
      case ConfigRaises => CoreAfterLaunch(w, s);
      case SpawnFails => CoreAfterLaunch(w, s);
      case Spawn(_, _) => CoreAfterLaunch(w, s);
      case Record(_) => CoreAfterRecording(w, s);
      case RecordRaises => CoreAfterRecording(w, s);
      case Look(k, late) => CoreAfterLook(w, k, late);
      case Reply(_, _) => CoreAfterReply(w, s);
      case Captured(_, _) => CoreAfterReply(w, s);
      case BeginStop(_) => CoreAfterStopping(w, s);
      case Terminate => CoreAfterStopping(w, s);
      case FinishStop => CoreAfterStop(w, s);
      case StopRaises => CoreAfterStop(w, s);
    }
  }

  lemma {:induction false} CoreAlways(steps: seq<Step>)
    ensures Core(Play(steps))
    decreases |steps|
  {
    if steps != [] {
      var n := |steps| - 1;
      CoreAlways(steps[..n]);
      CoreAfter(Play(steps[..n]), steps[n]);
    }
  }

  // ---- What every run keeps in which the guard of `start` is never passed over an engine ----

  predicate Lost(f: Fate) {
    f.CrashedBeforeRecord? || f.RecordingRaised? || f.ReapRefused? || f.ReapMistaken?
  }

  predicate Named(w: World, i: nat) {
    w.record.Some? && w.record.value.whose == i
  }

  /** Every live engine is named by the record, about to be, or lost for a stated reason. */
  ghost predicate Accounted(w: World) {
    forall i :: 0 <= i < |w.procs| && w.procs[i].engine && w.procs[i].status.Live? ==>
      Named(w, i) || InWindow(w, i) || Lost(w.procs[i].fate)
  }

  /** A process the server holds and has not waited on. */
  predicate Holding(w: World, i: nat) {
    w.process == Some(i) && i < |w.procs| && !w.procs[i].status.Gone?
  }

  /** An unreaped engine of this lifetime is the server's process or its child to be. */
  ghost predicate Tracked(w: World) {
    w.mode.Serving? ==>
      && (forall i :: 0 <= i < |w.procs| && w.procs[i].engine && w.procs[i].life == w.life && !w.procs[i].status.Gone? ==>
            w.process == Some(i) || InWindow(w, i))
      && (w.record.Some? && w.record.value.whose < |w.procs| && !w.procs[w.record.value.whose].status.Gone? ==>
            w.process == Some(w.record.value.whose))
      && (w.record.Some? ==> w.process.Some?)
  }

  /** A start in progress replaces no process that is still there. */
  ghost predicate Vacant(w: World) {
    w.lock.HeldByStart? && w.process.Some? ==> !Holding(w, w.process.value)
  }

  ghost predicate DeadIfRaised(w: World, k: nat)
    requires k < |w.calls|
  {
    w.calls[k].at.Raised? && w.calls[k].child.Some? ==>
      Ours(w, w.calls[k].child.value)
      && (w.procs[w.calls[k].child.value].status.Gone? || w.procs[w.calls[k].child.value].fate.RecordingRaised?)
  }

  ghost predicate RaisedMeansDead(w: World) {
    forall k :: 0 <= k < |w.calls| ==> DeadIfRaised(w, k)
  }

  ghost predicate FatesTold(w: World) {
    && (forall i :: 0 <= i < |w.procs| && InWindow(w, i) ==> w.procs[i].fate.Untracked?)
    && (w.record.Some? && w.record.value.whose < |w.procs| ==> w.procs[w.record.value.whose].fate.Recorded?)
  }

  ghost predicate LivesSound(w: World) {
    forall i :: 0 <= i < |w.procs| && w.procs[i].engine ==>
      w.procs[i].life <= w.life && (w.mode.Booting? || w.mode.Clearing? ==> w.procs[i].life < w.life)
  }

  ghost predicate ReapSound(w: World) {
    w.mode.Clearing? && (w.mode.verdict.Vanished? || w.mode.verdict.Reaped?) && w.record.Some? && w.record.value.whose < |w.procs| ==>
      !w.procs[w.record.value.whose].status.Live?
  }

  ghost predicate Serial(w: World) {
    Accounted(w) && Tracked(w) && Vacant(w) && RaisedMeansDead(w) && FatesTold(w) && ReapSound(w)
  }

  /** A start that passes the guard while the server still has an unreaped process: its state
      has moved on from STARTING and READY without a stop having come to its end. */
  predicate Unguarded(w: World, s: Step) {
    && s.BeginStart? && s.executable && w.mode.Serving? && w.lock.Free? && !w.state.STARTING? && !w.state.READY?
    && w.process.Some? && Holding(w, w.process.value)
  }

  ghost predicate GuardHolds(steps: seq<Step>) {
    forall n :: 0 <= n < |steps| ==> !Unguarded(Play(steps[..n]), steps[n])
  }

  lemma {:induction false} SerialAfterProcessStep(w: World, s: Step)
    requires Core(w) && Serial(w) && (s.Appear? || s.Exit?)
    ensures Serial(After(w, s))
  {
    var w' := After(w, s);
    forall k | 0 <= k < |w'.calls| ensures DeadIfRaised(w', k) {
      assert DeadIfRaised(w, k) && CallSound(w, k);
    }
  }

  lemma {:induction false} SerialAfterAgentStep(w: World, s: Step)
    requires Core(w) && Serial(w) && (s.Crash? || s.Boot?)
    ensures Serial(After(w, s))
  {
    var w' := After(w, s);
    forall k | 0 <= k < |w'.calls| ensures DeadIfRaised(w', k) {
      assert DeadIfRaised(w, k);
    }
  }

  lemma {:induction false} SerialAfterReap(w: World, s: Step)
    requires Core(w) && LivesSound(w) && Serial(w) && (s.ReapDecide? || s.ReapClear?)
    ensures Serial(After(w, s))
  {
  }

  lemma {:induction false} SerialAfterBegin(w: World, executable: bool)
    requires Core(w) && Serial(w) && !Unguarded(w, BeginStart(executable))
    ensures Serial(BeginsStart(w, executable))
  {
    var w' := BeginsStart(w, executable);
    forall k | 0 <= k < |w'.calls| ensures DeadIfRaised(w', k) {
      assert k < |w.calls| ==> DeadIfRaised(w, k) && CallSound(w, k);
    }
  }

  lemma {:induction false} SerialAfterLaunch(w: World, s: Step)
    requires Core(w) && Serial(w) && (s.ConfigRaises? || s.SpawnFails? || s.Spawn?)
    ensures Serial(After(w, s))
  {
    var w' := After(w, s);
    forall k | 0 <= k < |w'.calls| ensures DeadIfRaised(w', k) {
      assert DeadIfRaised(w, k) && CallSound(w, k);
    }
  }

  lemma {:induction false} SerialAfterRecording(w: World, s: Step)
    requires Core(w) && Serial(w) && (s.Record? || s.RecordRaises?)
    ensures Serial(After(w, s))
  {
    var w' := After(w, s);
    forall k | 0 <= k < |w'.calls| ensures DeadIfRaised(w', k) {
      assert DeadIfRaised(w, k) && CallSound(w, k);
    }
  }

  lemma {:induction false} WaitedKeepsSerial(w: World, i: nat)
    requires Core(w) && Serial(w) && w.process == Some(i) && i < |w.procs|
    ensures Serial(w.(procs := Waited(w.procs, i)))
  {
    var w' := w.(procs := Waited(w.procs, i));
    forall k | 0 <= k < |w'.calls| ensures DeadIfRaised(w', k) {
      assert DeadIfRaised(w, k) && CallSound(w, k);
    }
  }

  /** One turn of the readiness loop, whatever it concludes, short of raising. */
  lemma {:induction false} MoveKeepsSerial(w: World, k: nat, p: Point, st: ServerState)
    requires Core(w) && Serial(w) && k < |w.calls| && !p.Raised? && !p.Launching? && !p.Spawned?
    requires w.calls[k].at.Looking? || w.calls[k].at.Asking? || w.calls[k].at.Capturing?
    ensures Serial(MoveCall(w, k, p).(state := st))
  {
    var w' := MoveCall(w, k, p).(state := st);
    assert CallSound(w, k);
    assert w.lock.HeldByStart? ==> k != w.lock.call;
    forall j | 0 <= j < |w'.calls| ensures DeadIfRaised(w', j) {
      assert DeadIfRaised(w, j);
    }
    assert w'.procs == w.procs && forall i :: 0 <= i < |w.procs| ==> InWindow(w, i) == InWindow(w', i);
  }

  lemma {:induction false} SerialAfterLook(w: World, k: nat, late: bool)
    requires Core(w) && Serial(w)
    ensures Serial(Looks(w, k, late))
  {
    if CallAt(w, k, Looking) {
      if late || w.process.None? {
        MoveKeepsSerial(w, k, Failing, if late then FAILED else w.state);
      } else if w.procs[w.process.value].status.Live? {
        MoveKeepsSerial(w, k, Asking, w.state);
      } else {
        WaitedKeepsSerial(w, w.process.value);
        WaitingKeepsCore(w, w.process.value);
        MoveKeepsSerial(w.(procs := Waited(w.procs, w.process.value)), k, Failing, FAILED);
      }
    }
  }

  lemma {:induction false} SerialAfterReply(w: World, s: Step)
    requires Core(w) && Serial(w) && (s.Reply? || s.Captured?)
    ensures Serial(After(w, s))
  {
    var k := s.call;
    if s.Reply? && CallAt(w, k, Asking) {
      match s.health {
        case Serves => MoveKeepsSerial(w, k, Capturing, READY);
        case NotYet => MoveKeepsSerial(w, k, Looking, w.state);
        case Breaks => MoveKeepsSerial(w, k, Failing, w.state);
      }
    } else if s.Captured? && CallAt(w, k, Capturing) {
      MoveKeepsSerial(w, k, if s.fine then Returned else Failing, w.state);
    }
  }

  lemma {:induction false} SerialAfterStopping(w: World, s: Step)
    requires Core(w) && Serial(w) && (s.BeginStop? || s.Terminate?)
    ensures Serial(After(w, s))
  {
    var w' := After(w, s);
    forall k | 0 <= k < |w'.calls| ensures DeadIfRaised(w', k) {
      assert DeadIfRaised(w, k) && CallSound(w, k);
    }
  }

  lemma {:induction false} SerialAfterStop(w: World, s: Step)
    requires Core(w) && Serial(w) && (s.FinishStop? || s.StopRaises?)
    ensures Serial(After(w, s))
  {
    var w' := After(w, s);
    forall k | 0 <= k < |w'.calls| ensures DeadIfRaised(w', k) {
      assert DeadIfRaised(w, k) && CallSound(w, k);
    }
  }

  lemma {:induction false} SerialAfter(w: World, s: Step)
    requires Core(w) && LivesSound(w) && Serial(w) && !Unguarded(w, s)
    ensures Serial(After(w, s))
  {
    match s {
      case Appear(_, _) => SerialAfterProcessStep(w, s);
      case Exit(_) => SerialAfterProcessStep(w, s);
      case Crash => SerialAfterAgentStep(w, s);
      case Boot => SerialAfterAgentStep(w, s);
      case ReapDecide(_) => SerialAfterReap(w, s);
      case ReapClear => SerialAfterReap(w, s);
      case BeginStart(executable) => SerialAfterBegin(w, executable);
      case ConfigRaises => SerialAfterLaunch(w, s);
      case SpawnFails => SerialAfterLaunch(w, s);
      case Spawn(_, _) => SerialAfterLaunch(w, s);
      case Record(_) => SerialAfterRecording(w, s);
      case RecordRaises => SerialAfterRecording(w, s);
      case Look(k, late) => SerialAfterLook(w, k, late);
      case Reply(_, _) => SerialAfterReply(w, s);
      case Captured(_, _) => SerialAfterReply(w, s);
      case BeginStop(_) => SerialAfterStopping(w, s);
      case Terminate => SerialAfterStopping(w, s);
      case FinishStop => SerialAfterStop(w, s);
      case StopRaises => SerialAfterStop(w, s);
    }
  }

  lemma {:induction false} LivesAfterHostStep(w: World, s: Step)
    requires LivesSound(w) && HostStep(s)
    ensures LivesSound(After(w, s))
  {
  }

  lemma {:induction false} LivesAfter(w: World, s: Step)
    requires Core(w) && LivesSound(w)
    ensures LivesSound(After(w, s))
  {
    if HostStep(s) { LivesAfterHostStep(w, s); }
  }

  lemma {:induction false} LivesAlways(steps: seq<Step>)
    ensures LivesSound(Play(steps))
    decreases |steps|
  {
    if steps != [] {
      var n := |steps| - 1;
      LivesAlways(steps[..n]);
      CoreAlways(steps[..n]);
      LivesAfter(Play(steps[..n]), steps[n]);
    }
  }

  lemma {:induction false} SerialAlways(steps: seq<Step>)
    requires GuardHolds(steps)
    ensures Serial(Play(steps))
    decreases |steps|
  {
    if steps != [] {
      var n := |steps| - 1;
      GuardHeldBefore(steps, n);
      SerialAlways(steps[..n]);
      CoreAlways(steps[..n]);
      LivesAlways(steps[..n]);
      SerialAfter(Play(steps[..n]), steps[n]);
    }
  }

  lemma {:induction false} GuardHeldBefore(steps: seq<Step>, n: nat)
    requires GuardHolds(steps) && n <= |steps|
    ensures GuardHolds(steps[..n])
  {
    forall m | 0 <= m < n ensures !Unguarded(Play(steps[..n][..m]), steps[..n][m]) {
      assert steps[..n][..m] == steps[..m];
    }
  }

  // ---- One start at a time ------------------------------------------------------------------

  /** What one outstanding start leaves of the calls and the state. */
  ghost predicate Guarded(w: World) {
    && (forall k :: 0 <= k < |w.calls| - 1 ==> Done(w.calls[k]))
    && (w.lock.HeldByStart? ==> w.state.STARTING?) && Vacant(w)
    && (w.process.Some? && Holding(w, w.process.value) ==>
          w.lock.HeldByStop? || w.state.STARTING? || w.state.READY?
          || (w.calls != [] && w.calls[|w.calls| - 1].at.Failing?))
  }

  lemma {:induction false} GuardedAfterHostStep(w: World, s: Step)
    requires Core(w) && Guarded(w) && HostStep(s)
    ensures Guarded(After(w, s))
  {
  }

  lemma {:induction false} GuardedAfterStopStep(w: World, s: Step)
    requires Core(w) && Guarded(w) && StopStep(s)
    ensures Guarded(After(w, s))
  {
  }

  lemma {:induction false} GuardedAfterLaunch(w: World, s: Step)
    requires Core(w) && Guarded(w) && LaunchStep(s)
    ensures Guarded(After(w, s))
  {
  }

  lemma {:induction false} GuardedAfterBegin(w: World, executable: bool)
    requires Core(w) && Guarded(w) && AllDone(w)
    ensures Guarded(BeginsStart(w, executable))
  {
  }

  lemma {:induction false} GuardedAfterReply(w: World, s: Step)
    requires Core(w) && Guarded(w) && (s.Look? || s.Reply? || s.Captured?)
    ensures Guarded(After(w, s))
  {
  }

  lemma {:induction false} GuardedAfter(w: World, s: Step)
    requires Core(w) && Guarded(w) && (s.BeginStart? ==> AllDone(w))
    ensures Guarded(After(w, s))
  {
    if HostStep(s) {
      GuardedAfterHostStep(w, s);
    } else if StopStep(s) {
      GuardedAfterStopStep(w, s);
    } else if LaunchStep(s) {
      GuardedAfterLaunch(w, s);
    } else if s.BeginStart? {
      GuardedAfterBegin(w, s.executable);
    } else {
      GuardedAfterReply(w, s);
    }
  }

  lemma {:induction false} OneStartBefore(steps: seq<Step>, n: nat)
    requires OneStartAtATime(steps) && n <= |steps|
    ensures OneStartAtATime(steps[..n])
  {
    forall m | 0 <= m < n && steps[..n][m].BeginStart? ensures AllDone(Play(steps[..n][..m])) {
      assert steps[..n][..m] == steps[..m];
    }
  }

  lemma {:induction false} GuardedAlways(steps: seq<Step>)
    requires OneStartAtATime(steps)
    ensures Guarded(Play(steps))
    decreases |steps|
  {
    if steps != [] {
      var n := |steps| - 1;
      OneStartBefore(steps, n);
      GuardedAlways(steps[..n]);
      CoreAlways(steps[..n]);
      GuardedAfter(Play(steps[..n]), steps[n]);
    }
  }

  /** With one start at a time the guard of `start` lets no start through over an engine. */
  lemma {:induction false} OneStartKeepsTheGuard(steps: seq<Step>)
    requires OneStartAtATime(steps)
    ensures GuardHolds(steps)
  {
    forall n | 0 <= n < |steps| ensures !Unguarded(Play(steps[..n]), steps[n]) {
      OneStartBefore(steps, n);
      GuardedAlways(steps[..n]);
      NotUnguarded(Play(steps[..n]), steps[n]);
    }
  }

  lemma {:induction false} NotUnguarded(w: World, s: Step)
    requires Guarded(w) && (s.BeginStart? ==> AllDone(w))
    ensures !Unguarded(w, s)
  {
  }

  // ---- The startup reap ---------------------------------------------------------------------

  /** Readings of the two clocks at one pid are never within a second of each other. */
  ghost predicate ClocksApart(procs: seq<Process>) {
    forall i, j :: 0 <= i < |procs| && 0 <= j < |procs| && procs[i].pid == procs[j].pid ==>
      Apart(procs[i].born.epoch, procs[j].born.ticks)
  }

  ghost predicate ReapsTheRecordedEngine(w: World, clock: Option<Clock>)
    requires w.record.Some?
  {
    var o := w.record.value;
    var decided := After(w, ReapDecide(clock));
    var done := After(decided, ReapClear);
    && o.whose < |w.procs|
    && decided.signals == w.signals +
         (if w.procs[o.whose].status.Live? && o.createTime != 0.0 && clock.Some? && clock == o.clock then [Signal(Reaper, o.whose)] else [])
    && decided.record == w.record && decided.mode.Clearing?
    && done.record.None? && done.mode.Serving? && |done.procs| == |w.procs|
    && (forall i :: 0 <= i < |w.procs| ==>
          done.procs[i].status == if decided.signals != w.signals && i == o.whose then Gone else w.procs[i].status)
  }

  lemma {:induction false} ReapOfARecord(w: World, clock: Option<Clock>)
    requires Core(w) && ClocksApart(w.procs) && w.mode.Booting? && w.record.Some?
    ensures ReapsTheRecordedEngine(w, clock)
  {
  }

  /** The reap kills exactly the engine the record was written for, and does so if and only
      if that engine is alive, its start time was recorded, and it is read from the same clock
      now. Whatever it decides, the record goes after the kill, and it ends with none. */
  lemma {:induction false} ReapKillsTheRecordedEngine(steps: seq<Step>, clock: Option<Clock>)
    requires Play(steps).mode.Booting? && Play(steps).record.Some? && ClocksApart(Play(steps).procs)
    ensures ReapsTheRecordedEngine(Play(steps), clock)
  {
    CoreAlways(steps);
    ReapOfARecord(Play(steps), clock);
  }

  /** Without that assumption on the clocks: the reap signals another process exactly when the
      record was written on one clock and is read on the other, and some live process at the
      recorded pid reads there within a second of what was written. */
  lemma {:induction false} ReapHitsAStrangerIff(steps: seq<Step>, clock: Option<Clock>)
    requires Play(steps).mode.Booting? && Play(steps).record.Some?
    ensures var w := Play(steps);
            var o := w.record.value;
            (exists v :: After(w, ReapDecide(clock)).signals == w.signals + [Signal(Reaper, v)] && v != o.whose) <==>
              o.createTime != 0.0 && clock.Some? && o.clock.Some? && clock != o.clock
              && exists j :: 0 <= j < |w.procs| && j != o.whose && w.procs[j].pid == o.pid && w.procs[j].status.Live?
                             && -1.0 <= On(w.procs[j].born, clock.value) - o.createTime <= 1.0
  {
    CoreAlways(steps);
    ReapSignalsAStrangerIff(Play(steps), clock);
  }

  lemma {:induction false} ReapSignalsAStrangerIff(w: World, clock: Option<Clock>)
    requires Core(w) && w.mode.Booting? && w.record.Some?
    ensures var o := w.record.value;
            (exists v :: After(w, ReapDecide(clock)).signals == w.signals + [Signal(Reaper, v)] && v != o.whose) <==>
              o.createTime != 0.0 && clock.Some? && o.clock.Some? && clock != o.clock
              && exists j :: 0 <= j < |w.procs| && j != o.whose && w.procs[j].pid == o.pid && w.procs[j].status.Live?
                             && -1.0 <= On(w.procs[j].born, clock.value) - o.createTime <= 1.0
  {
    var o := w.record.value;
    var h := Holder(w.procs, o.pid);
    var sent := After(w, ReapDecide(clock)).signals;
    if Judge(w.procs, o, clock).Reaped? {
      assert sent == w.signals + [Signal(Reaper, h.value)];
      forall v | sent == w.signals + [Signal(Reaper, v)] ensures v == h.value {
        assert sent[|w.signals|] == Signal(Reaper, v);
        assert sent[|w.signals|] == Signal(Reaper, h.value);
      }
      assert h.value != o.whose ==> BornApart(w.procs[h.value].born, w.procs[o.whose].born) || BornApart(w.procs[o.whose].born, w.procs[h.value].born);
    } else {
      assert |sent| == |w.signals|;
    }
  }

  /** A live recorded engine is taken for another process exactly when its record was written
      on one clock and is read on the other, and the two differ by over a second. */
  lemma {:induction false} LiveEngineIsMistakenIff(steps: seq<Step>, clock: Option<Clock>)
    requires Play(steps).mode.Booting? && Play(steps).record.Some?
    requires var o := Play(steps).record.value; Ours(Play(steps), o.whose) && Play(steps).procs[o.whose].status.Live?
    ensures var o := Play(steps).record.value;
            After(Play(steps), ReapDecide(clock)).mode == Clearing(Recycled) <==>
              o.createTime != 0.0 && clock.Some? && o.clock.Some? && clock != o.clock
              && !(-1.0 <= On(Play(steps).procs[o.whose].born, clock.value) - o.createTime <= 1.0)
  {
    CoreAlways(steps);
    LiveIsMistakenIff(Play(steps), clock);
  }

  lemma {:induction false} LiveIsMistakenIff(w: World, clock: Option<Clock>)
    requires Core(w) && w.mode.Booting? && w.record.Some?
    requires Ours(w, w.record.value.whose) && w.procs[w.record.value.whose].status.Live?
    ensures var o := w.record.value;
            ReapDecides(w, clock).mode == Clearing(Recycled) <==>
              o.createTime != 0.0 && clock.Some? && o.clock.Some? && clock != o.clock
              && !(-1.0 <= On(w.procs[o.whose].born, clock.value) - o.createTime <= 1.0)
  {
    assert Holder(w.procs, w.record.value.pid) == Some(w.record.value.whose);
  }

  /** What no step undoes: processes keep what they are, and signals stay sent. */
  lemma {:induction false} StepsOnlyAdd(w: World, s: Step)
    ensures |w.procs| <= |After(w, s).procs| && |w.signals| <= |After(w, s).signals|
    ensures forall i :: 0 <= i < |w.procs| ==>
      After(w, s).procs[i].engine == w.procs[i].engine && After(w, s).procs[i].pid == w.procs[i].pid
      && After(w, s).procs[i].born == w.procs[i].born
    ensures forall n :: 0 <= n < |w.signals| ==> After(w, s).signals[n] == w.signals[n]
    ensures forall n :: |w.signals| <= n < |After(w, s).signals| && After(w, s).signals[n].sender.Reaper? ==>
      s.ReapDecide? && w.mode.Booting? && w.record.Some?
  {
  }

  /** The startup reap never signals a process that no agent lifetime spawned, as long as the
      two clocks' readings are apart. */
  lemma {:induction false} ReapNeverKillsAStranger(steps: seq<Step>, n: nat)
    requires ClocksApart(Play(steps).procs)
    requires n < |Play(steps).signals| && Play(steps).signals[n].sender.Reaper?
    ensures Ours(Play(steps), Play(steps).signals[n].victim)
    decreases |steps|
  {
    var before := steps[..|steps| - 1];
    var s := steps[|steps| - 1];
    StepsOnlyAdd(Play(before), s);
    assert ClocksApart(Play(before).procs);
    if n < |Play(before).signals| {
      ReapNeverKillsAStranger(before, n);
    } else {
      CoreAlways(before);
      ReapKillsTheRecordedEngine(before, s.clock);
    }
  }

  /** What becomes of a recorded orphan until an agent has dealt with it. */
  ghost predicate AwaitsItsReap(w: World, i: nat, clock: Clock) {
    && Ours(w, i)
    && (w.procs[i].status.Gone?
        || (w.procs[i].status.Live? && Named(w, i) && w.record.value.createTime != 0.0 && w.record.value.clock == Some(clock)
            && (w.mode.Down? || w.mode.Booting?)))
  }

  /** A reap, if this is one, reads start times from this clock. */
  predicate ReadsOn(s: Step, clock: Clock) {
    s.ReapDecide? ==> s.clock == Some(clock)
  }

  lemma {:induction false} AwaitsStep(w: World, s: Step, i: nat, clock: Clock)
    requires Core(w) && AwaitsItsReap(w, i, clock) && ReadsOn(s, clock)
    ensures AwaitsItsReap(After(w, s), i, clock)
  {
  }

  lemma {:induction false} AwaitsThroughout(steps: seq<Step>, more: seq<Step>, i: nat, clock: Clock)
    requires AwaitsItsReap(Play(steps), i, clock) && forall n :: 0 <= n < |more| ==> ReadsOn(more[n], clock)
    ensures AwaitsItsReap(Play(steps + more), i, clock)
    decreases |more|
  {
    if more == [] {
      assert steps + more == steps;
    } else {
      var n := |more| - 1;
      AwaitsThroughout(steps, more[..n], i, clock);
      CoreAlways(steps + more[..n]);
      AwaitsStep(Play(steps + more[..n]), more[n], i, clock);
      assert steps + more == steps + more[..n] + [more[n]];
      PlayStep(steps + more[..n], more[n]);
    }
  }

  /** Main result: a live engine a crash left behind is gone by the time any later agent
      serves, whatever crashes and restarts come in between, as long as its start time was
      recorded and each reap reads it from the same clock. */
  lemma {:induction false} RecordedOrphanIsReaped(steps: seq<Step>, more: seq<Step>, i: nat, clock: Clock)
    requires Play(steps).mode.Down? && Named(Play(steps), i)
    requires Play(steps).record.value.createTime != 0.0 && Play(steps).record.value.clock == Some(clock)
    requires (forall n :: 0 <= n < |more| ==> ReadsOn(more[n], clock)) && Play(steps + more).mode.Serving?
    ensures i < |Play(steps).procs| && i < |Play(steps + more).procs|
    ensures Play(steps).procs[i].status.Live? ==> Play(steps + more).procs[i].status.Gone?
  {
    CoreAlways(steps);
    ProcessesStay(steps, more);
    if Play(steps).procs[i].status.Live? { AwaitsThroughout(steps, more, i, clock); }
  }

  lemma {:induction false} ProcessesStay(steps: seq<Step>, more: seq<Step>)
    ensures |Play(steps).procs| <= |Play(steps + more).procs|
    decreases |more|
  {
    if more == [] {
      assert steps + more == steps;
    } else {
      var n := |more| - 1;
      ProcessesStay(steps, more[..n]);
      assert steps + more == steps + more[..n] + [more[n]];
      PlayStep(steps + more[..n], more[n]);
      StepsOnlyAdd(Play(steps + more[..n]), more[n]);
    }
  }

  lemma {:induction false} PlayStep(steps: seq<Step>, s: Step)
    ensures Play(steps + [s]) == After(Play(steps), s)
  {
    assert (steps + [s])[..|steps + [s]| - 1] == steps;
  }

  // ---- Engines left behind --------------------------------------------------------------------

  /** The steps that lose track of an engine: a crash or a failing record in the window, and a
      reap that cannot read its start time or takes it for another's. */
  predicate Loses(w: World, s: Step, i: nat) {
    || ((s.Crash? || s.RecordRaises?) && InWindow(w, i))
    || (s.ReapClear? && (w.mode == Clearing(Unverifiable) || w.mode == Clearing(Recycled)) && Named(w, i)
        && i < |w.procs| && w.procs[i].status.Live?)
  }

  lemma {:induction false} LostByAStep(w: World, s: Step, i: nat)
    requires i < |After(w, s).procs| && Lost(After(w, s).procs[i].fate)
    ensures (i < |w.procs| && Lost(w.procs[i].fate)) || Loses(w, s, i)
  {
  }

  lemma {:induction false} LossHasACause(steps: seq<Step>, i: nat)
    requires i < |Play(steps).procs| && Lost(Play(steps).procs[i].fate)
    ensures exists n :: 0 <= n < |steps| && Loses(Play(steps[..n]), steps[n], i)
    decreases |steps|
  {
    var last := |steps| - 1;
    LostByAStep(Play(steps[..last]), steps[last], i);
    if !Loses(Play(steps[..last]), steps[last], i) {
      LossHasACause(steps[..last], i);
      var n :| 0 <= n < last && Loses(Play(steps[..last][..n]), steps[..last][n], i);
      assert steps[..last][..n] == steps[..n];
    }
  }

  lemma {:induction false} LosingLoses(w: World, s: Step, i: nat)
    requires Core(w) && Loses(w, s, i)
    ensures i < |After(w, s).procs| && Lost(After(w, s).procs[i].fate)
  {
    assert InWindow(w, i) ==> CallSound(w, w.lock.call);
  }

  lemma {:induction false} LostStaysLost(w: World, s: Step, i: nat)
    requires FatesTold(w) && i < |w.procs| && Lost(w.procs[i].fate)
    ensures i < |After(w, s).procs| && Lost(After(w, s).procs[i].fate)
  {
  }

  ghost predicate LostAt(steps: seq<Step>, i: nat) {
    i < |Play(steps).procs| && Lost(Play(steps).procs[i].fate)
  }

  lemma {:induction false} LostNext(before: seq<Step>, s: Step, i: nat)
    requires GuardHolds(before) && LostAt(before, i)
    ensures LostAt(before + [s], i)
  {
    SerialAlways(before);
    PlayStep(before, s);
    LostStaysLost(Play(before), s, i);
  }

  lemma {:induction false} LostByNow(before: seq<Step>, s: Step, i: nat)
    requires Loses(Play(before), s, i)
    ensures LostAt(before + [s], i)
  {
    CoreAlways(before);
    PlayStep(before, s);
    LosingLoses(Play(before), s, i);
  }

  /** What holds after `n` steps and is kept by each later one holds at the end. */
  lemma {:induction false} Kept(steps: seq<Step>, n: nat, p: seq<Step> -> bool)
    requires n <= |steps| && p(steps[..n])
    requires forall m :: n <= m < |steps| && p(steps[..m]) ==> p(steps[..m] + [steps[m]])
    ensures p(steps)
  {
    for m := n to |steps|
      invariant p(steps[..m])
    {
      assert steps[..m + 1] == steps[..m] + [steps[m]];
    }
    assert steps[..|steps|] == steps;
  }

  lemma {:induction false} LossIsForever(steps: seq<Step>, n: nat, i: nat)
    requires GuardHolds(steps) && n < |steps| && Loses(Play(steps[..n]), steps[n], i)
    ensures LostAt(steps, i)
  {
    LostByNow(steps[..n], steps[n], i);
    assert steps[..n + 1] == steps[..n] + [steps[n]];
    forall m | n < m < |steps| && LostAt(steps[..m], i) ensures LostAt(steps[..m] + [steps[m]], i) {
      GuardHeldBefore(steps, m);
      LostNext(steps[..m], steps[m], i);
    }
    Kept(steps, n + 1, before => LostAt(before, i));
  }

  /** Main result: a live engine is neither named by the record nor about to be, if and only
      if it was lost by a crash in the window between spawn and record, by a recording that
      raised in it, or by a reap that could not verify it or took its pid for recycled; and
      what is lost stays so. */
  lemma {:induction false} LiveEngineIsLostIff(steps: seq<Step>, i: nat)
    requires GuardHolds(steps)
    requires i < |Play(steps).procs| && Play(steps).procs[i].engine && Play(steps).procs[i].status.Live?
    ensures (exists n :: 0 <= n < |steps| && Loses(Play(steps[..n]), steps[n], i))
            <==> !Named(Play(steps), i) && !InWindow(Play(steps), i)
  {
    SerialAlways(steps);
    if Lost(Play(steps).procs[i].fate) { LossHasACause(steps, i); }
    if n :| 0 <= n < |steps| && Loses(Play(steps[..n]), steps[n], i) { LossIsForever(steps, n, i); }
  }

  // ---- One engine -------------------------------------------------------------------------------

  /** Of two live engines on the host, one was lost by such a step; and an agent lifetime
      never has two. */
  lemma {:induction false} AtMostOneEngine(steps: seq<Step>, i: nat, j: nat)
    requires GuardHolds(steps) && i != j && Ours(Play(steps), i) && Ours(Play(steps), j)
    requires Play(steps).procs[i].status.Live? && Play(steps).procs[j].status.Live?
    ensures exists n :: 0 <= n < |steps| && (Loses(Play(steps[..n]), steps[n], i) || Loses(Play(steps[..n]), steps[n], j))
    ensures Play(steps).mode.Serving? ==> !Current(Play(steps), i) || !Current(Play(steps), j)
  {
    SerialAlways(steps);
    CoreAlways(steps);
    if Lost(Play(steps).procs[i].fate) {
      LossHasACause(steps, i);
    } else {
      assert Lost(Play(steps).procs[j].fate);
      LossHasACause(steps, j);
    }
  }

  /** Two engines of this agent lifetime that nobody has waited on. */
  ghost predicate Crowded(w: World) {
    exists i, j :: 0 <= i < j < |w.procs| && Current(w, i) && Current(w, j)
                   && !w.procs[i].status.Gone? && !w.procs[j].status.Gone?
  }

  /** For runs whose starts overlap in any way: as long as none passed the guard over an
      unreaped process, there is one engine at most, and the next start makes a second one
      if and only if it does pass the guard over one. */
  lemma {:induction false} SecondEngineIff(steps: seq<Step>, executable: bool, pid: nat, born: Birth)
    requires GuardHolds(steps) && Play(steps).mode.Serving? && CanAppear(Play(steps).procs, pid, born)
    ensures !Crowded(Play(steps))
    ensures Crowded(After(After(Play(steps), BeginStart(executable)), Spawn(pid, born)))
            <==> Unguarded(Play(steps), BeginStart(executable))
  {
    SerialAlways(steps);
    CoreAlways(steps);
    NotCrowded(Play(steps));
    StartCrowdsIff(Play(steps), executable, pid, born);
  }

  lemma {:induction false} NotCrowded(w: World)
    requires Core(w) && Tracked(w) && Vacant(w) && w.mode.Serving?
    ensures !Crowded(w)
  {
  }

  lemma {:induction false} StartCrowdsIff(w: World, executable: bool, pid: nat, born: Birth)
    requires Core(w) && Serial(w) && w.mode.Serving? && CanAppear(w.procs, pid, born)
    ensures Crowded(After(After(w, BeginStart(executable)), Spawn(pid, born))) <==> Unguarded(w, BeginStart(executable))
  {
    var started := After(w, BeginStart(executable));
    var w' := After(started, Spawn(pid, born));
    if Unguarded(w, BeginStart(executable)) {
      var i, j := w.process.value, |w.procs|;
      assert Current(w', i) && Current(w', j) && !w'.procs[i].status.Gone? && !w'.procs[j].status.Gone?;
    } else {
      SerialAfterBegin(w, executable);
      CoreAfterBegin(w, executable);
      SerialAfterLaunch(started, Spawn(pid, born));
      CoreAfterLaunch(started, Spawn(pid, born));
      NotCrowded(w');
    }
  }

  // ---- start ------------------------------------------------------------------------------------

  /** A `start` that raised left its process dead, unless it raised while recording. */
  lemma {:induction false} RaisedStartLeavesNoProcess(steps: seq<Step>, k: nat)
    requires GuardHolds(steps) && k < |Play(steps).calls|
    requires Play(steps).calls[k].at.Raised? && Play(steps).calls[k].child.Some?
    ensures var i := Play(steps).calls[k].child.value;
            && i < |Play(steps).procs|
            && (Play(steps).procs[i].status.Gone?
                || exists n :: 0 <= n < |steps| && Loses(Play(steps[..n]), steps[n], i))
  {
    SerialAlways(steps);
    assert DeadIfRaised(Play(steps), k);
    var i := Play(steps).calls[k].child.value;
    if !Play(steps).procs[i].status.Gone? { LossHasACause(steps, i); }
  }

  /** What a recording that raised leaves, until a stop or a crash. */
  ghost predicate StuckStarting(w: World, i: nat) {
    w.mode.Serving? && w.state.STARTING? && Holding(w, i) && w.lock.Free? && AllDone(w) && Current(w, i) && !Named(w, i)
  }

  lemma {:induction false} StuckByRaising(w: World, i: nat)
    requires Core(w) && Serial(w) && Guarded(w) && InWindow(w, i)
    ensures StuckStarting(After(w, RecordRaises), i)
    ensures After(w, RecordRaises).procs[i].status == w.procs[i].status
  {
    assert CallSound(w, w.lock.call) && w.lock.call == |w.calls| - 1;
    var w' := After(w, RecordRaises);
    assert forall k :: 0 <= k < |w'.calls| - 1 ==> Done(w.calls[k]) && w'.calls[k] == w.calls[k];
  }

  lemma {:induction false} StaysStuck(w: World, s: Step, i: nat)
    requires StuckStarting(w, i) && !s.Crash? && s != BeginStop(None)
    ensures StuckStarting(After(w, s), i)
  {
  }

  lemma {:induction false} StuckThroughout(steps: seq<Step>, more: seq<Step>, i: nat)
    requires StuckStarting(Play(steps), i) && Crash !in more && BeginStop(None) !in more
    ensures StuckStarting(Play(steps + more), i)
    decreases |more|
  {
    if more == [] {
      assert steps + more == steps;
    } else {
      var n := |more| - 1;
      StuckThroughout(steps, more[..n], i);
      assert steps + more == steps + more[..n] + [more[n]];
      assert more[n] in more;
      PlayStep(steps + more[..n], more[n]);
      StaysStuck(Play(steps + more[..n]), more[n], i);
    }
  }

  /** When it raises while recording, the engine is kept as the server's process and no record
      names it; and whatever follows, until somebody stops the server or the agent dies, the
      server still holds it unreaped and refuses every start. */
  lemma {:induction false} RaisingRecordKeepsTheEngine(steps: seq<Step>, more: seq<Step>, i: nat, executable: bool)
    requires OneStartAtATime(steps) && InWindow(Play(steps), i)
    requires Crash !in more && BeginStop(None) !in more
    ensures var w := Play(steps + [RecordRaises] + more);
            && w.state.STARTING? && Holding(w, i) && Current(w, i) && !Named(w, i)
            && After(w, BeginStart(executable)) == w.(calls := w.calls + [StartCall(None, Raised)])
  {
    GuardedAlways(steps);
    OneStartKeepsTheGuard(steps);
    SerialAlways(steps);
    CoreAlways(steps);
    StuckByRaising(Play(steps), i);
    PlayStep(steps, RecordRaises);
    StuckThroughout(steps + [RecordRaises], more, i);
  }

  /** A start under way whose child the server has recorded. */
  predicate UnderWay(w: World, k: nat) {
    k < |w.calls| && (w.calls[k].at.Looking? || w.calls[k].at.Asking? || w.calls[k].at.Capturing?)
  }

  predicate StopBegins(w: World, s: Step) {
    s.BeginStop? && w.mode.Serving? && w.lock.Free? && (s.caller.Some? ==> CallAt(w, s.caller.value, Failing))
  }

  /** A stop began while the start was under way. */
  predicate StoppedDuring(steps: seq<Step>, k: nat)
    decreases |steps|
  {
    steps != [] && UnderWay(Play(steps), k) && UnderWay(Play(steps[..|steps| - 1]), k)
    && (StopBegins(Play(steps[..|steps| - 1]), steps[|steps| - 1]) || StoppedDuring(steps[..|steps| - 1], k))
  }

  /** The start's own engine is the server's, not waited on, and no stop is at work. */
  predicate HasItsEngine(w: World, k: nat) {
    && k < |w.calls| && w.calls[k].child.Some? && Holding(w, w.calls[k].child.value) && !w.lock.HeldByStop?
    && (w.state.READY? || (w.state.STARTING? && !w.calls[k].at.Capturing?))
  }

  predicate EngineTaken(w: World) {
    w.lock.HeldByStop? || w.process.None? || !Holding(w, w.process.value)
  }

  lemma {:induction false} OnlyARecordBegins(w: World, s: Step, k: nat)
    requires Core(w) && !UnderWay(w, k) && UnderWay(After(w, s), k)
    ensures s.Record? && HasUnrecordedChild(w) && k == w.lock.call
  {
  }

  lemma {:induction false} EngineAtTheRecord(w: World, s: Step, k: nat)
    requires Core(w) && Guarded(w) && s.Record? && HasUnrecordedChild(w) && k == w.lock.call
    ensures HasItsEngine(After(w, s), k)
  {
    assert CallSound(w, w.lock.call);
  }

  ghost predicate KeptOrTaken(w: World, s: Step, w': World, k: nat) {
    && (HasItsEngine(w, k) ==> if StopBegins(w, s) then EngineTaken(w') else HasItsEngine(w', k))
    && (EngineTaken(w) ==> EngineTaken(w'))
  }

  lemma {:induction false} EngineThroughHostStep(w: World, s: Step, k: nat)
    requires Core(w) && UnderWay(w, k) && UnderWay(After(w, s), k) && HostStep(s)
    ensures KeptOrTaken(w, s, After(w, s), k)
  {
    assert CallSound(w, k);
  }

  lemma {:induction false} EngineThroughStopStep(w: World, s: Step, k: nat)
    requires Core(w) && Guarded(w) && UnderWay(w, k) && UnderWay(After(w, s), k) && StopStep(s)
    ensures KeptOrTaken(w, s, After(w, s), k)
  {
    assert CallSound(w, k);
  }

  lemma {:induction false} EngineThroughLaunch(w: World, s: Step, k: nat)
    requires Core(w) && Guarded(w) && UnderWay(w, k)
    requires LaunchStep(s)
    ensures After(w, s) == w
  {
  }

  lemma {:induction false} EngineThroughLook(w: World, s: Step, k: nat)
    requires Core(w) && Guarded(w) && UnderWay(w, k) && UnderWay(After(w, s), k) && s.Look?
    ensures KeptOrTaken(w, s, After(w, s), k)
  {
    assert CallSound(w, k);
    assert CallAt(w, s.call, Looking) ==> s.call == k;
  }

  lemma {:induction false} EngineThroughReply(w: World, s: Step, k: nat)
    requires Core(w) && Guarded(w) && UnderWay(w, k) && UnderWay(After(w, s), k) && (s.Reply? || s.Captured?)
    ensures KeptOrTaken(w, s, After(w, s), k)
  {
    assert CallSound(w, k);
  }

  lemma {:induction false} EngineKeptOrTaken(w: World, s: Step, k: nat)
    requires Core(w) && Guarded(w) && UnderWay(w, k) && UnderWay(After(w, s), k) && !s.BeginStart?
    ensures KeptOrTaken(w, s, After(w, s), k)
  {
    if HostStep(s) {
      EngineThroughHostStep(w, s, k);
    } else if StopStep(s) {
      EngineThroughStopStep(w, s, k);
    } else if s.Look? {
      EngineThroughLook(w, s, k);
    } else if s.Reply? || s.Captured? {
      EngineThroughReply(w, s, k);
    } else {
      EngineThroughLaunch(w, s, k);
    }
  }

  lemma {:induction false} UnderWayHasItsEngineIff(steps: seq<Step>, k: nat)
    requires OneStartAtATime(steps) && UnderWay(Play(steps), k)
    ensures if StoppedDuring(steps, k) then EngineTaken(Play(steps)) else HasItsEngine(Play(steps), k)
    decreases |steps|
  {
    var n := |steps| - 1;
    var before := steps[..n];
    OneStartBefore(steps, n);
    GuardedAlways(before);
    CoreAlways(before);
    if UnderWay(Play(before), k) {
      UnderWayHasItsEngineIff(before, k);
      EngineKeptOrTaken(Play(before), steps[n], k);
    } else {
      OnlyARecordBegins(Play(before), steps[n], k);
      EngineAtTheRecord(Play(before), steps[n], k);
    }
  }

  /** Main result: a `start` that returns reports READY with its own engine, unreaped and
      with no stop at work on it, if and only if no stop began while it was under way. */
  lemma {:induction false} ReturnedStartIsReadyIff(steps: seq<Step>, k: nat)
    requires OneStartAtATime(steps) && CallAt(Play(steps), k, Capturing)
    ensures var w := After(Play(steps), Captured(k, true));
            && CallAt(w, k, Returned) && w.calls[k].child.Some?
            && ((w.state.READY? && Holding(w, w.calls[k].child.value) && !w.lock.HeldByStop?) <==> !StoppedDuring(steps, k))
  {
    CoreAlways(steps);
    UnderWayHasItsEngineIff(steps, k);
    ChildOfAStart(steps, k);
  }

  lemma {:induction false} ChildStays(w: World, s: Step, k: nat)
    requires UnderWay(w, k) ==> w.calls[k].child.Some?
    ensures UnderWay(After(w, s), k) ==> After(w, s).calls[k].child.Some?
  {
  }

  lemma {:induction false} ChildOfAStart(steps: seq<Step>, k: nat)
    ensures UnderWay(Play(steps), k) ==> Play(steps).calls[k].child.Some?
    decreases |steps|
  {
    if steps != [] {
      ChildOfAStart(steps[..|steps| - 1], k);
      ChildStays(Play(steps[..|steps| - 1]), steps[|steps| - 1], k);
    }
  }

  /** The readiness loop of another start waits on the server's dead process. */
  predicate AnotherWaits(w: World, s: Step, k: nat) {
    && s.Look? && s.call != k && !s.late && CallAt(w, s.call, Looking)
    && w.process.Some? && w.process.value < |w.procs| && w.procs[w.process.value].status.Zombie?
  }

  /** While the start was under way a stop began, or another start's loop waited. */
  predicate DisturbedDuring(steps: seq<Step>, k: nat)
    decreases |steps|
  {
    steps != [] && UnderWay(Play(steps), k) && UnderWay(Play(steps[..|steps| - 1]), k)
    && (Disturbs(Play(steps[..|steps| - 1]), steps[|steps| - 1], k) || DisturbedDuring(steps[..|steps| - 1], k))
  }

  predicate Disturbs(w: World, s: Step, k: nat) {
    StopBegins(w, s) || AnotherWaits(w, s, k)
  }

  predicate HoldsItsEngine(w: World, k: nat) {
    k < |w.calls| && w.calls[k].child.Some? && Holding(w, w.calls[k].child.value) && !w.lock.HeldByStop?
  }

  predicate LosesItsEngine(w: World, k: nat) {
    && k < |w.calls| && w.calls[k].child.Some? && w.calls[k].child.value < |w.procs|
    && (w.procs[w.calls[k].child.value].status.Gone? || (w.lock.HeldByStop? && w.process == w.calls[k].child))
  }

  lemma {:induction false} HeldAtTheRecord(w: World, s: Step, k: nat)
    requires Core(w) && s.Record? && HasUnrecordedChild(w) && k == w.lock.call
    ensures HoldsItsEngine(After(w, s), k)
  {
    assert CallSound(w, w.lock.call);
  }

  lemma {:induction false} HeldThroughHostStep(w: World, s: Step, k: nat)
    requires Core(w) && UnderWay(w, k) && UnderWay(After(w, s), k) && HoldsItsEngine(w, k) && HostStep(s)
    ensures HoldsItsEngine(After(w, s), k)
  {
    assert CallSound(w, k);
  }

  lemma {:induction false} HeldThroughStartStep(w: World, s: Step, k: nat)
    requires Core(w) && Vacant(w) && !Unguarded(w, s) && UnderWay(w, k) && UnderWay(After(w, s), k) && HoldsItsEngine(w, k)
    requires s.BeginStart? || LaunchStep(s)
    ensures HoldsItsEngine(After(w, s), k)
  {
  }

  lemma {:induction false} HeldThroughReply(w: World, s: Step, k: nat)
    requires Core(w) && UnderWay(w, k) && UnderWay(After(w, s), k) && HoldsItsEngine(w, k)
    requires s.Look? || s.Reply? || s.Captured?
    ensures if AnotherWaits(w, s, k) then LosesItsEngine(After(w, s), k) else HoldsItsEngine(After(w, s), k)
  {
  }

  lemma {:induction false} HeldThroughStopStep(w: World, s: Step, k: nat)
    requires Core(w) && UnderWay(w, k) && UnderWay(After(w, s), k) && HoldsItsEngine(w, k) && StopStep(s)
    ensures if StopBegins(w, s) then LosesItsEngine(After(w, s), k) else HoldsItsEngine(After(w, s), k)
  {
  }

  lemma {:induction false} HeldOrLost(w: World, s: Step, k: nat)
    requires Core(w) && Vacant(w) && !Unguarded(w, s) && UnderWay(w, k) && UnderWay(After(w, s), k) && HoldsItsEngine(w, k)
    ensures if Disturbs(w, s, k) then LosesItsEngine(After(w, s), k) else HoldsItsEngine(After(w, s), k)
  {
    if HostStep(s) {
      HeldThroughHostStep(w, s, k);
    } else if StopStep(s) {
      HeldThroughStopStep(w, s, k);
    } else if s.BeginStart? || LaunchStep(s) {
      HeldThroughStartStep(w, s, k);
    } else {
      HeldThroughReply(w, s, k);
    }
  }

  lemma {:induction false} LostThroughStopStep(w: World, s: Step, k: nat)
    requires Core(w) && UnderWay(w, k) && UnderWay(After(w, s), k) && LosesItsEngine(w, k) && StopStep(s)
    ensures LosesItsEngine(After(w, s), k)
  {
  }

  lemma {:induction false} LostThroughHostStep(w: World, s: Step, k: nat)
    requires Core(w) && UnderWay(w, k) && UnderWay(After(w, s), k) && LosesItsEngine(w, k) && HostStep(s)
    ensures LosesItsEngine(After(w, s), k)
  {
  }

  lemma {:induction false} LostThroughStartStep(w: World, s: Step, k: nat)
    requires Core(w) && UnderWay(w, k) && UnderWay(After(w, s), k) && LosesItsEngine(w, k) && (s.BeginStart? || LaunchStep(s))
    ensures LosesItsEngine(After(w, s), k)
  {
  }

  lemma {:induction false} LostThroughLook(w: World, s: Step, k: nat)
    requires Core(w) && UnderWay(w, k) && UnderWay(After(w, s), k) && LosesItsEngine(w, k) && s.Look?
    ensures LosesItsEngine(After(w, s), k)
  {
  }

  lemma {:induction false} LostThroughReply(w: World, s: Step, k: nat)
    requires UnderWay(w, k) && LosesItsEngine(w, k) && (s.Reply? || s.Captured?)
    ensures LosesItsEngine(After(w, s), k)
  {
  }

  lemma {:induction false} LostIsLost(w: World, s: Step, k: nat)
    requires Core(w) && UnderWay(w, k) && UnderWay(After(w, s), k) && LosesItsEngine(w, k)
    ensures LosesItsEngine(After(w, s), k)
  {
    if StopStep(s) {
      LostThroughStopStep(w, s, k);
    } else if HostStep(s) {
      LostThroughHostStep(w, s, k);
    } else if s.BeginStart? || LaunchStep(s) {
      LostThroughStartStep(w, s, k);
    } else if s.Look? {
      LostThroughLook(w, s, k);
    } else {
      LostThroughReply(w, s, k);
    }
  }

  lemma {:induction false} UnderWayHoldsItsEngineIff(steps: seq<Step>, k: nat)
    requires GuardHolds(steps) && UnderWay(Play(steps), k)
    ensures if DisturbedDuring(steps, k) then LosesItsEngine(Play(steps), k) else HoldsItsEngine(Play(steps), k)
    decreases |steps|
  {
    var n := |steps| - 1;
    var before := steps[..n];
    GuardHeldBefore(steps, n);
    SerialAlways(before);
    CoreAlways(before);
    if !UnderWay(Play(before), k) {
      OnlyARecordBegins(Play(before), steps[n], k);
      HeldAtTheRecord(Play(before), steps[n], k);
    } else {
      UnderWayHoldsItsEngineIff(before, k);
      if DisturbedDuring(before, k) { LostIsLost(Play(before), steps[n], k); } else { HeldOrLost(Play(before), steps[n], k); }
    }
  }

  /** With starts that overlap in any way, none passing the guard over an engine: a `start`
      that returns leaves its own engine with the server, unreaped and with no stop at work on
      it, if and only if while it was under way no stop began and no other start waited on it. */
  lemma {:induction false} ReturnedStartHasItsEngineIff(steps: seq<Step>, k: nat)
    requires GuardHolds(steps) && CallAt(Play(steps), k, Capturing)
    ensures var w := After(Play(steps), Captured(k, true));
            && CallAt(w, k, Returned) && w.calls[k].child.Some?
            && ((Holding(w, w.calls[k].child.value) && !w.lock.HeldByStop?) <==> !DisturbedDuring(steps, k))
  {
    UnderWayHoldsItsEngineIff(steps, k);
  }

  predicate ReadyWithoutProcess(w: World) {
    w.state.READY? && w.process.None?
  }

  predicate StopEnds(w: World, s: Step) {
    s.FinishStop? && w.lock.HeldByStop? && w.lock.killed
  }

  predicate Adopts(w: World, s: Step) {
    (s.Record? || s.RecordRaises?) && HasUnrecordedChild(w)
  }

  /** A stop ended while the start was under way, and no start has adopted a process since. */
  predicate ProcessTakenAway(steps: seq<Step>, k: nat)
    decreases |steps|
  {
    steps != [] && UnderWay(Play(steps), k) && UnderWay(Play(steps[..|steps| - 1]), k)
    && !Adopts(Play(steps[..|steps| - 1]), steps[|steps| - 1])
    && (StopEnds(Play(steps[..|steps| - 1]), steps[|steps| - 1]) || ProcessTakenAway(steps[..|steps| - 1], k))
  }

  lemma {:induction false} ProcessOfAStart(w: World, s: Step, k: nat)
    requires Core(w) && UnderWay(After(w, s), k)
    ensures !UnderWay(w, k) ==> After(w, s).process.Some?
    ensures UnderWay(w, k) ==>
      (After(w, s).process.None? <==> !Adopts(w, s) && (StopEnds(w, s) || w.process.None?))
  {
  }

  lemma {:induction false} NoProcessIff(steps: seq<Step>, k: nat)
    requires UnderWay(Play(steps), k)
    ensures Play(steps).process.None? <==> ProcessTakenAway(steps, k)
    decreases |steps|
  {
    var n := |steps| - 1;
    CoreAlways(steps[..n]);
    ProcessOfAStart(Play(steps[..n]), steps[n], k);
    if UnderWay(Play(steps[..n]), k) { NoProcessIff(steps[..n], k); }
  }

  /** In any run, the server comes to claim READY without owning a process exactly when a
      reply arrives for a start during which a stop ended and took the process away. */
  lemma {:induction false} LateReplyIff(steps: seq<Step>, s: Step)
    requires !ReadyWithoutProcess(Play(steps))
    ensures ReadyWithoutProcess(After(Play(steps), s)) <==>
      s.Reply? && s.health.Serves? && CallAt(Play(steps), s.call, Asking) && ProcessTakenAway(steps, s.call)
  {
    if s.Reply? && CallAt(Play(steps), s.call, Asking) { NoProcessIff(steps, s.call); }
  }

  // ---- Starts that are refused --------------------------------------------------------------------

  /** A step that leaves a server marked as busy though it may hold no process: a config file
      that cannot be written, or a reply that says the engine serves. */
  predicate Blocks(w: World, s: Step) {
    || (s.ConfigRaises? && w.lock.HeldByStart? && CallAt(w, w.lock.call, Launching) && w.state.STARTING?)
    || (s.Reply? && s.health.Serves? && CallAt(w, s.call, Asking))
  }

  /** A step that marks the server as no longer busy: a failed launch, a readiness loop that
      gives up or finds the engine dead, a stop, and the end of the agent. */
  predicate Unblocks(w: World, s: Step) {
    || (s.SpawnFails? && w.lock.HeldByStart? && CallAt(w, w.lock.call, Launching))
    || (s.Look? && CallAt(w, s.call, Looking)
        && (s.late || (w.process.Some? && w.process.value < |w.procs| && !w.procs[w.process.value].status.Live?)))
    || StopBegins(w, s)
    || (s.FinishStop? && w.lock.HeldByStop? && w.lock.killed)
    || s.Crash?
  }

  /** The last step of either kind was one that blocks. */
  predicate Blocked(steps: seq<Step>)
    decreases |steps|
  {
    steps != []
    && var before := steps[..|steps| - 1];
       var s := steps[|steps| - 1];
       Blocks(Play(before), s) || (Blocked(before) && !Unblocks(Play(before), s))
  }

  /** The state of a server that is, or is not, blocked. */
  predicate StateFits(w: World, blocked: bool) {
    && (w.mode.Serving? || w.state.STOPPED?)
    && (w.state.READY? ==> blocked)
    && (w.state.STARTING? && !blocked ==> w.lock.HeldByStart? || w.process.Some?)
    && (blocked ==> w.state.STARTING? || w.state.READY?)
  }

  lemma {:induction false} FitsAfterHostStep(w: World, s: Step, blocked: bool)
    requires Core(w) && StateFits(w, blocked) && HostStep(s)
    ensures StateFits(After(w, s), blocked && !s.Crash?)
  {
  }

  lemma {:induction false} FitsAfterLaunch(w: World, s: Step, blocked: bool)
    requires Core(w) && StateFits(w, blocked) && LaunchStep(s)
    ensures StateFits(After(w, s), Blocks(w, s) || (blocked && !Unblocks(w, s)))
  {
  }

  lemma {:induction false} FitsAfterReply(w: World, s: Step, blocked: bool)
    requires Core(w) && StateFits(w, blocked) && (s.BeginStart? || s.Look? || s.Reply? || s.Captured?)
    ensures StateFits(After(w, s), Blocks(w, s) || (blocked && !Unblocks(w, s)))
  {
  }

  lemma {:induction false} FitsAfterStopStep(w: World, s: Step, blocked: bool)
    requires Core(w) && StateFits(w, blocked) && StopStep(s)
    ensures StateFits(After(w, s), blocked && !Unblocks(w, s))
  {
  }

  lemma {:induction false} FitsAlways(steps: seq<Step>)
    ensures StateFits(Play(steps), Blocked(steps))
    decreases |steps|
  {
    if steps != [] {
      var n := |steps| - 1;
      FitsAlways(steps[..n]);
      CoreAlways(steps[..n]);
      FitsAfter(Play(steps[..n]), steps[n], Blocked(steps[..n]));
    }
  }

  lemma {:induction false} FitsAfter(w: World, s: Step, blocked: bool)
    requires Core(w) && StateFits(w, blocked)
    ensures StateFits(After(w, s), Blocks(w, s) || (blocked && !Unblocks(w, s)))
  {
    if HostStep(s) {
      FitsAfterHostStep(w, s, blocked);
    } else if StopStep(s) {
      FitsAfterStopStep(w, s, blocked);
    } else if LaunchStep(s) {
      FitsAfterLaunch(w, s, blocked);
    } else {
      FitsAfterReply(w, s, blocked);
    }
  }

  /** Main result: a server with no process and nothing at work refuses the next `start` if and
      only if a config file that could not be written, or a late reply, has left it marked as
      busy and nothing has cleared that since; in any other case the start goes ahead. */
  lemma {:induction false} NextStartIsRefusedIff(steps: seq<Step>)
    requires var w := Play(steps); w.mode.Serving? && w.lock.Free? && w.process.None?
    ensures var w := Play(steps);
            After(w, BeginStart(true)) ==
              if Blocked(steps) then w.(calls := w.calls + [StartCall(None, Raised)])
              else w.(calls := w.calls + [StartCall(None, Launching)], state := STARTING, lock := HeldByStart(|w.calls|))
  {
    FitsAlways(steps);
  }

  // ---- stop ---------------------------------------------------------------------------------------

  /** A stop that ran to its end: its engine is dead, the record is gone, and nothing this
      agent lifetime spawned is left unreaped. A start on whose behalf it ran raises. */
  lemma {:induction false} FinishedStopLeavesNothing(steps: seq<Step>, i: nat)
    requires GuardHolds(steps) && Play(steps).lock.HeldByStop? && Play(steps).lock.killed
    ensures var w := Play(steps);
            var w' := After(w, FinishStop);
            && w'.record.None? && w'.process.None? && w'.state.STOPPED? && w'.lock.Free?
            && w.process == Some(w.lock.target) && w'.procs == w.procs
            && (w.lock.caller.Some? ==> CallAt(w', w.lock.caller.value, Raised))
            && (Current(w', i) ==> w'.procs[i].status.Gone?)
  {
    CoreAlways(steps);
    SerialAlways(steps);
    NothingUnreaped(Play(steps), i);
  }

  /** A stop that raises because the reader had failed leaves the process and the record in
      place, though the engine is as dead, and its caller's start raises like any other. */
  lemma {:induction false} RaisedStopLeavesARecord(steps: seq<Step>, i: nat)
    requires GuardHolds(steps) && Play(steps).lock.HeldByStop? && Play(steps).lock.killed
    ensures var w := Play(steps);
            var w' := After(w, StopRaises);
            && w'.record == w.record && w'.process == Some(w.lock.target) && w'.state == w.state && w'.lock.Free?
            && (w.lock.caller.Some? ==> CallAt(w', w.lock.caller.value, Raised))
            && (Current(w', i) ==> w'.procs[i].status.Gone?)
            && (Named(w', i) && i < |w'.procs| ==> w'.procs[i].status.Gone?)
            && !Unguarded(w', BeginStart(true))
  {
    CoreAlways(steps);
    SerialAlways(steps);
    NothingUnreaped(Play(steps), i);
  }

  lemma {:induction false} NothingUnreaped(w: World, i: nat)
    requires Core(w) && Tracked(w) && w.lock.HeldByStop? && w.lock.killed
    ensures Current(w, i) ==> w.procs[i].status.Gone?
    ensures Named(w, i) && i < |w.procs| ==> w.procs[i].status.Gone?
  {
  }

  /** The same for a stop that finds nothing to stop. */
  lemma {:induction false} IdleStopHadNothingToDo(steps: seq<Step>, caller: Option<nat>, i: nat)
    requires GuardHolds(steps)
    requires Play(steps).mode.Serving? && Play(steps).lock.Free? && Play(steps).process.None?
    requires caller.Some? ==> CallAt(Play(steps), caller.value, Failing)
    ensures var w' := After(Play(steps), BeginStop(caller));
            && w'.record.None? && w'.state.STOPPED? && w'.lock.Free? && w'.procs == Play(steps).procs
            && (caller.Some? ==> CallAt(w', caller.value, Raised))
            && (Current(w', i) ==> w'.procs[i].status.Gone?)
  {
    SerialAlways(steps);
  }

  /** The steps by which this lifetime waits on a child: the readiness loop finding it dead,
      and a stop. */
  predicate WaitsOn(w: World, s: Step, t: nat) {
    || (s.Look? && !s.late && CallAt(w, s.call, Looking) && w.process == Some(t) && t < |w.procs| && w.procs[t].status.Zombie?)
    || (s.Terminate? && w.lock.HeldByStop? && !w.lock.killed && w.lock.target == t && t < |w.procs|)
  }

  lemma {:induction false} GoneByAStep(w: World, s: Step, t: nat)
    requires Core(w) && LivesSound(w)
    requires After(w, s).mode.Serving? && Current(After(w, s), t) && After(w, s).procs[t].status.Gone?
    ensures WaitsOn(w, s, t) || (w.mode.Serving? && Current(w, t) && w.procs[t].status.Gone?)
  {
  }

  ghost predicate GoneAt(steps: seq<Step>, t: nat) {
    t < |Play(steps).procs| && Play(steps).procs[t].status.Gone?
  }

  lemma {:induction false} GoneNext(before: seq<Step>, s: Step, t: nat)
    requires GoneAt(before, t) || WaitsOn(Play(before), s, t)
    ensures GoneAt(before + [s], t)
  {
    PlayStep(before, s);
    GoneAfter(Play(before), s, t);
  }

  lemma {:induction false} GoneAfter(w: World, s: Step, t: nat)
    requires (t < |w.procs| && w.procs[t].status.Gone?) || WaitsOn(w, s, t)
    ensures t < |After(w, s).procs| && After(w, s).procs[t].status.Gone?
  {
  }

  lemma {:induction false} WaitedStaysGone(steps: seq<Step>, n: nat, t: nat)
    requires n < |steps| && WaitsOn(Play(steps[..n]), steps[n], t)
    ensures GoneAt(steps, t)
  {
    GoneNext(steps[..n], steps[n], t);
    assert steps[..n + 1] == steps[..n] + [steps[n]];
    forall m | n < m < |steps| && GoneAt(steps[..m], t) ensures GoneAt(steps[..m] + [steps[m]], t) {
      GoneNext(steps[..m], steps[m], t);
    }
    Kept(steps, n + 1, before => GoneAt(before, t));
  }

  lemma {:induction false} GoneWasWaitedOn(steps: seq<Step>, t: nat)
    requires Play(steps).mode.Serving? && Current(Play(steps), t) && Play(steps).procs[t].status.Gone?
    ensures exists n :: 0 <= n < |steps| && WaitsOn(Play(steps[..n]), steps[n], t)
    decreases |steps|
  {
    var last := |steps| - 1;
    CoreAlways(steps[..last]);
    LivesAlways(steps[..last]);
    GoneByAStep(Play(steps[..last]), steps[last], t);
    if !WaitsOn(Play(steps[..last]), steps[last], t) {
      GoneWasWaitedOn(steps[..last], t);
      var n :| 0 <= n < last && WaitsOn(Play(steps[..last][..n]), steps[..last][n], t);
      assert steps[..last][..n] == steps[..n];
    }
  }

  /** A stop signals a process other than its own child exactly when the readiness loop, or
      an earlier stop that raised, had already waited on that child and the pid has been
      handed out again. */
  lemma {:induction false} StopHitsAStrangerIff(steps: seq<Step>)
    requires Play(steps).lock.HeldByStop? && !Play(steps).lock.killed
    ensures var w := Play(steps);
            var t := w.lock.target;
            && t < |w.procs|
            && ((exists v :: After(w, Terminate).signals == w.signals + [Signal(Stopper, v)] && v != t) <==>
                (exists n :: 0 <= n < |steps| && WaitsOn(Play(steps[..n]), steps[n], t))
                && (exists j :: 0 <= j < |w.procs| && w.procs[j].pid == w.procs[t].pid && !w.procs[j].status.Gone?))
  {
    CoreAlways(steps);
    var t := Play(steps).lock.target;
    SignalIsAStrangersIff(Play(steps));
    if Play(steps).procs[t].status.Gone? { GoneWasWaitedOn(steps, t); }
    if n :| 0 <= n < |steps| && WaitsOn(Play(steps[..n]), steps[n], t) { WaitedStaysGone(steps, n, t); }
  }

  lemma {:induction false} SignalIsAStrangersIff(w: World)
    requires Core(w) && w.lock.HeldByStop? && !w.lock.killed
    ensures var t := w.lock.target;
            (exists v :: After(w, Terminate).signals == w.signals + [Signal(Stopper, v)] && v != t) <==>
              w.procs[t].status.Gone? && (exists j :: 0 <= j < |w.procs| && w.procs[j].pid == w.procs[t].pid && !w.procs[j].status.Gone?)
  {
    var t := w.lock.target;
    var h := Holder(w.procs, w.procs[t].pid);
    var sent := After(w, Terminate).signals;
    if h.Some? {
      assert sent == w.signals + [Signal(Stopper, h.value)];
      assert sent[|w.signals|].victim == h.value;
      forall v | sent == w.signals + [Signal(Stopper, v)] ensures v == h.value {
        assert sent[|w.signals|] == Signal(Stopper, v);
      }
    } else {
      assert |sent| == |w.signals|;
    }
  }
}
