/** The agent's server and registry objects. The server's methods are cut at their await
    points, and each segment is proved to be a step of the ownership protocol. */
module Agent {
  import opened Prelude
  import opened Ownership

  datatype UnixSignal = SIGTERM | SIGKILL

  const KILL_PROBES: nat := 20

  /** Whether the process still exists at each probe; `deadline` probes fit into the grace.
      A process seen gone in time is never killed, one that is not is killed once, and a
      survivor is reported only when every probe after the kill still saw it. */
  method TerminateGroup(alive: seq<bool>, deadline: nat) returns (sent: seq<UnixSignal>, survived: bool)
    requires |alive| >= deadline + KILL_PROBES
    ensures sent == [SIGTERM] || sent == [SIGTERM, SIGKILL]
    ensures sent == [SIGTERM] <==> false in alive[..deadline]
    ensures survived <==> false !in alive[..deadline + KILL_PROBES]
  {
    sent, survived := [SIGTERM], false;
    for probe := 0 to deadline
      invariant false !in alive[..probe]
    {
      if !alive[probe] {
        assert alive[..deadline][probe] == false && alive[..deadline + KILL_PROBES][probe] == false;
        return;
      }
    }
    sent := sent + [SIGKILL];
    for probe := deadline to deadline + KILL_PROBES
      invariant false !in alive[..probe]
    {
      if !alive[probe] {
        assert alive[..deadline + KILL_PROBES][probe] == false;
        return;
      }
    }
    survived := true;
  }

  /** Read from the first clock that answers; the value does not say which. */
  function CreateTime(b: Birth, clock: Option<Clock>): Option<real> {
    match clock
    case Some(c) => Some(On(b, c))
    case None => None
  }

  /** What the state file holds: nothing, a record, or text that is not one. */
  datatype File = Absent | Garbage | Holds(owned: Owned)

  class ProcessRegistry {
    var file: File

    constructor ()
      ensures file == Absent
    {
      file := Absent;
    }

    /** Written beside the state file and renamed over it, so a failed write leaves it alone. */
    method Record(pid: nat, born: Birth, clock: Option<Clock>, process: nat, writable: bool) returns (ok: bool)
      modifies this
      ensures ok == writable
      ensures file == if writable then Holds(Owned(pid, RecordedTime(born, clock), process, clock)) else old(file)
    {
      var current := CreateTime(born, clock);
      var tmp := Owned(pid, if current.None? then 0.0 else current.value, process, clock);
      if !writable { return false; }
      file := Holds(tmp);
      ok := true;
    }

    method Clear()
      modifies this
      ensures file == Absent
    {
      file := Absent;
    }

    function Read(): Option<Owned>
      reads this
    {
      match file
      case Holds(owned) => Some(owned)
      case Garbage => None
      case Absent => None
    }

    /** The killed process, if any. Afterwards no record can be read; the file itself stays
        only when it was unreadable to begin with. */
    method ReapOrphan(procs: seq<Process>, clock: Option<Clock>) returns (killed: Option<nat>)
      modifies this
      ensures Read() == None
      ensures file == if old(file) == Garbage then Garbage else Absent
      ensures killed.Some? <==> old(Read()).Some? && Judge(procs, old(Read()).value, clock).Reaped?
      ensures killed.Some? ==> killed == Holder(procs, old(Read()).value.pid)
    {
      var owned := Read();
      if owned.None? { return None; }
      var at := Holder(procs, owned.value.pid);
      if at.None? || !procs[at.value].status.Live? {
        Clear();
        return None;
      }
      var current := CreateTime(procs[at.value].born, clock);
      if owned.value.createTime == 0.0 || current.None? {
        Clear();
        return None;
      }
      if Apart(current.value, owned.value.createTime) {
        Clear();
        return None;
      }
      Clear();
      return at;
    }
  }

  /** `procs`, `life`, `mode` and `signals` are the host's; the rest is the server object's,
      with `calls` and `lock` standing for the coroutines suspended in it. */
  class VllmServer {
    const registry: ProcessRegistry
    var procs: seq<Process>
    var mode: Mode
    var life: nat
    var signals: seq<Signal>
    var state: ServerState
    var process: Option<nat>
    var lock: Lock
    var calls: seq<StartCall>

    function State(): World
      reads this, registry
    {
      World(procs, registry.Read(), mode, life, state, process, lock, calls, signals)
    }

    /** A new agent lifetime on a host. */
    constructor (was: World, state_file: ProcessRegistry)
      requires was.mode.Down? && state_file.Read() == was.record
      ensures registry == state_file && State() == After(was, Boot)
    {
      registry := state_file;
      procs, mode, life, signals := was.procs, Booting, was.life + 1, was.signals;
      state, process, lock, calls := STOPPED, None, Free, [];
    }

    method ReapOrphans(clock: Option<Clock>)
      requires mode.Booting?
      requires registry.Read().Some? ==> registry.Read().value.whose < |procs|
      modifies this, registry
      ensures State() == After(After(old(State()), ReapDecide(clock)), ReapClear)
    {
      var owned := registry.Read();
      var killed := registry.ReapOrphan(procs, clock);
      mode := Serving;
      if killed.Some? {
        procs := SetLiveness(procs, killed.value, Gone);
        signals := signals + [Signal(Reaper, killed.value)];
      } else if owned.Some? && procs[owned.value.whose].status.Live? {
        match Judge(procs, owned.value, clock) {
          case Unverifiable => procs := SetFate(procs, owned.value.whose, ReapRefused);
          case Recycled => procs := SetFate(procs, owned.value.whose, ReapMistaken);
          case Vanished =>
          case Reaped =>
        }
      }
    }

    /** Up to the launch. `call` is `None` when the guard or the missing executable raised. */
    method EnterStart(executable: bool) returns (call: Option<nat>)
      requires mode.Serving? && lock.Free?
      modifies this
      ensures State() == After(old(State()), BeginStart(executable))
      ensures call.Some? <==> executable && !old(state).STARTING? && !old(state).READY?
      ensures call.Some? ==> call == Some(|old(calls)|) && lock == HeldByStart(call.value)
    {
      if state == STARTING || state == READY {
        calls := calls + [StartCall(None, Raised)];
        return None;
      }
      if !executable {
        calls := calls + [StartCall(None, Raised)];
        return None;
      }
      call := Some(|calls|);
      state := STARTING;
      lock := HeldByStart(|calls|);
      calls := calls + [StartCall(None, Launching)];
    }

    /** `child` is what the spawning thread came back with, `None` for an `OSError`. */
    method Launch(configWritten: bool, child: Option<(nat, Birth)>) returns (launched: bool)
      requires lock.HeldByStart? && lock.call < |calls| && calls[lock.call] == StartCall(None, Launching)
      requires child.Some? ==> CanAppear(procs, child.value.0, child.value.1)
      modifies this
      ensures launched == (configWritten && child.Some?)
      ensures state == if configWritten && child.None? then FAILED else old(state)
      ensures lock == if launched then old(lock) else Free
      ensures State() == After(old(State()), if !configWritten then ConfigRaises
                                             else if child.None? then SpawnFails
                                             else Spawn(child.value.0, child.value.1))
    {
      var call := lock.call;
      if !configWritten || child.None? {
        if configWritten { state := FAILED; }
        calls := calls[call := StartCall(None, Raised)];
        lock := Free;
        return false;
      }
      calls := calls[call := StartCall(Some(|procs|), Spawned)];
      procs := procs + [Process(child.value.0, child.value.1, true, life, Live, Untracked)];
      launched := true;
    }

    /** The process is adopted before the record is written, and stays adopted if that raises. */
    method AdoptAndRecord(clock: Option<Clock>, writable: bool) returns (recorded: bool)
      requires HasUnrecordedChild(State())
      modifies this, registry
      ensures recorded == writable
      ensures State() == After(old(State()), if writable then Step.Record(clock) else RecordRaises)
    {
      var call := lock.call;
      var i := calls[call].child.value;
      process := Some(i);
      recorded := registry.Record(procs[i].pid, procs[i].born, clock, i, writable);
      procs := SetFate(procs, i, if recorded then Recorded else RecordingRaised);
      calls := calls[call := calls[call].(at := if recorded then Looking else Raised)];
      lock := Free;
    }

    /** One turn of the readiness loop, up to the question it asks. */
    method Poll(call: nat, late: bool) returns (asking: bool)
      requires CallAt(State(), call, Looking)
      requires process.Some? ==> process.value < |procs|
      modifies this
      ensures State() == After(old(State()), Look(call, late))
      ensures asking <==> !late && process.Some? && old(procs)[process.value].status.Live?
    {
      asking := false;
      if late {
        state := FAILED;
      } else if process.Some? {
        var exited := !procs[process.value].status.Live?;
        procs := Waited(procs, process.value);
        if exited { state := FAILED; } else { asking := true; }
      }
      calls := calls[call := calls[call].(at := if asking then Asking else Failing)];
    }

    method OnHealth(call: nat, health: Health)
      requires CallAt(State(), call, Asking)
      modifies this
      ensures State() == After(old(State()), Reply(call, health))
    {
      match health {
        case Serves =>
          state := READY;
          calls := calls[call := calls[call].(at := Capturing)];
        case NotYet => calls := calls[call := calls[call].(at := Looking)];
        case Breaks => calls := calls[call := calls[call].(at := Failing)];
      }
    }

    /** `caller` is the failing start on whose behalf this stop runs, if any. */
    method EnterStop(caller: Option<nat>) returns (terminating: bool)
      requires mode.Serving? && lock.Free? && (caller.Some? ==> CallAt(State(), caller.value, Failing))
      modifies this
      ensures State() == After(old(State()), BeginStop(caller))
      ensures terminating == process.Some?
    {
      if process.None? {
        state := STOPPED;
        if caller.Some? { calls := calls[caller.value := calls[caller.value].(at := Raised)]; }
        return false;
      }
      state := STOPPING;
      lock := HeldByStop(process.value, false, caller);
      terminating := true;
    }

    /** Signal whoever holds the child's pid, then wait on the child. */
    method TerminateChild()
      requires lock.HeldByStop? && !lock.killed && lock.target < |procs|
      modifies this
      ensures State() == After(old(State()), Terminate)
    {
      var group := Holder(procs, procs[lock.target].pid);
      if group.Some? { signals := signals + [Signal(Stopper, group.value)]; }
      procs := SetLiveness(procs, lock.target, Gone);
      lock := lock.(killed := true);
    }

    /** Awaiting a reader that failed re-raises its exception: nothing is cleared then. */
    method LeaveStop(readerFailed: bool)
      requires lock.HeldByStop? && lock.killed && (lock.caller.Some? ==> lock.caller.value < |calls|)
      modifies this, registry
      ensures State() == After(old(State()), if readerFailed then StopRaises else FinishStop)
    {
      if !readerFailed {
        registry.Clear();
        process, state := None, STOPPED;
      }
      if lock.caller.Some? {
        calls := calls[lock.caller.value := calls[lock.caller.value].(at := Raised)];
      }
      lock := Free;
    }
  }
}
