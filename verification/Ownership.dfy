/** Who owns the engine process on a GPU host, across crashes, restarts and recycled pids. */
module Ownership {
  import opened Prelude

  /** A zombie has exited but still holds its pid, because its parent has not waited on it. */
  datatype Liveness = Live | Zombie | Gone

  /** How a process stands towards the ownership record; history only, nothing reads it. */
  datatype Fate = Untracked | Recorded | CrashedBeforeRecord | RecordingRaised | ReapRefused | ReapMistaken

  /** When a process started: seconds since the epoch on the one clock the host offers, clock
      ticks since boot on the other. */
  datatype Birth = Birth(epoch: real, ticks: real)

  datatype Clock = Epoch | Ticks

  datatype Process = Process(pid: nat, born: Birth, engine: bool, life: nat, status: Liveness, fate: Fate)

  /** The record on disk. `whose` names the process it was written for and `clock` what its
      start time was read from, if it was read; history only. */
  datatype Owned = Owned(pid: nat, createTime: real, whose: nat, clock: Option<Clock>)

  datatype ServerState = STOPPED | STARTING | READY | STOPPING | FAILED

  /** Where one `start` call has got to. `Launching` and `Spawned` hold the lock; `Failing`
      is about to run its own stop. */
  datatype Point = Launching | Spawned | Looking | Asking | Capturing | Failing | Returned | Raised

  datatype StartCall = StartCall(child: Option<nat>, at: Point)

  datatype Lock = Free | HeldByStart(call: nat) | HeldByStop(target: nat, killed: bool, caller: Option<nat>)

  datatype Verdict = Vanished | Unverifiable | Recycled | Reaped

  /** `Booting` has not looked at the record yet, `Clearing` is about to unlink it. */
  datatype Mode = Down | Booting | Clearing(verdict: Verdict) | Serving

  datatype Sender = Reaper | Stopper

  datatype Signal = Signal(sender: Sender, victim: nat)

  datatype World = World(procs: seq<Process>, record: Option<Owned>, mode: Mode, life: nat, state: ServerState,
                         process: Option<nat>, lock: Lock, calls: seq<StartCall>, signals: seq<Signal>)

  datatype Health = Serves | NotYet | Breaks

  datatype Step =
    | Appear(pid: nat, born: Birth)               // a process nobody here spawned
    | Exit(i: nat)                                // any process ends by itself
    | Crash
    | Boot
    | ReapDecide(clock: Option<Clock>)            // what the start time is read from, if it can be
    | ReapClear
    | BeginStart(executable: bool)
    | ConfigRaises
    | SpawnFails
    | Spawn(newPid: nat, at: Birth)
    | Record(clock: Option<Clock>)
    | RecordRaises
    | Look(call: nat, late: bool)                 // one turn of the readiness loop
    | Reply(call: nat, health: Health)
    | Captured(call: nat, fine: bool)
    | BeginStop(caller: Option<nat>)              // `Some` when a failing start stops itself
    | Terminate
    | FinishStop
    | StopRaises                                  // whoever reads the child's output had failed

  // ---- Processes and pids -----------------------------------------------------------

  /** The process at a pid, dead but unreaped ones included. */
  function Holder(procs: seq<Process>, pid: nat): (h: Option<nat>)
    ensures h.Some? ==> h.value < |procs| && procs[h.value].pid == pid && !procs[h.value].status.Gone?
    ensures h.None? ==> forall i :: 0 <= i < |procs| && procs[i].pid == pid ==> procs[i].status.Gone?
    decreases |procs|
  {
    if procs == [] then None
    else
      var last := |procs| - 1;
      if procs[last].pid == pid && !procs[last].status.Gone? then Some(last) else Holder(procs[..last], pid)
  }

  predicate Apart(a: real, b: real) {
    a - b > 1.0 || b - a > 1.0
  }

  /** Apart on either clock. */
  predicate BornApart(a: Birth, b: Birth) {
    Apart(a.epoch, b.epoch) && Apart(a.ticks, b.ticks)
  }

  function On(b: Birth, clock: Clock): real {
    match clock
    case Epoch => b.epoch
    case Ticks => b.ticks
  }

  /** The start time as it is recorded: 0 when it cannot be read. */
  function RecordedTime(b: Birth, clock: Option<Clock>): real {
    match clock
    case Some(c) => On(b, c)
    case None => 0.0
  }

  /** What the host guarantees of a process about to start: its pid is free, and earlier
      processes that had the pid started more than a second away. */
  predicate CanAppear(procs: seq<Process>, pid: nat, born: Birth) {
    forall i :: 0 <= i < |procs| && procs[i].pid == pid ==> procs[i].status.Gone? && BornApart(procs[i].born, born)
  }

  function SetLiveness(procs: seq<Process>, i: nat, s: Liveness): seq<Process>
    requires i < |procs|
  {
    procs[i := procs[i].(status := s)]
  }

  function SetFate(procs: seq<Process>, i: nat, f: Fate): seq<Process>
    requires i < |procs|
  {
    procs[i := procs[i].(fate := f)]
  }

  /** The agent waits on a child it found dead. Waiting on a live one changes nothing. */
  function Waited(procs: seq<Process>, i: nat): seq<Process>
    requires i < |procs|
  {
    if procs[i].status.Zombie? then SetLiveness(procs, i, Gone) else procs
  }

  // ---- Calls ------------------------------------------------------------------------

  predicate CallAt(w: World, k: nat, p: Point) {
    k < |w.calls| && w.calls[k].at == p
  }

  function MoveCall(w: World, k: nat, p: Point): World
    requires k < |w.calls|
  {
    w.(calls := w.calls[k := w.calls[k].(at := p)])
  }

  predicate Done(c: StartCall) {
    c.at.Returned? || c.at.Raised?
  }

  predicate AllDone(w: World) {
    forall k :: 0 <= k < |w.calls| ==> Done(w.calls[k])
  }

  /** The child exists and the record does not name it yet. */
  predicate InWindow(w: World, i: nat) {
    w.lock.HeldByStart? && w.lock.call < |w.calls| && w.calls[w.lock.call] == StartCall(Some(i), Spawned)
  }

  // ---- The host ---------------------------------------------------------------------

  function Appears(w: World, pid: nat, born: Birth): World {
    if CanAppear(w.procs, pid, born)
    then w.(procs := w.procs + [Process(pid, born, false, 0, Live, Untracked)])
    else w
  }

  /** A child of the running agent stays a zombie until the agent waits on it. */
  function Exits(w: World, i: nat): World {
    if i < |w.procs| && w.procs[i].status.Live? then
      var child := w.procs[i].engine && w.procs[i].life == w.life && w.mode.Serving?;
      w.(procs := SetLiveness(w.procs, i, if child then Zombie else Gone))
    else w
  }

  /** The agent dies. Its unreaped children are waited on by init. */
  function Crashes(w: World): World {
    if w.mode.Down? then w
    else w.(procs := Orphaned(w), mode := Down, lock := Free, calls := [], process := None, state := STOPPED)
  }

  function Orphaned(w: World): (r: seq<Process>)
    ensures |r| == |w.procs|
    ensures forall i :: 0 <= i < |r| ==>
      r[i] == w.procs[i].(status := if w.procs[i].status.Zombie? then Gone else w.procs[i].status,
                          fate := if InWindow(w, i) then CrashedBeforeRecord else w.procs[i].fate)
  {
    seq(|w.procs|, i requires 0 <= i < |w.procs| =>
      w.procs[i].(status := if w.procs[i].status.Zombie? then Gone else w.procs[i].status,
                  fate := if InWindow(w, i) then CrashedBeforeRecord else w.procs[i].fate))
  }

  // ---- The startup reap ---------------------------------------------------------------

  function Boots(w: World): World {
    if w.mode.Down? then w.(mode := Booting, life := w.life + 1, state := STOPPED, process := None, lock := Free, calls := [])
    else w
  }

  /** What the reap makes of a record, given the clock the start time at its pid is read from.
      Which clock the record was written on is not known. */
  function Judge(procs: seq<Process>, owned: Owned, clock: Option<Clock>): Verdict {
    var h := Holder(procs, owned.pid);
    if h.None? || !procs[h.value].status.Live? then Vanished
    else if owned.createTime == 0.0 || clock.None? then Unverifiable
    else if Apart(On(procs[h.value].born, clock.value), owned.createTime) then Recycled
    else Reaped
  }

  function ReapDecides(w: World, clock: Option<Clock>): World {
    if !w.mode.Booting? then w
    else if w.record.None? then w.(mode := Serving)
    else
      var owned := w.record.value;
      var v := Judge(w.procs, owned, clock);
      if v.Reaped? then
        var h := Holder(w.procs, owned.pid).value;
        w.(procs := SetLiveness(w.procs, h, Gone), signals := w.signals + [Signal(Reaper, h)], mode := Clearing(v))
      else w.(mode := Clearing(v))
  }

  function ReapClears(w: World): World {
    if !w.mode.Clearing? then w
    else
      var v := w.mode.verdict;
      var lost := (v.Unverifiable? || v.Recycled?) && w.record.Some? && w.record.value.whose < |w.procs|
                  && w.procs[w.record.value.whose].status.Live?;
      w.(procs := if lost then SetFate(w.procs, w.record.value.whose, if v.Recycled? then ReapMistaken else ReapRefused) else w.procs,
         record := None, mode := Serving)
  }

  // ---- start ------------------------------------------------------------------------

  function BeginsStart(w: World, executable: bool): World {
    if !w.mode.Serving? || !w.lock.Free? then w
    else if w.state.STARTING? || w.state.READY? || !executable then w.(calls := w.calls + [StartCall(None, Raised)])
    else w.(calls := w.calls + [StartCall(None, Launching)], state := STARTING, lock := HeldByStart(|w.calls|))
  }

  /** Writing the config file raises: outside the handler, so the state stays STARTING. */
  function ConfigFails(w: World): World {
    if w.lock.HeldByStart? && CallAt(w, w.lock.call, Launching)
    then MoveCall(w, w.lock.call, Raised).(lock := Free)
    else w
  }

  function LaunchFails(w: World): World {
    if w.lock.HeldByStart? && CallAt(w, w.lock.call, Launching)
    then MoveCall(w, w.lock.call, Raised).(lock := Free, state := FAILED)
    else w
  }

  function Spawns(w: World, pid: nat, born: Birth): World {
    if w.lock.HeldByStart? && CallAt(w, w.lock.call, Launching) && CanAppear(w.procs, pid, born)
    then w.(procs := w.procs + [Process(pid, born, true, w.life, Live, Untracked)],
            calls := w.calls[w.lock.call := StartCall(Some(|w.procs|), Spawned)])
    else w
  }

  predicate HasUnrecordedChild(w: World) {
    && w.lock.HeldByStart? && CallAt(w, w.lock.call, Spawned)
    && w.calls[w.lock.call].child.Some? && w.calls[w.lock.call].child.value < |w.procs|
  }

  function Records(w: World, clock: Option<Clock>): World {
    if HasUnrecordedChild(w) then
      var i := w.calls[w.lock.call].child.value;
      MoveCall(w, w.lock.call, Looking).(
        procs := SetFate(w.procs, i, Recorded), process := Some(i), lock := Free,
        record := Some(Owned(w.procs[i].pid, RecordedTime(w.procs[i].born, clock), i, clock)))
    else w
  }

  /** Writing the record raises, which no handler of `start` covers. */
  function RecordFails(w: World): World {
    if HasUnrecordedChild(w) then
      var i := w.calls[w.lock.call].child.value;
      MoveCall(w, w.lock.call, Raised).(procs := SetFate(w.procs, i, RecordingRaised), process := Some(i), lock := Free)
    else w
  }

  /** The deadline first, then whether a stop took the process away, then whether it died. */
  function Looks(w: World, k: nat, late: bool): World {
    if !CallAt(w, k, Looking) then w
    else if late then MoveCall(w, k, Failing).(state := FAILED)
    else if w.process.None? || w.process.value >= |w.procs| then MoveCall(w, k, Failing)
    else if !w.procs[w.process.value].status.Live? then
      MoveCall(w, k, Failing).(state := FAILED, procs := Waited(w.procs, w.process.value))
    else MoveCall(w, k, Asking)
  }

  /** A reply is acted on without another look at the process. */
  function Replies(w: World, k: nat, health: Health): World {
    if !CallAt(w, k, Asking) then w
    else match health
      case Serves => MoveCall(w, k, Capturing).(state := READY)
      case NotYet => MoveCall(w, k, Looking)
      case Breaks => MoveCall(w, k, Failing)
  }

  function Captures(w: World, k: nat, fine: bool): World {
    if CallAt(w, k, Capturing) then MoveCall(w, k, if fine then Returned else Failing) else w
  }

  // ---- stop -------------------------------------------------------------------------

  /** A failing start raises once its own stop is over. */
  function Leave(w: World, caller: Option<nat>): World {
    if caller.Some? && caller.value < |w.calls| then MoveCall(w, caller.value, Raised) else w
  }

  function BeginsStop(w: World, caller: Option<nat>): World {
    if !w.mode.Serving? || !w.lock.Free? || (caller.Some? && !CallAt(w, caller.value, Failing)) then w
    else if w.process.None? then Leave(w, caller).(state := STOPPED)
    else w.(state := STOPPING, lock := HeldByStop(w.process.value, false, caller))
  }

  /** Signal the group at the child's pid, then wait on the child. */
  function Terminates(w: World): World {
    if w.lock.HeldByStop? && !w.lock.killed && w.lock.target < |w.procs| then
      var h := Holder(w.procs, w.procs[w.lock.target].pid);
      w.(procs := SetLiveness(w.procs, w.lock.target, Gone), lock := w.lock.(killed := true),
         signals := w.signals + if h.Some? then [Signal(Stopper, h.value)] else [])
    else w
  }

  function FinishesStop(w: World): World {
    if w.lock.HeldByStop? && w.lock.killed
    then Leave(w, w.lock.caller).(record := None, process := None, state := STOPPED, lock := Free)
    else w
  }

  /** Awaiting the reader re-raises its exception, before the record is cleared. */
  function StopFails(w: World): World {
    if w.lock.HeldByStop? && w.lock.killed then Leave(w, w.lock.caller).(lock := Free) else w
  }

  // ---- Runs -------------------------------------------------------------------------

  function After(w: World, s: Step): World {
    match s
    case Appear(pid, born) => Appears(w, pid, born)
    case Exit(i) => Exits(w, i)
    case Crash => Crashes(w)
    case Boot => Boots(w)
    case ReapDecide(clock) => ReapDecides(w, clock)
    case ReapClear => ReapClears(w)
    case BeginStart(executable) => BeginsStart(w, executable)
    case ConfigRaises => ConfigFails(w)
    case SpawnFails => LaunchFails(w)
    case Spawn(pid, born) => Spawns(w, pid, born)
    case Record(clock) => Records(w, clock)
    case RecordRaises => RecordFails(w)
    case Look(k, late) => Looks(w, k, late)
    case Reply(k, health) => Replies(w, k, health)
    case Captured(k, fine) => Captures(w, k, fine)
    case BeginStop(caller) => BeginsStop(w, caller)
    case Terminate => Terminates(w)
    case FinishStop => FinishesStop(w)
    case StopRaises => StopFails(w)
  }

  /** A host on which nothing has run yet. */
  const Fresh: World := World([], None, Down, 0, STOPPED, None, Free, [], [])

  function Play(steps: seq<Step>): World
    decreases |steps|
  {
    if steps == [] then Fresh else After(Play(steps[..|steps| - 1]), steps[|steps| - 1])
  }

  /** No `start` is called while another is outstanding. */
  ghost predicate OneStartAtATime(steps: seq<Step>) {
    forall n :: 0 <= n < |steps| && steps[n].BeginStart? ==> AllDone(Play(steps[..n]))
  }
}
