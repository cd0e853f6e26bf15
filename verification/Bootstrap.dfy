/**
 * The daemon bootstrap protocol as a transition system.
 *
 * Any number of shims (`shim::connect_or_bootstrap`), CLI rebuilds (`cli::reindex::stop_for_rebuild`)
 * and daemons (`daemon::run`) of one project interleave. They share two advisory locks and four
 * small files in the project's state directory. Every constructor of a program counter below is one
 * point at which another process may run; a run is a sequence of labels, each naming the process
 * that takes its next step.
 */
module Bootstrap {
  import opened Prelude

  /** Process ids. They are never reused: a process that ended keeps its entry. */
  type Pid = nat

  /** What `build_stamp::vintage` compares: the executable's mtime, then the plugins' fingerprint. */
  datatype Build = Build(mtime: int, plugin: string)

  datatype Vintage = Current | Outdated | PluginChanged | Unknown

  function VintageOf(published: Option<Build>, ours: Build): Vintage
  {
    if published.None? then Unknown
    else if published.value.mtime < ours.mtime then Outdated
    else if published.value.mtime == ours.mtime && published.value.plugin != ours.plugin then PluginChanged
    else Current
  }

  /** A shim of build `ours` would replace a daemon that published `theirs`. */
  predicate Supersedes(ours: Build, theirs: Build)
  {
    VintageOf(Some(theirs), ours) != Current
  }

  datatype Outcome = Connected | RebuildRunning | TimedOut | Killed

  datatype ShimPc =
    | CheckRebuild                 // rebuilding(root), before the lock
    | Connect                      // incumbent: connect
    | ReadStamp                    // incumbent: connected, reading the stamp
    | AwaitLock                    // acquire_bootstrap_lock
    | LockedCheckRebuild           // from here on the shim holds the bootstrap lock
    | LockedConnect
    | LockedReadStamp
    | StopPick                     // retire_outdated_daemon: stop::stop finds its target
    | StopKill(target: Pid)
    | StopTidy
    | FallbackConnect              // the outdated daemon would not stop
    | FirstProbe                   // evict_wedged_daemon: first look, is anything listening?
    | FirstInspect                 //   first look, lock and serving record
    | SecondProbe(suspect: Pid)    //   second look, after WEDGE_CONFIRMATION
    | SecondInspect(suspect: Pid)
    | Evict(suspect: Pid)
    | SpawnDaemon
    | Waiting(child: Pid)          // wait_until_listening
    | Finished(outcome: Outcome)

  datatype RebuildPc =
    | AwaitBootstrap
    | WriteMarker
    | RebuildPick
    | RebuildKill(target: Pid)
    | RebuildTidy
    | TakeDaemonLock
    | ClearRecord
    | DropBootstrap
    | Rebuilding                   // marker and daemon lock held, bootstrap lock released
    | DropMarker
    | DropDaemonLock
    | BailMarker
    | BailBootstrap
    | RebuildOver

  datatype Phase =
    | Spawned                      // before acquire_singleton_lock
    | TookLock
    | ClearedRecord
    | ClearedMarker
    | Stamped
    | Bound                        // the socket accepts connections from here on
    | PidWritten
    | Recorded                     // record_serving_owner
    | StampRemoved                 // teardown: release_state_files, in its order
    | PidRemoved
    | Wedged                       // holds the lock, no longer listening
    | Released
    | Gone

  datatype Proc =
    | Shim(build: Build, pc: ShimPc)
    | Rebuild(rpc: RebuildPc)
    | Daemon(build: Build, spawner: Pid, phase: Phase)

  /** What happened so far: builds in the order they bound the socket, builds of daemons a shim
      retired, and the number of daemons spawned. No step reads it. */
  datatype History = History(bound: seq<Build>, retired: seq<Build>, spawned: nat)

  datatype State = State(
    procs: map<Pid, Proc>,
    boot: Option<Pid>,             // holder of bootstrap.lock
    lock: Option<Pid>,             // holder of daemon.lock
    marker: Option<Pid>,           // reindex.pid
    serving: Option<Pid>,          // daemon.serving
    pidFile: Option<Pid>,          // daemon.pid
    stamp: Option<Build>,          // daemon.build
    history: History)

  /** A cold project: no process, no lock held, no state file. */
  function Init(): State
  {
    State(map[], None, None, None, None, None, None, History([], [], 0))
  }

  datatype Label =
    | StartShim(pid: Pid, build: Build)
    | StartRebuild(pid: Pid)
    | ShimStep(pid: Pid)
    | StopFails(pid: Pid)          // stop::stop or terminate_daemon reports an error
    | Spawn(pid: Pid, child: Pid)
    | GiveUp(pid: Pid)             // wait_until_listening passes its deadline
    | RebuildStep(pid: Pid)
    | RebuildGivesUp(pid: Pid)     // stop fails, or the daemon lock stays contended
    | DaemonStep(pid: Pid)
    | StandDown(pid: Pid)          // the daemon lock stays contended
    | Close(pid: Pid)              // idle or orphaned: teardown begins
    | Wedge(pid: Pid)              // the accept loop ends, the process does not
    | Crash(pid: Pid)              // killed from outside; the kernel drops its locks

  // ---- what a process can observe ----

  predicate ListeningPhase(phase: Phase)
  {
    phase.Bound? || phase.PidWritten? || phase.Recorded? || phase.StampRemoved? || phase.PidRemoved?
  }

  predicate IsListening(x: Proc)
  {
    x.Daemon? && ListeningPhase(x.phase)
  }

  /** Someone accepts connections on the project's endpoint. */
  predicate Listening(s: State)
  {
    exists p :: p in s.procs && IsListening(s.procs[p])
  }

  predicate Ended(x: Proc)
  {
    match x
    case Shim(_, pc) => pc.Finished?
    case Rebuild(rpc) => rpc.RebuildOver?
    case Daemon(_, _, phase) => phase.Gone?
  }

  predicate Alive(s: State, p: Pid)
  {
    p in s.procs && !Ended(s.procs[p])
  }

  /** `daemon::rebuild_in_progress`. */
  predicate RebuildSeen(s: State)
  {
    s.marker.Some? && Alive(s, s.marker.value) && s.lock.Some?
  }

  /** The second half of `inspect_daemon_lock`, once the socket did not answer: the wedged holder. */
  function WedgedHolder(s: State): Option<Pid>
  {
    if s.lock.Some? && s.serving.Some? && Alive(s, s.serving.value) then s.serving else None
  }

  /** The process `stop::stop` terminates: the live pid on file, else the wedged lock holder. */
  function StopTarget(s: State): Option<Pid>
  {
    if s.pidFile.Some? && Alive(s, s.pidFile.value) then s.pidFile
    else if Listening(s) then None
    else WedgedHolder(s)
  }

  // ---- effects ----

  function Put(s: State, p: Pid, x: Proc): State
  {
    s.(procs := s.procs[p := x])
  }

  function Without(holder: Option<Pid>, p: Pid): Option<Pid>
  {
    if holder == Some(p) then None else holder
  }

  function EndOf(x: Proc): Proc
  {
    match x
    case Shim(build, _) => Shim(build, Finished(Killed))
    case Rebuild(_) => Rebuild(RebuildOver)
    case Daemon(build, spawner, _) => Daemon(build, spawner, Gone)
  }

  /** A process ends by a signal: the kernel releases both of its locks, its files stay. */
  function Kill(s: State, p: Pid): State
    requires p in s.procs
  {
    if Ended(s.procs[p]) then s
    else Put(s, p, EndOf(s.procs[p])).(boot := Without(s.boot, p), lock := Without(s.lock, p))
  }

  /** `tidy_state_files`. */
  function Tidy(s: State): State
  {
    s.(pidFile := if s.pidFile.Some? && Alive(s, s.pidFile.value) then s.pidFile else None,
       stamp := if Listening(s) then s.stamp else None)
  }

  // ---- shims ----

  function Goto(s: State, p: Pid, pc: ShimPc): State
    requires p in s.procs && s.procs[p].Shim?
  {
    Put(s, p, s.procs[p].(pc := pc))
  }

  /** The shim returns; dropping the lock file releases the bootstrap lock if it holds it. */
  function Finish(s: State, p: Pid, outcome: Outcome): State
    requires p in s.procs && s.procs[p].Shim?
  {
    Goto(s, p, Finished(outcome)).(boot := Without(s.boot, p))
  }

  predicate IsShim(s: State, p: Pid)
  {
    p in s.procs && s.procs[p].Shim?
  }

  predicate ShimReady(s: State, p: Pid)
  {
    && IsShim(s, p)
    && match s.procs[p].pc
       case AwaitLock => s.boot.None?
       case StopKill(t) => t in s.procs
       case Evict(t) => t in s.procs
       case SpawnDaemon => false
       case Waiting(_) => Listening(s)
       case Finished(_) => false
       case _ => true
  }

  function ShimNext(s: State, p: Pid): State
    requires ShimReady(s, p)
  {
    var build := s.procs[p].build;
    match s.procs[p].pc
    case CheckRebuild => if RebuildSeen(s) then Finish(s, p, RebuildRunning) else Goto(s, p, Connect)
    case Connect => Goto(s, p, if Listening(s) then ReadStamp else AwaitLock)
    case ReadStamp =>
      if VintageOf(s.stamp, build).Current? then Finish(s, p, Connected) else Goto(s, p, AwaitLock)
    case AwaitLock => Goto(s, p, LockedCheckRebuild).(boot := Some(p))
    case LockedCheckRebuild =>
      if RebuildSeen(s) then Finish(s, p, RebuildRunning) else Goto(s, p, LockedConnect)
    case LockedConnect => Goto(s, p, if Listening(s) then LockedReadStamp else FirstProbe)
    case LockedReadStamp =>
      if VintageOf(s.stamp, build).Current? then Finish(s, p, Connected) else Goto(s, p, StopPick)
    case StopPick =>
      Goto(s, p, if StopTarget(s).Some? then StopKill(StopTarget(s).value) else StopTidy)
    case StopKill(t) =>
      var s' := Goto(Kill(s, t), p, StopTidy);
      if s.procs[t].Daemon? then
        s'.(history := s.history.(retired := s.history.retired + [s.procs[t].build]))
      else s'
    case StopTidy => Goto(Tidy(s), p, SpawnDaemon)
    case FallbackConnect => if Listening(s) then Finish(s, p, Connected) else Goto(s, p, SpawnDaemon)
    case FirstProbe => Goto(s, p, if Listening(s) then SpawnDaemon else FirstInspect)
    case FirstInspect =>
      Goto(s, p, if WedgedHolder(s).Some? then SecondProbe(WedgedHolder(s).value) else SpawnDaemon)
    case SecondProbe(q) => Goto(s, p, if Listening(s) then SpawnDaemon else SecondInspect(q))
    case SecondInspect(q) => Goto(s, p, if WedgedHolder(s) == Some(q) then Evict(q) else SpawnDaemon)
    case Evict(q) => Goto(Kill(s, q), p, SpawnDaemon)
    case Waiting(_) => Finish(s, p, Connected)
  }

  function ShimSpawns(s: State, p: Pid, child: Pid): State
    requires IsShim(s, p)
  {
    Put(Goto(s, p, Waiting(child)), child, Daemon(s.procs[p].build, p, Spawned))
      .(history := s.history.(spawned := s.history.spawned + 1))
  }

  // ---- rebuilds ----

  function RGoto(s: State, p: Pid, rpc: RebuildPc): State
  {
    Put(s, p, Rebuild(rpc))
  }

  predicate RebuildReady(s: State, p: Pid)
  {
    && p in s.procs && s.procs[p].Rebuild?
    && match s.procs[p].rpc
       case AwaitBootstrap => s.boot.None?
       case RebuildKill(t) => t in s.procs
       case TakeDaemonLock => s.lock.None?
       case RebuildOver => false
       case _ => true
  }

  function RebuildNext(s: State, p: Pid): State
    requires RebuildReady(s, p)
  {
    match s.procs[p].rpc
    case AwaitBootstrap => RGoto(s, p, WriteMarker).(boot := Some(p))
    case WriteMarker => RGoto(s, p, RebuildPick).(marker := Some(p))
    case RebuildPick =>
      RGoto(s, p, if StopTarget(s).Some? then RebuildKill(StopTarget(s).value) else RebuildTidy)
    case RebuildKill(t) => RGoto(Kill(s, t), p, RebuildTidy)
    case RebuildTidy => RGoto(Tidy(s), p, TakeDaemonLock)
    case TakeDaemonLock => RGoto(s, p, ClearRecord).(lock := Some(p))
    case ClearRecord => RGoto(s, p, DropBootstrap).(serving := None)
    case DropBootstrap => RGoto(s, p, Rebuilding).(boot := None)
    case Rebuilding => RGoto(s, p, DropMarker)
    case DropMarker => RGoto(s, p, DropDaemonLock).(marker := None)
    case DropDaemonLock => RGoto(s, p, RebuildOver).(lock := None)
    case BailMarker => RGoto(s, p, BailBootstrap).(marker := None)
    case BailBootstrap => RGoto(s, p, RebuildOver).(boot := None)
  }

  predicate RebuildMayGiveUp(s: State, p: Pid)
  {
    && p in s.procs && s.procs[p].Rebuild?
    && (s.procs[p].rpc.RebuildKill? || (s.procs[p].rpc.TakeDaemonLock? && s.lock.Some?))
  }

  // ---- daemons ----

  predicate IsDaemon(s: State, p: Pid)
  {
    p in s.procs && s.procs[p].Daemon?
  }

  predicate DaemonReady(s: State, p: Pid)
  {
    && IsDaemon(s, p)
    && (s.procs[p].phase.Spawned? ==> s.lock.None?)
    && !s.procs[p].phase.Recorded? && !s.procs[p].phase.Gone?
  }

  function DGoto(s: State, p: Pid, phase: Phase): State
    requires IsDaemon(s, p)
  {
    Put(s, p, s.procs[p].(phase := phase))
  }

  function DaemonNext(s: State, p: Pid): State
    requires DaemonReady(s, p)
  {
    match s.procs[p].phase
    case Spawned => DGoto(s, p, TookLock).(lock := Some(p))
    case TookLock => DGoto(s, p, ClearedRecord).(serving := None)
    case ClearedRecord => DGoto(s, p, ClearedMarker).(marker := None)
    case ClearedMarker => DGoto(s, p, Stamped).(stamp := Some(s.procs[p].build))
    case Stamped =>
      DGoto(s, p, Bound).(history := s.history.(bound := s.history.bound + [s.procs[p].build]))
    case Bound => DGoto(s, p, PidWritten).(pidFile := Some(p))
    case PidWritten => DGoto(s, p, Recorded).(serving := Some(p))
    case StampRemoved => DGoto(s, p, PidRemoved).(pidFile := None)
    case PidRemoved => DGoto(s, p, Wedged)
    case Wedged => DGoto(s, p, Released).(lock := None)
    case Released => DGoto(s, p, Gone)
  }

  // ---- runs ----

  predicate Enabled(s: State, l: Label)
  {
    match l
    case StartShim(p, _) => p !in s.procs
    case StartRebuild(p) => p !in s.procs
    case ShimStep(p) => ShimReady(s, p)
    case StopFails(p) => IsShim(s, p) && (s.procs[p].pc.StopKill? || s.procs[p].pc.Evict?)
    case Spawn(p, child) => IsShim(s, p) && s.procs[p].pc.SpawnDaemon? && child !in s.procs
    case GiveUp(p) => IsShim(s, p) && s.procs[p].pc.Waiting?
    case RebuildStep(p) => RebuildReady(s, p)
    case RebuildGivesUp(p) => RebuildMayGiveUp(s, p)
    case DaemonStep(p) => DaemonReady(s, p)
    case StandDown(p) => IsDaemon(s, p) && s.procs[p].phase.Spawned? && s.lock.Some?
    case Close(p) => IsDaemon(s, p) && s.procs[p].phase.Recorded?
    case Wedge(p) => IsDaemon(s, p) && s.procs[p].phase.Recorded?
    case Crash(p) => Alive(s, p)
  }

  function Apply(s: State, l: Label): State
    requires Enabled(s, l)
  {
    match l
    case StartShim(p, build) => Put(s, p, Shim(build, CheckRebuild))
    case StartRebuild(p) => Put(s, p, Rebuild(AwaitBootstrap))
    case ShimStep(p) => ShimNext(s, p)
    case StopFails(p) => Goto(s, p, if s.procs[p].pc.StopKill? then FallbackConnect else SpawnDaemon)
    case Spawn(p, child) => ShimSpawns(s, p, child)
    case GiveUp(p) => Finish(s, p, TimedOut)
    case RebuildStep(p) => RebuildNext(s, p)
    case RebuildGivesUp(p) => RGoto(s, p, BailMarker)
    case DaemonStep(p) => DaemonNext(s, p)
    case StandDown(p) => DGoto(s, p, Gone)
    case Close(p) => DGoto(s, p, StampRemoved).(stamp := None)
    case Wedge(p) => DGoto(s, p, Wedged)
    case Crash(p) => Kill(s, p)
  }

  /** The state a run of labels from `s` ends in; `None` when some label was not enabled. */
  function Exec(s: State, labels: seq<Label>): Option<State>
  {
    if labels == [] then Some(s)
    else
      var before := Exec(s, labels[..|labels| - 1]);
      if before.Some? && Enabled(before.value, labels[|labels| - 1])
      then Some(Apply(before.value, labels[|labels| - 1]))
      else None
  }

  /** `s` is the end of some run from the cold project. */
  ghost predicate Reachable(s: State)
  {
    exists labels: seq<Label> :: Exec(Init(), labels) == Some(s)
  }

  /** A kind of run: which labels may follow which states. */
  type Kind = (State, Label) -> bool

  /** The run from the cold project is defined and every label of it is of the kind. */
  predicate RunOf(kind: Kind, labels: seq<Label>)
  {
    labels == [] ||
    var before := labels[..|labels| - 1];
    && RunOf(kind, before)
    && Exec(Init(), before).Some?
    && Enabled(Exec(Init(), before).value, labels[|labels| - 1])
    && kind(Exec(Init(), before).value, labels[|labels| - 1])
  }

  /** `s` is the end of some run of the kind. */
  ghost predicate ReachableBy(kind: Kind, s: State)
  {
    exists labels: seq<Label> :: RunOf(kind, labels) && Exec(Init(), labels) == Some(s)
  }
}
