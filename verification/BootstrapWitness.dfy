/** Concrete runs that show why the protocol's theorems are stated as they are. */
module BootstrapWitness {
  import opened Prelude
  import opened Bootstrap
  import opened BootstrapSafety
  import opened BootstrapSteady
  import opened BootstrapCalm
  import opened BootstrapStamp

  /** The kinds of run the witnesses belong to. */
  datatype Family = Any | Undying | Steady | Calm

  /** No process is killed, no daemon exits or wedges, and no rebuild runs; daemons may start late. */
  predicate UndyingLabel(s: State, l: Label)
  {
    !l.StartRebuild? && !l.RebuildStep? && !l.RebuildGivesUp? && !l.Close? && !l.Wedge? && !l.Crash?
  }

  predicate Allows(f: Family, s: State, l: Label)
  {
    match f
    case Any => true
    case Undying => UndyingLabel(s, l)
    case Steady => SteadyLabel(s, l)
    case Calm => CalmLabel(s, l)
  }

  /** Some run of the family reaches `s`. */
  ghost predicate Reached(f: Family, s: State)
  {
    match f
    case Any => Reachable(s)
    case Undying => ReachableBy(UndyingLabel, s)
    case Steady => ReachableBy(SteadyLabel, s)
    case Calm => ReachableBy(CalmLabel, s)
  }

  lemma ReachedIsReachable(f: Family, s: State)
    requires Reached(f, s)
    ensures Reachable(s)
  {
    match f
    case Any =>
    case Undying => var labels :| RunOf(UndyingLabel, labels) && Exec(Init(), labels) == Some(s);
    case Steady => var labels :| RunOf(SteadyLabel, labels) && Exec(Init(), labels) == Some(s);
    case Calm => var labels :| RunOf(CalmLabel, labels) && Exec(Init(), labels) == Some(s);
  }

  lemma OneMoreLabel(kind: Kind, labels: seq<Label>, s: State, l: Label)
    requires Exec(Init(), labels) == Some(s) && Enabled(s, l)
    ensures Exec(Init(), labels + [l]) == Some(Apply(s, l))
    ensures RunOf(kind, labels) && kind(s, l) ==> RunOf(kind, labels + [l])
  {
    assert (labels + [l])[..|labels|] == labels;
  }

  lemma ActOf(kind: Kind, s: State, l: Label)
    requires ReachableBy(kind, s) && Enabled(s, l) && kind(s, l)
    ensures ReachableBy(kind, Apply(s, l))
  {
    var labels :| RunOf(kind, labels) && Exec(Init(), labels) == Some(s);
    OneMoreLabel(kind, labels, s, l);
  }

  lemma Act(f: Family, s: State, l: Label) returns (s': State)
    requires Reached(f, s) && Enabled(s, l) && Allows(f, s, l)
    ensures s' == Apply(s, l) && Reached(f, s')
  {
    s' := Apply(s, l);
    match f
    case Any =>
      var labels :| Exec(Init(), labels) == Some(s);
      OneMoreLabel(CalmLabel, labels, s, l);
    case Undying => ActOf(UndyingLabel, s, l);
    case Steady => ActOf(SteadyLabel, s, l);
    case Calm => ActOf(CalmLabel, s, l);
  }

  lemma InitReached(f: Family)
    ensures Reached(f, Init())
  {
    assert Exec(Init(), []) == Some(Init());
    assert RunOf(UndyingLabel, []) && RunOf(SteadyLabel, []) && RunOf(CalmLabel, []);
  }

  /** `s` with shim `p` at `pc`, holding the bootstrap lock if `locked`. */
  function WithShim(s: State, p: Pid, build: Build, pc: ShimPc, locked: bool): State
  {
    Put(s, p, Shim(build, pc)).(boot := if locked then Some(p) else s.boot)
  }

  /** Adding a shim changes nothing another process can see. */
  lemma ShimUnseen(f: Family, s: State, p: Pid, build: Build, pc: ShimPc, locked: bool)
    requires Reached(f, s) && p !in s.procs
    ensures Listening(WithShim(s, p, build, pc, locked)) <==> Listening(s)
    ensures RebuildSeen(WithShim(s, p, build, pc, locked)) <==> RebuildSeen(s)
    ensures WedgedHolder(WithShim(s, p, build, pc, locked)) == WedgedHolder(s)
  {
    ReachedIsReachable(f, s);
    ReachableInv(s);
    var s' := WithShim(s, p, build, pc, locked);
    assert forall q :: q in s.procs ==> s'.procs[q] == s.procs[q];
  }

  /** One step of a shim that only moves its program counter. */
  lemma Move(f: Family, s: State, p: Pid, build: Build, pc: ShimPc, locked: bool, pc': ShimPc)
    requires Reached(f, s) && p !in s.procs && Reached(f, WithShim(s, p, build, pc, locked))
    requires Enabled(WithShim(s, p, build, pc, locked), ShimStep(p))
    requires
      var at := WithShim(s, p, build, pc, locked);
      ShimNext(at, p) == Goto(at, p, pc')
    ensures Reached(f, WithShim(s, p, build, pc', locked))
  {
    var s' := Act(f, WithShim(s, p, build, pc, locked), ShimStep(p));
    assert s'.procs == s.procs[p := Shim(build, pc')];
  }

  /** A fresh shim that finds no reusable daemon takes the free bootstrap lock. */
  lemma ShimTakesLock(f: Family, s: State, p: Pid, build: Build)
    requires Reached(f, s) && p !in s.procs && s.boot.None? && !RebuildSeen(s)
    requires !Listening(s) || !VintageOf(s.stamp, build).Current?
    ensures Reached(f, WithShim(s, p, build, LockedCheckRebuild, true))
  {
    var s' := Act(f, s, StartShim(p, build));
    ShimUnseen(f, s, p, build, CheckRebuild, false);
    Move(f, s, p, build, CheckRebuild, false, Connect);
    if Listening(s) {
      ShimUnseen(f, s, p, build, Connect, false);
      Move(f, s, p, build, Connect, false, ReadStamp);
      Move(f, s, p, build, ReadStamp, false, AwaitLock);
    } else {
      ShimUnseen(f, s, p, build, Connect, false);
      Move(f, s, p, build, Connect, false, AwaitLock);
    }
    s' := Act(f, WithShim(s, p, build, AwaitLock, false), ShimStep(p));
    assert s'.procs == s.procs[p := Shim(build, LockedCheckRebuild)];
  }

  /** A silent project with an unheld bootstrap lock: a fresh shim runs up to its first wedge probe. */
  lemma ShimReachesProbe(f: Family, s: State, p: Pid, build: Build) returns (s': State)
    requires Reached(f, s) && p !in s.procs && s.boot.None? && !Listening(s) && !RebuildSeen(s)
    ensures Reached(f, s')
    ensures s' == WithShim(s, p, build, FirstProbe, true)
  {
    ShimTakesLock(f, s, p, build);
    ShimUnseen(f, s, p, build, LockedCheckRebuild, true);
    Move(f, s, p, build, LockedCheckRebuild, true, LockedConnect);
    ShimUnseen(f, s, p, build, LockedConnect, true);
    Move(f, s, p, build, LockedConnect, true, FirstProbe);
    s' := WithShim(s, p, build, FirstProbe, true);
  }

  /** From its first probe on, when nothing looks wedged, the shim goes on to spawn. */
  lemma ShimReachesSpawn(f: Family, s: State, p: Pid, build: Build) returns (s': State)
    requires Reached(f, s) && p !in s.procs && s.boot.None? && !Listening(s) && !RebuildSeen(s)
    requires s.lock.None? || s.serving.None?
    ensures Reached(f, s')
    ensures s' == WithShim(s, p, build, SpawnDaemon, true)
  {
    s' := ShimReachesProbe(f, s, p, build);
    ShimUnseen(f, s, p, build, FirstProbe, true);
    Move(f, s, p, build, FirstProbe, true, FirstInspect);
    ShimUnseen(f, s, p, build, FirstInspect, true);
    Move(f, s, p, build, FirstInspect, true, SpawnDaemon);
    s' := WithShim(s, p, build, SpawnDaemon, true);
  }

  /** A rebuild of a silent, tidy project gets as far as the daemon lock, its marker on file. */
  lemma RebuildReachesLock(s: State, r: Pid) returns (s': State)
    requires Reachable(s) && r !in s.procs && s.boot.None? && !Listening(s)
    requires s.pidFile.None? && s.serving.None? && s.stamp.None?
    ensures Reachable(s')
    ensures s' == Put(s, r, Rebuild(TakeDaemonLock)).(boot := Some(r), marker := Some(r))
  {
    s' := Act(Any, s, StartRebuild(r));
    s' := Act(Any, s', RebuildStep(r));
    s' := Act(Any, s', RebuildStep(r));
    s' := Act(Any, s', RebuildStep(r));
    s' := Act(Any, s', RebuildStep(r));
  }

  /** It holds the daemon lock if that is free. */
  lemma RebuildRuns(s: State, r: Pid) returns (s': State)
    requires Reachable(s) && r !in s.procs && s.boot.None? && s.lock.None? && !Listening(s)
    requires s.pidFile.None? && s.serving.None? && s.stamp.None?
    ensures Reachable(s')
    ensures s' == Put(s, r, Rebuild(Rebuilding)).(lock := Some(r), marker := Some(r))
  {
    s' := RebuildReachesLock(s, r);
    s' := Act(Any, s', RebuildStep(r));
    s' := Act(Any, s', RebuildStep(r));
    s' := Act(Any, s', RebuildStep(r));
  }

  /** A second rebuild started meanwhile cannot get the daemon lock, bails out, and takes the first
      one's marker off the file. */
  lemma SecondRebuildBails(s: State, r: Pid) returns (s': State)
    requires Reachable(s) && r !in s.procs && s.boot.None? && s.lock.Some? && !Listening(s)
    requires s.pidFile.None? && s.serving.None? && s.stamp.None?
    ensures Reachable(s')
    ensures s' == Put(s, r, Rebuild(RebuildOver)).(marker := None)
  {
    s' := RebuildReachesLock(s, r);
    s' := Act(Any, s', RebuildGivesUp(r));
    s' := Act(Any, s', RebuildStep(r));
    s' := Act(Any, s', RebuildStep(r));
  }

  /** The promise that no daemon is bootstrapped while a rebuild runs is false: with two rebuilds
      started at once, a shim reaches its spawn while the first still holds the daemon lock. */
  lemma SpawnDuringRebuild(build: Build) returns (s: State)
    ensures Reachable(s) && Enabled(s, Spawn(3, 4))
    ensures s.lock == Some(1) && 1 in s.procs && s.procs[1] == Rebuild(Rebuilding)
  {
    InitReached(Any);
    s := RebuildRuns(Init(), 1);
    s := SecondRebuildBails(s, 2);
    s := ShimReachesSpawn(Any, s, 3, build);
  }

  // ---- one look is not enough ----

  /** A fresh shim of a project where nothing listens or has the lock spawns a daemon and waits for it. */
  lemma SpawnsAndWaits(f: Family, s: State, p: Pid, d: Pid, build: Build) returns (s': State)
    requires Reached(f, s) && p !in s.procs && d !in s.procs && p != d
    requires s.boot.None? && s.lock.None? && !Listening(s)
    ensures Reached(f, s')
    ensures s' == Put(Put(s, p, Shim(build, Waiting(d))), d, Daemon(build, p, Spawned))
              .(boot := Some(p), history := s.history.(spawned := s.history.spawned + 1))
  {
    s' := ShimReachesSpawn(f, s, p, build);
    s' := Act(f, s', Spawn(p, d));
  }

  /** A waiting shim connects to whatever listens. */
  lemma WaiterConnects(f: Family, s: State, p: Pid, d: Pid) returns (s': State)
    requires Reached(f, s) && IsShim(s, p) && s.procs[p].pc.Waiting? && s.boot == Some(p)
    requires d in s.procs && IsListening(s.procs[d])
    ensures Reached(f, s') && Listening(s')
    ensures s' == Put(s, p, s.procs[p].(pc := Finished(Connected))).(boot := None)
  {
    s' := Act(f, s, ShimStep(p));
    assert IsListening(s'.procs[d]);
  }

  /** A cold project whose first shim spawned a daemon and gave up before it started. */
  lemma LateDaemon(f: Family, build: Build) returns (s: State)
    requires !f.Calm?
    ensures Reached(f, s) && !Listening(s)
    ensures s == Init().(procs := map[1 := Shim(build, Finished(TimedOut)), 2 := Daemon(build, 1, Spawned)],
                         history := History([], [], 1))
  {
    InitReached(f);
    s := SpawnsAndWaits(f, Init(), 1, 2, build);
    s := Act(f, s, GiveUp(1));
  }

  /** One look is not enough to call a daemon wedged: its two reads are not one step. A daemon that
      binds between them is seen silent by the first and recorded by the second, and serves. */
  lemma OneLookMisjudges(build: Build) returns (s: State)
    ensures Reachable(s)
    ensures IsShim(s, 3) && s.procs[3].pc == SecondProbe(2)
    ensures IsDaemon(s, 2) && s.procs[2].phase.Recorded? && IsListening(s.procs[2])
  {
    s := LateDaemon(Any, build);
    s := ShimReachesProbe(Any, s, 3, build);
    s := Act(Any, s, ShimStep(3));
    s := DaemonReachesRecord(Any, s, 2);
    s := Act(Any, s, ShimStep(3));
  }

  /** A spawned daemon that finds the daemon lock free takes it and publishes its build, */
  lemma DaemonReachesStamp(f: Family, s: State, d: Pid) returns (s': State)
    requires Reached(f, s) && s.lock.None? && IsDaemon(s, d) && s.procs[d].phase.Spawned?
    requires Allows(f, s, DaemonStep(d))
    ensures Reached(f, s')
    ensures s' == Put(s, d, s.procs[d].(phase := Stamped))
              .(lock := Some(d), marker := None, serving := None, stamp := Some(s.procs[d].build))
  {
    s' := Act(f, s, DaemonStep(d));
    s' := Act(f, s', DaemonStep(d));
    s' := Act(f, s', DaemonStep(d));
    s' := Act(f, s', DaemonStep(d));
  }

  /** binds, and records itself as serving. */
  lemma DaemonBinds(f: Family, s: State, d: Pid) returns (s': State)
    requires Reached(f, s) && IsDaemon(s, d) && s.procs[d].phase.Stamped?
    ensures Reached(f, s')
    ensures s' == Put(s, d, s.procs[d].(phase := Recorded))
              .(serving := Some(d), pidFile := Some(d),
                history := s.history.(bound := s.history.bound + [s.procs[d].build]))
  {
    s' := Act(f, s, DaemonStep(d));
    s' := Act(f, s', DaemonStep(d));
    s' := Act(f, s', DaemonStep(d));
  }

  lemma DaemonReachesRecord(f: Family, s: State, d: Pid) returns (s': State)
    requires Reached(f, s) && s.lock.None? && IsDaemon(s, d) && s.procs[d].phase.Spawned?
    requires Allows(f, s, DaemonStep(d))
    ensures Reached(f, s')
    ensures s' == Put(s, d, s.procs[d].(phase := Recorded))
              .(lock := Some(d), marker := None, serving := Some(d), pidFile := Some(d), stamp := Some(s.procs[d].build),
                history := s.history.(bound := s.history.bound + [s.procs[d].build]))
  {
    s' := DaemonReachesStamp(f, s, d);
    s' := DaemonBinds(f, s', d);
  }

  // ---- bringing up and stopping a daemon ----

  /** On a project where nothing listens or has the lock, shim `p` brings up daemon `d` and connects to it. */
  lemma BringsUp(f: Family, s: State, p: Pid, d: Pid, build: Build) returns (s': State)
    requires Reached(f, s) && p !in s.procs && d !in s.procs && p != d
    requires s.boot.None? && s.lock.None? && !Listening(s)
    ensures Reached(f, s') && Listening(s')
    ensures s' == Put(Put(s, p, Shim(build, Finished(Connected))), d, Daemon(build, p, Recorded))
              .(lock := Some(d), marker := None, serving := Some(d), pidFile := Some(d), stamp := Some(build),
                history := s.history.(bound := s.history.bound + [build], spawned := s.history.spawned + 1))
  {
    s' := SpawnsAndWaits(f, s, p, d, build);
    s' := DaemonReachesRecord(f, s', d);
    s' := WaiterConnects(f, s', p, d);
  }

  /** A fresh shim that finds a listening daemon gets to read its stamp under the bootstrap lock. */
  lemma ShimReachesRead(f: Family, s: State, p: Pid, build: Build) returns (s': State)
    requires Reached(f, s) && p !in s.procs && s.boot.None? && Listening(s) && !RebuildSeen(s)
    requires !VintageOf(s.stamp, build).Current?
    ensures Reached(f, s')
    ensures s' == WithShim(s, p, build, LockedReadStamp, true)
  {
    ShimTakesLock(f, s, p, build);
    ShimUnseen(f, s, p, build, LockedCheckRebuild, true);
    Move(f, s, p, build, LockedCheckRebuild, true, LockedConnect);
    ShimUnseen(f, s, p, build, LockedConnect, true);
    Move(f, s, p, build, LockedConnect, true, LockedReadStamp);
    s' := WithShim(s, p, build, LockedReadStamp, true);
  }

  lemma ShimJudgesOutdated(f: Family, s: State, p: Pid, build: Build) returns (s': State)
    requires Reached(f, s) && p !in s.procs && s.boot.None? && Listening(s) && !RebuildSeen(s)
    requires !VintageOf(s.stamp, build).Current?
    ensures Reached(f, s')
    ensures s' == WithShim(s, p, build, StopPick, true)
  {
    s' := ShimReachesRead(f, s, p, build);
    Move(f, s, p, build, LockedReadStamp, true, StopPick);
    s' := WithShim(s, p, build, StopPick, true);
  }

  /** A fresh shim stops the daemon `t` that serves, which it judged outdated. */
  lemma Stops(f: Family, s: State, p: Pid, build: Build, t: Pid) returns (s': State)
    requires Reached(f, s) && p !in s.procs && s.boot.None? && !RebuildSeen(s)
    requires IsDaemon(s, t) && IsListening(s.procs[t]) && s.lock == Some(t) && s.pidFile == Some(t)
    requires !VintageOf(s.stamp, build).Current?
    ensures Reached(f, s')
    ensures s' == Put(Put(s, t, s.procs[t].(phase := Gone)), p, Shim(build, StopTidy))
              .(boot := Some(p), lock := None,
                history := s.history.(retired := s.history.retired + [s.procs[t].build]))
  {
    assert Listening(s);
    s' := ShimJudgesOutdated(f, s, p, build);
    s' := Act(f, s', ShimStep(p));
    s' := Act(f, s', ShimStep(p));
  }

  // ---- wrong retirements ----

  /** Shim 5 has just stopped daemon 4; daemon 2 was spawned first and is still to start. */
  lemma StoppedBeforeLate(theirs: Build) returns (s: State)
    ensures Reached(Undying, s) && s.boot == Some(5) && s.lock.None? && s.pidFile == Some(4) && !Listening(s)
    ensures s.procs.Keys == {1, 2, 3, 4, 5} && s.procs[2] == Daemon(theirs, 1, Spawned)
    ensures IsShim(s, 5) && s.procs[5].pc.StopTidy? && s.procs[4].Daemon? && s.procs[4].phase.Gone?
    ensures s.history.bound == [Build(0, "")] && s.history.retired == [Build(0, "")]
  {
    s := LateDaemon(Undying, theirs);
    s := BringsUp(Undying, s, 3, 4, Build(0, ""));
    s := Stops(Undying, s, 5, Build(1, ""), 4);
  }

  /**
   * A daemon of any build that serves without a stamp, though it published one and no process died: it
   * started late, and a shim that had stopped another daemon tidied up before it bound. The build that
   * serves after the one retired is any build at all.
   */
  lemma StampLost(theirs: Build) returns (s: State)
    ensures Reached(Undying, s) && s.boot.None? && s.lock == Some(2) && s.stamp.None? && s.marker.None?
    ensures s.procs.Keys == {1, 2, 3, 4, 5, 6} && s.procs[2] == Daemon(theirs, 1, Recorded) && s.pidFile == Some(2)
    ensures s.history.bound == [Build(0, ""), theirs] && s.history.retired == [Build(0, "")]
  {
    s := StoppedBeforeLate(theirs);
    s := TidiedUnder(s, 5, 2);
    s := DaemonBinds(Undying, s, 2);
    s := SpawnsOver(s, 5, 6, 2);
  }

  /** A late daemon publishes its stamp, and a shim that has stopped another wipes it. */
  lemma TidiedUnder(s: State, p: Pid, d: Pid) returns (s': State)
    requires Reached(Undying, s) && IsShim(s, p) && s.procs[p].pc.StopTidy? && s.boot == Some(p)
    requires s.lock.None? && IsDaemon(s, d) && s.procs[d].phase.Spawned? && !Listening(s)
    requires s.pidFile.Some? ==> !Alive(s, s.pidFile.value)
    ensures Reached(Undying, s')
    ensures s' == Put(Put(s, d, s.procs[d].(phase := Stamped)), p, s.procs[p].(pc := SpawnDaemon))
              .(lock := Some(d), marker := None, serving := None, stamp := None, pidFile := None)
  {
    s' := DaemonReachesStamp(Undying, s, d);
    assert !Listening(s') && (s'.pidFile.Some? ==> !Alive(s', s'.pidFile.value));
    s' := Act(Undying, s', ShimStep(p));
  }

  /** The shim spawns over the late daemon, and connects to it. */
  lemma SpawnsOver(s: State, p: Pid, child: Pid, d: Pid) returns (s': State)
    requires Reached(Undying, s) && IsShim(s, p) && s.procs[p].pc.SpawnDaemon? && s.boot == Some(p)
    requires child !in s.procs && d in s.procs && d != p && IsListening(s.procs[d])
    ensures Reached(Undying, s')
    ensures s' == Put(Put(s, p, s.procs[p].(pc := Finished(Connected))), child, Daemon(s.procs[p].build, p, Spawned))
              .(boot := None, history := s.history.(spawned := s.history.spawned + 1))
  {
    s' := Act(Undying, s, Spawn(p, child));
    s' := WaiterConnects(Undying, s', p, d);
  }

  /** With its stamp gone, any build retires any build. */
  lemma UnknownRetiresAny(ours: Build, theirs: Build) returns (s: State)
    ensures Reached(Undying, s) && s.stamp.None?
    ensures IsShim(s, 7) && s.procs[7] == Shim(ours, StopKill(2))
    ensures s.procs.Keys == {1, 2, 3, 4, 5, 6, 7} && s.procs[2] == Daemon(theirs, 1, Recorded)
  {
    s := StampLost(theirs);
    assert IsListening(s.procs[2]);
    s := ShimJudgesOutdated(Undying, s, 7, ours);
    s := Act(Undying, s, ShimStep(7));
  }

  /** Daemon 4, older than `ours`, serves; daemon 2 (build `theirs`) was spawned first and is still to start. */
  lemma IncumbentWithLateRival(ours: Build, theirs: Build) returns (s: State)
    ensures Reachable(s) && Listening(s)
    ensures s.procs.Keys == {1, 2, 3, 4} && IsDaemon(s, 4)
    ensures s.procs[2] == Daemon(theirs, 1, Spawned) && s.procs[4].phase == Recorded
    ensures s.boot.None? && s.lock == Some(4) && s.marker.None? && s.stamp.Some? && Supersedes(ours, s.stamp.value)
  {
    s := LateDaemon(Any, theirs);
    s := BringsUp(Any, s, 3, 4, Build(ours.mtime - 1, ""));
  }

  /** A shim can retire a daemon of any build: the incumbent it judged outdated dies, and a daemon that
      started late takes over before the shim's stop reads the pid file. */
  lemma RetiresAnyBuild(ours: Build, theirs: Build) returns (s: State)
    ensures Reachable(s) && s.stamp == Some(theirs)
    ensures s.procs.Keys == {1, 2, 3, 4, 5}
    ensures s.procs[5] == Shim(ours, StopKill(2)) && s.procs[2] == Daemon(theirs, 1, Recorded)
  {
    s := IncumbentWithLateRival(ours, theirs);
    s := ShimJudgesOutdated(Any, s, 5, ours);
    s := Act(Any, s, Crash(4));
    assert s.procs[2] == Daemon(theirs, 1, Spawned);
    s := DaemonReachesRecord(Any, s, 2);
    s := Act(Any, s, ShimStep(5));
  }

  // ---- the daemon that starts under the read ----

  ghost predicate Later(a: State, b: State)
  {
    exists labels: seq<Label> :: Exec(a, labels) == Some(b)
  }

  lemma Then(a: State, s: State, l: Label) returns (s': State)
    requires Later(a, s) && Enabled(s, l)
    ensures s' == Apply(s, l) && Later(a, s')
  {
    var labels :| Exec(a, labels) == Some(s);
    s' := Apply(s, l);
    assert (labels + [l])[..|labels|] == labels;
    assert Exec(a, labels + [l]) == Some(s');
  }

  /** A shim about to read the stamp of a daemon that has died, the lock being the late daemon's already. */
  lemma ReadsOverStarter(ours: Build, theirs: Build) returns (read: State)
    ensures Reachable(read) && read.lock == Some(2) && read.stamp.Some? && Supersedes(ours, read.stamp.value)
    ensures read.procs.Keys == {1, 2, 3, 4, 5}
    ensures read.procs[5] == Shim(ours, LockedReadStamp) && read.procs[2] == Daemon(theirs, 1, TookLock)
  {
    read := IncumbentWithLateRival(ours, theirs);
    read := ShimReachesRead(Any, read, 5, ours);
    read := Act(Any, read, Crash(4));
    assert read.procs[2] == Daemon(theirs, 1, Spawned);
    read := Act(Any, read, DaemonStep(2));
  }

  /** The lock has one holder from the read to the pick, a stamp is on file at the read, and the retirement
      can be of any build: the holder had not published its own stamp when the shim read. */
  lemma HolderUnchangedYetWrong(ours: Build, theirs: Build) returns (read: State, s: State)
    ensures Reachable(read) && Later(read, s)
    ensures IsShim(read, 5) && read.procs[5].pc.LockedReadStamp? && read.stamp.Some? && read.lock == Some(2)
    ensures IsShim(s, 5) && s.procs[5] == Shim(ours, StopKill(2)) && s.lock == Some(2)
    ensures IsDaemon(s, 2) && s.procs[2] == Daemon(theirs, 1, Recorded)
  {
    read := ReadsOverStarter(ours, theirs);
    assert Exec(read, []) == Some(read);
    s := Then(read, read, ShimStep(5));
    s := StarterServes(read, s, 2);
    s := Then(read, s, ShimStep(5));
  }

  lemma StarterServes(a: State, s: State, d: Pid) returns (s': State)
    requires Later(a, s) && IsDaemon(s, d) && s.procs[d].phase.TookLock?
    ensures Later(a, s')
    ensures s' == Put(s, d, s.procs[d].(phase := Recorded))
              .(marker := None, serving := Some(d), pidFile := Some(d), stamp := Some(s.procs[d].build),
                history := s.history.(bound := s.history.bound + [s.procs[d].build]))
  {
    s' := Then(a, s, DaemonStep(d));
    s' := Then(a, s', DaemonStep(d));
    s' := Then(a, s', DaemonStep(d));
    s' := Then(a, s', DaemonStep(d));
    s' := Then(a, s', DaemonStep(d));
    s' := Then(a, s', DaemonStep(d));
  }

  // ---- retirements of calm runs ----

  /** Calm runs do retire: a shim of a build that supersedes the serving one stops it. */
  lemma CalmRetires(older: Build, newer: Build) returns (s: State)
    requires Supersedes(newer, older)
    ensures CalmReachable(s) && s.history.retired == [older] && s.history.bound == [older]
  {
    InitReached(Calm);
    s := BringsUp(Calm, Init(), 1, 2, older);
    s := Stops(Calm, s, 3, newer, 2);
  }

  /** Shim 3 has stopped daemon 2, of build `first`, which shim 1 brought up. */
  lemma StoppedOnce(f: Family, first: Build) returns (s: State)
    ensures Reached(f, s) && s.boot == Some(3) && s.lock.None? && s.history.bound == [first]
    ensures s.procs == map[1 := Shim(first, Finished(Connected)), 2 := Daemon(first, 1, Gone),
                           3 := Shim(Build(first.mtime + 1, ""), StopTidy)]
  {
    InitReached(f);
    s := BringsUp(f, Init(), 1, 2, first);
    s := Stops(f, s, 3, Build(first.mtime + 1, ""), 2);
  }

  /** A shim stops the daemon of `first` and is killed before it replaces it. */
  lemma StoppedThenKilled(first: Build) returns (s: State)
    ensures Reached(Steady, s) && s.boot.None? && s.lock.None? && !Listening(s)
    ensures s.procs.Keys == {1, 2, 3} && s.history.bound == [first]
  {
    s := StoppedOnce(Steady, first);
    s := Act(Steady, s, Crash(3));
  }

  /** In steady runs the serving build need not rise: a shim killed after its stop leaves the place to a
      shim of any build. */
  lemma KilledAfterStop(first: Build, second: Build) returns (s: State)
    ensures ReachableBy(SteadyLabel, s) && s.history.bound == [first, second]
  {
    s := StoppedThenKilled(first);
    s := BringsUp(Steady, s, 4, 5, second);
  }
}
