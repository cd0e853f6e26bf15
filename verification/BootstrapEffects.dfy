/**
 * What the protocol achieves: a wedged daemon is evicted and replaced, a current one is reused, a rebuild
 * stops the daemon and gives the project back, a daemon that closes leaves nothing behind.
 */
module BootstrapEffects {
  import opened Prelude
  import opened Bootstrap
  import opened BootstrapSafety
  import opened BootstrapStamp
  import opened BootstrapWitness

  // ---- eviction ----

  lemma OtherShim(s: State, r: Pid, p: Pid)
    requires ShimReady(s, r) && ShimKnows(s, s.procs[r].pc) && IsShim(s, p) && r != p
    ensures p in ShimNext(s, r).procs && ShimNext(s, r).procs[p] == s.procs[p]
  {
  }

  lemma OtherRebuild(s: State, r: Pid, p: Pid)
    requires RebuildReady(s, r) && IsShim(s, p) && r != p
    requires s.procs[r].rpc.RebuildKill? ==> IsDaemon(s, s.procs[r].rpc.target)
    ensures p in RebuildNext(s, r).procs && RebuildNext(s, r).procs[p] == s.procs[p]
  {
  }

  lemma OtherDaemon(s: State, d: Pid, p: Pid)
    requires DaemonReady(s, d) && IsShim(s, p) && d != p
    ensures p in DaemonNext(s, d).procs && DaemonNext(s, d).procs[p] == s.procs[p]
  {
  }

  /** Nobody but a shim itself, or what kills it, moves it: shims and rebuilds stop daemons only. */
  lemma OthersLeaveShim(s: State, l: Label, p: Pid)
    requires Inv(s) && Enabled(s, l) && IsShim(s, p) && l.pid != p
    ensures p in Apply(s, l).procs && Apply(s, l).procs[p] == s.procs[p]
  {
    hide ShimNext, RebuildNext, DaemonNext, LocksAgree, MarkerAgrees, RecordsAgree;
    match l
    case ShimStep(r) =>
      assert ShimKnows(s, s.procs[r].pc);
      OtherShim(s, r, p);
    case RebuildStep(r) => OtherRebuild(s, r, p);
    case DaemonStep(d) => OtherDaemon(s, d, p);
    case _ =>
  }

  lemma ProcessesStay(s: State, l: Label, q: Pid)
    requires Enabled(s, l) && q in s.procs
    ensures q in Apply(s, l).procs
  {
  }

  lemma {:induction false} ShimStaysPut(s: State, labels: seq<Label>, p: Pid, q: Pid)
    requires Inv(s) && IsShim(s, p) && q in s.procs
    requires Exec(s, labels).Some? && forall i :: 0 <= i < |labels| ==> labels[i].pid != p
    ensures var s' := Exec(s, labels).value;
            Inv(s') && p in s'.procs && s'.procs[p] == s.procs[p] && q in s'.procs
  {
    hide Apply, Enabled, Inv;
    if labels != [] {
      var n := |labels| - 1;
      ShimStaysPut(s, labels[..n], p, q);
      var before := Exec(s, labels[..n]).value;
      OthersLeaveShim(before, labels[n], p);
      ProcessesStay(before, labels[n], q);
      ApplyKeepsInv(before, labels[n]);
    }
  }

  /** Killing ends a process and takes the daemon lock from it. */
  lemma KillEnds(s: State, q: Pid)
    requires Inv(s) && q in s.procs
    ensures q in Kill(s, q).procs && Ended(Kill(s, q).procs[q]) && Kill(s, q).lock != Some(q)
  {
    assert HoldsLock(s.procs[q]) <==> s.lock == Some(q);
  }

  /**
   * At its second inspection of `q`, a shim that finds the daemon lock held and the serving record naming
   * the live `q` ends it with its next two steps, whatever the others do between them. If it does not
   * find that, its step touches nothing but itself.
   */
  lemma ConfirmedIsEvicted(s: State, p: Pid, q: Pid, labels: seq<Label>)
    requires Reachable(s) && IsShim(s, p) && s.procs[p].pc == SecondInspect(q)
    requires Exec(Apply(s, ShimStep(p)), labels).Some?
    requires forall i :: 0 <= i < |labels| ==> labels[i].pid != p
    ensures
      if s.lock.Some? && s.serving == Some(q) && q in s.procs && !Ended(s.procs[q]) then
        var later := Exec(Apply(s, ShimStep(p)), labels).value;
        && Enabled(later, ShimStep(p))
        && q in Apply(later, ShimStep(p)).procs && Ended(Apply(later, ShimStep(p)).procs[q])
        && Apply(later, ShimStep(p)).lock != Some(q)
      else
        Apply(s, ShimStep(p)).(procs := s.procs) == s
        && forall r :: r in s.procs && r != p ==> Apply(s, ShimStep(p)).procs[r] == s.procs[r]
  {
    ReachableInv(s);
    if s.lock.Some? && s.serving == Some(q) && q in s.procs && !Ended(s.procs[q]) {
      var first := Apply(s, ShimStep(p));
      assert first.procs[p].pc == Evict(q);
      ApplyKeepsInv(s, ShimStep(p));
      ShimStaysPut(first, labels, p, q);
      EvictEnds(Exec(first, labels).value, p, q);
    }
  }

  lemma EvictEnds(s: State, p: Pid, q: Pid)
    requires Inv(s) && IsShim(s, p) && s.procs[p].pc == Evict(q) && q in s.procs
    ensures Enabled(s, ShimStep(p))
    ensures var s' := Apply(s, ShimStep(p)); q in s'.procs && Ended(s'.procs[q]) && s'.lock != Some(q)
  {
    assert ShimKnows(s, s.procs[p].pc);
    KillEnds(s, q);
  }

  /** Wherever a daemon has wedged with the lock, a shim that comes up undisturbed evicts it. */
  lemma EvictsWedged(s: State, p: Pid, q: Pid, build: Build) returns (s': State)
    requires Reachable(s) && p !in s.procs && s.boot.None? && !RebuildSeen(s)
    requires IsDaemon(s, q) && s.procs[q].phase.Wedged? && s.serving == Some(q)
    ensures Reachable(s') && !Listening(s')
    ensures s' == Put(Put(s, q, s.procs[q].(phase := Gone)), p, Shim(build, SpawnDaemon)).(boot := Some(p), lock := None)
  {
    WedgedIsSilent(s, q);
    s' := ShimReachesProbe(Any, s, p, build);
    s' := SuspectsWedged(s, s', p, q, build);
    s' := Act(Any, s', ShimStep(p));
    s' := Act(Any, s', ShimStep(p));
    assert s'.procs == s.procs[q := s.procs[q].(phase := Gone)][p := Shim(build, SpawnDaemon)];
    forall r | r in s'.procs ensures !IsListening(s'.procs[r]) {
      assert r in s.procs && r != q && r != p ==> s'.procs[r] == s.procs[r];
    }
  }

  lemma WedgedIsSilent(s: State, q: Pid)
    requires Reachable(s) && IsDaemon(s, q) && s.procs[q].phase.Wedged?
    ensures s.lock == Some(q) && !Listening(s)
  {
    ReachableInv(s);
    assert HoldsLock(s.procs[q]);
    forall r | r in s.procs && IsListening(s.procs[r]) ensures r == q { assert HoldsLock(s.procs[r]); }
  }

  /** From its first probe to the second inspection of `q`. */
  lemma SuspectsWedged(s: State, at: State, p: Pid, q: Pid, build: Build) returns (s': State)
    requires Reachable(s) && p !in s.procs && q in s.procs && s.lock == Some(q) && s.serving == Some(q)
    requires !Ended(s.procs[q]) && !Listening(s)
    requires Reachable(at) && at == WithShim(s, p, build, FirstProbe, true)
    ensures Reachable(s') && s' == WithShim(s, p, build, SecondInspect(q), true)
  {
    ShimUnseen(Any, s, p, build, FirstProbe, true);
    Move(Any, s, p, build, FirstProbe, true, FirstInspect);
    ShimUnseen(Any, s, p, build, FirstInspect, true);
    Move(Any, s, p, build, FirstInspect, true, SecondProbe(q));
    ShimUnseen(Any, s, p, build, SecondProbe(q), true);
    Move(Any, s, p, build, SecondProbe(q), true, SecondInspect(q));
    s' := WithShim(s, p, build, SecondInspect(q), true);
  }

  /** A run from the cold project: a daemon wedges, a shim evicts it, and the daemon it spawns serves. */
  lemma EvictedAndReplaced(build: Build) returns (s: State)
    ensures Reachable(s) && s.lock == Some(4) && s.procs.Keys == {1, 2, 3, 4}
    ensures s.procs[2] == Daemon(build, 1, Gone) && s.procs[4] == Daemon(build, 3, Recorded)
    ensures s.procs[3] == Shim(build, Finished(Connected)) && IsListening(s.procs[4])
  {
    InitReached(Any);
    s := BringsUp(Any, Init(), 1, 2, build);
    s := Act(Any, s, Wedge(2));
    s := EvictsWedged(s, 3, 2, build);
    s := Act(Any, s, Spawn(3, 4));
    s := DaemonReachesRecord(Any, s, 4);
    s := WaiterConnects(Any, s, 3, 4);
  }

  /** A suspect that would not die does not stop the bootstrap: the shim goes on to spawn, as the holder of the
      bootstrap lock still, and nothing else changes. */
  lemma FailedEvictionSpawns(s: State, p: Pid, q: Pid, child: Pid) returns (s': State)
    requires Reachable(s) && IsShim(s, p) && s.procs[p].pc == Evict(q) && child !in s.procs
    ensures Reachable(s') && s'.boot == Some(p) && s'.lock == s.lock && s'.history.spawned == s.history.spawned + 1
    ensures s'.procs == s.procs[p := s.procs[p].(pc := Waiting(child))][child := Daemon(s.procs[p].build, p, Spawned)]
  {
    ReachableInv(s);
    assert HoldsBoot(s.procs[p]);
    s' := Act(Any, s, StopFails(p));
    s' := Act(Any, s', Spawn(p, child));
  }

  // ---- reuse ----

  /** Outside the lock as under it, the verdict is about the daemon that listens: a shim whose build does
      not supersede it connects there and then, and touches nothing; another goes for the lock. */
  lemma JudgesBeforeLock(s: State, p: Pid, d: Pid)
    requires Reachable(s) && IsShim(s, p) && s.procs[p].pc.ReadStamp?
    requires d in s.procs && IsListening(s.procs[d])
    ensures
      var s' := Apply(s, ShimStep(p));
      var reused := s.stamp.Some? && !Supersedes(s.procs[p].build, s.procs[d].build);
      s' == Put(s, p, s.procs[p].(pc := if reused then Finished(Connected) else AwaitLock))
  {
    StampIsServers(s, d);
    ReachableInv(s);
    assert HoldsBoot(s.procs[p]) <==> s.boot == Some(p);
  }

  /** A fresh shim whose build does not supersede the daemon that listens, and no rebuild running, connects
      in three steps and leaves everything else as it was. */
  lemma ReusesCurrent(s: State, p: Pid, d: Pid, build: Build) returns (s': State)
    requires Reachable(s) && p !in s.procs && !RebuildSeen(s)
    requires d in s.procs && IsListening(s.procs[d]) && s.stamp.Some? && !Supersedes(build, s.procs[d].build)
    ensures Reachable(s') && s' == Put(s, p, Shim(build, Finished(Connected)))
  {
    ReachableInv(s);
    s' := Act(Any, s, StartShim(p, build));
    ShimUnseen(Any, s, p, build, CheckRebuild, false);
    Move(Any, s, p, build, CheckRebuild, false, Connect);
    ShimUnseen(Any, s, p, build, Connect, false);
    Move(Any, s, p, build, Connect, false, ReadStamp);
    var at := WithShim(s, p, build, ReadStamp, false);
    assert at.procs[d] == s.procs[d];
    JudgesBeforeLock(at, p, d);
    s' := Act(Any, at, ShimStep(p));
  }

  /** A rebuild whose marker is on file turns a shim away at its first check already. */
  lemma FirstCheckTurnsAway(s: State, p: Pid, r: Pid)
    requires Reachable(s) && IsShim(s, p) && s.procs[p].pc.CheckRebuild?
    requires r in s.procs && s.procs[r] == Rebuild(Rebuilding) && s.marker == Some(r)
    ensures Apply(s, ShimStep(p)) == Put(s, p, s.procs[p].(pc := Finished(RebuildRunning)))
  {
    ReachableInv(s);
    assert HoldsLock(s.procs[r]);
    assert HoldsBoot(s.procs[p]) <==> s.boot == Some(p);
  }

  /** A daemon that would not stop is used as it is: the shim connects to it and spawns nothing. */
  lemma FallsBack(s: State, p: Pid, t: Pid) returns (s': State)
    requires Reachable(s) && IsShim(s, p) && s.procs[p].pc == StopKill(t)
    requires t in s.procs && IsListening(s.procs[t])
    ensures Reachable(s') && s' == Put(s, p, s.procs[p].(pc := Finished(Connected))).(boot := None)
  {
    ReachableInv(s);
    assert HoldsBoot(s.procs[p]);
    s' := Act(Any, s, StopFails(p));
    assert IsListening(s'.procs[t]);
    s' := Act(Any, s', ShimStep(p));
  }

  // ---- rebuilds ----

  /** A rebuild stops the daemon that serves, removes its files and holds the project. */
  lemma RebuildStopsDaemon(s: State, r: Pid, t: Pid) returns (s': State)
    requires Reachable(s) && r !in s.procs && s.boot.None?
    requires IsDaemon(s, t) && IsListening(s.procs[t]) && s.pidFile == Some(t)
    ensures Reachable(s')
    ensures s' == Put(Put(s, t, s.procs[t].(phase := Gone)), r, Rebuild(Rebuilding))
              .(lock := Some(r), marker := Some(r), serving := None, pidFile := None, stamp := None)
  {
    s' := RebuildKills(s, r, t);
    s' := Act(Any, s', RebuildStep(r));
    s' := Act(Any, s', RebuildStep(r));
    s' := Act(Any, s', RebuildStep(r));
    s' := Act(Any, s', RebuildStep(r));
  }

  lemma RebuildKills(s: State, r: Pid, t: Pid) returns (s': State)
    requires Reachable(s) && r !in s.procs && s.boot.None?
    requires IsDaemon(s, t) && IsListening(s.procs[t]) && s.pidFile == Some(t)
    ensures Reachable(s') && !Listening(s')
    ensures s' == Put(Put(s, t, s.procs[t].(phase := Gone)), r, Rebuild(RebuildTidy))
              .(boot := Some(r), lock := None, marker := Some(r))
  {
    ReachableInv(s);
    assert HoldsLock(s.procs[t]);
    s' := RebuildMarks(s, r);
    s' := RebuildKillsPick(s', r, t);
    assert s'.procs == s.procs[t := s.procs[t].(phase := Gone)][r := Rebuild(RebuildTidy)];
    forall q | q in s'.procs ensures !IsListening(s'.procs[q]) {
      assert q in s.procs && q != t && q != r ==> s'.procs[q] == s.procs[q];
      assert q in s.procs ==> (HoldsLock(s.procs[q]) <==> s.lock == Some(q));
    }
  }

  lemma RebuildMarks(s: State, r: Pid) returns (s': State)
    requires Reachable(s) && r !in s.procs && s.boot.None?
    ensures Reachable(s')
    ensures s' == Put(s, r, Rebuild(RebuildPick)).(boot := Some(r), marker := Some(r))
  {
    s' := Act(Any, s, StartRebuild(r));
    s' := Act(Any, s', RebuildStep(r));
    s' := Act(Any, s', RebuildStep(r));
  }

  /** A rebuild also ends a daemon that wedged in its teardown: with no pid on file it goes by the
      serving record. */
  lemma RebuildEndsWedged(s: State, r: Pid, q: Pid) returns (s': State)
    requires Reachable(s) && r !in s.procs && s.boot.None?
    requires IsDaemon(s, q) && s.procs[q].phase.Wedged? && s.serving == Some(q) && s.pidFile.None?
    ensures Reachable(s')
    ensures s' == Put(Put(s, q, s.procs[q].(phase := Gone)), r, Rebuild(RebuildTidy))
              .(boot := Some(r), lock := None, marker := Some(r))
  {
    WedgedIsSilent(s, q);
    s' := RebuildMarks(s, r);
    assert forall p :: p in s'.procs ==> p == r || s'.procs[p] == s.procs[p];
    assert StopTarget(s') == Some(q);
    s' := RebuildKillsPick(s', r, q);
  }

  lemma RebuildKillsPick(s: State, r: Pid, t: Pid) returns (s': State)
    requires Reachable(s) && r in s.procs && s.procs[r] == Rebuild(RebuildPick) && t != r
    requires IsDaemon(s, t) && !s.procs[t].phase.Gone? && StopTarget(s) == Some(t) && s.lock == Some(t) && s.boot == Some(r)
    ensures Reachable(s')
    ensures s' == Put(Put(s, t, s.procs[t].(phase := Gone)), r, Rebuild(RebuildTidy)).(lock := None)
  {
    hide StopTarget;
    s' := Act(Any, s, RebuildStep(r));
    s' := Act(Any, s', RebuildStep(r));
  }

  /** After its stop a rebuild takes the daemon lock if it is free, and gives up only on one that is held. */
  lemma RebuildTakesOrGivesUp(s: State, r: Pid)
    requires Reachable(s) && r in s.procs && s.procs[r] == Rebuild(TakeDaemonLock)
    ensures Enabled(s, RebuildStep(r)) <==> s.lock.None?
    ensures Enabled(s, RebuildGivesUp(r)) <==> exists q :: q in s.procs && q != r && HoldsLock(s.procs[q])
    ensures s.lock.None? ==> Apply(s, RebuildStep(r)).lock == Some(r)
  {
    ReachableInv(s);
    assert HoldsLock(s.procs[r]) <==> s.lock == Some(r);
    if s.lock.Some? { assert HoldsLock(s.procs[s.lock.value]); }
    forall q | q in s.procs && HoldsLock(s.procs[q]) ensures s.lock == Some(q) {}
  }

  /** A rebuild's stop leaves the files of what is still there: the pid file of a process that lives, the
      stamp of a daemon that listens; it removes those of what is gone. */
  lemma TidyLeavesLiveFiles(s: State, r: Pid, q: Pid)
    requires Reachable(s) && r in s.procs && s.procs[r] == Rebuild(RebuildTidy) && s.pidFile == Some(q)
    ensures q in s.procs
    ensures Apply(s, RebuildStep(r)).pidFile == if Ended(s.procs[q]) then None else Some(q)
    ensures IsListening(s.procs[q]) ==> Apply(s, RebuildStep(r)).stamp == s.stamp
    ensures (forall d :: d in s.procs ==> !IsListening(s.procs[d])) ==> Apply(s, RebuildStep(r)).stamp.None?
  {
    ReachableFiles(s);
  }

  /** A rebuild that is done gives the project back: no marker, no lock. */
  lemma RebuildFinishes(s: State, r: Pid) returns (s': State)
    requires Reachable(s) && r in s.procs && s.procs[r] == Rebuild(Rebuilding)
    ensures Reachable(s') && s' == Put(s, r, Rebuild(RebuildOver)).(lock := None, marker := None)
  {
    s' := Act(Any, s, RebuildStep(r));
    s' := Act(Any, s', RebuildStep(r));
    s' := Act(Any, s', RebuildStep(r));
  }

  // ---- daemons ----

  /** A daemon that closes removes its stamp and pid file, stops listening and releases the lock. */
  lemma DaemonCloses(s: State, d: Pid) returns (s': State)
    requires Reachable(s) && IsDaemon(s, d) && s.procs[d].phase.Recorded?
    ensures Reachable(s')
    ensures s' == Put(s, d, s.procs[d].(phase := Gone)).(lock := None, stamp := None, pidFile := None)
  {
    s' := DaemonStopsListening(s, d);
    s' := Act(Any, s', DaemonStep(d));
    s' := Act(Any, s', DaemonStep(d));
  }

  /** Halfway it has no files and does not listen, still holds the lock and is on the serving record. */
  lemma DaemonStopsListening(s: State, d: Pid) returns (s': State)
    requires Reachable(s) && IsDaemon(s, d) && s.procs[d].phase.Recorded?
    ensures Reachable(s')
    ensures s' == Put(s, d, s.procs[d].(phase := Wedged)).(stamp := None, pidFile := None)
  {
    s' := Act(Any, s, Close(d));
    s' := Act(Any, s', DaemonStep(d));
    s' := Act(Any, s', DaemonStep(d));
  }

  /** A daemon takes the lock if it is free; one that finds it held can only stand down, and leaves everything
      as it was. */
  lemma LateDaemonStandsDown(s: State, d: Pid)
    requires Reachable(s) && IsDaemon(s, d) && s.procs[d].phase.Spawned?
    ensures Enabled(s, StandDown(d)) <==> exists q :: q in s.procs && HoldsLock(s.procs[q])
    ensures Enabled(s, DaemonStep(d)) <==> !Enabled(s, StandDown(d))
    ensures Enabled(s, StandDown(d)) ==> Apply(s, StandDown(d)) == Put(s, d, s.procs[d].(phase := Gone))
    ensures Enabled(s, DaemonStep(d)) ==> Apply(s, DaemonStep(d)).lock == Some(d)
  {
    ReachableInv(s);
    if s.lock.Some? { assert HoldsLock(s.procs[s.lock.value]); }
    forall q | q in s.procs && HoldsLock(s.procs[q]) ensures s.lock == Some(q) {}
  }
}
