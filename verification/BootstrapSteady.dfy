/**
 * Runs in which no daemon dies on its own and none starts late: daemons neither crash, exit nor wedge, a
 * daemon takes the daemon lock only while its spawner waits for it, and no CLI rebuild runs. Shims of
 * any builds come, give up and are killed at any point. In such runs a shim retires only a daemon that
 * its own build supersedes.
 */
module BootstrapSteady {
  import opened Prelude
  import opened Bootstrap
  import opened BootstrapSafety

  /** The daemon has started, or its spawner still waits for it. */
  predicate InTime(s: State, d: Pid)
  {
    IsDaemon(s, d) && s.procs[d].phase.Spawned? ==>
      IsShim(s, s.procs[d].spawner) && s.procs[s.procs[d].spawner].pc == Waiting(d)
  }

  predicate SteadyLabel(s: State, l: Label)
  {
    match l
    case StartShim(_, _) => true
    case ShimStep(_) => true
    case StopFails(_) => true
    case Spawn(_, _) => true
    case GiveUp(_) => true
    case DaemonStep(d) => InTime(s, d)
    case StandDown(_) => true
    case Crash(p) => IsShim(s, p)
    case _ => false
  }

  // ---- the invariant of steady runs ----

  /** A daemon listens and has the lock. */
  predicate Serves(s: State)
  {
    s.lock.Some? && s.lock.value in s.procs && IsListening(s.procs[s.lock.value])
  }

  predicate SupersedesServing(s: State, build: Build)
  {
    Serves(s) ==> Supersedes(build, s.procs[s.lock.value].build)
  }

  /** No rebuild, and no daemon that is closing or wedged. */
  predicate CalmProc(x: Proc)
  {
    match x
    case Shim(_, _) => true
    case Rebuild(_) => false
    case Daemon(_, _, phase) =>
      !phase.StampRemoved? && !phase.PidRemoved? && !phase.Wedged? && !phase.Released?
  }

  predicate Starting(x: Proc)
  {
    x.Daemon? && (x.phase.TookLock? || x.phase.ClearedRecord? || x.phase.ClearedMarker?)
  }

  /** The daemon with the lock has its stamp on file from publication on, and alone is a live pid on file. */
  predicate HolderStory(s: State)
  {
    && (s.lock.Some? ==>
          && IsDaemon(s, s.lock.value) && CalmProc(s.procs[s.lock.value])
          && (Starting(s.procs[s.lock.value]) || s.stamp == Some(s.procs[s.lock.value].build)))
    && (s.pidFile.Some? && Alive(s, s.pidFile.value) ==> s.lock == s.pidFile)
  }

  /** What the shim in its locked section relies on. */
  predicate LockedStory(s: State, pc: ShimPc, build: Build)
  {
    match pc
    case LockedReadStamp => Serves(s)
    case StopPick => Serves(s) && SupersedesServing(s, build)
    case StopKill(t) => Serves(s) && s.lock == Some(t) && SupersedesServing(s, build)
    case StopTidy => s.lock.None? || Serves(s)
    case Evict(q) => q in s.procs && Ended(s.procs[q])
    case _ => true
  }

  predicate BootStory(s: State)
  {
    s.boot.Some? && IsShim(s, s.boot.value) ==>
      LockedStory(s, s.procs[s.boot.value].pc, s.procs[s.boot.value].build)
  }

  ghost predicate SteadyInv(s: State)
  {
    Inv(s) && HolderStory(s) && BootStory(s) && forall p :: p in s.procs ==> CalmProc(s.procs[p])
  }

  // ---- every steady step keeps it ----

  lemma ListeningIsServing(s: State)
    requires Inv(s)
    ensures Listening(s) <==> Serves(s)
  {
    forall p | p in s.procs && IsListening(s.procs[p])
      ensures s.lock == Some(p)
    {
      assert HoldsLock(s.procs[p]);
    }
  }

  lemma StaysCalm(s: State, l: Label)
    requires Enabled(s, l) && SteadyLabel(s, l) && forall p :: p in s.procs ==> CalmProc(s.procs[p])
    ensures forall p :: p in Apply(s, l).procs ==> CalmProc(Apply(s, l).procs[p])
  {
  }

  /** The boot holder's story goes on as long as it does not move and whether the lock's holder serves stays. */
  lemma BootFrame(s: State, s': State)
    requires BootStory(s) && s'.boot == s.boot
    requires s.boot.Some? && IsShim(s', s.boot.value) ==>
               IsShim(s, s.boot.value) && s'.procs[s.boot.value] == s.procs[s.boot.value]
    requires s'.lock == s.lock && (Serves(s) <==> Serves(s'))
    requires Serves(s) ==> s'.procs[s.lock.value].build == s.procs[s.lock.value].build
    requires forall q :: q in s.procs && Ended(s.procs[q]) ==> q in s'.procs && Ended(s'.procs[q])
    ensures BootStory(s')
  {
  }

  /** A shim's move that leaves locks and files alone leaves the lock holder's story alone. */
  lemma HolderFrame(s: State, s': State, p: Pid, y: Proc)
    requires HolderStory(s) && s.lock != Some(p) && s.pidFile != Some(p)
    requires s'.procs == s.procs[p := y] && s'.lock == s.lock && s'.pidFile == s.pidFile && s'.stamp == s.stamp
    ensures HolderStory(s')
  {
  }

  /** A shim outside its locked section changes only itself, and perhaps takes the bootstrap lock. */
  lemma UnlockedShape(s: State, p: Pid)
    requires ShimReady(s, p) && !InLockedSection(s.procs[p].pc)
    ensures
      var s' := ShimNext(s, p);
      && s'.procs == s.procs[p := s'.procs[p]] && s'.lock == s.lock && s'.pidFile == s.pidFile && s'.stamp == s.stamp
      && s'.procs[p].Shim?
      && (s'.boot == Without(s.boot, p) || (s'.boot == Some(p) && s'.procs[p].pc.LockedCheckRebuild?) || s'.boot == s.boot)
  {
  }

  lemma UnlockedKeepsSteady(s: State, p: Pid)
    requires ShimReady(s, p) && !InLockedSection(s.procs[p].pc) && s.boot != Some(p) && s.lock != Some(p)
    requires RecordsAgree(s) && HolderStory(s) && BootStory(s)
    ensures HolderStory(ShimNext(s, p)) && BootStory(ShimNext(s, p))
  {
    UnlockedShape(s, p);
    var s' := ShimNext(s, p);
    HolderFrame(s, s', p, s'.procs[p]);
    if s'.boot == s.boot {
      BootFrame(s, s');
    }
  }

  lemma LockedKeepsHolder(s: State, p: Pid)
    requires ShimReady(s, p) && s.lock != Some(p) && !s.procs[p].pc.StopKill? && !s.procs[p].pc.Evict?
    requires RecordsAgree(s) && HolderStory(s) && (Listening(s) <==> Serves(s))
    requires s.procs[p].pc.StopTidy? ==> s.lock.None? || Serves(s)
    ensures HolderStory(ShimNext(s, p))
  {
    var s' := ShimNext(s, p);
    assert s.lock.Some? ==> s'.procs[s.lock.value] == s.procs[s.lock.value];
  }

  lemma LockedKeepsBoot(s: State, p: Pid)
    requires ShimReady(s, p) && s.boot == Some(p) && s.lock != Some(p)
    requires !s.procs[p].pc.StopKill? && !s.procs[p].pc.Evict?
    requires HolderStory(s) && BootStory(s) && (Listening(s) <==> Serves(s))
    requires s.procs[p].pc.SecondInspect? ==>
               var q := s.procs[p].pc.suspect; q in s.procs && PastServing(s.procs[q]) && CalmProc(s.procs[q])
    ensures BootStory(ShimNext(s, p))
  {
    var s' := ShimNext(s, p);
    assert s.lock.Some? ==> s'.procs[s.lock.value] == s.procs[s.lock.value];
  }

  lemma KillingKeepsSteady(s: State, p: Pid)
    requires ShimReady(s, p) && s.boot == Some(p) && s.lock != Some(p)
    requires s.procs[p].pc.StopKill? || s.procs[p].pc.Evict?
    requires RecordsAgree(s) && HolderStory(s) && BootStory(s)
    ensures HolderStory(ShimNext(s, p)) && BootStory(ShimNext(s, p))
  {
  }

  lemma ShimKeepsSteady(s: State, p: Pid)
    requires SteadyInv(s) && ShimReady(s, p)
    ensures HolderStory(ShimNext(s, p)) && BootStory(ShimNext(s, p))
  {
    assert HoldsBoot(s.procs[p]) <==> s.boot == Some(p);
    assert HoldsLock(s.procs[p]) <==> s.lock == Some(p);
    assert ShimKnows(s, s.procs[p].pc);
    if !InLockedSection(s.procs[p].pc) {
      UnlockedKeepsSteady(s, p);
    } else if s.procs[p].pc.StopKill? || s.procs[p].pc.Evict? {
      KillingKeepsSteady(s, p);
    } else {
      ListeningIsServing(s);
      LockedKeepsHolder(s, p);
      LockedKeepsBoot(s, p);
    }
  }

  lemma DaemonKeepsHolder(s: State, d: Pid)
    requires DaemonReady(s, d) && CalmProc(s.procs[d]) && RecordsAgree(s) && HolderStory(s)
    requires HoldsLock(s.procs[d]) <==> s.lock == Some(d)
    ensures HolderStory(DaemonNext(s, d))
  {
  }

  /** While a daemon that is still starting moves, the boot holder waits or has not looked yet. */
  lemma DaemonKeepsBoot(s: State, d: Pid)
    requires DaemonReady(s, d) && CalmProc(s.procs[d]) && BootStory(s)
    requires HoldsLock(s.procs[d]) <==> s.lock == Some(d)
    requires s.boot != Some(d)
    requires s.procs[d].phase.Spawned? ==>
               s.boot.Some? && IsShim(s, s.boot.value) && s.procs[s.boot.value].pc.Waiting?
    ensures BootStory(DaemonNext(s, d))
  {
  }

  lemma OthersKeepSteady(s: State, l: Label)
    requires Enabled(s, l) && SteadyLabel(s, l) && !l.ShimStep? && !l.DaemonStep?
    requires RecordsAgree(s) && HolderStory(s) && BootStory(s)
    requires l.pid in s.procs ==> (HoldsBoot(s.procs[l.pid]) <==> s.boot == Some(l.pid))
    requires l.pid in s.procs ==> (HoldsLock(s.procs[l.pid]) <==> s.lock == Some(l.pid))
    requires s.boot.Some? ==> s.boot.value in s.procs
    ensures HolderStory(Apply(s, l)) && BootStory(Apply(s, l))
  {
  }

  lemma ApplyKeepsSteady(s: State, l: Label)
    requires SteadyInv(s) && Enabled(s, l) && SteadyLabel(s, l)
    ensures SteadyInv(Apply(s, l))
  {
    ApplyKeepsInv(s, l);
    StaysCalm(s, l);
    assert l.pid in s.procs ==> (HoldsBoot(s.procs[l.pid]) <==> s.boot == Some(l.pid));
    assert l.pid in s.procs ==> (HoldsLock(s.procs[l.pid]) <==> s.lock == Some(l.pid));
    match l
    case ShimStep(p) => ShimKeepsSteady(s, p);
    case DaemonStep(d) =>
      if s.procs[d].phase.Spawned? { assert HoldsBoot(s.procs[s.procs[d].spawner]); }
      DaemonKeepsHolder(s, d);
      DaemonKeepsBoot(s, d);
    case _ => OthersKeepSteady(s, l);
  }

  lemma {:induction false} SteadyRunInv(labels: seq<Label>)
    requires RunOf(SteadyLabel, labels)
    ensures Exec(Init(), labels).Some? && SteadyInv(Exec(Init(), labels).value)
  {
    if labels != [] {
      SteadyRunInv(labels[..|labels| - 1]);
      ApplyKeepsSteady(Exec(Init(), labels[..|labels| - 1]).value, labels[|labels| - 1]);
    }
  }

  /** Whichever shims judged the incumbent outdated before they queued, gave up or were killed, the daemon
      a shim stops is the one serving, and its build is superseded. */
  lemma RetiresOnlySuperseded(s: State, p: Pid)
    requires ReachableBy(SteadyLabel, s) && IsShim(s, p) && s.procs[p].pc.StopKill?
    ensures
      var t := s.procs[p].pc.target;
      && s.lock == Some(t) && IsDaemon(s, t) && IsListening(s.procs[t])
      && Supersedes(s.procs[p].build, s.procs[t].build)
  {
    var labels :| RunOf(SteadyLabel, labels) && Exec(Init(), labels) == Some(s);
    SteadyRunInv(labels);
    assert HoldsBoot(s.procs[p]);
  }
}
