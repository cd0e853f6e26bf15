/**
 * Runs in which nothing dies on its own: daemons neither exit nor wedge, a spawned daemon takes the
 * daemon lock while its spawner still waits for it or not at all, no shim gives up or is killed
 * inside its locked section, and no CLI rebuild runs. Shims of any builds, in any number, still
 * interleave freely. In such runs the serving build only rises, and equal shims spawn once.
 */
module BootstrapCalm {
  import opened Prelude
  import opened Bootstrap
  import opened BootstrapSafety
  import opened BootstrapSteady

  predicate CalmLabel(s: State, l: Label)
  {
    match l
    case StartShim(_, _) => true
    case ShimStep(_) => true
    case StopFails(_) => true
    case Spawn(_, _) => true
    case DaemonStep(d) => InTime(s, d)
    case StandDown(_) => true
    case Crash(p) => IsShim(s, p) && !InLockedSection(s.procs[p].pc)
    case _ => false
  }

  ghost predicate CalmReachable(s: State)
  {
    ReachableBy(CalmLabel, s)
  }

  // ---- the invariant of calm runs ----

  function Last(h: seq<Build>): Build
    requires h != []
  {
    h[|h| - 1]
  }

  /** `build` supersedes the last build that bound the socket, if any did. */
  predicate SupersedesLast(s: State, build: Build)
  {
    s.history.bound == [] || Supersedes(build, Last(s.history.bound))
  }

  /** `p` has stopped the last daemon and is about to replace it. */
  predicate Replaces(s: State, p: Pid)
  {
    && IsShim(s, p)
    && (s.procs[p].pc.StopTidy? || s.procs[p].pc.SpawnDaemon? || s.procs[p].pc.Waiting?)
    && SupersedesLast(s, s.procs[p].build)
  }

  ghost predicate LockStory(s: State)
  {
    match s.lock
    case None =>
      && s.history.retired == s.history.bound
      && (s.history.bound == [] || (s.boot.Some? && Replaces(s, s.boot.value)))
    case Some(d) =>
      && IsDaemon(s, d)
      && if IsListening(s.procs[d]) then
           && s.stamp == Some(s.procs[d].build)
           && s.history.bound != [] && Last(s.history.bound) == s.procs[d].build
           && s.history.retired == s.history.bound[..|s.history.bound| - 1]
         else
           && s.procs[d].spawner in s.procs
           && s.procs[s.procs[d].spawner] == Shim(s.procs[d].build, Waiting(d))
           && s.history.retired == s.history.bound && SupersedesLast(s, s.procs[d].build)
           && (s.procs[d].phase.Stamped? ==> s.stamp == Some(s.procs[d].build))
  }

  ghost predicate ShimStory(s: State, p: Pid)
    requires IsShim(s, p)
  {
    var build := s.procs[p].build;
    match s.procs[p].pc
    case ReadStamp => s.history.bound != []
    case LockedReadStamp => Serves(s)
    case FallbackConnect => Serves(s)
    case StopPick => Serves(s) && SupersedesServing(s, build)
    case StopKill(t) => Serves(s) && s.lock == Some(t) && SupersedesServing(s, build)
    case StopTidy => SupersedesServing(s, build)
    case FirstProbe => s.lock.None?
    case FirstInspect => s.lock.None?
    case SecondProbe(_) => false
    case SecondInspect(_) => false
    case Evict(_) => false
    case SpawnDaemon => SupersedesServing(s, build)
    case Waiting(c) => IsDaemon(s, c) && s.procs[c].build == build && s.procs[c].spawner == p
    case Finished(outcome) => outcome.Connected? ==> s.history.bound != []
    case _ => true
  }

  function ShimBuilds(s: State): set<Build>
  {
    set p | p in s.procs && s.procs[p].Shim? :: s.procs[p].build
  }

  /** Each build supersedes the one before it. */
  ghost predicate Chain(h: seq<Build>)
  {
    forall i :: 0 < i < |h| ==> Supersedes(h[i], h[i - 1])
  }

  ghost predicate BuildsKnown(s: State)
  {
    && (forall d :: d in s.procs && s.procs[d].Daemon? ==> s.procs[d].build in ShimBuilds(s))
    && (forall b :: b in s.history.bound ==> b in ShimBuilds(s))
  }

  ghost predicate CalmStory(s: State)
  {
    && s.marker.None?
    && (forall p :: p in s.procs ==> CalmProc(s.procs[p]))
    && (s.pidFile.Some? && Alive(s, s.pidFile.value) ==> s.lock == s.pidFile)
    && LockStory(s)
    && (forall p :: IsShim(s, p) ==> ShimStory(s, p))
    && BuildsKnown(s)
    && Chain(s.history.bound)
  }

  ghost predicate CalmInv(s: State)
  {
    Inv(s) && CalmStory(s)
  }

  // ---- every calm step keeps it ----

  /** Shims stay, so the builds in play only grow. */
  lemma BuildsGrow(s: State, s': State)
    requires forall p :: IsShim(s, p) ==> IsShim(s', p) && s'.procs[p].build == s.procs[p].build
    ensures ShimBuilds(s) <= ShimBuilds(s')
  {
    forall b | b in ShimBuilds(s)
      ensures b in ShimBuilds(s')
    {
      var p :| p in s.procs && s.procs[p].Shim? && s.procs[p].build == b;
      assert IsShim(s, p);
      assert s'.procs[p].build == b;
    }
  }

  /** Another process's step leaves what shim `q` relies on alone: the lock, or `q` does not rely on it. */
  lemma StoryFrame(s: State, s': State, q: Pid)
    requires IsShim(s, q) && q in s'.procs && s'.procs[q] == s.procs[q] && ShimStory(s, q)
    requires s.history.bound != [] ==> s'.history.bound != []
    requires s.procs[q].pc.Waiting? ==>
               var c := s.procs[q].pc.child;
               c in s'.procs && s'.procs[c].Daemon? && s'.procs[c].build == s.procs[c].build
               && s'.procs[c].spawner == s.procs[c].spawner
    requires InLockedSection(s.procs[q].pc) && !s.procs[q].pc.Waiting? ==>
               s'.lock == s.lock && (Serves(s) <==> Serves(s'))
               && (Serves(s) ==> s'.procs[s.lock.value].build == s.procs[s.lock.value].build)
    ensures ShimStory(s', q)
  {
  }

  /** A step that changes one shim, perhaps the bootstrap lock, and removes state files no live daemon
      needs. */
  lemma ShimMoveKeepsCalm(s: State, s': State, p: Pid, y: Proc)
    requires CalmStory(s) && RecordsAgree(s)
    requires y.Shim? && (p in s.procs ==> s.procs[p].Shim? && s.procs[p].build == y.build)
    requires s' == Put(s, p, y).(boot := s'.boot, pidFile := s'.pidFile, stamp := s'.stamp)
    requires s'.pidFile == s.pidFile || s'.pidFile.None?
    requires s'.stamp == s.stamp || s.lock.None?
    requires LockStory(s') && ShimStory(s', p)
    ensures CalmStory(s')
  {
    BuildsGrow(s, s');
    forall q | IsShim(s', q)
      ensures ShimStory(s', q)
    {
      if q != p {
        assert IsShim(s, q);
        StoryFrame(s, s', q);
      }
    }
  }

  /** A shim in its locked section that is not waiting finds the daemon lock free or its holder serving. */
  lemma NoStarterWhileLocked(s: State, p: Pid)
    requires CalmInv(s) && IsShim(s, p) && InLockedSection(s.procs[p].pc)
    ensures s.boot == Some(p)
    ensures !s.procs[p].pc.Waiting? && s.lock.Some? ==> Serves(s)
  {
    assert HoldsBoot(s.procs[p]);
    if s.lock.Some? && !Serves(s) {
      assert HoldsBoot(s.procs[s.procs[s.lock.value].spawner]);
    }
  }

  /** A shim's step, other than stopping a daemon, changes only the shim, the bootstrap lock and files. */
  lemma ShimStepShape(s: State, p: Pid)
    requires ShimReady(s, p) && !s.procs[p].pc.StopKill? && !s.procs[p].pc.Evict?
    ensures
      var s' := ShimNext(s, p);
      && s' == Put(s, p, s'.procs[p]).(boot := s'.boot, pidFile := s'.pidFile, stamp := s'.stamp)
      && s'.procs[p].Shim? && s'.procs[p].build == s.procs[p].build
      && (s'.pidFile == s.pidFile || s'.pidFile.None?)
      && (s'.stamp == s.stamp || !Listening(s))
  {
  }

  lemma UnlockedStepStory(s: State, p: Pid)
    requires ShimReady(s, p) && !InLockedSection(s.procs[p].pc) && s.boot != Some(p)
    requires s.marker.None? && LockStory(s) && ShimStory(s, p)
    requires Listening(s) <==> Serves(s)
    ensures LockStory(ShimNext(s, p)) && ShimStory(ShimNext(s, p), p)
  {
  }

  lemma LockedStepStory(s: State, p: Pid)
    requires ShimReady(s, p) && InLockedSection(s.procs[p].pc) && s.boot == Some(p)
    requires !s.procs[p].pc.StopKill?
    requires s.marker.None? && LockStory(s) && ShimStory(s, p)
    requires Listening(s) <==> Serves(s)
    requires !s.procs[p].pc.Waiting? && s.lock.Some? ==> Serves(s)
    requires s.pidFile.Some? && Alive(s, s.pidFile.value) ==> s.lock == s.pidFile
    ensures LockStory(ShimNext(s, p)) && ShimStory(ShimNext(s, p), p)
  {
    var s' := ShimNext(s, p);
    assert Serves(s) ==> s.procs[s.lock.value] == s'.procs[s.lock.value];
  }

  lemma ShimStepKeepsCalm(s: State, p: Pid)
    requires CalmInv(s) && ShimReady(s, p) && !s.procs[p].pc.StopKill?
    ensures CalmStory(ShimNext(s, p))
  {
    ListeningIsServing(s);
    assert HoldsBoot(s.procs[p]) <==> s.boot == Some(p);
    assert ShimStory(s, p);
    if InLockedSection(s.procs[p].pc) {
      NoStarterWhileLocked(s, p);
      LockedStepStory(s, p);
    } else {
      UnlockedStepStory(s, p);
    }
    ShimStepShape(s, p);
    ShimMoveKeepsCalm(s, ShimNext(s, p), p, ShimNext(s, p).procs[p]);
  }

  lemma StopKillKeepsStories(s: State, p: Pid)
    requires CalmInv(s) && ShimReady(s, p) && s.procs[p].pc.StopKill?
    ensures forall q :: IsShim(ShimNext(s, p), q) ==> ShimStory(ShimNext(s, p), q)
  {
    var s' := ShimNext(s, p);
    assert ShimStory(s, p);
    forall q | IsShim(s', q)
      ensures ShimStory(s', q)
    {
      if q != p {
        assert IsShim(s, q) && s'.procs[q] == s.procs[q];
        NotLocked(s, p, q);
        StoryFrame(s, s', q);
      }
    }
  }

  /** Stopping the daemon it supersedes: the lock falls free, and the shim is the one to replace it. */
  lemma StopKillKeepsCalm(s: State, p: Pid)
    requires CalmInv(s) && ShimReady(s, p) && s.procs[p].pc.StopKill?
    ensures CalmStory(ShimNext(s, p))
  {
    var s' := ShimNext(s, p);
    NoStarterWhileLocked(s, p);
    assert ShimStory(s, p);
    assert s'.lock.None? && s'.history.retired == s.history.bound;
    assert BuildsKnown(s') by { BuildsGrow(s, s'); }
    StopKillKeepsStories(s, p);
  }

  lemma StopFailsKeepsCalm(s: State, p: Pid)
    requires CalmInv(s) && Enabled(s, StopFails(p))
    ensures CalmStory(Apply(s, StopFails(p)))
  {
    assert ShimStory(s, p);
    var s' := Apply(s, StopFails(p));
    ShimMoveKeepsCalm(s, s', p, s'.procs[p]);
  }

  lemma OutsideKeepsLockStory(s: State, l: Label)
    requires LockStory(s) && Enabled(s, l) && CalmLabel(s, l) && (l.StartShim? || l.Crash?)
    requires s.boot != Some(l.pid) && s.lock != Some(l.pid)
    ensures LockStory(Apply(s, l))
  {
  }

  /** A shim starts, or is killed outside its locked section. */
  lemma OutsideKeepsCalm(s: State, l: Label)
    requires CalmInv(s) && Enabled(s, l) && CalmLabel(s, l) && (l.StartShim? || l.Crash?)
    ensures CalmStory(Apply(s, l))
  {
    var s' := Apply(s, l);
    if l.Crash? {
      assert HoldsBoot(s.procs[l.pid]) <==> s.boot == Some(l.pid);
      assert HoldsLock(s.procs[l.pid]) <==> s.lock == Some(l.pid);
    }
    OutsideKeepsLockStory(s, l);
    ShimMoveKeepsCalm(s, s', l.pid, s'.procs[l.pid]);
  }

  /** What one daemon's step may do to what the shims rely on. */
  ghost predicate DaemonMove(s: State, s': State, d: Pid, y: Proc)
  {
    && IsDaemon(s, d)
    && y.Daemon? && y.build == s.procs[d].build && y.spawner == s.procs[d].spawner && CalmProc(y)
    && (Ended(s.procs[d]) ==> Ended(y))
    && s'.procs == s.procs[d := y] && s'.boot == s.boot && s'.marker.None?
    && (s'.pidFile == s.pidFile || s'.pidFile == s'.lock)
    && (s'.lock == s.lock || s.lock.None?)
    && (s'.history.bound == s.history.bound || s'.history.bound == s.history.bound + [y.build])
  }

  ghost predicate NoOneReliesOnLock(s: State)
  {
    forall q :: IsShim(s, q) && InLockedSection(s.procs[q].pc) ==> s.procs[q].pc.Waiting?
  }

  lemma DaemonMoveKeepsStories(s: State, s': State, d: Pid, y: Proc)
    requires DaemonMove(s, s', d, y) && (forall p :: IsShim(s, p) ==> ShimStory(s, p))
    requires (s'.lock == s.lock && (Serves(s) <==> Serves(s'))) || NoOneReliesOnLock(s)
    ensures forall p :: IsShim(s', p) ==> ShimStory(s', p)
  {
    forall q | IsShim(s', q)
      ensures ShimStory(s', q)
    {
      assert IsShim(s, q) && s'.procs[q] == s.procs[q];
      StoryFrame(s, s', q);
    }
  }

  lemma DaemonMoveKeepsBuilds(s: State, s': State, d: Pid, y: Proc)
    requires DaemonMove(s, s', d, y) && BuildsKnown(s)
    ensures BuildsKnown(s')
  {
    BuildsGrow(s, s');
    assert y.build in ShimBuilds(s);
  }

  /** A step that changes one daemon. */
  lemma DaemonMoveKeepsCalm(s: State, s': State, d: Pid, y: Proc)
    requires CalmStory(s) && RecordsAgree(s) && DaemonMove(s, s', d, y)
    requires LockStory(s') && Chain(s'.history.bound)
    requires (s'.lock == s.lock && (Serves(s) <==> Serves(s'))) || NoOneReliesOnLock(s)
    ensures CalmStory(s')
  {
    DaemonMoveKeepsStories(s, s', d, y);
    DaemonMoveKeepsBuilds(s, s', d, y);
  }

  /** Only the spawner is in its locked section while a daemon takes the lock and starts up. */
  lemma StarterAlone(s: State, d: Pid)
    requires CalmInv(s) && IsDaemon(s, d)
    requires s.procs[d].phase.Spawned? ==> CalmLabel(s, DaemonStep(d)) && s.lock.None?
    requires !IsListening(s.procs[d]) && !s.procs[d].phase.Gone?
    ensures NoOneReliesOnLock(s)
    ensures IsShim(s, s.procs[d].spawner) && s.procs[s.procs[d].spawner] == Shim(s.procs[d].build, Waiting(d))
    ensures s.history.retired == s.history.bound && SupersedesLast(s, s.procs[d].build)
  {
    assert CalmProc(s.procs[d]);
    if !s.procs[d].phase.Spawned? {
      assert HoldsLock(s.procs[d]);
    }
    var w := s.procs[d].spawner;
    assert ShimStory(s, w);
    assert HoldsBoot(s.procs[w]);
    forall q | IsShim(s, q) && InLockedSection(s.procs[q].pc)
      ensures s.procs[q].pc.Waiting?
    {
      assert HoldsBoot(s.procs[q]);
    }
  }

  /** Start-up: from taking the lock to binding, which adds its build to the chain. */
  lemma StartUpStory(s: State, d: Pid)
    requires DaemonReady(s, d) && CalmProc(s.procs[d]) && !IsListening(s.procs[d])
    requires if s.procs[d].phase.Spawned? then s.lock.None? else s.lock == Some(d) && LockStory(s)
    requires s.procs[d].spawner in s.procs && s.procs[s.procs[d].spawner] == Shim(s.procs[d].build, Waiting(d))
    requires s.history.retired == s.history.bound && SupersedesLast(s, s.procs[d].build)
    requires Chain(s.history.bound)
    ensures LockStory(DaemonNext(s, d)) && Chain(DaemonNext(s, d).history.bound)
  {
  }

  lemma DaemonStepShape(s: State, d: Pid)
    requires DaemonReady(s, d) && CalmProc(s.procs[d]) && s.marker.None?
    requires HoldsLock(s.procs[d]) ==> s.lock == Some(d)
    ensures DaemonMove(s, DaemonNext(s, d), d, DaemonNext(s, d).procs[d])
    ensures IsListening(s.procs[d]) ==> IsListening(DaemonNext(s, d).procs[d]) && DaemonNext(s, d).lock == s.lock
  {
  }

  /** A serving daemon's last start-up steps change nothing a shim relies on. */
  lemma ServingStepStory(s: State, d: Pid)
    requires DaemonReady(s, d) && CalmProc(s.procs[d]) && IsListening(s.procs[d]) && s.lock == Some(d)
    requires LockStory(s) && Chain(s.history.bound)
    ensures LockStory(DaemonNext(s, d)) && Chain(DaemonNext(s, d).history.bound)
  {
  }

  lemma DaemonStepKeepsCalm(s: State, d: Pid)
    requires CalmInv(s) && DaemonReady(s, d) && CalmLabel(s, DaemonStep(d))
    ensures CalmStory(DaemonNext(s, d))
  {
    assert CalmProc(s.procs[d]);
    assert HoldsLock(s.procs[d]) <==> s.lock == Some(d);
    DaemonStepShape(s, d);
    if IsListening(s.procs[d]) {
      ServingStepStory(s, d);
    } else {
      StarterAlone(s, d);
      StartUpStory(s, d);
    }
    DaemonMoveKeepsCalm(s, DaemonNext(s, d), d, DaemonNext(s, d).procs[d]);
  }

  lemma StandDownKeepsCalm(s: State, d: Pid)
    requires CalmInv(s) && Enabled(s, StandDown(d))
    ensures CalmStory(Apply(s, StandDown(d)))
  {
    var s' := Apply(s, StandDown(d));
    assert HoldsLock(s.procs[d]) <==> s.lock == Some(d);
    DaemonMoveKeepsCalm(s, s', d, s'.procs[d]);
  }

  /** Spawning tells every shim's story on: only the spawner moved, and no one waits for the child but it. */
  lemma SpawnKeepsStories(s: State, p: Pid, child: Pid)
    requires CalmInv(s) && Enabled(s, Spawn(p, child))
    ensures forall q :: IsShim(Apply(s, Spawn(p, child)), q) ==> ShimStory(Apply(s, Spawn(p, child)), q)
  {
    var s' := Apply(s, Spawn(p, child));
    forall q | IsShim(s', q)
      ensures ShimStory(s', q)
    {
      if q != p {
        assert IsShim(s, q) && s'.procs[q] == s.procs[q];
        assert HoldsBoot(s.procs[q]) <==> s.boot == Some(q);
        NotLocked(s, p, q);
        StoryFrame(s, s', q);
      }
    }
  }

  lemma NotLocked(s: State, p: Pid, q: Pid)
    requires Inv(s) && IsShim(s, p) && InLockedSection(s.procs[p].pc) && IsShim(s, q) && q != p
    ensures !InLockedSection(s.procs[q].pc)
  {
    assert HoldsBoot(s.procs[p]);
    assert HoldsBoot(s.procs[q]) <==> s.boot == Some(q);
  }

  lemma SpawnKeepsLockStory(s: State, p: Pid, child: Pid)
    requires LockStory(s) && Enabled(s, Spawn(p, child)) && s.boot == Some(p)
    requires s.lock.Some? ==> Serves(s)
    ensures LockStory(Apply(s, Spawn(p, child)))
  {
  }

  lemma SpawnKeepsCalm(s: State, p: Pid, child: Pid)
    requires CalmInv(s) && Enabled(s, Spawn(p, child))
    ensures CalmStory(Apply(s, Spawn(p, child)))
  {
    var s' := Apply(s, Spawn(p, child));
    NoStarterWhileLocked(s, p);
    SpawnKeepsLockStory(s, p, child);
    SpawnKeepsStories(s, p, child);
    SpawnKeepsBuilds(s, p, child);
    assert s'.pidFile == s.pidFile && s'.lock == s.lock && s'.marker == s.marker;
  }

  lemma SpawnKeepsBuilds(s: State, p: Pid, child: Pid)
    requires BuildsKnown(s) && Enabled(s, Spawn(p, child))
    ensures BuildsKnown(Apply(s, Spawn(p, child)))
  {
    BuildsGrow(s, Apply(s, Spawn(p, child)));
    assert s.procs[p].build in ShimBuilds(s);
  }

  lemma ApplyKeepsCalm(s: State, l: Label)
    requires CalmInv(s) && Enabled(s, l) && CalmLabel(s, l)
    ensures CalmInv(Apply(s, l))
  {
    ApplyKeepsInv(s, l);
    match l
    case StartShim(_, _) => OutsideKeepsCalm(s, l);
    case Crash(_) => OutsideKeepsCalm(s, l);
    case ShimStep(p) => if s.procs[p].pc.StopKill? { StopKillKeepsCalm(s, p); } else { ShimStepKeepsCalm(s, p); }
    case StopFails(p) => StopFailsKeepsCalm(s, p);
    case Spawn(p, child) => SpawnKeepsCalm(s, p, child);
    case DaemonStep(d) => DaemonStepKeepsCalm(s, d);
    case StandDown(d) => StandDownKeepsCalm(s, d);
  }

  lemma {:induction false} CalmRunInv(labels: seq<Label>)
    requires RunOf(CalmLabel, labels)
    ensures Exec(Init(), labels).Some? && CalmInv(Exec(Init(), labels).value)
  {
    if labels != [] {
      CalmRunInv(labels[..|labels| - 1]);
      ApplyKeepsCalm(Exec(Init(), labels[..|labels| - 1]).value, labels[|labels| - 1]);
    }
  }

  lemma CalmReachableInv(s: State)
    requires CalmReachable(s)
    ensures CalmInv(s)
  {
    var labels :| RunOf(CalmLabel, labels) && Exec(Init(), labels) == Some(s);
    CalmRunInv(labels);
  }
}
