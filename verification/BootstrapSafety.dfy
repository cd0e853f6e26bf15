/**
 * What every run of the bootstrap protocol keeps, with processes crashing, wedging, timing out and
 * starting late at any point: the daemon lock admits one serving daemon, a rebuild is never served
 * over, and an eviction only ever hits a daemon that is past serving.
 */
module BootstrapSafety {
  import opened Prelude
  import opened Bootstrap

  // ---- the invariant ----

  predicate InLockedSection(pc: ShimPc)
  {
    !pc.CheckRebuild? && !pc.Connect? && !pc.ReadStamp? && !pc.AwaitLock? && !pc.Finished?
  }

  predicate HoldsBoot(x: Proc)
  {
    match x
    case Shim(_, pc) => InLockedSection(pc)
    case Rebuild(rpc) =>
      !rpc.AwaitBootstrap? && !rpc.Rebuilding? && !rpc.DropMarker? && !rpc.DropDaemonLock? && !rpc.RebuildOver?
    case Daemon(_, _, _) => false
  }

  predicate HoldsLock(x: Proc)
  {
    match x
    case Shim(_, _) => false
    case Rebuild(rpc) => 
      rpc.ClearRecord? || rpc.DropBootstrap? || rpc.Rebuilding? || rpc.DropMarker? || rpc.DropDaemonLock?
    case Daemon(_, _, phase) => !phase.Spawned? && !phase.Released? && !phase.Gone?
  }

  /** Each lock's holder is exactly the process whose program counter says it holds it. */
  ghost predicate LocksAgree(s: State)
  {
    && (s.boot.Some? ==> s.boot.value in s.procs)
    && (s.lock.Some? ==> s.lock.value in s.procs)
    && (forall p :: p in s.procs ==> (HoldsBoot(s.procs[p]) <==> s.boot == Some(p)))
    && (forall p :: p in s.procs ==> (HoldsLock(s.procs[p]) <==> s.lock == Some(p)))
  }

  /** Past the point where the daemon recorded itself as serving. */
  predicate OnceRecorded(x: Proc)
  {
    x.Daemon? && (x.phase.Recorded? || x.phase.StampRemoved? || x.phase.PidRemoved? || PastServing(x))
  }

  /** Stopped listening for good. */
  predicate PastServing(x: Proc)
  {
    x.Daemon? && (x.phase.Wedged? || x.phase.Released? || x.phase.Gone?)
  }

  ghost predicate RecordsAgree(s: State)
  {
    && (s.serving.Some? ==> s.serving.value in s.procs && OnceRecorded(s.procs[s.serving.value]))
    && (s.pidFile.Some? ==> s.pidFile.value in s.procs && s.procs[s.pidFile.value].Daemon?)
  }

  /** Program points of a rebuild between writing its marker and removing it. */
  predicate Marked(x: Proc)
  {
    && x.Rebuild?
    && !x.rpc.AwaitBootstrap? && !x.rpc.WriteMarker? && !x.rpc.DropDaemonLock?
    && !x.rpc.BailBootstrap? && !x.rpc.RebuildOver?
  }

  ghost predicate MarkerAgrees(s: State)
  {
    s.marker.Some? ==>
      && s.marker.value in s.procs
      && (Ended(s.procs[s.marker.value]) || Marked(s.procs[s.marker.value]))
  }

  /** The shim has passed the re-check for a rebuild that it makes under the bootstrap lock. */
  predicate PassedLockedCheck(pc: ShimPc)
  {
    InLockedSection(pc) && !pc.LockedCheckRebuild?
  }

  /** No live rebuild has its marker on file. */
  predicate NoLiveMarker(s: State)
  {
    s.marker.Some? ==> !Alive(s, s.marker.value)
  }

  /** What a shim at `pc` has learnt that still holds. */
  ghost predicate ShimKnows(s: State, pc: ShimPc)
  {
    && (PassedLockedCheck(pc) ==> NoLiveMarker(s))
    && match pc
       case StopKill(t) => IsDaemon(s, t)
       case SecondProbe(q) => q in s.procs && OnceRecorded(s.procs[q])
       case SecondInspect(q) => q in s.procs && PastServing(s.procs[q])
       case Evict(q) => q in s.procs && PastServing(s.procs[q])
       case _ => true
  }

  ghost predicate ShimsAgree(s: State)
  {
    forall p :: p in s.procs && s.procs[p].Shim? ==> ShimKnows(s, s.procs[p].pc)
  }

  ghost predicate RebuildsAgree(s: State)
  {
    forall p :: p in s.procs && s.procs[p].Rebuild? && s.procs[p].rpc.RebuildKill? ==>
      IsDaemon(s, s.procs[p].rpc.target)
  }

  ghost predicate Inv(s: State)
  {
    LocksAgree(s) && RecordsAgree(s) && MarkerAgrees(s) && ShimsAgree(s) && RebuildsAgree(s)
  }

  // ---- every step keeps it ----

  /** A lock moves only to or from the process that takes the step. */
  ghost predicate LockMoves(before: Option<Pid>, after: Option<Pid>, p: Pid, holds: bool)
  {
    && (holds <==> after == Some(p))
    && (after == before || (before in {None, Some(p)} && after in {None, Some(p)}))
  }

  /** A process never turns into another kind, and never undoes serving or ending. */
  ghost predicate Advances(x: Proc, y: Proc)
  {
    && (x.Shim? <==> y.Shim?) && (x.Rebuild? <==> y.Rebuild?)
    && (Ended(x) ==> Ended(y))
    && (OnceRecorded(x) ==> OnceRecorded(y))
    && (PastServing(x) ==> PastServing(y))
  }

  /** What one process `p`, moving to `x`, may do to the shared state. */
  ghost predicate LocalStep(s: State, s': State, p: Pid, x: Proc)
  {
    && s'.procs == s.procs[p := x]
    && (p in s.procs ==> Advances(s.procs[p], x))
    && LockMoves(s.boot, s'.boot, p, HoldsBoot(x))
    && LockMoves(s.lock, s'.lock, p, HoldsLock(x))
    && (s'.serving == s.serving || s'.serving.None? || (s'.serving == Some(p) && OnceRecorded(x)))
    && (s'.pidFile == s.pidFile || s'.pidFile.None? || (s'.pidFile == Some(p) && x.Daemon?))
    && (s'.marker == s.marker || s'.marker.None? || (s'.marker == Some(p) && HoldsBoot(x)))
    && (s'.marker == Some(p) ==> Ended(x) || Marked(x))
    && (x.Shim? ==> ShimKnows(s', x.pc))
    && (x.Rebuild? && x.rpc.RebuildKill? ==> IsDaemon(s', x.rpc.target))
  }

  lemma LocalStepKeepsInv(s: State, s': State, p: Pid, x: Proc)
    requires Inv(s) && LocalStep(s, s', p, x)
    ensures Inv(s')
  {
    assert forall q :: q in s'.procs ==> q == p || (q in s.procs && s'.procs[q] == s.procs[q]);
    assert LocksAgree(s');
    forall q | q in s'.procs && s'.procs[q].Shim?
      ensures ShimKnows(s', s'.procs[q].pc)
    {
      if q != p {
        assert ShimKnows(s, s.procs[q].pc);
        if PassedLockedCheck(s.procs[q].pc) {
          assert HoldsBoot(s.procs[q]);
        }
      }
    }
  }

  lemma KillKeepsInv(s: State, p: Pid)
    requires Inv(s) && p in s.procs
    ensures Inv(Kill(s, p))
  {
    if !Ended(s.procs[p]) {
      LocalStepKeepsInv(s, Kill(s, p), p, EndOf(s.procs[p]));
    }
  }

  /** A shim that found no rebuild under the bootstrap lock: none has its marker on file. */
  lemma LockedCheckIsFinal(s: State, p: Pid)
    requires Inv(s) && IsShim(s, p) && s.procs[p].pc.LockedCheckRebuild?
    requires !RebuildSeen(s)
    ensures NoLiveMarker(s)
  {
    assert HoldsBoot(s.procs[p]);
    assert s.marker.Some? && Marked(s.procs[s.marker.value]) ==>
        HoldsBoot(s.procs[s.marker.value]) || HoldsLock(s.procs[s.marker.value]);
  }

  /** What the invariant says about shim `p` alone. */
  ghost predicate ShimSound(s: State, p: Pid)
    requires IsShim(s, p)
  {
    && RecordsAgree(s) && ShimKnows(s, s.procs[p].pc)
    && (InLockedSection(s.procs[p].pc) <==> s.boot == Some(p))
    && s.lock != Some(p) && s.marker != Some(p)
  }

  /** A shim's step before its locked section is local. */
  lemma UnlockedNextIsLocal(s: State, p: Pid)
    requires ShimReady(s, p) && ShimSound(s, p) && !InLockedSection(s.procs[p].pc)
    ensures LocalStep(s, ShimNext(s, p), p, ShimNext(s, p).procs[p])
  {
  }

  /** So is one inside it, */
  lemma LockedNextIsLocal(s: State, p: Pid)
    requires ShimReady(s, p) && ShimSound(s, p) && InLockedSection(s.procs[p].pc)
    requires !s.procs[p].pc.StopKill? && !s.procs[p].pc.Evict?
    requires s.procs[p].pc.LockedCheckRebuild? && !RebuildSeen(s) ==> NoLiveMarker(s)
    ensures LocalStep(s, ShimNext(s, p), p, ShimNext(s, p).procs[p])
  {
  }

  /** and what it does after it has killed a process. */
  lemma AfterKillIsLocal(s: State, p: Pid, t: Pid)
    requires ShimReady(s, p) && InLockedSection(s.procs[p].pc) && s.boot == Some(p) && t in s.procs
    requires s.procs[p].pc == StopKill(t) || s.procs[p].pc == Evict(t)
    requires NoLiveMarker(Kill(s, t)) && Kill(s, t).procs[p] == s.procs[p] && Kill(s, t).boot == s.boot
    requires Kill(s, t).lock != Some(p) && s.marker != Some(p)
    ensures LocalStep(Kill(s, t), ShimNext(s, p), p, ShimNext(s, p).procs[p])
  {
  }

  lemma ShimNextKeepsInv(s: State, p: Pid)
    requires Inv(s) && ShimReady(s, p)
    ensures Inv(ShimNext(s, p))
  {
    var pc := s.procs[p].pc;
    assert ShimKnows(s, pc);
    assert HoldsBoot(s.procs[p]) <==> s.boot == Some(p);
    if pc.StopKill? || pc.Evict? {
      var t := if pc.StopKill? then pc.target else pc.suspect;
      KillKeepsInv(s, t);
      AfterKillIsLocal(s, p, t);
      LocalStepKeepsInv(Kill(s, t), ShimNext(s, p), p, ShimNext(s, p).procs[p]);
    } else {
      if pc.LockedCheckRebuild? && !RebuildSeen(s) { LockedCheckIsFinal(s, p); }
      if InLockedSection(pc) { LockedNextIsLocal(s, p); } else { UnlockedNextIsLocal(s, p); }
      LocalStepKeepsInv(s, ShimNext(s, p), p, ShimNext(s, p).procs[p]);
    }
  }

  /** What the invariant says about rebuild `p` alone. */
  ghost predicate RebuildSound(s: State, p: Pid)
    requires p in s.procs
  {
    && RecordsAgree(s)
    && (HoldsBoot(s.procs[p]) <==> s.boot == Some(p))
    && (HoldsLock(s.procs[p]) <==> s.lock == Some(p))
    && (s.marker == Some(p) ==> Ended(s.procs[p]) || Marked(s.procs[p]))
  }

  /** A rebuild's steps are local: up to the daemon lock, */
  lemma RebuildStartIsLocal(s: State, p: Pid)
    requires RebuildReady(s, p) && RebuildSound(s, p)
    requires var rpc := s.procs[p].rpc;
             rpc.AwaitBootstrap? || rpc.WriteMarker? || rpc.RebuildPick? || rpc.RebuildTidy? || rpc.TakeDaemonLock?
    ensures LocalStep(s, RebuildNext(s, p), p, RebuildNext(s, p).procs[p])
  {
  }

  /** from there on, */
  lemma RebuildRestIsLocal(s: State, p: Pid)
    requires RebuildReady(s, p) && RebuildSound(s, p)
    requires var rpc := s.procs[p].rpc;
             !rpc.AwaitBootstrap? && !rpc.WriteMarker? && !rpc.RebuildPick? && !rpc.RebuildTidy?
             && !rpc.TakeDaemonLock? && !rpc.RebuildKill?
    ensures LocalStep(s, RebuildNext(s, p), p, RebuildNext(s, p).procs[p])
  {
  }

  /** and after it has killed a daemon. */
  lemma RebuildAfterKillIsLocal(s: State, p: Pid, t: Pid)
    requires RebuildReady(s, p) && s.procs[p].rpc == RebuildKill(t)
    requires RebuildSound(Kill(s, t), p) && Kill(s, t).procs[p] == s.procs[p]
    ensures LocalStep(Kill(s, t), RebuildNext(s, p), p, RebuildNext(s, p).procs[p])
  {
  }

  lemma RebuildNextKeepsInv(s: State, p: Pid)
    requires Inv(s) && RebuildReady(s, p)
    ensures Inv(RebuildNext(s, p))
  {
    var rpc := s.procs[p].rpc;
    assert HoldsBoot(s.procs[p]) <==> s.boot == Some(p);
    assert HoldsLock(s.procs[p]) <==> s.lock == Some(p);
    if rpc.RebuildKill? {
      var mid := Kill(s, rpc.target);
      KillKeepsInv(s, rpc.target);
      RebuildAfterKillIsLocal(s, p, rpc.target);
      LocalStepKeepsInv(mid, RebuildNext(s, p), p, RebuildNext(s, p).procs[p]);
    } else {
      if rpc.AwaitBootstrap? || rpc.WriteMarker? || rpc.RebuildPick? || rpc.RebuildTidy? || rpc.TakeDaemonLock? {
        RebuildStartIsLocal(s, p);
      } else {
        RebuildRestIsLocal(s, p);
      }
      LocalStepKeepsInv(s, RebuildNext(s, p), p, RebuildNext(s, p).procs[p]);
    }
  }

  lemma DaemonNextIsLocal(s: State, p: Pid)
    requires DaemonReady(s, p)
    requires HoldsLock(s.procs[p]) <==> s.lock == Some(p)
    requires s.boot != Some(p) && s.marker != Some(p)
    ensures LocalStep(s, DaemonNext(s, p), p, DaemonNext(s, p).procs[p])
  {
  }

  lemma DaemonNextKeepsInv(s: State, p: Pid)
    requires Inv(s) && DaemonReady(s, p)
    ensures Inv(DaemonNext(s, p))
  {
    assert HoldsBoot(s.procs[p]) <==> s.boot == Some(p);
    DaemonNextIsLocal(s, p);
    LocalStepKeepsInv(s, DaemonNext(s, p), p, DaemonNext(s, p).procs[p]);
  }

  lemma SpawnKeepsInv(s: State, p: Pid, child: Pid)
    requires Inv(s) && Enabled(s, Spawn(p, child))
    ensures Inv(Apply(s, Spawn(p, child)))
  {
    var s' := Apply(s, Spawn(p, child));
    var mid := Put(s, child, s'.procs[child]);
    LocalStepKeepsInv(s, mid, child, s'.procs[child]);
    LocalStepKeepsInv(mid, s', p, s'.procs[p]);
  }

  /** The remaining labels are local steps of the process they name. */
  lemma OtherLabelIsLocal(s: State, l: Label)
    requires Enabled(s, l) && RecordsAgree(s)
    requires !l.ShimStep? && !l.RebuildStep? && !l.DaemonStep? && !l.Crash? && !l.Spawn?
    requires l.pid in s.procs ==> (HoldsBoot(s.procs[l.pid]) <==> s.boot == Some(l.pid))
    requires l.pid in s.procs ==> (HoldsLock(s.procs[l.pid]) <==> s.lock == Some(l.pid))
    requires l.pid !in s.procs ==> s.boot != Some(l.pid) && s.lock != Some(l.pid)
    requires s.marker == Some(l.pid) ==>
               l.pid in s.procs && (Ended(s.procs[l.pid]) || Marked(s.procs[l.pid]))
    requires IsShim(s, l.pid) ==> ShimKnows(s, s.procs[l.pid].pc)
    ensures LocalStep(s, Apply(s, l), l.pid, Apply(s, l).procs[l.pid])
  {
  }

  lemma ApplyKeepsInv(s: State, l: Label)
    requires Inv(s) && Enabled(s, l)
    ensures Inv(Apply(s, l))
  {
    match l
    case ShimStep(p) => ShimNextKeepsInv(s, p);
    case RebuildStep(p) => RebuildNextKeepsInv(s, p);
    case DaemonStep(p) => DaemonNextKeepsInv(s, p);
    case Crash(p) => KillKeepsInv(s, p);
    case Spawn(p, child) => SpawnKeepsInv(s, p, child);
    case _ =>
      OtherLabelIsLocal(s, l);
      LocalStepKeepsInv(s, Apply(s, l), l.pid, Apply(s, l).procs[l.pid]);
  }

  lemma {:induction false} RunKeepsInv(s: State, labels: seq<Label>)
    requires Inv(s)
    ensures Exec(s, labels).Some? ==> Inv(Exec(s, labels).value)
  {
    if labels != [] {
      RunKeepsInv(s, labels[..|labels| - 1]);
      var before := Exec(s, labels[..|labels| - 1]);
      if Exec(s, labels).Some? {
        ApplyKeepsInv(before.value, labels[|labels| - 1]);
      }
    }
  }

  lemma ReachableInv(s: State)
    requires Reachable(s)
    ensures Inv(s)
  {
    var labels :| Exec(Init(), labels) == Some(s);
    RunKeepsInv(Init(), labels);
  }

  // ---- what the invariant gives ----

  /** The daemon lock alone keeps a second daemon from serving: `Crash` may hit any process at any time. */
  lemma AtMostOneServes(s: State, p: Pid, q: Pid)
    requires Reachable(s)
    requires p in s.procs && IsListening(s.procs[p])
    requires q in s.procs && IsListening(s.procs[q])
    ensures p == q && s.lock == Some(p)
  {
    ReachableInv(s);
    assert HoldsLock(s.procs[p]) && HoldsLock(s.procs[q]);
  }

  /** While a rebuild has the daemon lock, no daemon is anywhere between taking it and releasing it. */
  lemma NoDaemonDuringRebuild(s: State, r: Pid, d: Pid)
    requires Reachable(s)
    requires r in s.procs && s.procs[r].Rebuild? && HoldsLock(s.procs[r])
    requires IsDaemon(s, d)
    ensures s.procs[d].phase in {Spawned, Released, Gone}
  {
    ReachableInv(s);
    assert HoldsLock(s.procs[d]) <==> s.lock == Some(d);
    assert HoldsLock(s.procs[r]);
  }

  /** A shim spawns only under the bootstrap lock and with no live rebuild's marker on file. */
  lemma NoSpawnOverMarker(s: State, p: Pid, child: Pid)
    requires Reachable(s) && Enabled(s, Spawn(p, child))
    ensures s.boot == Some(p)
    ensures s.marker.Some? ==> !Alive(s, s.marker.value)
  {
    ReachableInv(s);
    assert HoldsBoot(s.procs[p]) && ShimKnows(s, s.procs[p].pc);
  }

  /** From its locked check to the end of its locked section, whatever happens meanwhile, a shim that was
      not turned away has no live rebuild's marker on file beside it. */
  lemma LockedCheckLasts(s: State, p: Pid)
    requires Reachable(s) && IsShim(s, p) && PassedLockedCheck(s.procs[p].pc)
    ensures NoLiveMarker(s)
  {
    ReachableInv(s);
    assert ShimKnows(s, s.procs[p].pc);
  }

  /** An eviction hits only a daemon that no longer listens and never will: not one that serves,
      not one that starts, not a shim, not a rebuild. */
  lemma EvictionIsPastServing(s: State, p: Pid)
    requires Reachable(s) && IsShim(s, p) && s.procs[p].pc.Evict?
    ensures s.boot == Some(p)
    ensures IsDaemon(s, s.procs[p].pc.suspect)
    ensures s.procs[s.procs[p].pc.suspect].phase in {Wedged, Released, Gone}
  {
    ReachableInv(s);
    assert HoldsBoot(s.procs[p]) && ShimKnows(s, s.procs[p].pc);
  }

  /** Whichever way a process ends, it leaves both locks to the others. */
  lemma EndedHoldsNoLock(s: State, p: Pid)
    requires Reachable(s) && p in s.procs && Ended(s.procs[p])
    ensures s.boot != Some(p) && s.lock != Some(p)
  {
    ReachableInv(s);
    assert !HoldsBoot(s.procs[p]) && !HoldsLock(s.procs[p]);
  }

  // ---- an eviction rests on two looks ----

  /** The state before label `i` of a run. */
  function At(labels: seq<Label>, i: nat): Option<State>
    requires i <= |labels|
  {
    Exec(Init(), labels[..i])
  }

  /** From label `i` to the end of the run the bootstrap lock is `p`'s. */
  ghost predicate HeldSince(labels: seq<Label>, i: nat, p: Pid)
  {
    forall m :: i <= m <= |labels| ==> At(labels, m).Some? && At(labels, m).value.boot == Some(p)
  }

  /** At label `i` the shim `p` reads the daemon lock and the serving record, and finds `q` wedged. */
  ghost predicate LooksAt(labels: seq<Label>, i: nat, p: Pid, q: Pid)
  {
    i < |labels| && labels[i] == ShimStep(p) && At(labels, i).Some? && WedgedHolder(At(labels, i).value) == Some(q)
  }

  /** At label `i` the shim `p` finds nothing listening. */
  ghost predicate FindsSilence(labels: seq<Label>, i: nat, p: Pid)
  {
    i < |labels| && labels[i] == ShimStep(p) && At(labels, i).Some? && !Listening(At(labels, i).value)
  }

  lemma PrefixAt(labels: seq<Label>, i: nat)
    requires labels != [] && i < |labels|
    ensures labels[..|labels| - 1][..i] == labels[..i]
    ensures At(labels[..|labels| - 1], i) == At(labels, i)
  {
  }

  /** The bootstrap lock is still `p`'s after one more label, if `p` is still in its locked section. */
  lemma HeldOneMore(labels: seq<Label>, i: nat, p: Pid)
    requires labels != [] && i < |labels| && HeldSince(labels[..|labels| - 1], i, p)
    requires Exec(Init(), labels).Some? && Exec(Init(), labels).value.boot == Some(p)
    ensures HeldSince(labels, i, p)
  {
    assert labels[..|labels|] == labels;
    forall m | i <= m < |labels|
      ensures At(labels, m).Some? && At(labels, m).value.boot == Some(p)
    {
      PrefixAt(labels, m);
    }
  }

  lemma EvidencePersists(labels: seq<Label>, i: nat, p: Pid, q: Pid)
    requires labels != [] && i < |labels| - 1
    ensures LooksAt(labels[..|labels| - 1], i, p, q) ==> LooksAt(labels, i, p, q)
    ensures FindsSilence(labels[..|labels| - 1], i, p) ==> FindsSilence(labels, i, p)
  {
    PrefixAt(labels, i);
  }

  predicate Suspects(pc: ShimPc, q: Pid)
  {
    pc == SecondProbe(q) || pc == SecondInspect(q) || pc == Evict(q)
  }

  /** One label earlier a suspecting shim either stood at the same point or has just taken its look. */
  lemma OneLookEarlier(s: State, l: Label, p: Pid, q: Pid)
    requires Enabled(s, l) && IsShim(Apply(s, l), p) && Suspects(Apply(s, l).procs[p].pc, q)
    ensures IsShim(s, p)
    ensures
      var was, now := s.procs[p].pc, Apply(s, l).procs[p].pc;
      || was == now
      || (&& l == ShimStep(p)
          && match now
             case SecondProbe(_) => was == FirstInspect && WedgedHolder(s) == Some(q)
             case SecondInspect(_) => was == SecondProbe(q) && !Listening(s)
             case _ => was == SecondInspect(q) && WedgedHolder(s) == Some(q))
  {
  }

  /** One label earlier a shim at its first inspection stood there too, or has just found nothing listening. */
  lemma OneProbeEarlier(s: State, l: Label, p: Pid)
    requires Enabled(s, l) && IsShim(Apply(s, l), p) && Apply(s, l).procs[p].pc.FirstInspect?
    ensures IsShim(s, p)
    ensures s.procs[p].pc.FirstInspect? || (l == ShimStep(p) && s.procs[p].pc.FirstProbe? && !Listening(s))
  {
  }

  /** A shim at its first inspection found nothing listening, and has had the bootstrap lock since. */
  lemma {:induction false} FirstSilence(labels: seq<Label>, s: State, p: Pid) returns (h: nat)
    requires Exec(Init(), labels) == Some(s) && IsShim(s, p) && s.procs[p].pc.FirstInspect?
    ensures FindsSilence(labels, h, p) && HeldSince(labels, h, p)
    decreases |labels|
  {
    var n := |labels| - 1;
    var before := Exec(Init(), labels[..n]).value;
    OneProbeEarlier(before, labels[n], p);
    LockedHolder(labels, s, p);
    LockedHolder(labels[..n], before, p);
    assert labels[..|labels|] == labels;
    h := n;
    if before.procs[p].pc.FirstInspect? {
      h := FirstSilence(labels[..n], before, p);
      HeldOneMore(labels, h, p);
      EvidencePersists(labels, h, p, p);
    }
  }

  /** How a shim comes to suspect `q`, followed back through the run: the first silent probe at `h`, the
      first look at `i`, the second silent probe at `k` once it is past it, the second look at `j` once it
      is about to evict. */
  lemma {:induction false} EvictionEvidence(labels: seq<Label>, s: State, p: Pid, q: Pid)
    returns (h: nat, i: nat, k: nat, j: nat)
    requires Exec(Init(), labels) == Some(s)
    requires IsShim(s, p) && Suspects(s.procs[p].pc, q)
    ensures h < i && FindsSilence(labels, h, p) && HeldSince(labels, h, p)
    ensures LooksAt(labels, i, p, q)
    ensures !s.procs[p].pc.SecondProbe? ==> i < k && FindsSilence(labels, k, p)
    ensures s.procs[p].pc.Evict? ==> k < j && LooksAt(labels, j, p, q)
    decreases |labels|
  {
    var n := |labels| - 1;
    var before := Exec(Init(), labels[..n]).value;
    OneLookEarlier(before, labels[n], p, q);
    LockedHolder(labels, s, p);
    assert labels[..|labels|] == labels;
    i, k, j := n, n, n;
    if Suspects(before.procs[p].pc, q) {
      h, i, k, j := EvictionEvidence(labels[..n], before, p, q);
      EvidencePersists(labels, i, p, q);
      if before.procs[p].pc.SecondProbe? {
        k := n;
      } else {
        EvidencePersists(labels, k, p, q);
      }
      if before.procs[p].pc.Evict? {
        EvidencePersists(labels, j, p, q);
      } else {
        j := n;
      }
    } else {
      h := FirstSilence(labels[..n], before, p);
    }
    HeldOneMore(labels, h, p);
    EvidencePersists(labels, h, p, q);
  }

  lemma LockedHolder(labels: seq<Label>, s: State, p: Pid)
    requires Exec(Init(), labels) == Some(s) && IsShim(s, p) && InLockedSection(s.procs[p].pc)
    ensures s.boot == Some(p)
  {
    RunKeepsInv(Init(), labels);
    assert HoldsBoot(s.procs[p]);
  }
}
