/**
 * What the build stamp on file says about the daemon that has the lock, in every run: nothing, or that
 * daemon's own build. It says nothing exactly when the stamp was wiped: by a stop that tidied up while
 * the daemon had published it but did not listen yet, or by the daemon's own teardown.
 */
module BootstrapStamp {
  import opened Prelude
  import opened Bootstrap
  import opened BootstrapSafety

  /** A daemon from the publication of its stamp to the release of the daemon lock. */
  predicate Published(x: Proc)
  {
    HoldsLock(x) && x.Daemon? && !x.phase.TookLock? && !x.phase.ClearedRecord? && !x.phase.ClearedMarker?
  }

  predicate StampAgrees(s: State)
  {
    s.lock.Some? && s.lock.value in s.procs && Published(s.procs[s.lock.value]) && s.stamp.Some? ==>
      s.stamp.value == s.procs[s.lock.value].build
  }

  /** A daemon that has written its pid file. */
  predicate PidKnown(x: Proc)
  {
    && x.Daemon? && !x.phase.Spawned? && !x.phase.TookLock? && !x.phase.ClearedRecord? && !x.phase.ClearedMarker?
    && !x.phase.Stamped? && !x.phase.Bound?
  }

  predicate PidAgrees(s: State)
  {
    s.pidFile.Some? ==> s.pidFile.value in s.procs && PidKnown(s.procs[s.pidFile.value])
  }

  predicate FilesAgree(s: State)
  {
    StampAgrees(s) && PidAgrees(s)
  }

  lemma ShimKeepsStamp(s: State, p: Pid)
    requires ShimReady(s, p) && StampAgrees(s) && s.lock != Some(p)
    ensures StampAgrees(ShimNext(s, p))
  {
  }

  lemma ShimKeepsPid(s: State, p: Pid)
    requires ShimReady(s, p) && PidAgrees(s)
    ensures PidAgrees(ShimNext(s, p))
  {
  }

  lemma RebuildKeepsFiles(s: State, p: Pid)
    requires RebuildReady(s, p) && FilesAgree(s)
    requires HoldsLock(s.procs[p]) <==> s.lock == Some(p)
    ensures FilesAgree(RebuildNext(s, p))
  {
  }

  lemma DaemonKeepsFiles(s: State, d: Pid)
    requires DaemonReady(s, d) && FilesAgree(s)
    requires HoldsLock(s.procs[d]) <==> s.lock == Some(d)
    ensures FilesAgree(DaemonNext(s, d))
  {
  }

  lemma ApplyKeepsFiles(s: State, l: Label)
    requires Inv(s) && Enabled(s, l) && FilesAgree(s)
    ensures FilesAgree(Apply(s, l))
  {
    assert l.pid in s.procs ==> (HoldsLock(s.procs[l.pid]) <==> s.lock == Some(l.pid));
    match l
    case ShimStep(p) => ShimKeepsStamp(s, p); ShimKeepsPid(s, p);
    case RebuildStep(p) => RebuildKeepsFiles(s, p);
    case DaemonStep(d) => DaemonKeepsFiles(s, d);
    case _ =>
  }

  lemma {:induction false} RunKeepsFiles(labels: seq<Label>)
    requires Exec(Init(), labels).Some?
    ensures Inv(Exec(Init(), labels).value) && FilesAgree(Exec(Init(), labels).value)
  {
    RunKeepsInv(Init(), labels);
    if labels != [] {
      var n := |labels| - 1;
      RunKeepsFiles(labels[..n]);
      ApplyKeepsFiles(Exec(Init(), labels[..n]).value, labels[n]);
    }
  }

  lemma ReachableFiles(s: State)
    requires Reachable(s)
    ensures Inv(s) && FilesAgree(s)
  {
    var labels :| Exec(Init(), labels) == Some(s);
    RunKeepsFiles(labels);
  }

  /** The stamp on file, if any, is that of the daemon that listens. */
  lemma StampIsServers(s: State, d: Pid)
    requires Reachable(s) && d in s.procs && IsListening(s.procs[d])
    ensures s.stamp.Some? ==> s.stamp.value == s.procs[d].build
  {
    ReachableFiles(s);
    assert HoldsLock(s.procs[d]);
  }

  /** Whenever a daemon listens as a locked shim reads the stamp, the verdict is about that daemon: it is
      retired if its stamp is gone or its build is superseded, and connected to otherwise. */
  lemma JudgesTheServer(s: State, p: Pid, d: Pid)
    requires Reachable(s) && IsShim(s, p) && s.procs[p].pc.LockedReadStamp?
    requires d in s.procs && IsListening(s.procs[d])
    ensures Apply(s, ShimStep(p)).procs[p].pc ==
              if s.stamp.None? || Supersedes(s.procs[p].build, s.procs[d].build) then StopPick
              else Finished(Connected)
  {
    StampIsServers(s, d);
  }

  /** The process a shim picks to stop, and then stops whatever happens, is the daemon with the lock or
      one that has released it and is about to exit. If it is the one with the lock and a stamp is on
      file, the shim's build supersedes it exactly when that stamp, read again, would still say so. */
  lemma RetirementRightIff(s: State, p: Pid, t: Pid)
    requires Reachable(s) && IsShim(s, p) && s.procs[p].pc.StopPick? && StopTarget(s) == Some(t)
    ensures Apply(s, ShimStep(p)).procs[p].pc == StopKill(t)
    ensures IsDaemon(s, t) && (s.lock == Some(t) || s.procs[t].phase.Released?)
    ensures s.lock == Some(t) && s.stamp.Some? ==>
              (Supersedes(s.procs[p].build, s.procs[t].build) <==> !VintageOf(s.stamp, s.procs[p].build).Current?)
    ensures s.stamp.None? ==> VintageOf(s.stamp, s.procs[p].build).Unknown?
  {
    ReachableFiles(s);
    assert PidKnown(s.procs[t]);
    assert HoldsLock(s.procs[t]) <==> s.lock == Some(t);
  }

  // ---- when a stamp is missing ----

  /** The step removes the state files of a project where nothing listens. */
  predicate Tidies(s: State, l: Label)
  {
    || (l.ShimStep? && IsShim(s, l.pid) && s.procs[l.pid].pc.StopTidy?)
    || (l.RebuildStep? && l.pid in s.procs && s.procs[l.pid].Rebuild? && s.procs[l.pid].rpc.RebuildTidy?)
  }

  /** The label removes the stamp of daemon `d`: it tidies before `d` has bound, or `d` closes. */
  predicate Wipes(s: State, l: Label, d: Pid)
  {
    IsDaemon(s, d) && ((s.procs[d].phase.Stamped? && Tidies(s, l)) || l == Close(d))
  }

  predicate Wiped(labels: seq<Label>, d: Pid)
  {
    && labels != []
    && var n := |labels| - 1;
       || Wiped(labels[..n], d)
       || (Exec(Init(), labels[..n]).Some? && Wipes(Exec(Init(), labels[..n]).value, labels[n], d))
  }

  /** `d` has published its stamp and, if it has bound, still listens. */
  predicate Up(s: State, d: Pid)
  {
    IsDaemon(s, d) && (s.procs[d].phase.Stamped? || ListeningPhase(s.procs[d].phase))
  }

  predicate NotYetUp(s: State, d: Pid)
  {
    d !in s.procs
    || (&& s.procs[d].Daemon?
        && (s.procs[d].phase.Spawned? || s.procs[d].phase.TookLock? || s.procs[d].phase.ClearedRecord?
            || s.procs[d].phase.ClearedMarker?))
  }

  /** A daemon comes up once, by publishing its stamp. */
  lemma ComesUpOnce(s: State, l: Label, d: Pid)
    requires Enabled(s, l) && Up(Apply(s, l), d)
    ensures IsDaemon(s, d) && Apply(s, l).procs[d].build == s.procs[d].build
    ensures Up(s, d) || (NotYetUp(s, d) && l == DaemonStep(d))
  {
  }

  lemma NotYetBefore(s: State, l: Label, d: Pid)
    requires Enabled(s, l) && NotYetUp(Apply(s, l), d)
    ensures NotYetUp(s, d)
  {
  }

  lemma {:induction false} NotWipedYet(labels: seq<Label>, d: Pid)
    requires Exec(Init(), labels).Some? && NotYetUp(Exec(Init(), labels).value, d)
    ensures !Wiped(labels, d)
  {
    if labels != [] {
      var n := |labels| - 1;
      NotYetBefore(Exec(Init(), labels[..n]).value, labels[n], d);
      NotWipedYet(labels[..n], d);
    }
  }

  /** While `d` is up nobody else writes a stamp, and only wiping removes its own. */
  lemma StampAfterOneLabel(s: State, l: Label, d: Pid)
    requires Enabled(s, l) && Up(s, d) && Up(Apply(s, l), d) && s.lock == Some(d)
    requires l.pid in s.procs ==> (HoldsLock(s.procs[l.pid]) <==> s.lock == Some(l.pid))
    requires Listening(s) <==> ListeningPhase(s.procs[d].phase)
    ensures Apply(s, l).stamp.Some? <==> s.stamp.Some? && !Wipes(s, l, d)
  {
  }

  lemma OnlyHolderListens(s: State, d: Pid)
    requires Inv(s) && Up(s, d)
    ensures s.lock == Some(d) && (Listening(s) <==> ListeningPhase(s.procs[d].phase))
  {
    assert HoldsLock(s.procs[d]);
    forall p | p in s.procs && IsListening(s.procs[p]) ensures p == d {
      assert HoldsLock(s.procs[p]);
    }
    assert IsListening(s.procs[d]) <==> ListeningPhase(s.procs[d].phase);
  }

  /** In any run: the stamp of a daemon that is up is on file if and only if it was not wiped. */
  lemma {:induction false} StampIntactIffNotWiped(labels: seq<Label>, d: Pid)
    requires Exec(Init(), labels).Some? && Up(Exec(Init(), labels).value, d)
    ensures var s := Exec(Init(), labels).value;
            s.stamp == (if Wiped(labels, d) then None else Some(s.procs[d].build))
  {
    hide Wipes, Apply, Enabled;
    RunKeepsFiles(labels);
    OnlyHolderListens(Exec(Init(), labels).value, d);
    var n := |labels| - 1;
    var before := Exec(Init(), labels[..n]).value;
    RunKeepsInv(Init(), labels[..n]);
    ComesUpOnce(before, labels[n], d);
    if Up(before, d) {
      StampIntactIffNotWiped(labels[..n], d);
      OnlyHolderListens(before, d);
      StampAfterOneLabel(before, labels[n], d);
    } else {
      NotWipedYet(labels[..n], d);
      PublishesStamp(before, d);
    }
  }

  lemma PublishesStamp(s: State, d: Pid)
    requires Enabled(s, DaemonStep(d)) && NotYetUp(s, d) && IsDaemon(s, d) && Up(Apply(s, DaemonStep(d)), d)
    ensures Apply(s, DaemonStep(d)).stamp == Some(s.procs[d].build) && !Wipes(s, DaemonStep(d), d)
  {
  }
}
