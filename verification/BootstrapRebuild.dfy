/**
 * When a running rebuild turns shims away. `connect_or_bootstrap` promises that its check under the
 * bootstrap lock sees every rebuild. It does exactly as long as no other process touches the
 * rebuild's marker: a starting daemon removes any marker it finds (`clear_stale_rebuild_marker`), and
 * a second rebuild overwrites it and, when it bails out, deletes it (`MarkerFile::drop`).
 */
module BootstrapRebuild {
  import opened Prelude
  import opened Bootstrap
  import opened BootstrapSafety

  /** The program points whose next step writes or removes `reindex.pid`. */
  predicate AtMarkerFile(x: Proc)
  {
    match x
    case Shim(_, _) => false
    case Rebuild(rpc) => rpc.WriteMarker? || rpc.DropMarker? || rpc.BailMarker?
    case Daemon(_, _, phase) => phase.ClearedRecord?
  }

  /** The label is a step of a process other than `r` that writes or removes the marker file. */
  predicate Meddles(s: State, l: Label, r: Pid)
  {
    (l.RebuildStep? || l.DaemonStep?) && l.pid != r && l.pid in s.procs && AtMarkerFile(s.procs[l.pid])
  }

  /** Some label of the run from `s` meddles with the marker of `r`. */
  predicate Meddled(s: State, labels: seq<Label>, r: Pid)
  {
    && labels != []
    && var n := |labels| - 1;
       || Meddled(s, labels[..n], r)
       || (Exec(s, labels[..n]).Some? && Meddles(Exec(s, labels[..n]).value, labels[n], r))
  }

  /** `r` is a rebuild that has written its marker (and may have removed it since). */
  predicate Wrote(s: State, r: Pid)
  {
    && r in s.procs && s.procs[r].Rebuild?
    && !s.procs[r].rpc.AwaitBootstrap? && !s.procs[r].rpc.WriteMarker?
  }

  /** A shim never touches the marker, and kills a rebuild only by making it end. */
  lemma MarkerAfterShim(s: State, p: Pid, r: Pid)
    requires Wrote(s, r) && ShimReady(s, p)
    ensures Wrote(ShimNext(s, p), r) && ShimNext(s, p).marker == s.marker
    ensures Marked(ShimNext(s, p).procs[r]) ==> Marked(s.procs[r])
  {
  }

  /** One label: until `r` removes its own marker, only meddling takes it off the file, for good. */
  lemma MarkerAfterOneLabel(s: State, l: Label, r: Pid)
    requires Wrote(s, r) && Enabled(s, l)
    ensures Wrote(Apply(s, l), r)
    ensures Marked(Apply(s, l).procs[r]) ==>
              && Marked(s.procs[r])
              && (Apply(s, l).marker == Some(r) <==> s.marker == Some(r) && !Meddles(s, l, r))
  {
    if l.ShimStep? { MarkerAfterShim(s, l.pid, r); }
  }

  lemma {:induction false} MarkerIntactIffNotMeddled(s: State, labels: seq<Label>, r: Pid)
    requires Wrote(s, r) && s.marker == Some(r)
    requires Exec(s, labels).Some?
    ensures Wrote(Exec(s, labels).value, r)
    ensures Marked(Exec(s, labels).value.procs[r]) ==>
              (Exec(s, labels).value.marker == Some(r) <==> !Meddled(s, labels, r))
  {
    if labels != [] {
      var n := |labels| - 1;
      MarkerIntactIffNotMeddled(s, labels[..n], r);
      MarkerAfterOneLabel(Exec(s, labels[..n]).value, labels[n], r);
    }
  }

  /** Under the bootstrap lock, a shim sees the rebuild that has the daemon lock iff the marker is its. */
  lemma SeenIffMarkerIntact(s: State, r: Pid, p: Pid)
    requires Inv(s)
    requires r in s.procs && s.procs[r] == Rebuild(Rebuilding)
    requires IsShim(s, p) && s.procs[p].pc.LockedCheckRebuild?
    ensures RebuildSeen(s) <==> s.marker == Some(r)
  {
    assert HoldsLock(s.procs[r]);
    assert HoldsBoot(s.procs[p]);
    assert s.marker.Some? && Marked(s.procs[s.marker.value]) ==>
        HoldsBoot(s.procs[s.marker.value]) || HoldsLock(s.procs[s.marker.value]);
  }

  /** A rebuild `r` writes its marker in state `s`; the run goes on with `labels` until `r` rebuilds
      with the daemon lock held and shim `p` makes its locked check. The shim is turned away iff no
      other process touched the marker file meanwhile. */
  lemma TurnedAwayIffNotMeddled(s: State, labels: seq<Label>, r: Pid, p: Pid)
    requires Reachable(s) && r in s.procs && s.procs[r] == Rebuild(WriteMarker)
    requires Exec(Apply(s, RebuildStep(r)), labels).Some?
    requires
      var end := Exec(Apply(s, RebuildStep(r)), labels).value;
      && r in end.procs && end.procs[r] == Rebuild(Rebuilding)
      && IsShim(end, p) && end.procs[p].pc.LockedCheckRebuild?
    ensures
      var written := Apply(s, RebuildStep(r));
      var end := Exec(written, labels).value;
      end.procs[p].pc.LockedCheckRebuild?
      && (Apply(end, ShimStep(p)).procs[p].pc == Finished(RebuildRunning) <==> !Meddled(written, labels, r))
  {
    var written := Apply(s, RebuildStep(r));
    ReachableInv(s);
    ApplyKeepsInv(s, RebuildStep(r));
    RunKeepsInv(written, labels);
    MarkerIntactIffNotMeddled(written, labels, r);
    SeenIffMarkerIntact(Exec(written, labels).value, r, p);
  }
}
