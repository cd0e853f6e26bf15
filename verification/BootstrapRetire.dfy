/**
 * Every retirement of every run, followed back to the read it rests on. A shim that stops daemon `t`
 * read the stamp at some earlier step and picked `t` at a later one. If a stamp was on file at the read
 * and `t` had published its own by then, the shim's build supersedes `t`'s: a wrong retirement needs a
 * missing stamp, or a `t` that the read could not have been about.
 */
module BootstrapRetire {
  import opened Prelude
  import opened Bootstrap
  import opened BootstrapSafety
  import opened BootstrapStamp

  /** At label `i` shim `p` reads the stamp under the bootstrap lock, and does not find it current. */
  ghost predicate JudgesAt(labels: seq<Label>, i: nat, p: Pid)
  {
    && i < |labels| && labels[i] == ShimStep(p) && At(labels, i).Some?
    && var s := At(labels, i).value;
       IsShim(s, p) && s.procs[p].pc.LockedReadStamp? && !VintageOf(s.stamp, s.procs[p].build).Current?
  }

  /** At label `j` shim `p` picks `t` to stop. */
  ghost predicate PicksAt(labels: seq<Label>, j: nat, p: Pid, t: Pid)
  {
    && j < |labels| && labels[j] == ShimStep(p) && At(labels, j).Some?
    && var s := At(labels, j).value;
       IsShim(s, p) && s.procs[p].pc.StopPick? && StopTarget(s) == Some(t)
  }

  /** The read could be about `t`: a stamp was on file, and `t` had published its own. */
  predicate CouldSee(s: State, t: Pid)
  {
    s.stamp.Some? && t in s.procs && Published(s.procs[t])
  }

  lemma EvidenceStays(labels: seq<Label>, i: nat, p: Pid, t: Pid)
    requires labels != [] && i < |labels| - 1
    ensures JudgesAt(labels[..|labels| - 1], i, p) ==> JudgesAt(labels, i, p)
    ensures PicksAt(labels[..|labels| - 1], i, p, t) ==> PicksAt(labels, i, p, t)
  {
    PrefixAt(labels, i);
  }

  /** One label earlier a retiring shim stood at the same point, or has just read or picked. */
  lemma OneLabelEarlier(s: State, l: Label, p: Pid)
    requires Enabled(s, l) && IsShim(Apply(s, l), p)
    requires Apply(s, l).procs[p].pc.StopPick? || Apply(s, l).procs[p].pc.StopKill?
    ensures IsShim(s, p)
    ensures
      var was, now := s.procs[p].pc, Apply(s, l).procs[p].pc;
      || was == now
      || (&& l == ShimStep(p)
          && match now
             case StopKill(t) => was == StopPick && StopTarget(s) == Some(t)
             case _ => was == LockedReadStamp && !VintageOf(s.stamp, s.procs[p].build).Current?)
  {
  }

  lemma {:induction false} PickEvidence(labels: seq<Label>, s: State, p: Pid) returns (i: nat)
    requires Exec(Init(), labels) == Some(s) && IsShim(s, p) && s.procs[p].pc.StopPick?
    ensures JudgesAt(labels, i, p)
    decreases |labels|
  {
    var n := |labels| - 1;
    var before := Exec(Init(), labels[..n]).value;
    OneLabelEarlier(before, labels[n], p);
    i := n;
    if before.procs[p].pc.StopPick? {
      i := PickEvidence(labels[..n], before, p);
      EvidenceStays(labels, i, p, p);
    }
  }

  lemma {:induction false} KillEvidence(labels: seq<Label>, s: State, p: Pid) returns (i: nat, j: nat)
    requires Exec(Init(), labels) == Some(s) && IsShim(s, p) && s.procs[p].pc.StopKill?
    ensures i < j && JudgesAt(labels, i, p) && PicksAt(labels, j, p, s.procs[p].pc.target)
    decreases |labels|
  {
    var n := |labels| - 1;
    var before := Exec(Init(), labels[..n]).value;
    var t := s.procs[p].pc.target;
    OneLabelEarlier(before, labels[n], p);
    if before.procs[p].pc.StopKill? {
      i, j := KillEvidence(labels[..n], before, p);
      EvidenceStays(labels, j, p, t);
    } else {
      i := PickEvidence(labels[..n], before, p);
      j := n;
    }
    EvidenceStays(labels, i, p, t);
  }

  predicate SameMake(x: Proc, y: Proc)
  {
    match x
    case Shim(build, _) => y.Shim? && y.build == build
    case Rebuild(_) => y.Rebuild?
    case Daemon(build, _, _) => y.Daemon? && y.build == build
  }

  lemma ShimKeepsMakes(s: State, p: Pid, q: Pid)
    requires ShimReady(s, p) && q in s.procs
    ensures q in ShimNext(s, p).procs && SameMake(s.procs[q], ShimNext(s, p).procs[q])
  {
  }

  lemma RebuildKeepsMakes(s: State, p: Pid, q: Pid)
    requires RebuildReady(s, p) && q in s.procs
    ensures q in RebuildNext(s, p).procs && SameMake(s.procs[q], RebuildNext(s, p).procs[q])
  {
  }

  lemma DaemonKeepsMakes(s: State, d: Pid, q: Pid)
    requires DaemonReady(s, d) && q in s.procs
    ensures q in DaemonNext(s, d).procs && SameMake(s.procs[q], DaemonNext(s, d).procs[q])
  {
  }

  lemma MakeStays(s: State, l: Label, q: Pid)
    requires Enabled(s, l) && q in s.procs
    ensures q in Apply(s, l).procs && SameMake(s.procs[q], Apply(s, l).procs[q])
  {
    hide ShimNext, RebuildNext, DaemonNext;
    match l
    case ShimStep(p) => ShimKeepsMakes(s, p, q);
    case RebuildStep(p) => RebuildKeepsMakes(s, p, q);
    case DaemonStep(d) => DaemonKeepsMakes(s, d, q);
    case _ =>
  }

  /** A process has one kind and one build for the whole of a run. */
  lemma {:induction false} MakeKept(labels: seq<Label>, i: nat, q: Pid)
    requires i <= |labels| && Exec(Init(), labels).Some? && At(labels, i).Some? && q in At(labels, i).value.procs
    ensures q in Exec(Init(), labels).value.procs
    ensures SameMake(At(labels, i).value.procs[q], Exec(Init(), labels).value.procs[q])
    decreases |labels|
  {
    if i == |labels| {
      assert labels[..i] == labels;
    } else {
      PrefixAt(labels, i);
      MakeKept(labels[..|labels| - 1], i, q);
      MakeStays(Exec(Init(), labels[..|labels| - 1]).value, labels[|labels| - 1], q);
    }
  }

  /** What a read that could be about `t` found was `t`'s own build. */
  lemma ReadWasOfTarget(s: State, p: Pid, t: Pid)
    requires Inv(s) && FilesAgree(s) && IsShim(s, p) && !VintageOf(s.stamp, s.procs[p].build).Current?
    requires CouldSee(s, t)
    ensures Supersedes(s.procs[p].build, s.procs[t].build)
  {
    assert HoldsLock(s.procs[t]);
  }

  lemma ReadDecides(labels: seq<Label>, s: State, p: Pid, t: Pid, i: nat)
    requires Exec(Init(), labels) == Some(s) && IsShim(s, p) && IsDaemon(s, t) && JudgesAt(labels, i, p)
    ensures CouldSee(At(labels, i).value, t) ==> Supersedes(s.procs[p].build, s.procs[t].build)
  {
    var read := At(labels, i).value;
    RunKeepsFiles(labels[..i]);
    MakeKept(labels, i, p);
    if CouldSee(read, t) {
      ReadWasOfTarget(read, p, t);
      MakeKept(labels, i, t);
    }
  }

  lemma PickDecides(labels: seq<Label>, s: State, p: Pid, t: Pid, j: nat)
    requires Exec(Init(), labels) == Some(s) && IsShim(s, p) && PicksAt(labels, j, p, t)
    ensures IsDaemon(s, t)
    ensures var picked := At(labels, j).value;
            picked.lock == Some(t) && picked.stamp.Some? ==>
              (Supersedes(s.procs[p].build, s.procs[t].build) <==> !VintageOf(picked.stamp, s.procs[p].build).Current?)
  {
    var picked := At(labels, j).value;
    assert Reachable(picked);
    RetirementRightIff(picked, p, t);
    MakeKept(labels, j, p);
    MakeKept(labels, j, t);
  }

  /**
   * In every run, a shim about to stop `t` read a stamp at label `i` and picked `t` at label `j`. If the
   * read could be about `t`, the shim's build supersedes `t`'s. If `t` had the lock at the pick and a
   * stamp was on file, the shim's build supersedes `t`'s exactly when that stamp did not read as current.
   */
  lemma WrongOnlyIfUnseen(labels: seq<Label>, s: State, p: Pid, t: Pid) returns (i: nat, j: nat)
    requires Exec(Init(), labels) == Some(s) && IsShim(s, p) && s.procs[p].pc == StopKill(t)
    ensures i < j && JudgesAt(labels, i, p) && PicksAt(labels, j, p, t) && IsDaemon(s, t)
    ensures !Supersedes(s.procs[p].build, s.procs[t].build) ==> !CouldSee(At(labels, i).value, t)
    ensures var picked := At(labels, j).value;
            picked.lock == Some(t) && picked.stamp.Some? ==>
              (Supersedes(s.procs[p].build, s.procs[t].build) <==> !VintageOf(picked.stamp, s.procs[p].build).Current?)
  {
    i, j := KillEvidence(labels, s, p);
    PickDecides(labels, s, p, t, j);
    ReadDecides(labels, s, p, t, i);
  }

  /** The re-read at the pick fails to decide exactly when the stamp of the listening target was wiped. */
  lemma DecidedIffNotWiped(labels: seq<Label>, s: State, p: Pid, t: Pid, j: nat)
    requires Exec(Init(), labels) == Some(s) && IsShim(s, p) && PicksAt(labels, j, p, t)
    requires t in At(labels, j).value.procs && IsListening(At(labels, j).value.procs[t])
    ensures At(labels, j).value.stamp.None? <==> Wiped(labels[..j], t)
    ensures IsDaemon(s, t)
    ensures !Wiped(labels[..j], t) ==>
              (Supersedes(s.procs[p].build, s.procs[t].build)
               <==> !VintageOf(At(labels, j).value.stamp, s.procs[p].build).Current?)
  {
    RunKeepsFiles(labels[..j]);
    StampIntactIffNotWiped(labels[..j], t);
    OnlyHolderListens(At(labels, j).value, t);
    PickDecides(labels, s, p, t, j);
  }
}
