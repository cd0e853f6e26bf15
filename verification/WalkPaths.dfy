/**
 * What a walk lists, said of the tree: an entry is visited exactly when it and every directory above it
 * pass the ignore files on the way to them, the excluded names and the filter.
 */
module WalkPaths {
  import opened Walk

  function Names(chain: seq<Entry>): seq<string>
  {
    seq(|chain|, i requires 0 <= i < |chain| => chain[i].name)
  }

  function Ignores(chain: seq<Entry>): seq<string>
  {
    seq(|chain|, i requires 0 <= i < |chain| => if chain[i].node.Dir? then chain[i].node.ignore else "")
  }

  /** A way down the tree: the first entry is one of `entries`, each further one is in the one before. */
  predicate IsChain(entries: seq<Entry>, chain: seq<Entry>)
  {
    && chain != [] && chain[0] in entries
    && forall k :: 0 < k < |chain| ==> InOneBefore(chain, k)
  }

  predicate InOneBefore(chain: seq<Entry>, k: nat)
    requires 0 < k < |chain|
  {
    chain[k - 1].node.Dir? && chain[k] in chain[k - 1].node.entries
  }

  /** Entry `k` of the way is let through: by the ignore files of all directories above it, the outermost
      first, by the excluded names, and by the filter. */
  predicate Passes(at: Path, above: seq<string>, policy: Policy, admit: Admit, chain: seq<Entry>, k: nat)
    requires k < |chain|
  {
    var path := at + Names(chain[..k + 1]);
    && !policy.ignored(above + Ignores(chain[..k]), path, chain[k].node.Dir?)
    && !(chain[k].node.Dir? && chain[k].name in policy.excluded)
    && admit(path, KindOf(chain[k].node))
  }

  /** The way is open to its end, and `v` is what stands there. */
  ghost predicate LeadsTo(entries: seq<Entry>, at: Path, above: seq<string>, policy: Policy, admit: Admit,
                          chain: seq<Entry>, v: Visit)
  {
    && IsChain(entries, chain)
    && (forall k :: 0 <= k < |chain| ==> Passes(at, above, policy, admit, chain, k))
    && v == Visit(at + Names(chain), KindOf(chain[|chain| - 1].node))
  }

  /** One step down: the way behind a directory, seen from above it. */
  lemma PassesBelow(at: Path, above: seq<string>, policy: Policy, admit: Admit, e: Entry, rest: seq<Entry>, k: nat)
    requires e.node.Dir? && k < |rest|
    ensures Passes(at, above, policy, admit, [e] + rest, k + 1)
        <==> Passes(at + [e.name], above + [e.node.ignore], policy, admit, rest, k)
  {
    var chain := [e] + rest;
    assert chain[..k + 2] == [e] + rest[..k + 1] && chain[..k + 1] == [e] + rest[..k];
    assert at + Names(chain[..k + 2]) == at + [e.name] + Names(rest[..k + 1]);
    assert above + Ignores(chain[..k + 1]) == above + [e.node.ignore] + Ignores(rest[..k]);
  }

  lemma PassesFirst(at: Path, above: seq<string>, policy: Policy, admit: Admit, chain: seq<Entry>)
    requires chain != []
    ensures Passes(at, above, policy, admit, chain, 0) <==>
              var e := chain[0];
              && !policy.ignored(above, at + [e.name], e.node.Dir?) && !(e.node.Dir? && e.name in policy.excluded)
              && admit(at + [e.name], KindOf(e.node))
  {
    assert Names(chain[..1]) == [chain[0].name] && Ignores(chain[..0]) == [] && above + [] == above;
  }

  lemma ChainBelow(entries: seq<Entry>, at: Path, above: seq<string>, policy: Policy, admit: Admit,
                   e: Entry, rest: seq<Entry>, v: Visit)
    requires e in entries && e.node.Dir? && rest != []
    ensures LeadsTo(entries, at, above, policy, admit, [e] + rest, v) <==>
              && Passes(at, above, policy, admit, [e] + rest, 0)
              && LeadsTo(e.node.entries, at + [e.name], above + [e.node.ignore], policy, admit, rest, v)
  {
    var chain := [e] + rest;
    hide Passes;
    forall k | 0 <= k < |rest|
      ensures Passes(at, above, policy, admit, chain, k + 1)
          <==> Passes(at + [e.name], above + [e.node.ignore], policy, admit, rest, k)
    {
      PassesBelow(at, above, policy, admit, e, rest, k);
    }
    assert at + Names(chain) == at + [e.name] + Names(rest);
    ChainTail(entries, e, rest);
    AllShifted(at, above, policy, admit, e, rest);
  }

  lemma ChainTail(entries: seq<Entry>, e: Entry, rest: seq<Entry>)
    requires e in entries && e.node.Dir? && rest != []
    ensures IsChain(entries, [e] + rest) <==> IsChain(e.node.entries, rest)
  {
    var chain := [e] + rest;
    forall k | 0 <= k < |rest| ensures chain[k + 1] == rest[k] {}
    if IsChain(entries, chain) {
      assert InOneBefore(chain, 1);
      forall k | 0 < k < |rest| ensures InOneBefore(rest, k) { assert InOneBefore(chain, k + 1); }
    }
    if IsChain(e.node.entries, rest) {
      forall k | 0 < k < |chain| ensures InOneBefore(chain, k) { assert k > 1 ==> InOneBefore(rest, k - 1); }
    }
  }

  lemma AllShifted(at: Path, above: seq<string>, policy: Policy, admit: Admit, e: Entry, rest: seq<Entry>)
    requires e.node.Dir?
    requires forall k :: 0 <= k < |rest| ==>
               (Passes(at, above, policy, admit, [e] + rest, k + 1)
                <==> Passes(at + [e.name], above + [e.node.ignore], policy, admit, rest, k))
    ensures (forall k :: 0 < k < |[e] + rest| ==> Passes(at, above, policy, admit, [e] + rest, k))
        <==> forall k :: 0 <= k < |rest| ==> Passes(at + [e.name], above + [e.node.ignore], policy, admit, rest, k)
  {
    hide Passes;
    if forall k :: 0 < k < |[e] + rest| ==> Passes(at, above, policy, admit, [e] + rest, k) {
      forall k | 0 <= k < |rest| ensures Passes(at + [e.name], above + [e.node.ignore], policy, admit, rest, k) {
        assert Passes(at, above, policy, admit, [e] + rest, k + 1);
      }
    }
    if forall k :: 0 <= k < |rest| ==> Passes(at + [e.name], above + [e.node.ignore], policy, admit, rest, k) {
      forall k | 0 < k < |[e] + rest| ensures Passes(at, above, policy, admit, [e] + rest, k) {
        assert Passes(at + [e.name], above + [e.node.ignore], policy, admit, rest, k - 1);
        assert Passes(at, above, policy, admit, [e] + rest, (k - 1) + 1);
      }
    }
  }

  lemma {:induction false} VisitedFrom(entries: seq<Entry>, at: Path, above: seq<string>, policy: Policy, admit: Admit, v: Visit)
    returns (e: Entry)
    requires v in Visits(entries, at, above, policy, admit)
    ensures e in entries && v in VisitsOf(e, at, above, policy, admit)
    decreases |entries|
  {
    e := entries[0];
    if v !in VisitsOf(e, at, above, policy, admit) {
      e := VisitedFrom(entries[1..], at, above, policy, admit, v);
    }
  }

  lemma {:induction false} VisitsEach(entries: seq<Entry>, at: Path, above: seq<string>, policy: Policy, admit: Admit,
                                      e: Entry, v: Visit)
    requires e in entries && v in VisitsOf(e, at, above, policy, admit)
    ensures v in Visits(entries, at, above, policy, admit)
    decreases |entries|
  {
    if e != entries[0] {
      assert e in entries[1..];
      VisitsEach(entries[1..], at, above, policy, admit, e, v);
    }
  }

  /** Whatever the walk visits stands at the end of an open way. */
  lemma {:induction false} VisitedIsOpen(entries: seq<Entry>, at: Path, above: seq<string>, policy: Policy, admit: Admit, v: Visit)
    returns (chain: seq<Entry>)
    requires v in Visits(entries, at, above, policy, admit)
    ensures LeadsTo(entries, at, above, policy, admit, chain, v)
    decreases entries, 1
  {
    var e := VisitedFrom(entries, at, above, policy, admit, v);
    chain := EntryIsOpen(entries, e, at, above, policy, admit, v);
  }

  lemma {:induction false} EntryIsOpen(entries: seq<Entry>, e: Entry, at: Path, above: seq<string>, policy: Policy,
                                       admit: Admit, v: Visit)
    returns (chain: seq<Entry>)
    requires e in entries && v in VisitsOf(e, at, above, policy, admit)
    ensures LeadsTo(entries, at, above, policy, admit, chain, v)
    decreases entries, 0
  {
    chain := [e];
    PassesFirst(at, above, policy, admit, chain);
    if v == Visit(at + [e.name], KindOf(e.node)) {
      assert Names(chain) == [e.name];
    } else {
      var rest := VisitedIsOpen(e.node.entries, at + [e.name], above + [e.node.ignore], policy, admit, v);
      chain := [e] + rest;
      PassesFirst(at, above, policy, admit, chain);
      ChainBelow(entries, at, above, policy, admit, e, rest, v);
    }
  }

  /** Whatever stands at the end of an open way is visited. */
  lemma {:induction false} OpenIsVisited(entries: seq<Entry>, at: Path, above: seq<string>, policy: Policy, admit: Admit,
                                         chain: seq<Entry>, v: Visit)
    requires LeadsTo(entries, at, above, policy, admit, chain, v)
    ensures v in Visits(entries, at, above, policy, admit)
    decreases |chain|
  {
    var e, rest := chain[0], chain[1..];
    assert chain == [e] + rest;
    assert Passes(at, above, policy, admit, chain, 0);
    PassesFirst(at, above, policy, admit, chain);
    if rest == [] {
      assert Names(chain) == [e.name];
    } else {
      assert InOneBefore(chain, 1);
      ChainBelow(entries, at, above, policy, admit, e, rest, v);
      OpenIsVisited(e.node.entries, at + [e.name], above + [e.node.ignore], policy, admit, rest, v);
    }
    assert v in VisitsOf(e, at, above, policy, admit);
    VisitsEach(entries, at, above, policy, admit, e, v);
  }

  lemma {:induction false} FileIff(visits: seq<Visit>, path: Path)
    ensures path in FilesOf(visits) <==> Visit(path, FileKind) in visits
  {
    if visits != [] { FileIff(visits[1..], path); }
  }

  /** A project's walk lists a file exactly when an open way from the root leads to it. */
  lemma ListedIff(root: Node, policy: Policy, path: Path)
    requires root.Dir?
    ensures path in ProjectFiles(root, policy) <==>
              exists chain :: LeadsTo(root.entries, [], [root.ignore], policy, Everything(), chain, Visit(path, FileKind))
  {
    var v := Visit(path, FileKind);
    FileIff(WalkFrom(root, policy, Everything()), path);
    if v in WalkFrom(root, policy, Everything()) {
      var chain := VisitedIsOpen(root.entries, [], [root.ignore], policy, Everything(), v);
    }
    forall chain | LeadsTo(root.entries, [], [root.ignore], policy, Everything(), chain, v)
      ensures v in WalkFrom(root, policy, Everything())
    {
      OpenIsVisited(root.entries, [], [root.ignore], policy, Everything(), chain, v);
    }
  }

  // ---- the pruned walk ----

  /** In or above one of the subtrees. */
  ghost predicate Near(subtrees: seq<Path>, path: Path)
  {
    exists s :: s in subtrees && (s <= path || path <= s)
  }

  lemma NearAbove(subtrees: seq<Path>, dir: Path, path: Path)
    requires Near(subtrees, path) && dir <= path
    ensures Near(subtrees, dir)
  {
    var s :| s in subtrees && (s <= path || path <= s);
    TwoPrefixes(s, dir, path);
    assert dir <= path <= s ==> dir <= s;
  }

  /** The directories above the end of a way. */
  lemma DirsAbove(entries: seq<Entry>, at: Path, chain: seq<Entry>, k: nat)
    requires IsChain(entries, chain) && k < |chain| - 1
    ensures chain[k].node.Dir? && at + Names(chain[..k + 1]) <= at + Names(chain)
  {
    assert InOneBefore(chain, k + 1);
    var here, all := at + Names(chain[..k + 1]), at + Names(chain);
    assert here == all[..|here|];
  }

  /** The pruned walk visits what the full walk visits, of it the files in a subtree and the directories and
      links in or above one. */
  lemma PrunedVisits(root: Node, policy: Policy, subtrees: seq<Path>, v: Visit)
    requires root.Dir?
    ensures v in WalkFrom(root, policy, Reach(subtrees)) <==>
              && v in WalkFrom(root, policy, Everything())
              && if v.kind.FileKind? then UnderAny(subtrees, v.path) else Near(subtrees, v.path)
  {
    var start := root.entries;
    if v in WalkFrom(root, policy, Reach(subtrees)) {
      var chain := VisitedIsOpen(start, [], [root.ignore], policy, Reach(subtrees), v);
      var last := |chain| - 1;
      assert Passes([], [root.ignore], policy, Reach(subtrees), chain, last);
      assert chain[..last + 1] == chain;
      forall k | 0 <= k < |chain| ensures Passes([], [root.ignore], policy, Everything(), chain, k) {
        assert Passes([], [root.ignore], policy, Reach(subtrees), chain, k);
      }
      OpenIsVisited(start, [], [root.ignore], policy, Everything(), chain, v);
    }
    if v in WalkFrom(root, policy, Everything())
       && if v.kind.FileKind? then UnderAny(subtrees, v.path) else Near(subtrees, v.path) {
      var chain := VisitedIsOpen(start, [], [root.ignore], policy, Everything(), v);
      assert chain[..|chain|] == chain;
      assert Near(subtrees, v.path);
      forall k | 0 <= k < |chain| ensures Passes([], [root.ignore], policy, Reach(subtrees), chain, k) {
        assert Passes([], [root.ignore], policy, Everything(), chain, k);
        if k < |chain| - 1 {
          DirsAbove(start, [], chain, k);
          NearAbove(subtrees, [] + Names(chain[..k + 1]), v.path);
        }
      }
      OpenIsVisited(start, [], [root.ignore], policy, Reach(subtrees), chain, v);
    }
  }

  /** The pruned walk gives up exactly when the full walk meets a link in or above a subtree. */
  lemma MeetsLinkIff(root: Node, policy: Policy, subtrees: seq<Path>)
    requires root.Dir?
    ensures (exists v :: v in WalkFrom(root, policy, Reach(subtrees)) && v.kind.LinkKind?) <==>
            exists v :: v in WalkFrom(root, policy, Everything()) && v.kind.LinkKind? && Near(subtrees, v.path)
  {
    forall v: Visit | v.kind.LinkKind?
      ensures v in WalkFrom(root, policy, Reach(subtrees))
          <==> v in WalkFrom(root, policy, Everything()) && Near(subtrees, v.path)
    {
      PrunedVisits(root, policy, subtrees, v);
    }
  }

  /** No listed file is below a directory with an excluded name. */
  lemma ListedOutside(root: Node, policy: Policy, path: Path, i: nat)
    requires root.Dir? && path in ProjectFiles(root, policy) && i < |path| - 1
    ensures path[i] !in policy.excluded
  {
    FileIff(WalkFrom(root, policy, Everything()), path);
    var chain := VisitedIsOpen(root.entries, [], [root.ignore], policy, Everything(), Visit(path, FileKind));
    assert Passes([], [root.ignore], policy, Everything(), chain, i);
    DirsAbove(root.entries, [], chain, i);
  }
}
