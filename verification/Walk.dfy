/**
 * The project walk and its pruned form (`project_walk.rs`): on a tree without links, walking only what
 * can hold a file of the wanted subtrees lists exactly the full walk's files in them.
 */
module Walk {
  import opened Prelude

  type Path = seq<string>

  /** A directory tree. `ignore` is the directory's own `.gitignore`. */
  datatype Node = File | Symlink | Dir(ignore: string, entries: seq<Entry>)
  datatype Entry = Entry(name: string, node: Node)

  datatype Kind = FileKind | LinkKind | DirKind

  function KindOf(node: Node): Kind
  {
    match node case File => FileKind case Symlink => LinkKind case Dir(_, _) => DirKind
  }

  /** `ignored(above, path, isDir)`: the `.gitignore` files from the root down to the entry's directory
      ignore it. `excluded` are directory names skipped at any depth. */
  datatype Policy = Policy(ignored: (seq<string>, Path, bool) -> bool, excluded: set<string>)

  datatype Visit = Visit(path: Path, kind: Kind)

  /** The walk lets an entry through `.gitignore` and the excluded names, then asks this filter. */
  type Admit = (Path, Kind) -> bool

  /** The entries a walk yields, each directory before what it holds. */
  function Visits(entries: seq<Entry>, at: Path, above: seq<string>, policy: Policy, admit: Admit): seq<Visit>
    decreases entries, 1
  {
    if entries == [] then []
    else VisitsOf(entries[0], at, above, policy, admit) + Visits(entries[1..], at, above, policy, admit)
  }

  function VisitsOf(e: Entry, at: Path, above: seq<string>, policy: Policy, admit: Admit): seq<Visit>
    decreases e, 0
  {
    var path := at + [e.name];
    if policy.ignored(above, path, e.node.Dir?) then []
    else if e.node.Dir? && e.name in policy.excluded then []
    else if !admit(path, KindOf(e.node)) then []
    else
      [Visit(path, KindOf(e.node))]
      + if e.node.Dir? then Visits(e.node.entries, path, above + [e.node.ignore], policy, admit) else []
  }

  /** The walk of a root directory; the filter is never asked about the root itself. */
  function WalkFrom(root: Node, policy: Policy, admit: Admit): seq<Visit>
    requires root.Dir?
  {
    Visits(root.entries, [], [root.ignore], policy, admit)
  }

  function FilesOf(visits: seq<Visit>): seq<Path>
  {
    if visits == [] then []
    else (if visits[0].kind.FileKind? then [visits[0].path] else []) + FilesOf(visits[1..])
  }

  function Everything(): Admit
  {
    (path, kind) => true
  }

  /** `project_files` on a tree without links. */
  function ProjectFiles(root: Node, policy: Policy): seq<Path>
    requires root.Dir?
  {
    FilesOf(WalkFrom(root, policy, Everything()))
  }

  // ---- subtrees ----

  predicate UnderAny(subtrees: seq<Path>, path: Path)
  {
    exists s :: s in subtrees && s <= path
  }

  function Under(subtrees: seq<Path>, paths: seq<Path>): seq<Path>
  {
    if paths == [] then []
    else (if UnderAny(subtrees, paths[0]) then [paths[0]] else []) + Under(subtrees, paths[1..])
  }

  /** Inside a subtree, or a directory (or a link that may stand for one) above one. */
  predicate InReach(subtrees: seq<Path>, path: Path, kind: Kind)
  {
    exists s :: s in subtrees && (s <= path || (!kind.FileKind? && path <= s))
  }

  function Reach(subtrees: seq<Path>): Admit
  {
    (path, kind) => InReach(subtrees, path, kind)
  }

  /** `plain_files_under`: the files of the pruned walk, or `None` once it meets a link. */
  method PlainFilesUnder(root: Node, policy: Policy, subtrees: seq<Path>) returns (r: Option<seq<Path>>)
    requires root.Dir?
    ensures r.None? <==> exists v :: v in WalkFrom(root, policy, Reach(subtrees)) && v.kind.LinkKind?
    ensures r.Some? ==> r.value == FilesOf(WalkFrom(root, policy, Reach(subtrees)))
  {
    var visits := WalkFrom(root, policy, Reach(subtrees));
    var files: seq<Path>, i := [], 0;
    while i < |visits|
      invariant i <= |visits|
      invariant forall k :: 0 <= k < i ==> !visits[k].kind.LinkKind?
      invariant files + FilesOf(visits[i..]) == FilesOf(visits)
    {
      assert visits[i..][1..] == visits[i + 1..];
      if visits[i].kind.LinkKind? {
        assert visits[i] in visits;
        return None;
      }
      if visits[i].kind.FileKind? {
        files := files + [visits[i].path];
      }
      i := i + 1;
    }
    return Some(files);
  }

  /** `project_files_under`: the pruned walk, or the full listing filtered when a link is in reach.
      `full` is the full walk's listing, whatever links do to it. */
  method ProjectFilesUnder(root: Node, policy: Policy, subtrees: seq<Path>, full: seq<Path>) returns (files: seq<Path>)
    requires root.Dir? && (NoLinks(root.entries) ==> full == ProjectFiles(root, policy))
    ensures NoLinks(root.entries) ==> files == Under(subtrees, full)
    ensures (exists v :: v in WalkFrom(root, policy, Reach(subtrees)) && v.kind.LinkKind?) ==> files == Under(subtrees, full)
  {
    var plain := PlainFilesUnder(root, policy, subtrees);
    if plain.Some? {
      files := plain.value;
      if NoLinks(root.entries) {
        PrunedIsFiltered(root, policy, subtrees);
      }
    } else {
      files := Under(subtrees, full);
    }
  }

  // ---- the pruned walk is the filtered walk ----

  predicate NoLinks(entries: seq<Entry>)
    decreases entries
  {
    entries == [] || (NoLinksIn(entries[0].node) && NoLinks(entries[1..]))
  }

  predicate NoLinksIn(node: Node)
  {
    match node case File => true case Symlink => false case Dir(_, entries) => NoLinks(entries)
  }

  lemma {:induction false} FilesOfConcat(a: seq<Visit>, b: seq<Visit>)
    ensures FilesOf(a + b) == FilesOf(a) + FilesOf(b)
    decreases |a|
  {
    if a == [] {
      assert a + b == b;
    } else {
      assert (a + b)[1..] == a[1..] + b;
      FilesOfConcat(a[1..], b);
    }
  }

  lemma {:induction false} UnderConcat(subtrees: seq<Path>, a: seq<Path>, b: seq<Path>)
    ensures Under(subtrees, a + b) == Under(subtrees, a) + Under(subtrees, b)
    decreases |a|
  {
    if a == [] {
      assert a + b == b;
    } else {
      assert (a + b)[1..] == a[1..] + b;
      UnderConcat(subtrees, a[1..], b);
    }
  }

  /** Everything listed from a directory lies below it. */
  lemma {:induction false} ListedBelow(entries: seq<Entry>, at: Path, above: seq<string>, policy: Policy, admit: Admit, p: Path)
    requires p in FilesOf(Visits(entries, at, above, policy, admit))
    ensures at <= p && |at| < |p|
    decreases entries, 1
  {
    if entries != [] {
      var rest := Visits(entries[1..], at, above, policy, admit);
      FilesOfConcat(VisitsOf(entries[0], at, above, policy, admit), rest);
      if p in FilesOf(rest) {
        ListedBelow(entries[1..], at, above, policy, admit, p);
      } else {
        ListedFrom(entries[0], at, above, policy, admit, p);
      }
    }
  }

  lemma {:induction false} ListedFrom(e: Entry, at: Path, above: seq<string>, policy: Policy, admit: Admit, p: Path)
    requires p in FilesOf(VisitsOf(e, at, above, policy, admit))
    ensures at + [e.name] <= p
    decreases e, 0
  {
    var path := at + [e.name];
    if e.node.Dir? && VisitsOf(e, at, above, policy, admit) != [] {
      var below := Visits(e.node.entries, path, above + [e.node.ignore], policy, admit);
      FilesOfConcat([Visit(path, DirKind)], below);
      if p in FilesOf(below) {
        ListedBelow(e.node.entries, path, above + [e.node.ignore], policy, admit, p);
      }
    }
  }

  lemma {:induction false} NoneUnder(subtrees: seq<Path>, paths: seq<Path>)
    requires forall p :: p in paths ==> !UnderAny(subtrees, p)
    ensures Under(subtrees, paths) == []
    decreases |paths|
  {
    if paths != [] { NoneUnder(subtrees, paths[1..]); }
  }

  /** A directory out of reach holds no file of a subtree. */
  lemma OutOfReach(subtrees: seq<Path>, dir: Path, p: Path)
    requires !InReach(subtrees, dir, DirKind) && dir <= p
    ensures !UnderAny(subtrees, p)
  {
    forall s | s in subtrees ensures s <= p ==> s <= dir || dir <= s {
      TwoPrefixes(s, dir, p);
    }
  }

  lemma TwoPrefixes(s: Path, dir: Path, p: Path)
    ensures s <= p && dir <= p ==> s <= dir || dir <= s
  {
    if s <= p && dir <= p {
      assert s == p[..|s|] && dir == p[..|dir|];
    }
  }

  lemma {:induction false} EntryPruned(e: Entry, at: Path, above: seq<string>, policy: Policy, subtrees: seq<Path>)
    requires NoLinksIn(e.node)
    ensures FilesOf(VisitsOf(e, at, above, policy, Reach(subtrees)))
         == Under(subtrees, FilesOf(VisitsOf(e, at, above, policy, Everything())))
    decreases e, 0
  {
    var path := at + [e.name];
    if policy.ignored(above, path, e.node.Dir?) || (e.node.Dir? && e.name in policy.excluded) {
    } else if e.node.File? {
      assert InReach(subtrees, path, FileKind) <==> UnderAny(subtrees, path);
      assert FilesOf([Visit(path, FileKind)]) == [path];
    } else {
      var above' := above + [e.node.ignore];
      var full := Visits(e.node.entries, path, above', policy, Everything());
      FilesOfConcat([Visit(path, DirKind)], full);
      assert FilesOf([Visit(path, DirKind)] + full) == FilesOf(full);
      if InReach(subtrees, path, DirKind) {
        EntriesPruned(e.node.entries, path, above', policy, subtrees);
        var near := Visits(e.node.entries, path, above', policy, Reach(subtrees));
        FilesOfConcat([Visit(path, DirKind)], near);
        assert FilesOf([Visit(path, DirKind)] + near) == FilesOf(near);
      } else {
        forall p | p in FilesOf(full)
          ensures !UnderAny(subtrees, p)
        {
          ListedBelow(e.node.entries, path, above', policy, Everything(), p);
          OutOfReach(subtrees, path, p);
        }
        NoneUnder(subtrees, FilesOf(full));
      }
    }
  }

  lemma {:induction false} EntriesPruned(entries: seq<Entry>, at: Path, above: seq<string>, policy: Policy, subtrees: seq<Path>)
    requires NoLinks(entries)
    ensures FilesOf(Visits(entries, at, above, policy, Reach(subtrees)))
         == Under(subtrees, FilesOf(Visits(entries, at, above, policy, Everything())))
    decreases entries, 1
  {
    if entries != [] {
      EntryPruned(entries[0], at, above, policy, subtrees);
      EntriesPruned(entries[1..], at, above, policy, subtrees);
      FilesOfConcat(VisitsOf(entries[0], at, above, policy, Reach(subtrees)),
                    Visits(entries[1..], at, above, policy, Reach(subtrees)));
      FilesOfConcat(VisitsOf(entries[0], at, above, policy, Everything()),
                    Visits(entries[1..], at, above, policy, Everything()));
      UnderConcat(subtrees, FilesOf(VisitsOf(entries[0], at, above, policy, Everything())),
                  FilesOf(Visits(entries[1..], at, above, policy, Everything())));
    }
  }

  /** The pruned walk of a link-free tree lists the full walk's files under the subtrees. */
  lemma PrunedIsFiltered(root: Node, policy: Policy, subtrees: seq<Path>)
    requires root.Dir? && NoLinks(root.entries)
    ensures FilesOf(WalkFrom(root, policy, Reach(subtrees))) == Under(subtrees, ProjectFiles(root, policy))
  {
    EntriesPruned(root.entries, [], [root.ignore], policy, subtrees);
  }
}
