/**
 * Counting the files of languages whose plugin is absent (`languages.rs`). The walk prunes only the
 * directories every absent language excludes, so no language's count depends on the pruning.
 */
module Languages {
  import opened Prelude
  import opened Walk
  import opened WalkPaths

  datatype CatalogueEntry = CatalogueEntry(language: string, extensions: seq<string>, excludeDirs: seq<string>)

  /** The discovered plugins: their languages, and the language each extension routes to. */
  datatype Discovered = Discovered(manifests: set<string>, routing: map<string, string>)

  /** `extension_of`: lower-cased, with its dot. */
  type Extension = Path -> Option<string>

  /** A file as walked; `realPath` is its spelling under the root's real path when a link is above it. */
  datatype WalkedFile = WalkedFile(relative: Path, realPath: Option<Path>)

  const BASELINE_EXCLUDED_DIRS: set<string> := {".git", ".claude"}

  // ---- lookups, over any table ----

  function EntryForExtension(table: seq<CatalogueEntry>, extension: string): (r: Option<CatalogueEntry>)
    ensures r.Some? ==> exists k :: FirstClaims(table, k, extension) && table[k] == r.value
    ensures r.None? ==> forall e :: e in table ==> extension !in e.extensions
  {
    if table == [] then None
    else if extension in table[0].extensions then assert FirstClaims(table, 0, extension); Some(table[0])
    else
      var r := EntryForExtension(table[1..], extension);
      assert r.Some? ==> exists k :: FirstClaims(table, k, extension) && table[k] == r.value by {
        if r.Some? {
          var k :| FirstClaims(table[1..], k, extension) && table[1..][k] == r.value;
          assert FirstClaims(table, k + 1, extension);
        }
      }
      r
  }

  /** Entry `k` is the first of the table that claims the extension. */
  predicate FirstClaims(table: seq<CatalogueEntry>, k: int, extension: string)
  {
    && 0 <= k < |table| && extension in table[k].extensions
    && forall j :: 0 <= j < k ==> extension !in table[j].extensions
  }

  function EntryForPath(table: seq<CatalogueEntry>, ext: Extension, path: Path): Option<CatalogueEntry>
  {
    if ext(path).None? then None else EntryForExtension(table, ext(path).value)
  }

  function Missing(table: seq<CatalogueEntry>, d: Discovered): seq<CatalogueEntry>
  {
    if table == [] then []
    else (if table[0].language in d.manifests then [] else [table[0]]) + Missing(table[1..], d)
  }

  function AbsentForPathIn(table: seq<CatalogueEntry>, d: Discovered, ext: Extension, path: Path): Option<CatalogueEntry>
  {
    if ext(path).Some? && ext(path).value in d.routing then None
    else
      var entry := EntryForPath(table, ext, path);
      if entry.None? || entry.value.language in d.manifests then None else entry
  }

  /** The absent language of a file: the first catalogue entry that claims its extension, unless a plugin
      that is present routes the extension or is that language's. */
  lemma AbsentForPathIff(table: seq<CatalogueEntry>, d: Discovered, ext: Extension, path: Path, e: CatalogueEntry)
    ensures AbsentForPathIn(table, d, ext, path) == Some(e) <==>
              && ext(path).Some? && ext(path).value !in d.routing && e.language !in d.manifests
              && exists k :: FirstClaims(table, k, ext(path).value) && table[k] == e
  {
    if ext(path).Some? {
      var x := ext(path).value;
      var found := EntryForExtension(table, x);
      forall k | FirstClaims(table, k, x) ensures found == Some(table[k]) {
        assert table[k] in table;
        var m :| FirstClaims(table, m, x) && table[m] == found.value;
        assert m == k;
      }
    }
  }

  /** A directory above the file has one of these names. */
  predicate UnderExcludedDir(path: Path, dirs: seq<string>)
  {
    exists i :: 0 <= i < |path| - 1 && path[i] in dirs
  }

  function AbsentForPath(table: seq<CatalogueEntry>, d: Discovered, ext: Extension, path: Path): Option<CatalogueEntry>
  {
    var entry := AbsentForPathIn(table, d, ext, path);
    if entry.Some? && UnderExcludedDir(path, entry.value.excludeDirs) then None else entry
  }

  // ---- counting ----

  /** The absent language would index this file: by neither spelling is it under its own excluded
      directories. */
  predicate CountsFor(table: seq<CatalogueEntry>, d: Discovered, ext: Extension, file: WalkedFile, language: string)
  {
    var entry := AbsentForPathIn(table, d, ext, file.relative);
    && entry.Some? && entry.value.language == language
    && !UnderExcludedDir(file.relative, entry.value.excludeDirs)
    && !(file.realPath.Some? && UnderExcludedDir(file.realPath.value, entry.value.excludeDirs))
  }

  /** `dir` is a directory above the file, below the root. */
  predicate DirAbove(dir: Path, path: Path)
  {
    dir != [] && dir < path
  }

  ghost predicate LiesIn(path: Path, names: seq<string>)
  {
    exists dir :: DirAbove(dir, path) && dir[|dir| - 1] in names
  }

  lemma UnderExcludedIff(path: Path, names: seq<string>)
    ensures UnderExcludedDir(path, names) <==> LiesIn(path, names)
  {
    if UnderExcludedDir(path, names) {
      var i :| 0 <= i < |path| - 1 && path[i] in names;
      assert DirAbove(path[..i + 1], path) && path[..i + 1][i] == path[i];
    }
    forall dir | DirAbove(dir, path) ensures dir[|dir| - 1] == path[|dir| - 1] {}
  }

  /** A file counts for a language exactly when the first entry that claims its extension is that language's,
      no present plugin has the extension or the language, and none of the directories above the file, by
      either spelling, has a name the entry excludes. */
  lemma CountsForIff(table: seq<CatalogueEntry>, d: Discovered, ext: Extension, file: WalkedFile, language: string)
    ensures CountsFor(table, d, ext, file, language) <==>
              && ext(file.relative).Some? && ext(file.relative).value !in d.routing && language !in d.manifests
              && exists k :: FirstClaims(table, k, ext(file.relative).value) && table[k].language == language
                   && !LiesIn(file.relative, table[k].excludeDirs)
                   && (file.realPath.Some? ==> !LiesIn(file.realPath.value, table[k].excludeDirs))
  {
    hide AbsentForPathIn, UnderExcludedDir, LiesIn;
    var entry := AbsentForPathIn(table, d, ext, file.relative);
    if entry.Some? {
      ClearOfIff(file, entry.value);
      AbsentForPathIff(table, d, ext, file.relative, entry.value);
    }
    if ext(file.relative).Some? && ext(file.relative).value !in d.routing && language !in d.manifests {
      forall k | FirstClaims(table, k, ext(file.relative).value) && table[k].language == language
        ensures entry == Some(table[k])
      {
        AbsentForPathIff(table, d, ext, file.relative, table[k]);
      }
    }
  }

  lemma ClearOfIff(file: WalkedFile, e: CatalogueEntry)
    ensures UnderExcludedDir(file.relative, e.excludeDirs) <==> LiesIn(file.relative, e.excludeDirs)
    ensures file.realPath.Some? ==>
              (UnderExcludedDir(file.realPath.value, e.excludeDirs) <==> LiesIn(file.realPath.value, e.excludeDirs))
  {
    UnderExcludedIff(file.relative, e.excludeDirs);
    if file.realPath.Some? { UnderExcludedIff(file.realPath.value, e.excludeDirs); }
  }

  /** No file of a project that is counted lies in a `.git` or `.claude` directory. */
  lemma NoneInBaseline(root: Node, ignored: (seq<string>, Path, bool) -> bool, path: Path)
    requires root.Dir? && path in ProjectFiles(root, Policy(ignored, BASELINE_EXCLUDED_DIRS))
    ensures !LiesIn(path, [".git", ".claude"])
  {
    forall dir | DirAbove(dir, path) ensures dir[|dir| - 1] !in [".git", ".claude"] {
      assert dir[|dir| - 1] == path[|dir| - 1];
      ListedOutside(root, Policy(ignored, BASELINE_EXCLUDED_DIRS), path, |dir| - 1);
    }
  }

  function CountOf(table: seq<CatalogueEntry>, d: Discovered, ext: Extension, files: seq<WalkedFile>, language: string): nat
  {
    if files == [] then 0
    else
      CountOf(table, d, ext, files[..|files| - 1], language)
      + if CountsFor(table, d, ext, files[|files| - 1], language) then 1 else 0
  }

  ghost predicate DistinctLanguages(table: seq<CatalogueEntry>)
  {
    forall a, b :: a in table && b in table && a.language == b.language ==> a == b
  }

  lemma {:induction false} MissingIs(table: seq<CatalogueEntry>, d: Discovered, e: CatalogueEntry)
    ensures e in Missing(table, d) <==> e in table && e.language !in d.manifests
    decreases |table|
  {
    if table != [] { MissingIs(table[1..], d, e); }
  }

  /** The names every absent language excludes: `pruned` narrowed entry by entry. */
  method PrunedNames(absent: seq<CatalogueEntry>) returns (pruned: seq<string>)
    requires absent != []
    ensures forall name :: name in pruned <==> forall e :: e in absent ==> name in e.excludeDirs
  {
    pruned := absent[0].excludeDirs;
    var i := 1;
    while i < |absent|
      invariant 1 <= i <= |absent|
      invariant forall name :: name in pruned <==> forall k :: 0 <= k < i ==> name in absent[k].excludeDirs
    {
      pruned := Retain(pruned, absent[i].excludeDirs);
      i := i + 1;
    }
    forall name
      ensures name in pruned <==> forall e :: e in absent ==> name in e.excludeDirs
    {
      if forall k :: 0 <= k < |absent| ==> name in absent[k].excludeDirs {
      } else {
        var k :| 0 <= k < |absent| && name !in absent[k].excludeDirs;
        assert absent[k] in absent;
      }
    }
  }

  function Retain(names: seq<string>, allowed: seq<string>): (r: seq<string>)
    ensures forall n :: n in r <==> n in names && n in allowed
  {
    if names == [] then []
    else (if names[0] in allowed then [names[0]] else []) + Retain(names[1..], allowed)
  }

  /** Each absent language's own excluded names. */
  method ExcludedByLanguage(absent: seq<CatalogueEntry>) returns (excluded: map<string, seq<string>>)
    requires DistinctLanguages(absent)
    ensures forall e :: e in absent ==> e.language in excluded && excluded[e.language] == e.excludeDirs
  {
    excluded := map[];
    var i := 0;
    while i < |absent|
      invariant i <= |absent|
      invariant forall k :: 0 <= k < i ==>
                  absent[k].language in excluded && excluded[absent[k].language] == absent[k].excludeDirs
    {
      assert absent[i] in absent && forall k :: 0 <= k < i ==> absent[k] in absent;
      excluded := excluded[absent[i].language := absent[i].excludeDirs];
      i := i + 1;
    }
  }

  /** `count_absent_files_in`, over any walk: `walk` lists the files for the names it is to prune. */
  method CountAbsentFiles(table: seq<CatalogueEntry>, d: Discovered, ext: Extension, walk: set<string> -> seq<WalkedFile>)
    returns (counts: map<string, nat>, pruned: seq<string>)
    requires DistinctLanguages(table)
    ensures Missing(table, d) == [] ==> counts == map[]
    ensures Missing(table, d) != [] ==>
              forall name :: name in pruned <==> forall e :: e in Missing(table, d) ==> name in e.excludeDirs
    ensures Missing(table, d) != [] ==> Counted(table, d, ext, walk(set name | name in pruned), counts)
  {
    counts, pruned := map[], [];
    var absent := Missing(table, d);
    if absent == [] {
      return;
    }
    pruned := PrunedNames(absent);
    forall e ensures e in absent <==> e in table && e.language !in d.manifests { MissingIs(table, d, e); }
    var excluded := ExcludedByLanguage(absent);
    counts := CountFiles(table, d, ext, walk(set name | name in pruned), excluded);
  }

  lemma AbsentIsMissing(table: seq<CatalogueEntry>, d: Discovered, ext: Extension, path: Path)
    ensures AbsentForPathIn(table, d, ext, path).Some? ==> AbsentForPathIn(table, d, ext, path).value in Missing(table, d)
  {
    var entry := AbsentForPathIn(table, d, ext, path);
    if entry.Some? {
      AbsentForPathIff(table, d, ext, path, entry.value);
      MissingIs(table, d, entry.value);
    }
  }

  /** The counts hold exactly the languages with a file, each with its number. */
  ghost predicate Counted(table: seq<CatalogueEntry>, d: Discovered, ext: Extension, files: seq<WalkedFile>, counts: map<string, nat>)
  {
    forall language :: (language in counts <==> CountOf(table, d, ext, files, language) > 0)
      && (language in counts ==> counts[language] == CountOf(table, d, ext, files, language))
  }

  method CountFiles(table: seq<CatalogueEntry>, d: Discovered, ext: Extension, files: seq<WalkedFile>,
                    excluded: map<string, seq<string>>) returns (counts: map<string, nat>)
    requires forall e :: e in Missing(table, d) ==> e.language in excluded && excluded[e.language] == e.excludeDirs
    ensures Counted(table, d, ext, files, counts)
  {
    hide AbsentForPathIn, UnderExcludedDir, Missing;
    counts := map[];
    var i := 0;
    while i < |files|
      invariant i <= |files|
      invariant Counted(table, d, ext, files[..i], counts)
    {
      assert files[..i + 1][..i] == files[..i] && files[..i + 1][i] == files[i];
      var entry := AbsentForPathIn(table, d, ext, files[i].relative);
      if entry.Some? {
        AbsentIsMissing(table, d, ext, files[i].relative);
        var dirs := excluded[entry.value.language];
        if !(UnderExcludedDir(files[i].relative, dirs)
             || (files[i].realPath.Some? && UnderExcludedDir(files[i].realPath.value, dirs))) {
          var n := if entry.value.language in counts then counts[entry.value.language] else 0;
          counts := counts[entry.value.language := n + 1];
        }
      }
      i := i + 1;
    }
    assert files[..i] == files;
  }

  // ---- pruning changes no count ----

  /** The files of a link-free project, as walked with `pruned` on top of the baseline names. */
  function PlainWalk(root: Node, ignored: (seq<string>, Path, bool) -> bool, pruned: set<string>): seq<WalkedFile>
    requires root.Dir?
  {
    AsWalked(ProjectFiles(root, Policy(ignored, BASELINE_EXCLUDED_DIRS + pruned)))
  }

  function AsWalked(paths: seq<Path>): (r: seq<WalkedFile>)
    ensures |r| == |paths|
  {
    seq(|paths|, i requires 0 <= i < |paths| => WalkedFile(paths[i], None))
  }

  predicate UnderNamed(path: Path, names: set<string>)
  {
    exists i :: 0 <= i < |path| - 1 && path[i] in names
  }

  function Outside(paths: seq<Path>, names: set<string>): seq<Path>
  {
    if paths == [] then []
    else (if UnderNamed(paths[0], names) then [] else [paths[0]]) + Outside(paths[1..], names)
  }

  lemma {:induction false} OutsideConcat(a: seq<Path>, b: seq<Path>, names: set<string>)
    ensures Outside(a + b, names) == Outside(a, names) + Outside(b, names)
    decreases |a|
  {
    if a == [] {
      assert a + b == b;
    } else {
      assert (a + b)[1..] == a[1..] + b;
      OutsideConcat(a[1..], b, names);
    }
  }

  lemma {:induction false} NoneOutside(paths: seq<Path>, names: set<string>)
    requires forall p :: p in paths ==> UnderNamed(p, names)
    ensures Outside(paths, names) == []
    decreases |paths|
  {
    if paths != [] { NoneOutside(paths[1..], names); }
  }

  ghost predicate Clear(at: Path, names: set<string>)
  {
    forall i :: 0 <= i < |at| ==> at[i] !in names
  }

  lemma {:induction false} EntryOutside(e: Entry, at: Path, above: seq<string>, policy: Policy, names: set<string>)
    requires NoLinksIn(e.node) && Clear(at, names)
    ensures FilesOf(VisitsOf(e, at, above, policy.(excluded := policy.excluded + names), Everything()))
         == Outside(FilesOf(VisitsOf(e, at, above, policy, Everything())), names)
    decreases e, 0
  {
    var path := at + [e.name];
    var narrower := policy.(excluded := policy.excluded + names);
    if policy.ignored(above, path, e.node.Dir?) || (e.node.Dir? && e.name in policy.excluded) {
    } else if e.node.File? {
      assert !UnderNamed(path, names);
      assert FilesOf([Visit(path, FileKind)]) == [path];
    } else {
      var above' := above + [e.node.ignore];
      var full := Visits(e.node.entries, path, above', policy, Everything());
      FilesOfConcat([Visit(path, DirKind)], full);
      assert FilesOf([Visit(path, DirKind)] + full) == FilesOf(full);
      if e.name in names {
        forall p | p in FilesOf(full)
          ensures UnderNamed(p, names)
        {
          ListedBelow(e.node.entries, path, above', policy, Everything(), p);
          assert p[|at|] == e.name;
        }
        NoneOutside(FilesOf(full), names);
      } else {
        EntriesOutside(e.node.entries, path, above', policy, names);
        var kept := Visits(e.node.entries, path, above', narrower, Everything());
        FilesOfConcat([Visit(path, DirKind)], kept);
        assert FilesOf([Visit(path, DirKind)] + kept) == FilesOf(kept);
      }
    }
  }

  /** Excluding more names is filtering the walk by them. */
  lemma {:induction false} EntriesOutside(entries: seq<Entry>, at: Path, above: seq<string>, policy: Policy, names: set<string>)
    requires NoLinks(entries) && Clear(at, names)
    ensures FilesOf(Visits(entries, at, above, policy.(excluded := policy.excluded + names), Everything()))
         == Outside(FilesOf(Visits(entries, at, above, policy, Everything())), names)
    decreases entries, 1
  {
    if entries != [] {
      var narrower := policy.(excluded := policy.excluded + names);
      EntryOutside(entries[0], at, above, policy, names);
      EntriesOutside(entries[1..], at, above, policy, names);
      FilesOfConcat(VisitsOf(entries[0], at, above, narrower, Everything()),
                    Visits(entries[1..], at, above, narrower, Everything()));
      FilesOfConcat(VisitsOf(entries[0], at, above, policy, Everything()),
                    Visits(entries[1..], at, above, policy, Everything()));
      OutsideConcat(FilesOf(VisitsOf(entries[0], at, above, policy, Everything())),
                    FilesOf(Visits(entries[1..], at, above, policy, Everything())), names);
    }
  }

  /** The number of files whose absent language `absent_for_path` says is `language`. */
  function NamedCount(table: seq<CatalogueEntry>, d: Discovered, ext: Extension, paths: seq<Path>, language: string): nat
  {
    if paths == [] then 0
    else
      var entry := AbsentForPath(table, d, ext, paths[0]);
      (if entry.Some? && entry.value.language == language then 1 else 0)
      + NamedCount(table, d, ext, paths[1..], language)
  }

  lemma {:induction false} NamedCountAppend(table: seq<CatalogueEntry>, d: Discovered, ext: Extension,
                                            paths: seq<Path>, p: Path, language: string)
    ensures NamedCount(table, d, ext, paths + [p], language)
         == NamedCount(table, d, ext, paths, language) + NamedCount(table, d, ext, [p], language)
    decreases |paths|
  {
    if paths == [] {
      assert paths + [p] == [p];
    } else {
      assert (paths + [p])[1..] == paths[1..] + [p];
      NamedCountAppend(table, d, ext, paths[1..], p, language);
    }
  }

  /** Without links the two counts are one. */
  lemma {:induction false} CountIsNamedCount(table: seq<CatalogueEntry>, d: Discovered, ext: Extension,
                                             paths: seq<Path>, language: string)
    ensures CountOf(table, d, ext, AsWalked(paths), language) == NamedCount(table, d, ext, paths, language)
    decreases |paths|
  {
    if paths != [] {
      var n := |paths| - 1;
      assert AsWalked(paths)[..n] == AsWalked(paths[..n]) && paths == paths[..n] + [paths[n]];
      CountIsNamedCount(table, d, ext, paths[..n], language);
      NamedCountAppend(table, d, ext, paths[..n], paths[n], language);
    }
  }

  /** A file under a name every absent language excludes is counted for none of them. */
  lemma {:induction false} OutsideKeepsCount(table: seq<CatalogueEntry>, d: Discovered, ext: Extension,
                                             paths: seq<Path>, names: set<string>, language: string)
    requires forall name, e :: name in names && e in Missing(table, d) ==> name in e.excludeDirs
    ensures NamedCount(table, d, ext, Outside(paths, names), language) == NamedCount(table, d, ext, paths, language)
    decreases |paths|
  {
    if paths != [] {
      OutsideKeepsCount(table, d, ext, paths[1..], names, language);
      var rest := Outside(paths[1..], names);
      if UnderNamed(paths[0], names) {
        assert Outside(paths, names) == rest;
        var entry := AbsentForPathIn(table, d, ext, paths[0]);
        if entry.Some? {
          AbsentIsMissing(table, d, ext, paths[0]);
          var i :| 0 <= i < |paths[0]| - 1 && paths[0][i] in names;
          assert UnderExcludedDir(paths[0], entry.value.excludeDirs);
        }
      } else {
        assert Outside(paths, names) == [paths[0]] + rest;
        assert ([paths[0]] + rest)[1..] == rest;
      }
    }
  }

  /** The walk of a link-free project, pruned by names every absent language excludes, gives each
      language the count of the unpruned walk. */
  lemma PruningChangesNoCount(table: seq<CatalogueEntry>, d: Discovered, ext: Extension, root: Node,
                              ignored: (seq<string>, Path, bool) -> bool, names: set<string>, language: string)
    requires root.Dir? && NoLinks(root.entries)
    requires forall name, e :: name in names && e in Missing(table, d) ==> name in e.excludeDirs
    ensures CountOf(table, d, ext, PlainWalk(root, ignored, names), language)
         == NamedCount(table, d, ext, ProjectFiles(root, Policy(ignored, BASELINE_EXCLUDED_DIRS)), language)
  {
    var baseline := Policy(ignored, BASELINE_EXCLUDED_DIRS);
    var files := ProjectFiles(root, baseline);
    EntriesOutside(root.entries, [], [root.ignore], baseline, names);
    assert baseline.(excluded := baseline.excluded + names) == Policy(ignored, BASELINE_EXCLUDED_DIRS + names);
    CountIsNamedCount(table, d, ext, Outside(files, names), language);
    OutsideKeepsCount(table, d, ext, files, names, language);
  }

  /** `count_absent_files` of a link-free project: the keys are the absent languages with a file, each
      with the number of baseline-walk files `absent_for_path` names it for. */
  method CountPlainProject(table: seq<CatalogueEntry>, d: Discovered, ext: Extension, root: Node,
                           ignored: (seq<string>, Path, bool) -> bool) returns (counts: map<string, nat>)
    requires DistinctLanguages(table) && root.Dir? && NoLinks(root.entries)
    ensures
      var files := ProjectFiles(root, Policy(ignored, BASELINE_EXCLUDED_DIRS));
      forall language :: (language in counts <==> NamedCount(table, d, ext, files, language) > 0)
        && (language in counts ==> counts[language] == NamedCount(table, d, ext, files, language))
    ensures forall language :: language in counts ==> exists e :: e in Missing(table, d) && e.language == language
  {
    var pruned;
    counts, pruned := CountAbsentFiles(table, d, ext, names => PlainWalk(root, ignored, names));
    ghost var files := ProjectFiles(root, Policy(ignored, BASELINE_EXCLUDED_DIRS));
    forall language
      ensures NamedCount(table, d, ext, files, language) > 0 ==> exists e :: e in Missing(table, d) && e.language == language
    {
      CountedIsMissing(table, d, ext, files, language);
    }
    if Missing(table, d) != [] {
      forall language {
        PruningChangesNoCount(table, d, ext, root, ignored, (set name | name in pruned), language);
      }
    }
  }

  lemma {:induction false} CountedIsMissing(table: seq<CatalogueEntry>, d: Discovered, ext: Extension,
                                            paths: seq<Path>, language: string)
    ensures NamedCount(table, d, ext, paths, language) > 0 ==>
              exists e :: e in Missing(table, d) && e.language == language
    decreases |paths|
  {
    if paths != [] {
      CountedIsMissing(table, d, ext, paths[1..], language);
      var entry := AbsentForPathIn(table, d, ext, paths[0]);
      AbsentIsMissing(table, d, ext, paths[0]);
    }
  }
}
