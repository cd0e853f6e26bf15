/**
 * The link table is a canonical form: all spellings of one real file go to one spelling, and that
 * spelling still denotes the file.
 */
module Canonical {
  import opened Prelude
  import opened LinkTable

  // ---- what a path denotes ----

  /** The path is the link's own, or lies under it when it is a directory link. */
  predicate Through(root: Path, l: Link, path: Path)
  {
    if l.isDir then root + l.at <= path else path == root + l.at
  }

  function LinkOver(root: Path, links: seq<Link>, path: Path): (r: Option<Link>)
    ensures r.Some? ==> r.value in links && Through(root, r.value, path) && r.value.target.Some?
    ensures r.None? ==> forall l :: l in links && l.target.Some? ==> !Through(root, l, path)
  {
    if links == [] then None
    else if Through(root, links[0], path) && links[0].target.Some? then Some(links[0])
    else LinkOver(root, links[1..], path)
  }

  /** The real file a path names: through the link over it, if any. */
  function Denote(root: Path, links: seq<Link>, path: Path): Path
  {
    var over := LinkOver(root, links, path);
    if over.None? then path else over.value.target.value + path[|root + over.value.at|..]
  }

  // ---- where the index holds a real file ----

  predicate Reaches(l: Link, file: Path)
  {
    && l.outcome.Followed? && l.target.Some?
    && if l.isDir then l.target.value <= file else file == l.target.value
  }

  function FollowedOver(links: seq<Link>, file: Path): (r: Option<Link>)
    ensures r.Some? ==> r.value in links && Reaches(r.value, file)
    ensures r.None? ==> forall l :: l in links ==> !Reaches(l, file)
  {
    if links == [] then None
    else if Reaches(links[0], file) then Some(links[0])
    else FollowedOver(links[1..], file)
  }

  /** The spelling the walk lists a real file under: through the followed link that reaches it. */
  function Listed(root: Path, links: seq<Link>, file: Path): Path
  {
    var l := FollowedOver(links, file);
    if l.None? then file else root + l.value.at + file[|l.value.target.value|..]
  }

  // ---- the tables it holds for ----

  ghost predicate TableOf(rules: seq<Rule>, root: Path, links: seq<Link>)
  {
    forall r :: r in rules <==> GivenBy(root, links, r)
  }

  predicate Comparable(p: Path, q: Path)
  {
    p <= q || q <= p
  }

  /** Links name distinct paths and no rule's prefix lies under another's. */
  ghost predicate Disjoint(root: Path, links: seq<Link>)
  {
    && (forall a, b :: a in links && b in links && a.at == b.at ==> a == b)
    && (forall a, b :: GivenBy(root, links, a) && GivenBy(root, links, b) && Comparable(a.prefix, b.prefix) ==> a == b)
  }

  /** What the walk says of one link: a duplicate's winner is a followed link to the same target; an
      alias's plain path is its real path, apart from every rule. */
  ghost predicate WellJudged(root: Path, links: seq<Link>, l: Link)
  {
    match l.outcome
    case Followed => l.target.Some?
    case Duplicate(w) =>
      exists f :: f in links && f.outcome.Followed? && f.at == w && f.isDir == l.isDir
                  && l.target.Some? && f.target == l.target
    case Aliases(plain) =>
      && l.target == Some(root + plain)
      && forall r :: GivenBy(root, links, r) ==> !Comparable(r.prefix, root + plain)
    case _ => true
  }

  ghost predicate WellFormed(root: Path, links: seq<Link>)
  {
    Disjoint(root, links) && forall l :: l in links ==> WellJudged(root, links, l)
  }

  /** Not through a refused or dangling link, not what a dangling link names, and not a directory link
      itself. */
  ghost predicate Proper(root: Path, links: seq<Link>, path: Path)
  {
    forall l :: l in links ==>
      && (l.outcome.Dangling? || l.outcome.OtherRefusal? ==> !Through(root, l, path))
      && (l.outcome.Dangling? && !l.isDir ==> l.names != Some(path))
      && (l.isDir ==> path != root + l.at)
  }

  /** `to_indexed`, then `file_link_to_indexed` on its answer. */
  function Canon(rules: seq<Rule>, path: Path): Option<Path>
  {
    match ToIndexed(rules, path)
    case Drop => None
    case Keep => Settle(rules, path)
    case To(q) => Settle(rules, q)
  }

  function Settle(rules: seq<Rule>, path: Path): Option<Path>
  {
    match FileLinkToIndexed(rules, path)
    case Drop => None
    case Keep => Some(path)
    case To(q) => Some(q)
  }

  // ---- one rule covers a path ----

  /** The rule for a link's own spelling. */
  function OwnRule(root: Path, l: Link): Rule
  {
    RulesOf(root, l)[|RulesOf(root, l)| - 1]
  }

  lemma OwnRuleFacts(root: Path, links: seq<Link>, l: Link)
    requires l in links
    ensures GivenBy(root, links, OwnRule(root, l))
    ensures OwnRule(root, l).prefix == root + l.at && OwnRule(root, l).isLink && OwnRule(root, l).exact == !l.isDir
  {
    assert OwnRule(root, l) in RulesOf(root, l);
  }

  lemma PrefixesOfOne(p: Path, q: Path, path: Path)
    requires p <= path && q <= path
    ensures Comparable(p, q)
  {
    assert p == path[..|p|] && q == path[..|q|];
  }

  /** The rule that covers a path is the one found for it. */
  lemma TheRule(rules: seq<Rule>, root: Path, links: seq<Link>, r: Rule, path: Path)
    requires TableOf(rules, root, links) && Disjoint(root, links)
    requires GivenBy(root, links, r) && Covers(r, path)
    ensures RuleFor(rules, path) == Some(r)
  {
    assert r in rules;
    var found := RuleFor(rules, path).value;
    PrefixesOfOne(r.prefix, found.prefix, path);
  }

  /** A path under a rule's prefix is no other rule's own path. */
  lemma TheFileLink(rules: seq<Rule>, root: Path, links: seq<Link>, r: Rule, path: Path)
    requires TableOf(rules, root, links) && Disjoint(root, links)
    requires GivenBy(root, links, r) && r.prefix <= path
    ensures FileLinkRule(rules, path) == if IsFileLinkRule(r, path) then Some(r) else None
  {
    var found := FileLinkRule(rules, path);
    if found.Some? {
      assert Comparable(r.prefix, found.value.prefix);
    } else {
      assert r in rules;
    }
  }

  lemma TheLink(root: Path, links: seq<Link>, l: Link, path: Path)
    requires Disjoint(root, links) && l in links && l.target.Some? && Through(root, l, path)
    ensures LinkOver(root, links, path) == Some(l)
  {
    var found := LinkOver(root, links, path).value;
    OwnRuleFacts(root, links, l);
    OwnRuleFacts(root, links, found);
    PrefixesOfOne(root + l.at, root + found.at, path);
    assert (root + l.at)[|root|..] == l.at && (root + found.at)[|root|..] == found.at;
  }

  /** The rule for a followed link's target. */
  function TargetRule(root: Path, l: Link): Rule
    requires l.target.Some?
  {
    Rule(l.target.value, !l.isDir, false, To(root + l.at))
  }

  lemma TargetRuleGiven(root: Path, links: seq<Link>, l: Link)
    requires l in links && l.outcome.Followed? && l.target.Some?
    ensures GivenBy(root, links, TargetRule(root, l))
  {
    assert RulesOf(root, l)[0] == TargetRule(root, l);
    assert TargetRule(root, l) in RulesOf(root, l);
  }

  lemma TheFollowed(root: Path, links: seq<Link>, l: Link, file: Path)
    requires Disjoint(root, links) && l in links && Reaches(l, file)
    ensures FollowedOver(links, file) == Some(l)
  {
    var found := FollowedOver(links, file).value;
    TargetRuleGiven(root, links, l);
    TargetRuleGiven(root, links, found);
    PrefixesOfOne(l.target.value, found.target.value, file);
    assert TargetRule(root, l) == TargetRule(root, found);
    assert (root + l.at)[|root|..] == l.at && (root + found.at)[|root|..] == found.at;
  }

  /** Below a rule's prefix (or at it, when it is not a link's own path) the prefix is replaced. */
  lemma CanonBelow(rules: seq<Rule>, rule: Rule, path: Path)
    requires RuleFor(rules, path) == Some(rule) && rule.remap.To? && !(rule.isLink && path == rule.prefix)
    requires FileLinkRule(rules, rule.remap.path + path[|rule.prefix|..]).None?
             || FileLinkRule(rules, rule.remap.path + path[|rule.prefix|..]).value.remap.Keep?
    ensures Canon(rules, path) == Some(rule.remap.path + path[|rule.prefix|..])
  {
    assert path[|rule.prefix|..] == [] ==> path == rule.prefix;
  }

  /** A file link's own path is placed by the second lookup. */
  lemma CanonAtFileLink(rules: seq<Rule>, rule: Rule, path: Path)
    requires RuleFor(rules, path) == Some(rule) && rule.isLink && path == rule.prefix && rule.remap.To?
    requires FileLinkRule(rules, path) == Some(rule)
    ensures Canon(rules, path) == Some(rule.remap.path)
  {
    assert path[|rule.prefix|..] == [];
  }

  // ---- the five kinds of path ----

  /** A file reached by a followed link: listed through it, and denoted by that spelling. */
  lemma ReachedFile(root: Path, links: seq<Link>, l: Link, file: Path)
    requires Disjoint(root, links) && l in links && Reaches(l, file)
    ensures Listed(root, links, file) == root + l.at + file[|l.target.value|..]
    ensures Denote(root, links, Listed(root, links, file)) == file
  {
    TheFollowed(root, links, l, file);
    var path := root + l.at + file[|l.target.value|..];
    TheLink(root, links, l, path);
    assert path[|root + l.at|..] == file[|l.target.value|..];
    assert l.target.value == file[..|l.target.value|];
  }

  /** A path through a followed link denotes a file that the link reaches, and is how that file is listed. */
  lemma FollowedLists(root: Path, links: seq<Link>, l: Link, path: Path)
    requires Disjoint(root, links) && l in links
    requires l.outcome.Followed? && l.target.Some? && Through(root, l, path)
    ensures Reaches(l, Denote(root, links, path)) && Listed(root, links, Denote(root, links, path)) == path
  {
    TheLink(root, links, l, path);
    var suffix := path[|root + l.at|..];
    assert path == root + l.at + suffix;
    assert (l.target.value + suffix)[|l.target.value|..] == suffix;
    ReachedFile(root, links, l, l.target.value + suffix);
  }

  lemma ThroughFollowed(rules: seq<Rule>, root: Path, links: seq<Link>, l: Link, path: Path)
    requires TableOf(rules, root, links) && Disjoint(root, links) && l in links
    requires l.outcome.Followed? && l.target.Some? && Through(root, l, path)
    ensures Canon(rules, path) == Some(path)
    ensures Reaches(l, Denote(root, links, path)) && Listed(root, links, Denote(root, links, path)) == path
  {
    FollowedLists(root, links, l, path);
    assert Canon(rules, path) == Some(path) by {
      OwnRuleFacts(root, links, l);
      TheRule(rules, root, links, OwnRule(root, l), path);
      TheFileLink(rules, root, links, OwnRule(root, l), path);
    }
  }

  /** A link whose paths are sent to `base` instead: where a path through it ends up. */
  lemma CanonThrough(rules: seq<Rule>, root: Path, links: seq<Link>, l: Link, base: Path, path: Path)
    requires TableOf(rules, root, links) && Disjoint(root, links) && l in links
    requires OwnRule(root, l).remap == To(base)
    requires Through(root, l, path) && (l.isDir ==> path != root + l.at)
    requires l.isDir ==> FileLinkRule(rules, base + path[|root + l.at|..]).None?
    ensures Canon(rules, path) == Some(base + path[|root + l.at|..])
  {
    var own := OwnRule(root, l);
    OwnRuleFacts(root, links, l);
    TheRule(rules, root, links, own, path);
    if l.isDir {
      CanonBelow(rules, own, path);
    } else {
      TheFileLink(rules, root, links, own, path);
      CanonAtFileLink(rules, own, path);
      assert path[|root + l.at|..] == [] && base + [] == base;
    }
  }

  lemma ThroughDuplicate(rules: seq<Rule>, root: Path, links: seq<Link>, l: Link, f: Link, path: Path)
    requires TableOf(rules, root, links) && Disjoint(root, links) && l in links && f in links
    requires l.outcome == Duplicate(f.at) && l.target.Some? && f.target == l.target && f.isDir == l.isDir
    requires f.outcome.Followed? && Through(root, l, path) && (l.isDir ==> path != root + l.at)
    ensures Reaches(f, Denote(root, links, path))
    ensures Canon(rules, path) == Some(Listed(root, links, Denote(root, links, path)))
  {
    var suffix := path[|root + l.at|..];
    TheLink(root, links, l, path);
    OwnRuleFacts(root, links, f);
    TheFileLink(rules, root, links, OwnRule(root, f), root + f.at + suffix);
    CanonThrough(rules, root, links, l, root + f.at, path);
    assert (l.target.value + suffix)[|l.target.value|..] == suffix;
    ReachedFile(root, links, f, l.target.value + suffix);
  }

  lemma ThroughAlias(rules: seq<Rule>, root: Path, links: seq<Link>, l: Link, path: Path)
    requires TableOf(rules, root, links) && Disjoint(root, links) && WellJudged(root, links, l) && l in links
    requires l.outcome.Aliases? && Through(root, l, path) && (l.isDir ==> path != root + l.at)
    ensures LinkOver(root, links, Denote(root, links, path)).None?
    ensures FollowedOver(links, Denote(root, links, path)).None?
    ensures Canon(rules, path) == Some(Denote(root, links, path))
  {
    var plain := root + l.outcome.plain;
    TheLink(root, links, l, path);
    ApartFromRules(rules, root, links, plain, plain + path[|root + l.at|..]);
    CanonThrough(rules, root, links, l, plain, path);
  }

  /** A file under a path apart from every rule: no link over it, none that reaches it, no rule at it. */
  lemma ApartFromRules(rules: seq<Rule>, root: Path, links: seq<Link>, plain: Path, file: Path)
    requires TableOf(rules, root, links) && plain <= file
    requires forall r :: GivenBy(root, links, r) ==> !Comparable(r.prefix, plain)
    ensures LinkOver(root, links, file).None? && FollowedOver(links, file).None? && FileLinkRule(rules, file).None?
  {
    var over := LinkOver(root, links, file);
    if over.Some? {
      OwnRuleFacts(root, links, over.value);
      PrefixesOfOne(root + over.value.at, plain, file);
    }
    var reached := FollowedOver(links, file);
    if reached.Some? {
      TargetRuleGiven(root, links, reached.value);
      PrefixesOfOne(reached.value.target.value, plain, file);
    }
  }

  /** No link lies over a path under a followed link's target. */
  lemma TargetIsReal(root: Path, links: seq<Link>, l: Link, path: Path)
    requires Disjoint(root, links) && l in links && Reaches(l, path)
    ensures Denote(root, links, path) == path
  {
    TargetRuleGiven(root, links, l);
    var over := LinkOver(root, links, path);
    if over.Some? {
      OwnRuleFacts(root, links, over.value);
      PrefixesOfOne(root + over.value.at, l.target.value, path);
    }
  }

  lemma UnderTarget(rules: seq<Rule>, root: Path, links: seq<Link>, l: Link, path: Path)
    requires TableOf(rules, root, links) && Disjoint(root, links) && l in links && Reaches(l, path)
    ensures Denote(root, links, path) == path
    ensures Canon(rules, path) == Some(Listed(root, links, path))
  {
    TargetIsReal(root, links, l, path);
    TargetRuleGiven(root, links, l);
    ReachedFile(root, links, l, path);
    var there := root + l.at + path[|l.target.value|..];
    assert FileLinkRule(rules, there).None? || FileLinkRule(rules, there).value.remap.Keep? by {
      OwnRuleFacts(root, links, l);
      TheFileLink(rules, root, links, OwnRule(root, l), there);
    }
    TheRule(rules, root, links, TargetRule(root, l), path);
    CanonBelow(rules, TargetRule(root, l), path);
  }

  /** Every rule is a link's own, a followed link's target, or what a dangling link names. */
  lemma RuleKinds(root: Path, links: seq<Link>, r: Rule) returns (l: Link)
    requires GivenBy(root, links, r)
    ensures l in links
    ensures r == OwnRule(root, l) || (l.outcome.Followed? && l.target.Some? && r == TargetRule(root, l))
            || (l.outcome.Dangling? && !l.isDir && l.names.Some? && r.prefix == l.names.value && r.exact)
  {
    l :| l in links && r in RulesOf(root, l);
  }

  /** The canonical spelling of a proper path is where the index lists the file it denotes. */
  lemma CanonIsListing(rules: seq<Rule>, root: Path, links: seq<Link>, path: Path)
    requires TableOf(rules, root, links) && WellFormed(root, links) && Proper(root, links, path)
    ensures Canon(rules, path) == Some(Listed(root, links, Denote(root, links, path)))
    ensures Denote(root, links, Listed(root, links, Denote(root, links, path))) == Denote(root, links, path)
  {
    var found := RuleFor(rules, path);
    if found.None? {
      NoRule(rules, root, links, path);
    } else {
      var l := RuleKinds(root, links, found.value);
      OwnRuleFacts(root, links, l);
      assert WellJudged(root, links, l);
      if found.value == OwnRule(root, l) {
        match l.outcome
        case Followed =>
          ThroughFollowed(rules, root, links, l, path);
          ReachedFile(root, links, l, Denote(root, links, path));
        case Duplicate(w) =>
          var f :| f in links && f.outcome.Followed? && f.at == w && f.isDir == l.isDir && f.target == l.target;
          ThroughDuplicate(rules, root, links, l, f, path);
          ReachedFile(root, links, f, Denote(root, links, path));
        case Aliases(_) => ThroughAlias(rules, root, links, l, path);
      } else {
        UnderTarget(rules, root, links, l, path);
        ReachedFile(root, links, l, path);
      }
    }
  }

  lemma NoRule(rules: seq<Rule>, root: Path, links: seq<Link>, path: Path)
    requires TableOf(rules, root, links) && RuleFor(rules, path).None?
    ensures Canon(rules, path) == Some(path)
    ensures LinkOver(root, links, path).None? && FollowedOver(links, path).None?
  {
    var over := LinkOver(root, links, path);
    if over.Some? {
      OwnRuleFacts(root, links, over.value);
    }
    var reached := FollowedOver(links, path);
    if reached.Some? {
      TargetRuleGiven(root, links, reached.value);
    }
    assert FileLinkRule(rules, path).None?;
  }

  /** All spellings of one real file go to one spelling, which denotes that file. */
  lemma OneSpellingPerFile(rules: seq<Rule>, root: Path, links: seq<Link>, p: Path, q: Path)
    requires TableOf(rules, root, links) && WellFormed(root, links)
    requires Proper(root, links, p) && Proper(root, links, q)
    ensures Canon(rules, p).Some? && Denote(root, links, Canon(rules, p).value) == Denote(root, links, p)
    ensures Canon(rules, p) == Canon(rules, q) <==> Denote(root, links, p) == Denote(root, links, q)
  {
    CanonIsListing(rules, root, links, p);
    CanonIsListing(rules, root, links, q);
  }

  /** The rule for the path a dangling file link names. */
  lemma NamesRuleGiven(root: Path, links: seq<Link>, l: Link)
    requires l in links && l.outcome.Dangling? && !l.isDir && l.names.Some?
    ensures GivenBy(root, links, Rule(l.names.value, true, false, To(root + l.at)))
  {
    assert RulesOf(root, l)[0] == Rule(l.names.value, true, false, To(root + l.at));
    assert RulesOf(root, l)[0] in RulesOf(root, l);
  }

  /** A dangling file link keeps its own spelling, so that a deletion through it reaches the index; and the
      path it names goes to that spelling, so that creating the target reaches the link. */
  lemma DanglingIsListed(rules: seq<Rule>, root: Path, links: seq<Link>, l: Link)
    requires TableOf(rules, root, links) && Disjoint(root, links)
    requires l in links && l.outcome.Dangling? && !l.isDir
    ensures Canon(rules, root + l.at) == Some(root + l.at)
    ensures l.names.Some? ==> Canon(rules, l.names.value) == Some(root + l.at)
  {
    var spelled := root + l.at;
    OwnRuleFacts(root, links, l);
    assert OwnRule(root, l).remap.Keep?;
    TheRule(rules, root, links, OwnRule(root, l), spelled);
    TheFileLink(rules, root, links, OwnRule(root, l), spelled);
    if l.names.Some? {
      NamesRuleGiven(root, links, l);
      var r := Rule(l.names.value, true, false, To(spelled));
      TheRule(rules, root, links, r, l.names.value);
      assert l.names.value[|l.names.value|..] == [] && spelled + [] == spelled;
      CanonBelow(rules, r, l.names.value);
    }
  }

  /** A path through any other refused link is dropped: below a directory link, or a file link itself. */
  lemma RefusedIsDropped(rules: seq<Rule>, root: Path, links: seq<Link>, l: Link, path: Path)
    requires TableOf(rules, root, links) && Disjoint(root, links) && l in links
    requires l.outcome.OtherRefusal? || (l.outcome.Dangling? && l.isDir)
    requires Through(root, l, path) && (l.isDir ==> path != root + l.at)
    ensures Canon(rules, path).None?
  {
    var own := OwnRule(root, l);
    OwnRuleFacts(root, links, l);
    assert own.remap.Drop?;
    TheRule(rules, root, links, own, path);
    if l.isDir {
      assert path[|own.prefix|..] == [] ==> path == own.prefix;
    } else {
      assert path[|own.prefix|..] == [];
      TheFileLink(rules, root, links, own, path);
    }
  }

  /** A directory link's own path is left alone, whatever became of the link. */
  lemma DirLinkIsKept(rules: seq<Rule>, root: Path, links: seq<Link>, l: Link)
    requires TableOf(rules, root, links) && Disjoint(root, links) && l in links && l.isDir
    ensures Canon(rules, root + l.at) == Some(root + l.at)
  {
    var own, spelled := OwnRule(root, l), root + l.at;
    OwnRuleFacts(root, links, l);
    TheRule(rules, root, links, own, spelled);
    TheFileLink(rules, root, links, own, spelled);
    assert spelled[|own.prefix|..] == [];
  }

  /** A followed link to `gen`, and a refused one below it that leads out of the project. */
  const API: Link := Link(["api"], Some(["root", "gen"]), true, Followed, None)
  const EXT: Link := Link(["api", "ext"], Some(["out"]), true, OtherRefusal, None)

  lemma RefusedTable(links: seq<Link>, rules: seq<Rule>)
    requires links == [API, EXT] && rules == RulesOf(["root"], EXT) + RulesOf(["root"], API)
    ensures DeepestFirst(rules) && TableOf(rules, ["root"], links)
  {
    assert forall r :: GivenBy(["root"], links, r) <==> r in RulesOf(["root"], API) || r in RulesOf(["root"], EXT) by {
      assert API in links && EXT in links;
    }
  }

  lemma RefusedRules()
    ensures
      var rules := RulesOf(["root"], EXT) + RulesOf(["root"], API);
      && |rules| == 3 && (forall x :: x in rules ==> !x.exact)
      && rules[0].prefix == ["root", "api", "ext"] && rules[0].remap == Drop
      && rules[1].prefix == ["root", "gen"] && rules[1].remap == To(["root", "api"])
  {
  }

  /** The path goes to `there`, by the second rule; the first rule drops `there`. */
  lemma RefusedPath(rules: seq<Rule>, path: Path, there: Path)
    requires |rules| == 3 && forall x :: x in rules ==> !x.exact
    requires rules[0].prefix == ["root", "api", "ext"] && rules[0].remap == Drop
    requires rules[1].prefix == ["root", "gen"] && rules[1].remap == To(["root", "api"])
    requires path == ["root", "gen", "ext", "b"] && there == ["root", "api", "ext", "b"]
    ensures Canon(rules, path) == Some(there) && Canon(rules, there).None?
  {
    assert !(rules[0].prefix <= path) by { assert path[1] != rules[0].prefix[1]; }
    assert rules[1].prefix == path[..2];
    assert RuleFor(rules[1..], path) == Some(rules[1]);
    assert RuleFor(rules, path) == Some(rules[1]);
    assert ["root", "api"] + path[2..] == there;
    assert there != path by { assert there[1] != path[1]; }
    assert ToIndexed(rules, path) == To(there);
    assert rules[0].prefix == there[..3];
    assert FileLinkRule(rules, there).None?;
  }

  /** Outside the well-formed tables one pass is not enough: with a refused link below a followed one,
      a path under the target goes to a spelling that the table itself drops. */
  lemma RefusedBelowFollowed()
    returns (links: seq<Link>, rules: seq<Rule>, path: Path)
    ensures DeepestFirst(rules) && TableOf(rules, ["root"], links)
    ensures Canon(rules, path).Some? && Canon(rules, Canon(rules, path).value).None?
  {
    links := [API, EXT];
    rules := RulesOf(["root"], EXT) + RulesOf(["root"], API);
    RefusedTable(links, rules);
    RefusedRules();
    path := ["root", "gen", "ext", "b"];
    RefusedPath(rules, path, ["root", "api", "ext", "b"]);
  }
}
