/**
 * The link table when refused links lie below other links, which the canonical form does not allow for.
 * What the two lookups answer is then decided by where the listed spelling lies: it is dropped exactly
 * when it is a refused file link's own path, and it is no fixed point exactly when it lies below a
 * refused directory link.
 */
module Refused {
  import opened Prelude
  import opened LinkTable
  import opened Canonical

  /** The walk neither lists the link nor anything through it. */
  predicate IsRefused(l: Link)
  {
    l.outcome.OtherRefusal? || (l.outcome.Dangling? && l.isDir)
  }

  function KeptLinks(links: seq<Link>): seq<Link>
  {
    if links == [] then [] else (if IsRefused(links[0]) then [] else [links[0]]) + KeptLinks(links[1..])
  }

  function KeptRules(rules: seq<Rule>): seq<Rule>
  {
    if rules == [] then [] else (if rules[0].remap.Drop? then [] else [rules[0]]) + KeptRules(rules[1..])
  }

  /** Well-formed but for refused links, which may lie below other links; nothing lies below them, as the
      walk does not go through a refused link. */
  ghost predicate WellFormedButRefused(root: Path, links: seq<Link>)
  {
    && Disjoint(root, KeptLinks(links))
    && (forall l :: l in links && !IsRefused(l) ==> WellJudged(root, links, l))
    && (forall a, b :: a in links && b in links && a.at == b.at ==> a == b)
    && (forall l, x :: l in links && IsRefused(l) && GivenBy(root, links, x) && root + l.at <= x.prefix ==>
                         x == OwnRule(root, l))
  }

  // ---- the table without its refused links ----

  lemma RefusedRule(root: Path, l: Link)
    ensures IsRefused(l) ==>
              RulesOf(root, l) == [Rule(root + l.at, !l.isDir, true, Drop)] && OwnRule(root, l) == RulesOf(root, l)[0]
    ensures !IsRefused(l) ==> forall r :: r in RulesOf(root, l) ==> !r.remap.Drop?
  {
  }

  lemma {:induction false} KeptLinksAre(links: seq<Link>, l: Link)
    ensures l in KeptLinks(links) <==> l in links && !IsRefused(l)
  {
    if links != [] { KeptLinksAre(links[1..], l); }
  }

  lemma {:induction false} KeptRulesAre(rules: seq<Rule>, r: Rule)
    ensures r in KeptRules(rules) <==> r in rules && !r.remap.Drop?
  {
    if rules != [] { KeptRulesAre(rules[1..], r); }
  }

  lemma KeptGive(root: Path, links: seq<Link>, r: Rule)
    ensures GivenBy(root, KeptLinks(links), r) <==> GivenBy(root, links, r) && !r.remap.Drop?
  {
    forall l ensures l in KeptLinks(links) <==> l in links && !IsRefused(l) { KeptLinksAre(links, l); }
    forall l ensures r in RulesOf(root, l) ==> (IsRefused(l) <==> r.remap.Drop?) { RefusedRule(root, l); }
  }

  lemma KeptTable(rules: seq<Rule>, root: Path, links: seq<Link>)
    requires TableOf(rules, root, links)
    ensures TableOf(KeptRules(rules), root, KeptLinks(links))
  {
    forall r ensures r in KeptRules(rules) <==> GivenBy(root, KeptLinks(links), r) {
      KeptRulesAre(rules, r);
      KeptGive(root, links, r);
    }
  }

  lemma KeptIsWellFormed(root: Path, links: seq<Link>)
    requires WellFormedButRefused(root, links)
    ensures WellFormed(root, KeptLinks(links))
  {
    forall l ensures l in KeptLinks(links) <==> l in links && !IsRefused(l) { KeptLinksAre(links, l); }
    forall r ensures GivenBy(root, KeptLinks(links), r) ==> GivenBy(root, links, r) { KeptGive(root, links, r); }
    forall l | l in KeptLinks(links) ensures WellJudged(root, KeptLinks(links), l) {
      assert WellJudged(root, links, l);
      if l.outcome.Duplicate? {
        var f :| f in links && f.outcome.Followed? && f.at == l.outcome.winner && f.isDir == l.isDir
                 && l.target.Some? && f.target == l.target;
        assert f in KeptLinks(links);
      }
    }
  }

  /** A Drop rule is a refused link's own. */
  lemma DropIsRefused(rules: seq<Rule>, root: Path, links: seq<Link>, x: Rule) returns (l: Link)
    requires TableOf(rules, root, links) && x in rules && x.remap.Drop?
    ensures l in links && IsRefused(l) && x == OwnRule(root, l) && x.isLink && x.prefix == root + l.at && x.exact == !l.isDir
  {
    assert GivenBy(root, links, x);
    l :| l in links && x in RulesOf(root, l);
    RefusedRule(root, l);
  }

  lemma {:induction false} SameRule(rules: seq<Rule>, path: Path)
    requires forall x :: x in rules && x.remap.Drop? ==> !Covers(x, path)
    ensures RuleFor(rules, path) == RuleFor(KeptRules(rules), path)
  {
    hide Covers;
    if rules != [] {
      var rest := KeptRules(rules[1..]);
      SameRule(rules[1..], path);
      assert ([rules[0]] + rest)[1..] == rest && [] + rest == rest;
    }
  }

  lemma {:induction false} SameFileLinkRule(rules: seq<Rule>, path: Path)
    requires forall x :: x in rules && x.remap.Drop? ==> !IsFileLinkRule(x, path)
    ensures FileLinkRule(rules, path) == FileLinkRule(KeptRules(rules), path)
  {
    hide IsFileLinkRule;
    if rules != [] {
      var rest := KeptRules(rules[1..]);
      SameFileLinkRule(rules[1..], path);
      assert ([rules[0]] + rest)[1..] == rest && [] + rest == rest;
    }
  }

  lemma {:induction false} SameLinkOver(root: Path, links: seq<Link>, path: Path)
    requires forall l :: l in links && IsRefused(l) ==> !Through(root, l, path)
    ensures LinkOver(root, links, path) == LinkOver(root, KeptLinks(links), path)
  {
    hide Through;
    if links != [] {
      var rest := KeptLinks(links[1..]);
      SameLinkOver(root, links[1..], path);
      assert ([links[0]] + rest)[1..] == rest && [] + rest == rest;
    }
  }

  lemma {:induction false} SameFollowed(links: seq<Link>, file: Path)
    ensures FollowedOver(links, file) == FollowedOver(KeptLinks(links), file)
  {
    if links != [] {
      var rest := KeptLinks(links[1..]);
      SameFollowed(links[1..], file);
      RefusedReachesNothing(links[0], file);
      hide Reaches;
      assert ([links[0]] + rest)[1..] == rest && [] + rest == rest;
    }
  }

  lemma RefusedReachesNothing(l: Link, file: Path)
    ensures IsRefused(l) ==> !Reaches(l, file)
  {
  }

  // ---- on a well-formed table the listed spelling is settled ----

  predicate Settled(rules: seq<Rule>, q: Path)
  {
    ToIndexed(rules, q).Keep? && FileLinkToIndexed(rules, q).Keep?
  }

  lemma FollowedIsSettled(rules: seq<Rule>, root: Path, links: seq<Link>, f: Link, q: Path)
    requires TableOf(rules, root, links) && Disjoint(root, links) && f in links && f.outcome.Followed?
    requires Through(root, f, q)
    ensures Settled(rules, q)
  {
    OwnRuleFacts(root, links, f);
    assert OwnRule(root, f).remap.Keep?;
    TheRule(rules, root, links, OwnRule(root, f), q);
    TheFileLink(rules, root, links, OwnRule(root, f), q);
  }

  lemma RulelessIsSettled(rules: seq<Rule>, q: Path)
    requires RuleFor(rules, q).None?
    ensures Settled(rules, q)
  {
    var found := FileLinkRule(rules, q);
    assert found.Some? ==> Covers(found.value, q);
  }

  lemma ApartIsRuleless(rules: seq<Rule>, root: Path, links: seq<Link>, plain: Path, file: Path)
    requires TableOf(rules, root, links) && plain <= file
    requires forall r :: GivenBy(root, links, r) ==> !Comparable(r.prefix, plain)
    ensures RuleFor(rules, file).None?
  {
    var found := RuleFor(rules, file);
    if found.Some? { PrefixesOfOne(found.value.prefix, plain, file); }
  }

  /** A file no followed link reaches, denoted by a proper path, is under no rule. */
  lemma UnreachedIsRuleless(rules: seq<Rule>, root: Path, links: seq<Link>, path: Path)
    requires TableOf(rules, root, links) && WellFormed(root, links) && Proper(root, links, path)
    requires FollowedOver(links, Denote(root, links, path)).None?
    ensures RuleFor(rules, Denote(root, links, path)).None?
  {
    var found := RuleFor(rules, path);
    if found.None? {
      NoRule(rules, root, links, path);
    } else {
      var l := RuleKinds(root, links, found.value);
      OwnRuleFacts(root, links, l);
      assert WellJudged(root, links, l);
      if found.value == OwnRule(root, l) {
        match l.outcome
        case Followed => ThroughFollowed(rules, root, links, l, path);
        case Duplicate(w) =>
          var f :| f in links && f.outcome.Followed? && f.at == w && f.isDir == l.isDir && f.target == l.target;
          ThroughDuplicate(rules, root, links, l, f, path);
        case Aliases(plain) =>
          TheLink(root, links, l, path);
          ApartIsRuleless(rules, root, links, root + plain, root + plain + path[|root + l.at|..]);
      } else {
        UnderTarget(rules, root, links, l, path);
      }
    }
  }

  lemma ListingIsSettled(rules: seq<Rule>, root: Path, links: seq<Link>, path: Path)
    requires TableOf(rules, root, links) && WellFormed(root, links) && Proper(root, links, path)
    ensures Settled(rules, Listed(root, links, Denote(root, links, path)))
  {
    var file := Denote(root, links, path);
    var f := FollowedOver(links, file);
    if f.Some? {
      var suffix := file[|f.value.target.value|..];
      assert f.value.isDir || suffix == [];
      FollowedIsSettled(rules, root, links, f.value, root + f.value.at + suffix);
    } else {
      UnreachedIsRuleless(rules, root, links, path);
      RulelessIsSettled(rules, file);
    }
  }

  /** On a well-formed table one pass is enough: the answer is its own answer. */
  lemma OnePassIsEnough(rules: seq<Rule>, root: Path, links: seq<Link>, path: Path)
    requires TableOf(rules, root, links) && WellFormed(root, links) && Proper(root, links, path)
    ensures Canon(rules, path).Some? && Canon(rules, Canon(rules, path).value) == Canon(rules, path)
  {
    CanonIsListing(rules, root, links, path);
    ListingIsSettled(rules, root, links, path);
  }

  // ---- with refused links ----

  /** `q` is a refused file link's own path. */
  predicate IsRefusedFile(root: Path, links: seq<Link>, q: Path)
  {
    exists l :: l in links && IsRefused(l) && !l.isDir && q == root + l.at
  }

  /** `q` lies below a refused directory link. */
  predicate BelowRefused(root: Path, links: seq<Link>, q: Path)
  {
    exists l :: l in links && IsRefused(l) && l.isDir && root + l.at < q
  }

  lemma ProperIsUncovered(rules: seq<Rule>, root: Path, links: seq<Link>, path: Path)
    requires TableOf(rules, root, links) && Proper(root, links, path)
    ensures forall x :: x in rules && x.remap.Drop? ==> !Covers(x, path)
  {
    forall x | x in rules && x.remap.Drop? ensures !Covers(x, path) {
      var l := DropIsRefused(rules, root, links, x);
    }
  }

  lemma ProperAmongKept(root: Path, links: seq<Link>, path: Path)
    requires Proper(root, links, path)
    ensures Proper(root, KeptLinks(links), path)
    ensures LinkOver(root, links, path) == LinkOver(root, KeptLinks(links), path)
    ensures Listed(root, links, Denote(root, links, path)) == Listed(root, KeptLinks(links), Denote(root, KeptLinks(links), path))
  {
    forall l ensures l in KeptLinks(links) <==> l in links && !IsRefused(l) { KeptLinksAre(links, l); }
    SameLinkOver(root, links, path);
    SameFollowed(links, Denote(root, links, path));
  }

  lemma NoRefusedFileRule(rules: seq<Rule>, root: Path, links: seq<Link>, q: Path)
    requires TableOf(rules, root, links) && !IsRefusedFile(root, links, q)
    ensures FileLinkRule(rules, q) == FileLinkRule(KeptRules(rules), q)
  {
    forall x | x in rules && x.remap.Drop? ensures !IsFileLinkRule(x, q) {
      var l := DropIsRefused(rules, root, links, x);
    }
    SameFileLinkRule(rules, q);
  }

  lemma RefusedFileRule(rules: seq<Rule>, root: Path, links: seq<Link>, q: Path)
    requires TableOf(rules, root, links) && WellFormedButRefused(root, links) && IsRefusedFile(root, links, q)
    ensures FileLinkRule(rules, q).Some? && FileLinkRule(rules, q).value.remap.Drop?
  {
    var l :| l in links && IsRefused(l) && !l.isDir && q == root + l.at;
    RefusedRule(root, l);
    OwnRuleFacts(root, links, l);
    assert IsFileLinkRule(OwnRule(root, l), q);
    var found := FileLinkRule(rules, q).value;
    assert GivenBy(root, links, found) && root + l.at <= found.prefix;
  }

  /** A path below a refused directory link is dropped: that link's rule is the deepest over it. */
  lemma BelowIsDropped(rules: seq<Rule>, root: Path, links: seq<Link>, q: Path)
    requires DeepestFirst(rules) && TableOf(rules, root, links) && WellFormedButRefused(root, links)
    requires BelowRefused(root, links, q)
    ensures ToIndexed(rules, q).Drop?
  {
    var l :| l in links && IsRefused(l) && l.isDir && root + l.at < q;
    RefusedRule(root, l);
    OwnRuleFacts(root, links, l);
    var own := OwnRule(root, l);
    FirstMatchIsDeepest(rules, q, own);
    var found := RuleFor(rules, q).value;
    assert GivenBy(root, links, found);
    DeeperIsBelow(own.prefix, found.prefix, q);
  }

  lemma DeeperIsBelow(p: Path, q: Path, path: Path)
    requires p <= path && q <= path && |p| <= |q|
    ensures p <= q
  {
    assert p == path[..|p|] && q == path[..|q|];
  }

  /** A settled spelling that is no refused file link's path and not below a refused directory link is
      still settled with the refused links in the table. */
  lemma StaysSettled(rules: seq<Rule>, root: Path, links: seq<Link>, q: Path)
    requires DeepestFirst(rules) && TableOf(rules, root, links) && WellFormedButRefused(root, links)
    requires Settled(KeptRules(rules), q) && !IsRefusedFile(root, links, q) && !BelowRefused(root, links, q)
    ensures Settled(rules, q)
  {
    NoRefusedFileRule(rules, root, links, q);
    OnlyAtRefused(rules, root, links, q);
    var found := RuleFor(rules, q);
    if found.Some? && found.value.remap.Drop? {
      OwnPathIsKept(rules, root, links, found.value, q);
    } else {
      NotAtRefused(rules, root, links, q);
      SameRule(rules, q);
    }
  }

  /** A refused link's own path is left alone by the first lookup. */
  lemma OwnPathIsKept(rules: seq<Rule>, root: Path, links: seq<Link>, x: Rule, q: Path)
    requires TableOf(rules, root, links) && RuleFor(rules, q) == Some(x) && x.remap.Drop? && q == x.prefix
    ensures ToIndexed(rules, q).Keep?
  {
    var l := DropIsRefused(rules, root, links, x);
    assert q[|x.prefix|..] == [];
  }

  lemma OnlyAtRefused(rules: seq<Rule>, root: Path, links: seq<Link>, q: Path)
    requires TableOf(rules, root, links) && !BelowRefused(root, links, q)
    ensures forall x :: x in rules && x.remap.Drop? ==> !Covers(x, q) || q == x.prefix
  {
    forall x | x in rules && x.remap.Drop? ensures !Covers(x, q) || q == x.prefix {
      var l := DropIsRefused(rules, root, links, x);
    }
  }

  /** Where the rule found is not a refused link's, no refused link is at the path. */
  lemma NotAtRefused(rules: seq<Rule>, root: Path, links: seq<Link>, q: Path)
    requires DeepestFirst(rules) && TableOf(rules, root, links) && WellFormedButRefused(root, links)
    requires RuleFor(rules, q).Some? ==> !RuleFor(rules, q).value.remap.Drop?
    requires forall x :: x in rules && x.remap.Drop? ==> !Covers(x, q) || q == x.prefix
    ensures forall x :: x in rules && x.remap.Drop? ==> !Covers(x, q)
  {
    forall x | x in rules && x.remap.Drop? ensures !Covers(x, q) {
      if Covers(x, q) {
        var l := DropIsRefused(rules, root, links, x);
        FirstMatchIsDeepest(rules, q, x);
        var found := RuleFor(rules, q).value;
        assert GivenBy(root, links, found);
        DeeperIsBelow(x.prefix, found.prefix, q);
      }
    }
  }

  /**
   * With refused links below other links, for a proper path whose file is listed as `q`: the answer is
   * `q`, dropped if and only if `q` is a refused file link's own path; and if it is not dropped, a
   * second pass keeps it if and only if `q` does not lie below a refused directory link.
   */
  lemma RefusedBoundary(rules: seq<Rule>, root: Path, links: seq<Link>, path: Path)
    requires DeepestFirst(rules) && TableOf(rules, root, links) && WellFormedButRefused(root, links)
    requires Proper(root, links, path)
    ensures
      var q := Listed(root, links, Denote(root, links, path));
      && Canon(rules, path) == (if IsRefusedFile(root, links, q) then None else Some(q))
      && (!IsRefusedFile(root, links, q) ==>
            Canon(rules, q) == if BelowRefused(root, links, q) then None else Some(q))
  {
    var q := Listed(root, links, Denote(root, links, path));
    KeptTable(rules, root, links);
    KeptIsWellFormed(root, links);
    ProperAmongKept(root, links, path);
    CanonIsListing(KeptRules(rules), root, KeptLinks(links), path);
    ListingIsSettled(KeptRules(rules), root, KeptLinks(links), path);
    FirstAnswer(rules, root, links, path, q);
    if !IsRefusedFile(root, links, q) {
      if BelowRefused(root, links, q) {
        BelowIsDropped(rules, root, links, q);
      } else {
        StaysSettled(rules, root, links, q);
      }
    }
  }

  /** Where a link's own rule sends its path is no refused file link's path. */
  lemma PlacedIsNotRefused(root: Path, links: seq<Link>, l: Link, q: Path)
    requires WellFormedButRefused(root, links) && l in links && OwnRule(root, l).remap == To(q)
    ensures !IsRefusedFile(root, links, q)
  {
    RefusedRule(root, l);
    assert OwnRule(root, l) in RulesOf(root, l);
    assert WellJudged(root, links, l);
    forall r | r in links && IsRefused(r) && !r.isDir ensures q != root + r.at {
      OwnRuleFacts(root, links, r);
      if l.outcome.Duplicate? {
        assert (root + r.at)[|root|..] == r.at && (root + l.outcome.winner)[|root|..] == l.outcome.winner;
      }
    }
  }

  /** The second lookup, with and without the refused links. */
  lemma SecondAnswer(rules: seq<Rule>, root: Path, links: seq<Link>, mid: Path, q: Path)
    requires TableOf(rules, root, links) && WellFormedButRefused(root, links)
    requires Settle(KeptRules(rules), mid) == Some(q)
    ensures Settle(rules, mid) == if IsRefusedFile(root, links, q) then None else Some(q)
  {
    var placed := FileLinkRule(KeptRules(rules), mid);
    if placed.Some? {
      PlacedByOwnRule(rules, root, links, placed.value, mid, q);
      NoRefusedFileRule(rules, root, links, mid);
    } else if IsRefusedFile(root, links, mid) {
      RefusedFileRule(rules, root, links, mid);
    } else {
      NoRefusedFileRule(rules, root, links, mid);
    }
  }

  lemma KeptOwnRule(rules: seq<Rule>, root: Path, links: seq<Link>, r: Rule) returns (l: Link)
    requires TableOf(rules, root, links) && r in KeptRules(rules) && r.isLink
    ensures l in links && !IsRefused(l) && r == OwnRule(root, l)
  {
    KeptRulesAre(rules, r);
    assert GivenBy(root, links, r);
    l :| l in links && r in RulesOf(root, l);
    RefusedRule(root, l);
  }

  lemma OwnPathIsNotRefused(root: Path, links: seq<Link>, l: Link)
    requires WellFormedButRefused(root, links) && l in links && !IsRefused(l)
    ensures !IsRefusedFile(root, links, root + l.at)
  {
    forall x | x in links && IsRefused(x) ensures root + l.at != root + x.at {
      assert (root + x.at)[|root|..] == x.at && (root + l.at)[|root|..] == l.at;
    }
  }

  lemma PlacedByOwnRule(rules: seq<Rule>, root: Path, links: seq<Link>, r: Rule, mid: Path, q: Path)
    requires TableOf(rules, root, links) && WellFormedButRefused(root, links)
    requires r in KeptRules(rules) && IsFileLinkRule(r, mid)
    requires q == mid || r.remap == To(q)
    ensures !IsRefusedFile(root, links, mid) && !IsRefusedFile(root, links, q)
  {
    var l := KeptOwnRule(rules, root, links, r);
    OwnRuleFacts(root, links, l);
    OwnPathIsNotRefused(root, links, l);
    if r.remap == To(q) {
      PlacedIsNotRefused(root, links, l, q);
    }
  }

  lemma FirstAnswer(rules: seq<Rule>, root: Path, links: seq<Link>, path: Path, q: Path)
    requires TableOf(rules, root, links) && WellFormedButRefused(root, links) && Proper(root, links, path)
    requires Canon(KeptRules(rules), path) == Some(q)
    ensures Canon(rules, path) == if IsRefusedFile(root, links, q) then None else Some(q)
  {
    hide Settle, RuleFor, Remapped;
    ProperIsUncovered(rules, root, links, path);
    SameRule(rules, path);
    var first := ToIndexed(KeptRules(rules), path);
    SecondAnswer(rules, root, links, if first.To? then first.path else path, q);
  }

  /** A followed link and a refused one whose rule lies under none of its rules make such a table. */
  lemma TwoLinks(root: Path, l: Link, r: Link, own: Rule, target: Rule)
    requires l.outcome.Followed? && l.target.Some? && l.at != r.at && IsRefused(r)
    requires RulesOf(root, l) == [target, own] && !Comparable(own.prefix, target.prefix)
    requires !(root + r.at <= own.prefix) && !(root + r.at <= target.prefix)
    ensures WellFormedButRefused(root, [l, r])
  {
    RefusedRule(root, r);
    hide RulesOf;
    var links := [l, r];
    assert KeptLinks(links[1..][1..]) == [] && KeptLinks(links[1..]) == [] && KeptLinks(links) == [l];
    forall x ensures GivenBy(root, [l], x) <==> x == target || x == own { assert l in [l]; }
    forall x ensures GivenBy(root, links, x) <==> x == target || x == own || x == OwnRule(root, r) {
      assert l in links && r in links;
    }
  }

  /** The table of `RefusedBelowFollowed` is one of these. */
  lemma RefusedExample()
    ensures WellFormedButRefused(["root"], [API, EXT])
  {
    var own := Rule(["root", "api"], false, true, Keep);
    var target := Rule(["root", "gen"], false, false, To(["root", "api"]));
    assert ["root"] + API.at == ["root", "api"] && ["root"] + EXT.at == ["root", "api", "ext"];
    assert "api"[0] != "gen"[0];
    assert own.prefix[1] != target.prefix[1];
    assert RulesOf(["root"], API) == [target, own];
    TwoLinks(["root"], API, EXT, own, target);
  }
}
