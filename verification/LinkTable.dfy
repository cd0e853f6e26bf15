/**
 * The watcher's link table (`project_walk.rs`): the rules that turn a path an event reports into the
 * spelling the walk lists. Paths are absolute, as sequences of components.
 */
module LinkTable {
  import opened Prelude

  type Path = seq<string>

  datatype Outcome =
    | Aliases(plain: Path)
    | Followed
    | Duplicate(winner: Path)
    | Dangling
    | OtherRefusal

  /** One link the walk met. `at`, `plain` and `winner` are relative to the root; `target` is the real path it resolves to; `names` is the path a
      dangling link names (`dangling_target`, read from the file system). */
  datatype Link = Link(at: Path, target: Option<Path>, isDir: bool, outcome: Outcome, names: Option<Path>)

  datatype Remap = Keep | To(path: Path) | Drop

  datatype Rule = Rule(prefix: Path, exact: bool, isLink: bool, remap: Remap)

  // ---- building the table ----

  function RulesOf(root: Path, link: Link): seq<Rule>
  {
    var spelled, exact := root + link.at, !link.isDir;
    match link.outcome
    case Followed =>
      (if link.target.Some? then [Rule(link.target.value, exact, false, To(spelled))] else [])
      + [Rule(spelled, exact, true, Keep)]
    case Duplicate(winner) => [Rule(spelled, exact, true, To(root + winner))]
    case Aliases(plain) => [Rule(spelled, exact, true, To(root + plain))]
    case Dangling =>
      if exact then
        (if link.names.Some? then [Rule(link.names.value, exact, false, To(spelled))] else [])
        + [Rule(spelled, exact, true, Keep)]
      else [Rule(spelled, exact, true, Drop)]
    case OtherRefusal => [Rule(spelled, exact, true, Drop)]
  }

  /** Some link of `links` gives the rule. */
  ghost predicate GivenBy(root: Path, links: seq<Link>, rule: Rule)
  {
    exists l :: l in links && rule in RulesOf(root, l)
  }

  ghost predicate DeepestFirst(rules: seq<Rule>)
  {
    forall i, j :: 0 <= i < j < |rules| ==> |rules[j].prefix| <= |rules[i].prefix|
  }

  function InsertAt(rules: seq<Rule>, k: nat, rule: Rule): (r: seq<Rule>)
    requires k <= |rules|
    ensures forall x :: x in r <==> x in rules || x == rule
  {
    assert rules == rules[..k] + rules[k..];
    rules[..k] + [rule] + rules[k..]
  }

  /** `k` rules are at least as deep as `rule`, the rest are not. */
  ghost predicate FallsAt(rules: seq<Rule>, k: nat, rule: Rule)
  {
    && k <= |rules|
    && (forall i :: 0 <= i < k ==> |rule.prefix| <= |rules[i].prefix|)
    && (forall i :: k <= i < |rules| ==> |rules[i].prefix| < |rule.prefix|)
  }

  lemma InsertKeepsOrder(rules: seq<Rule>, k: nat, rule: Rule)
    requires DeepestFirst(rules) && FallsAt(rules, k, rule)
    ensures DeepestFirst(InsertAt(rules, k, rule))
  {
    var r := InsertAt(rules, k, rule);
    forall i, j | 0 <= i < j < |r|
      ensures |r[j].prefix| <= |r[i].prefix|
    {
      var i', j' := if i < k then i else i - 1, if j < k then j else j - 1;
      assert i != k ==> r[i] == rules[i'];
      assert j != k ==> r[j] == rules[j'];
    }
  }

  /** Puts `rule` after every rule at least as deep: one step of a stable sort, deepest first. */
  method InsertByDepth(rules: seq<Rule>, rule: Rule) returns (r: seq<Rule>, k: nat)
    requires DeepestFirst(rules)
    ensures FallsAt(rules, k, rule) && r == InsertAt(rules, k, rule) && DeepestFirst(r)
  {
    k := |rules|;
    while k > 0 && |rules[k - 1].prefix| < |rule.prefix|
      invariant 0 <= k <= |rules|
      invariant forall i :: k <= i < |rules| ==> |rules[i].prefix| < |rule.prefix|
    {
      k := k - 1;
    }
    r := InsertAt(rules, k, rule);
    InsertKeepsOrder(rules, k, rule);
  }

  /** `LinkTable::new`: the rules of every link, sorted deepest first. */
  method NewTable(root: Path, links: seq<Link>) returns (rules: seq<Rule>)
    ensures DeepestFirst(rules)
    ensures forall r :: r in rules <==> GivenBy(root, links, r)
  {
    var pushed: seq<Rule>, n := [], 0;
    while n < |links|
      invariant n <= |links|
      invariant forall r :: r in pushed <==> GivenBy(root, links[..n], r)
    {
      assert links[..n + 1] == links[..n] + [links[n]];
      pushed := pushed + RulesOf(root, links[n]);
      n := n + 1;
    }
    assert links[..n] == links;
    rules := [];
    var m := 0;
    while m < |pushed|
      invariant m <= |pushed| && DeepestFirst(rules)
      invariant forall r :: r in rules <==> r in pushed[..m]
    {
      assert pushed[..m + 1] == pushed[..m] + [pushed[m]];
      var k;
      rules, k := InsertByDepth(rules, pushed[m]);
      m := m + 1;
    }
    assert pushed[..m] == pushed;
  }

  // ---- looking a path up ----

  predicate Covers(rule: Rule, path: Path)
  {
    if rule.exact then path == rule.prefix else rule.prefix <= path
  }

  /** The first rule that covers `path`. */
  function RuleFor(rules: seq<Rule>, path: Path): (r: Option<Rule>)
    ensures r.Some? ==> r.value in rules && Covers(r.value, path)
    ensures r.None? ==> forall x :: x in rules ==> !Covers(x, path)
  {
    if rules == [] then None
    else if Covers(rules[0], path) then Some(rules[0])
    else RuleFor(rules[1..], path)
  }

  /** What the rule found for `path` makes of it. */
  function Remapped(found: Option<Rule>, path: Path): Remap
    requires found.Some? ==> Covers(found.value, path)
  {
    if found.None? then Keep
    else
      var rule, suffix := found.value, path[|found.value.prefix|..];
      if rule.isLink && suffix == [] then Keep
      else
        match rule.remap
        case Keep => Keep
        case Drop => Drop
        case To(base) => if base + suffix == path then Keep else To(base + suffix)
  }

  function ToIndexed(rules: seq<Rule>, path: Path): Remap
  {
    Remapped(RuleFor(rules, path), path)
  }

  predicate IsFileLinkRule(rule: Rule, path: Path)
  {
    rule.exact && rule.isLink && rule.prefix == path
  }

  /** The first file link's own rule at `path`. */
  function FileLinkRule(rules: seq<Rule>, path: Path): (r: Option<Rule>)
    ensures r.Some? ==> r.value in rules && IsFileLinkRule(r.value, path)
    ensures r.None? ==> forall x :: x in rules ==> !IsFileLinkRule(x, path)
  {
    if rules == [] then None
    else if IsFileLinkRule(rules[0], path) then Some(rules[0])
    else FileLinkRule(rules[1..], path)
  }

  function Placed(found: Option<Rule>, path: Path): Remap
  {
    if found.None? then Keep
    else
      match found.value.remap
      case To(to) => if to != path then To(to) else Keep
      case Drop => Drop
      case Keep => Keep
  }

  function FileLinkToIndexed(rules: seq<Rule>, path: Path): Remap
  {
    Placed(FileLinkRule(rules, path), path)
  }

  // ---- the first match is the most specific one ----

  lemma {:induction false} FirstMatchIsDeepest(rules: seq<Rule>, path: Path, x: Rule)
    requires DeepestFirst(rules) && x in rules && Covers(x, path)
    ensures RuleFor(rules, path).Some? && |x.prefix| <= |RuleFor(rules, path).value.prefix|
    decreases |rules|
  {
    var k :| 0 <= k < |rules| && rules[k] == x;
    if !Covers(rules[0], path) {
      assert x == rules[1..][k - 1];
      FirstMatchIsDeepest(rules[1..], path, x);
    }
  }

  /** Covering rules of one depth have one prefix. */
  lemma EqualDepthSamePrefix(a: Rule, b: Rule, path: Path)
    requires Covers(a, path) && Covers(b, path) && |a.prefix| == |b.prefix|
    ensures a.prefix == b.prefix
  {
    assert a.prefix == path[..|a.prefix|] && b.prefix == path[..|b.prefix|];
  }

  /** No two rules share a prefix. */
  ghost predicate PrefixesDistinct(rules: seq<Rule>)
  {
    forall a, b :: a in rules && b in rules && a.prefix == b.prefix ==> a == b
  }

  lemma SameRuleInAnyOrder(rules: seq<Rule>, rules': seq<Rule>, path: Path)
    requires DeepestFirst(rules) && DeepestFirst(rules') && PrefixesDistinct(rules)
    requires forall r :: r in rules <==> r in rules'
    ensures RuleFor(rules, path) == RuleFor(rules', path)
  {
    var a, b := RuleFor(rules, path), RuleFor(rules', path);
    if a.Some? {
      FirstMatchIsDeepest(rules', path, a.value);
      FirstMatchIsDeepest(rules, path, b.value);
      EqualDepthSamePrefix(a.value, b.value, path);
    }
  }

  /** With distinct prefixes, the lookups depend on which links there are, not on the order the walk
      met them in. */
  lemma OrderOfLinksIsIrrelevant(rules: seq<Rule>, rules': seq<Rule>, path: Path)
    requires DeepestFirst(rules) && DeepestFirst(rules') && PrefixesDistinct(rules)
    requires forall r :: r in rules <==> r in rules'
    ensures ToIndexed(rules, path) == ToIndexed(rules', path)
    ensures FileLinkToIndexed(rules, path) == FileLinkToIndexed(rules', path)
  {
    SameRuleInAnyOrder(rules, rules', path);
    SameFileLinkInAnyOrder(rules, rules', path);
  }

  lemma SameFileLinkInAnyOrder(rules: seq<Rule>, rules': seq<Rule>, path: Path)
    requires PrefixesDistinct(rules)
    requires forall r :: r in rules <==> r in rules'
    ensures FileLinkRule(rules, path) == FileLinkRule(rules', path)
  {
    var a, b := FileLinkRule(rules, path), FileLinkRule(rules', path);
    assert a.Some? ==> a.value in rules';
    assert b.Some? ==> b.value in rules;
  }
}
