/**
 * The name-query floors: the score below which the semantic rung refuses, chosen so that at most 3% of
 * the pages holding the right answer are refused.
 */
module Floors {
  import opened Prelude
  import opened Ranking

  const TOP: nat := 3

  /** A page that holds an expected node: its best score, and the scores of its expected hits. */
  datatype Page = Page(top: real, exp: seq<real>)

  // ---- pages ----

  function ExpectedScores(hits: seq<Hit>, want: set<Id>): (exp: seq<real>)
  {
    if hits == [] then []
    else (if hits[0].id in want then [hits[0].score] else []) + ExpectedScores(hits[1..], want)
  }

  predicate Falling(hits: seq<Hit>)
  {
    forall i, j :: 0 <= i < j < |hits| ==> hits[i].score >= hits[j].score
  }

  /** The page a query's hits make, if it holds an expected node; `strict` asks for it in first place. */
  function PageOf(hits: seq<Hit>, want: set<Id>, strict: bool): Option<Page>
    requires hits != []
  {
    var page := hits[..Min(TOP, |hits|)];
    var exp := ExpectedScores(page, want);
    if (if strict then page[0].id in want else exp != []) then Some(Page(page[0].score, exp)) else None
  }

  lemma {:induction false} ExpectedAre(hits: seq<Hit>, want: set<Id>, x: real)
    ensures x in ExpectedScores(hits, want) <==> exists i :: 0 <= i < |hits| && hits[i].id in want && hits[i].score == x
  {
    if hits != [] {
      ExpectedAre(hits[1..], want, x);
      assert forall i :: 0 < i < |hits| ==> hits[i] == hits[1..][i - 1];
    }
  }

  /** A query makes a page when an expected node is among its first three hits, in first place if `strict`;
      the page has the first hit's score and the scores of the expected ones of the three. */
  lemma PageIff(hits: seq<Hit>, want: set<Id>, strict: bool)
    requires hits != []
    ensures PageOf(hits, want, strict).Some? <==>
              if strict then hits[0].id in want else exists i :: 0 <= i < 3 && i < |hits| && hits[i].id in want
    ensures PageOf(hits, want, strict).Some? ==>
              var page := PageOf(hits, want, strict).value;
              page.top == hits[0].score
              && forall x :: x in page.exp <==> exists i :: 0 <= i < 3 && i < |hits| && hits[i].id in want && hits[i].score == x
  {
    var page := hits[..Min(TOP, |hits|)];
    var exp := ExpectedScores(page, want);
    forall x ensures x in exp <==> exists i :: 0 <= i < |page| && page[i].id in want && page[i].score == x {
      ExpectedAre(page, want, x);
    }
    if exp != [] {
      assert exp[0] in exp;
    }
    if i :| 0 <= i < 3 && i < |hits| && hits[i].id in want {
      assert page[i] == hits[i] && page[i].score in exp;
    }
  }

  lemma {:induction false} ExpectedAtMost(hits: seq<Hit>, want: set<Id>, top: real)
    requires forall i :: 0 <= i < |hits| ==> hits[i].score <= top
    ensures forall i :: 0 <= i < |ExpectedScores(hits, want)| ==> ExpectedScores(hits, want)[i] <= top
  {
    if hits != [] {
      ExpectedAtMost(hits[1..], want, top);
    }
  }

  predicate FalseRefusal(p: Page, f: real) { p.top < f }

  predicate Dropped(p: Page, f: real) { forall i :: 0 <= i < |p.exp| ==> p.exp[i] < f }

  /** On a score-sorted page, a refusal drops the answer; and when the first hit must be expected, only a refusal does. */
  lemma RefusalDrops(hits: seq<Hit>, want: set<Id>, strict: bool, f: real)
    requires hits != [] && Falling(hits)
    ensures var page := PageOf(hits, want, strict);
            page.Some? ==>
              && OnPage(page.value)
              && (FalseRefusal(page.value, f) ==> Dropped(page.value, f))
              && (strict ==> (FalseRefusal(page.value, f) <==> Dropped(page.value, f)))
  {
    var page := hits[..Min(TOP, |hits|)];
    ExpectedAtMost(page, want, page[0].score);
    if strict && page[0].id in want {
      assert ExpectedScores(page, want)[0] == page[0].score;
    }
  }

  // ---- counting ----

  function FalseRefusals(ps: seq<Page>, f: real): nat
  {
    if ps == [] then 0 else (if FalseRefusal(ps[0], f) then 1 else 0) + FalseRefusals(ps[1..], f)
  }

  function AnswersDropped(ps: seq<Page>, f: real): nat
  {
    if ps == [] then 0 else (if Dropped(ps[0], f) then 1 else 0) + AnswersDropped(ps[1..], f)
  }

  predicate OnPage(p: Page) { forall i :: 0 <= i < |p.exp| ==> p.exp[i] <= p.top }

  lemma {:induction false} RefusalsAreDropped(ps: seq<Page>, f: real)
    requires forall i :: 0 <= i < |ps| ==> OnPage(ps[i])
    ensures FalseRefusals(ps, f) <= AnswersDropped(ps, f)
  {
    if ps != [] {
      RefusalsAreDropped(ps[1..], f);
      assert OnPage(ps[0]);
    }
  }

  // ---- the floor ----

  function Below(scores: seq<real>, f: real): nat
  {
    if scores == [] then 0 else (if scores[0] < f then 1 else 0) + Below(scores[1..], f)
  }

  function Tops(ps: seq<Page>): seq<real>
  {
    seq(|ps|, i requires 0 <= i < |ps| => ps[i].top)
  }

  lemma {:induction false} RefusalsAreBelow(ps: seq<Page>, f: real)
    ensures FalseRefusals(ps, f) == Below(Tops(ps), f)
  {
    if ps != [] {
      RefusalsAreBelow(ps[1..], f);
      assert Tops(ps)[1..] == Tops(ps[1..]);
    }
  }

  predicate Rising(s: seq<real>) { forall i, j :: 0 <= i < j < |s| ==> s[i] <= s[j] }

  function InsertScore(s: seq<real>, x: real): (r: seq<real>)
    ensures |r| == |s| + 1
  {
    if s == [] || x <= s[0] then [x] + s else [s[0]] + InsertScore(s[1..], x)
  }

  function SortScores(s: seq<real>): (r: seq<real>)
    ensures |r| == |s|
  {
    if s == [] then [] else InsertScore(SortScores(s[1..]), s[0])
  }

  lemma {:induction false} InsertRising(s: seq<real>, x: real, low: real)
    requires Rising(s) && low <= x && forall i :: 0 <= i < |s| ==> low <= s[i]
    ensures Rising(InsertScore(s, x))
    ensures forall i :: 0 <= i <= |s| ==> low <= InsertScore(s, x)[i]
  {
    if s != [] && x > s[0] {
      InsertRising(s[1..], x, s[0]);
    }
  }

  lemma {:induction false} InsertBelow(s: seq<real>, x: real, f: real)
    ensures Below(InsertScore(s, x), f) == Below(s, f) + if x < f then 1 else 0
  {
    if s != [] && x > s[0] {
      InsertBelow(s[1..], x, f);
      assert InsertScore(s, x)[1..] == InsertScore(s[1..], x);
    } else {
      assert ([x] + s)[1..] == s;
    }
  }

  /** Sorting leaves, below any floor, as many scores as there were. */
  lemma {:induction false} SortKeepsCounts(s: seq<real>, f: real)
    ensures Rising(SortScores(s)) && Below(SortScores(s), f) == Below(s, f)
  {
    if s != [] {
      SortKeepsCounts(s[1..], f);
      var rest := SortScores(s[1..]);
      var low := if rest == [] || s[0] <= rest[0] then s[0] else rest[0];
      InsertRising(rest, s[0], low);
      InsertBelow(rest, s[0], f);
    }
  }

  /** Of a rising list, at most `k` scores lie below `f` exactly when `f` is at most the one at index `k`. */
  lemma {:induction false} RankOfFloor(s: seq<real>, k: nat, f: real)
    requires Rising(s) && k < |s|
    ensures Below(s, f) <= k <==> f <= s[k]
  {
    if s[0] < f {
      if k == 0 {
      } else {
        RankOfFloor(s[1..], k - 1, f);
      }
    } else {
      NoneBelow(s, f);
      assert k == 0 || s[0] <= s[k];
    }
  }

  lemma {:induction false} NoneBelow(s: seq<real>, f: real)
    requires forall i :: 0 <= i < |s| ==> f <= s[i]
    ensures Below(s, f) == 0
  {
    if s != [] {
      NoneBelow(s[1..], f);
    }
  }

  /** The budget of `n` pages: 3%, rounded down. */
  function Budget(n: nat): nat { 3 * n / 100 }

  function Floor3(ps: seq<Page>): real
    requires ps != []
  {
    SortScores(Tops(ps))[Budget(|ps|)]
  }

  function Hundredths(k: int): real { k as real / 100.0 }

  /** Two decimals, rounded down. */
  function Down2(x: real): real
  {
    (x * 100.0).Floor as real / 100.0
  }

  /**
   * A floor refuses at most 3% of the pages exactly when it is at most the chosen one: that is the
   * greatest such floor, with or without ties.
   */
  lemma FloorIsGreatest(ps: seq<Page>, f: real)
    requires ps != []
    ensures 100 * FalseRefusals(ps, f) <= 3 * |ps| <==> f <= Floor3(ps)
  {
    var tops, k := Tops(ps), Budget(|ps|);
    RefusalsAreBelow(ps, f);
    SortKeepsCounts(tops, f);
    RankOfFloor(SortScores(tops), k, f);
    assert 100 * Below(tops, f) <= 3 * |ps| <==> Below(tops, f) <= k;
  }

  lemma DownIs(x: real) returns (hundredths: int)
    ensures Down2(x) == Hundredths(hundredths) <= x < Hundredths(hundredths) + 0.01
  {
    hundredths := (x * 100.0).Floor;
    var r := hundredths as real;
    assert r <= x * 100.0 < r + 1.0;
  }

  /** Rounding the floor down to two decimals keeps the bound, and loses less than a hundredth. */
  lemma RoundedFloorHolds(ps: seq<Page>) returns (hundredths: int)
    requires ps != []
    ensures Down2(Floor3(ps)) == Hundredths(hundredths) <= Floor3(ps) < Hundredths(hundredths) + 0.01
    ensures 100 * FalseRefusals(ps, Down2(Floor3(ps))) <= 3 * |ps|
  {
    hide Down2, Floor3, Hundredths, FalseRefusals;
    hundredths := DownIs(Floor3(ps));
    FloorIsGreatest(ps, Down2(Floor3(ps)));
  }
}
