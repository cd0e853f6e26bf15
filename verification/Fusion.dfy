/**
 * Fusing rankings, by reciprocal ranks or by weighted scores, over the reals: a ranking fused with
 * itself is that ranking again, ties included.
 */
module Fusion {
  import opened Prelude
  import opened Ranking

  const KEPT_HITS: nat := 100

  function Get(s: map<Id, real>, id: Id): real
  {
    if id in s then s[id] else 0.0
  }

  predicate DistinctIds(l: seq<Hit>)
  {
    forall i, j :: 0 <= i < j < |l| ==> l[i].id != l[j].id
  }

  predicate Injective(index: Index, ids: set<Id>)
  {
    forall x, y :: x in ids && y in ids && index(x) == index(y) ==> x == y
  }

  function Ids(l: seq<Hit>): seq<Id>
  {
    seq(|l|, i requires 0 <= i < |l| => l[i].id)
  }

  // ---- ranking a dictionary ----

  /** The dictionary's items, in whatever order it iterates. */
  ghost predicate ItemsOf(s: map<Id, real>, items: seq<Hit>)
  {
    && DistinctIds(items)
    && (forall h :: h in items <==> h.id in s && s[h.id] == h.score)
  }

  method Items(s: map<Id, real>) returns (items: seq<Hit>)
    ensures ItemsOf(s, items)
  {
    items := [];
    var rest := s.Keys;
    while rest != {}
      invariant rest <= s.Keys && DistinctIds(items)
      invariant forall h :: h in items <==> h.id in s && h.id !in rest && s[h.id] == h.score
      decreases |rest|
    {
      var id :| id in rest;
      forall i | 0 <= i < |items| ensures items[i].id != id { assert items[i] in items; }
      items := items + [Hit(id, s[id])];
      rest := rest - {id};
    }
  }

  /** `ranking` ranks the whole dictionary. */
  ghost predicate Ranks(s: map<Id, real>, index: Index, ranking: seq<Hit>)
  {
    Ranked(index, ranking) && forall h :: h in ranking <==> h.id in s && s[h.id] == h.score
  }

  /** `top` is the first hundred of the dictionary's ranking. */
  ghost predicate IsTop(s: map<Id, real>, index: Index, top: seq<Hit>)
  {
    exists ranking :: Ranks(s, index, ranking) && top == ranking[..Min(KEPT_HITS, |ranking|)]
  }

  /** `top_from_dict`. */
  method TopFromDict(s: map<Id, real>, index: Index) returns (top: seq<Hit>)
    requires Injective(index, s.Keys)
    ensures IsTop(s, index, top)
  {
    var items := Items(s);
    ItemsDistinct(s, index, items);
    SortedRanked(index, items);
    SortedHits(index, items);
    var sorted := Sorted(index, items);
    assert Ranks(s, index, sorted);
    top := sorted[..Min(KEPT_HITS, |sorted|)];
  }

  /** A dictionary has one ranking, whatever order it iterates in. */
  lemma OneRanking(s: map<Id, real>, index: Index, a: seq<Hit>, b: seq<Hit>)
    requires Ranks(s, index, a) && Ranks(s, index, b)
    ensures a == b
  {
    RankedUnique(index, a, b);
  }

  lemma TopIsOf(s: map<Id, real>, index: Index, top: seq<Hit>, ranking: seq<Hit>)
    requires IsTop(s, index, top) && Ranks(s, index, ranking)
    ensures top == ranking[..Min(KEPT_HITS, |ranking|)]
  {
    var other :| Ranks(s, index, other) && top == other[..Min(KEPT_HITS, |other|)];
    OneRanking(s, index, other, ranking);
  }

  lemma ItemsDistinct(s: map<Id, real>, index: Index, items: seq<Hit>)
    requires ItemsOf(s, items) && Injective(index, s.Keys)
    ensures Distinct(index, items)
  {
    forall i, j | 0 <= i < j < |items| ensures index(items[i].id) != index(items[j].id) {
      assert items[i] in items && items[j] in items;
    }
  }

  // ---- rank fusion ----

  /** What a place, from 1, is worth. */
  type Weight = nat -> real

  function Reciprocal(k: nat): Weight
  {
    (r: nat) => if r == 0 then 0.0 else 1.0 / (k + r) as real
  }

  /** The accumulator after the first `r` hits of `l` were added to `s`. */
  function Added(s: map<Id, real>, l: seq<Hit>, w: Weight, r: nat): map<Id, real>
    requires r <= |l|
  {
    if r == 0 then s
    else
      var t := Added(s, l, w, r - 1);
      var id := l[r - 1].id;
      t[id := Get(t, id) + w(r)]
  }

  function Scores(lists: seq<seq<Hit>>, w: Weight): map<Id, real>
  {
    if lists == [] then map[]
    else
      var l := lists[|lists| - 1];
      Added(Scores(lists[..|lists| - 1], w), l, w, |l|)
  }

  // ---- the score of a node is the sum over the lists and places that hold it ----

  predicate Holds(l: seq<Hit>, r: nat, id: Id)
    requires r <= |l|
  {
    exists i :: 0 <= i < r && l[i].id == id
  }

  /** What the first `r` places of `l` are worth to `id`. */
  function Gain(l: seq<Hit>, w: Weight, r: nat, id: Id): real
    requires r <= |l|
  {
    if r == 0 then 0.0 else Gain(l, w, r - 1, id) + if l[r - 1].id == id then w(r) else 0.0
  }

  function Sum(lists: seq<seq<Hit>>, w: Weight, id: Id): real
  {
    if lists == [] then 0.0
    else
      var l := lists[|lists| - 1];
      Sum(lists[..|lists| - 1], w, id) + Gain(l, w, |l|, id)
  }

  lemma {:induction false} AddedIsGain(s: map<Id, real>, l: seq<Hit>, w: Weight, r: nat, id: Id)
    requires r <= |l|
    ensures id in Added(s, l, w, r) <==> id in s || Holds(l, r, id)
    ensures Get(Added(s, l, w, r), id) == Get(s, id) + Gain(l, w, r, id)
  {
    if r > 0 {
      AddedIsGain(s, l, w, r - 1, id);
      HoldsOneMore(l, r, id);
    }
  }

  lemma HoldsOneMore(l: seq<Hit>, r: nat, id: Id)
    requires 0 < r <= |l|
    ensures Holds(l, r, id) <==> Holds(l, r - 1, id) || l[r - 1].id == id
  {
  }

  predicate SomeHolds(lists: seq<seq<Hit>>, id: Id)
  {
    exists l :: l in lists && Holds(l, |l|, id)
  }

  lemma {:induction false} ScoresAreSums(lists: seq<seq<Hit>>, w: Weight, id: Id)
    ensures id in Scores(lists, w) <==> SomeHolds(lists, id)
    ensures Get(Scores(lists, w), id) == Sum(lists, w, id)
  {
    if lists != [] {
      var front, l := lists[..|lists| - 1], lists[|lists| - 1];
      ScoresAreSums(front, w, id);
      AddedIsGain(Scores(front, w), l, w, |l|, id);
      assert lists == front + [l];
    }
  }

  /** The accumulating loops: a node has a score if some list holds it, the sum of what its places are worth. */
  method ComputeScores(lists: seq<seq<Hit>>, w: Weight) returns (s: map<Id, real>)
    ensures s == Scores(lists, w)
    ensures forall id :: (id in s <==> SomeHolds(lists, id)) && (id in s ==> s[id] == Sum(lists, w, id))
  {
    s := map[];
    for n := 0 to |lists|
      invariant s == Scores(lists[..n], w)
    {
      var l := lists[n];
      ghost var before := s;
      for r := 0 to |l|
        invariant s == Added(before, l, w, r)
      {
        var id := l[r].id;
        s := s[id := Get(s, id) + w(r + 1)];
      }
      assert lists[..n + 1][..n] == lists[..n];
    }
    assert lists[..|lists|] == lists;
    forall id ensures (id in s <==> SomeHolds(lists, id)) && (id in s ==> s[id] == Sum(lists, w, id)) {
      ScoresAreSums(lists, w, id);
    }
  }

  /** `rrf`. */
  method Rrf(lists: seq<seq<Hit>>, k: nat, index: Index) returns (top: seq<Hit>)
    requires Injective(index, Scores(lists, Reciprocal(k)).Keys)
    ensures IsTop(Scores(lists, Reciprocal(k)), index, top)
  {
    var s := ComputeScores(lists, Reciprocal(k));
    top := TopFromDict(s, index);
  }

  /** A node two lists hold gets the sum of the reciprocals of its ranks, each moved down by `k`. */
  lemma TwoListScore(la: seq<Hit>, lb: seq<Hit>, k: nat, id: Id, i: nat, j: nat)
    requires DistinctIds(la) && DistinctIds(lb)
    requires i < |la| && la[i].id == id && j < |lb| && lb[j].id == id
    ensures id in Scores([la, lb], Reciprocal(k))
    ensures Scores([la, lb], Reciprocal(k))[id] == 1.0 / (k + i + 1) as real + 1.0 / (k + j + 1) as real
  {
    var lists, w := [la, lb], Reciprocal(k);
    ScoresAreSums(lists, w, id);
    GainOfDistinct(la, w, |la|, i);
    GainOfDistinct(lb, w, |lb|, j);
    assert lists[0] in lists && lists[..1] == [la] && [la][..0] == [];
    assert Sum([la], w, id) == Sum([], w, id) + Gain(la, w, |la|, id);
    assert Sum(lists, w, id) == Sum([la], w, id) + Gain(lb, w, |lb|, id);
  }

  // ---- the order of the lists does not matter ----

  lemma {:induction false} SumWithout(lists: seq<seq<Hit>>, w: Weight, id: Id, j: nat)
    requires j < |lists|
    ensures Sum(lists, w, id) == Sum(lists[..j] + lists[j + 1..], w, id) + Gain(lists[j], w, |lists[j]|, id)
    decreases |lists|
  {
    var n := |lists| - 1;
    var rest := lists[..j] + lists[j + 1..];
    if j < n {
      SumWithout(lists[..n], w, id, j);
      assert rest[..n - 1] == lists[..n][..j] + lists[..n][j + 1..] && rest[n - 1] == lists[n];
      assert lists[..n][j] == lists[j];
    } else {
      assert rest == lists[..n];
    }
  }

  lemma Cancel<T>(x: multiset<T>, y: multiset<T>, e: T)
    requires x + multiset{e} == y + multiset{e}
    ensures x == y
  {
    assert x == x + multiset{e} - multiset{e};
    assert y == y + multiset{e} - multiset{e};
  }

  lemma BagWithout<T>(s: seq<T>, j: nat)
    requires j < |s|
    ensures multiset(s) == multiset(s[..j] + s[j + 1..]) + multiset{s[j]}
  {
    assert s == s[..j] + [s[j]] + s[j + 1..];
  }

  lemma {:induction false} SumOfPermutation(a: seq<seq<Hit>>, b: seq<seq<Hit>>, w: Weight, id: Id)
    requires multiset(a) == multiset(b)
    ensures Sum(a, w, id) == Sum(b, w, id)
    decreases |a|
  {
    if a == [] {
      assert |b| == |multiset(b)|;
    } else {
      var n := |a| - 1;
      assert a[n] in multiset(a) && a[n] in multiset(b);
      var j :| 0 <= j < |b| && b[j] == a[n];
      var rest := b[..j] + b[j + 1..];
      BagWithout(a, n);
      BagWithout(b, j);
      assert a[..n] + a[n + 1..] == a[..n];
      Cancel(multiset(a[..n]), multiset(rest), a[n]);
      SumOfPermutation(a[..n], rest, w, id);
      SumWithout(b, w, id, j);
    }
  }

  lemma ScoresOfPermutation(a: seq<seq<Hit>>, b: seq<seq<Hit>>, w: Weight)
    requires multiset(a) == multiset(b)
    ensures Scores(a, w) == Scores(b, w)
  {
    forall l ensures l in a <==> l in b {
      assert l in multiset(a) <==> l in multiset(b);
    }
    forall id
      ensures id in Scores(a, w) <==> id in Scores(b, w)
      ensures Get(Scores(a, w), id) == Get(Scores(b, w), id)
    {
      ScoresAreSums(a, w, id);
      ScoresAreSums(b, w, id);
      SumOfPermutation(a, b, w, id);
    }
    assert forall id :: id in Scores(a, w) ==> Get(Scores(a, w), id) == Scores(a, w)[id];
    assert forall id :: id in Scores(b, w) ==> Get(Scores(b, w), id) == Scores(b, w)[id];
  }

  /** Fusing the lists in another order gives the same result. */
  lemma OrderOfListsIsIrrelevant(a: seq<seq<Hit>>, b: seq<seq<Hit>>, k: nat, index: Index, topA: seq<Hit>, topB: seq<Hit>)
    requires multiset(a) == multiset(b)
    requires IsTop(Scores(a, Reciprocal(k)), index, topA) && IsTop(Scores(b, Reciprocal(k)), index, topB)
    ensures topA == topB
  {
    ScoresOfPermutation(a, b, Reciprocal(k));
    var s := Scores(a, Reciprocal(k));
    var ranking :| Ranks(s, index, ranking) && topA == ranking[..Min(KEPT_HITS, |ranking|)];
    TopIsOf(s, index, topB, ranking);
  }

  // ---- a list fused with itself ----

  function Copies(l: seq<Hit>, n: nat): (lists: seq<seq<Hit>>)
    ensures |lists| == n && forall i :: 0 <= i < n ==> lists[i] == l
  {
    seq(n, _ => l)
  }

  lemma {:induction false} SumOfCopies(l: seq<Hit>, n: nat, w: Weight, id: Id)
    ensures Sum(Copies(l, n), w, id) == n as real * Gain(l, w, |l|, id)
  {
    if n > 0 {
      SumOfCopies(l, n - 1, w, id);
      assert Copies(l, n)[..n - 1] == Copies(l, n - 1);
      OneMoreTimes(n, Gain(l, w, |l|, id));
    }
  }

  lemma OneMoreTimes(n: nat, x: real)
    requires n > 0
    ensures n as real * x == (n - 1) as real * x + x
  {
    assert (n - 1) as real + 1.0 == n as real;
    assert ((n - 1) as real + 1.0) * x == (n - 1) as real * x + x;
  }

  /** In a list without repeats a node gains what its own place is worth. */
  lemma {:induction false} GainOfDistinct(l: seq<Hit>, w: Weight, r: nat, i: nat)
    requires DistinctIds(l) && i < |l| && r <= |l|
    ensures Gain(l, w, r, l[i].id) == if i < r then w(i + 1) else 0.0
  {
    if r > 0 {
      GainOfDistinct(l, w, r - 1, i);
    }
  }

  /** The list with the scores that fusing `n` copies of it gives. */
  function SelfFused(l: seq<Hit>, n: nat, w: Weight): seq<Hit>
  {
    seq(|l|, i requires 0 <= i < |l| => Hit(l[i].id, n as real * w(i + 1)))
  }

  lemma SelfFusedHit(l: seq<Hit>, n: nat, w: Weight, h: Hit)
    requires DistinctIds(l) && n > 0
    ensures h in SelfFused(l, n, w) <==> h.id in Scores(Copies(l, n), w) && Scores(Copies(l, n), w)[h.id] == h.score
  {
    SelfScore(l, n, w, h.id);
    hide Scores, Gain, SelfFused, DistinctIds, Copies;
    if Holds(l, |l|, h.id) {
      var i :| 0 <= i < |l| && l[i].id == h.id;
      GainOfDistinct(l, w, |l|, i);
      OnlyPlace(l, n, w, h, i);
    } else {
      NoPlace(l, n, w, h);
    }
  }

  lemma SelfScore(l: seq<Hit>, n: nat, w: Weight, id: nat)
    requires n > 0
    ensures id in Scores(Copies(l, n), w) <==> Holds(l, |l|, id)
    ensures id in Scores(Copies(l, n), w) ==> Scores(Copies(l, n), w)[id] == n as real * Gain(l, w, |l|, id)
  {
    ScoresAreSums(Copies(l, n), w, id);
    SumOfCopies(l, n, w, id);
    assert Copies(l, n)[0] == l;
    assert SomeHolds(Copies(l, n), id) <==> Holds(l, |l|, id);
  }

  lemma OnlyPlace(l: seq<Hit>, n: nat, w: Weight, h: Hit, i: nat)
    requires DistinctIds(l) && i < |l| && l[i].id == h.id
    ensures h in SelfFused(l, n, w) <==> h.score == n as real * w(i + 1)
  {
    var f := SelfFused(l, n, w);
    assert f[i] == Hit(h.id, n as real * w(i + 1));
    forall j | 0 <= j < |f| && f[j] == h ensures j == i {
      assert f[j].id == l[j].id;
    }
  }

  lemma NoPlace(l: seq<Hit>, n: nat, w: Weight, h: Hit)
    requires !Holds(l, |l|, h.id)
    ensures h !in SelfFused(l, n, w)
  {
    var f := SelfFused(l, n, w);
    forall j | 0 <= j < |f| ensures f[j] != h {
      assert f[j].id == l[j].id;
    }
  }

  /** Later places are worth strictly less. */
  ghost predicate Falls(w: Weight)
  {
    forall a, b :: 0 < a < b ==> w(a) > w(b)
  }

  lemma ReciprocalFalls(k: nat)
    ensures Falls(Reciprocal(k))
  {
    forall a: nat, b: nat | 0 < a < b ensures Reciprocal(k)(a) > Reciprocal(k)(b) {
      InverseFalls((k + a) as real, (k + b) as real);
    }
  }

  lemma InverseFalls(x: real, y: real)
    requires 0.0 < x < y
    ensures 1.0 / x > 1.0 / y
  {
    var p, q := 1.0 / x, 1.0 / y;
    assert p * x == 1.0 && q * y == 1.0;
    if p <= q {
      Scale(y, q, p);
      Scale(p, y, x);
    }
  }

  /** Multiplying by something positive keeps the order. */
  lemma Scale(c: real, x: real, y: real)
    requires c > 0.0
    ensures x > y ==> c * x > c * y
    ensures x == y ==> c * x == c * y
  {
    if x > y { Positive(c, x - y); assert c * (x - y) == c * x - c * y; }
  }

  lemma Positive(c: real, d: real)
    requires c > 0.0 && d > 0.0
    ensures c * d > 0.0
  {
  }

  lemma SelfFusedBefore(l: seq<Hit>, n: nat, w: Weight, index: Index, i: nat, j: nat)
    requires n > 0 && i < j < |l| && w(i + 1) > w(j + 1)
    ensures Before(index, SelfFused(l, n, w)[i], SelfFused(l, n, w)[j])
  {
    Scale(n as real, w(i + 1), w(j + 1));
  }

  lemma SelfFusedRanks(l: seq<Hit>, n: nat, w: Weight, index: Index)
    requires DistinctIds(l) && n > 0 && Falls(w)
    ensures Ranks(Scores(Copies(l, n), w), index, SelfFused(l, n, w))
  {
    var f, s := SelfFused(l, n, w), Scores(Copies(l, n), w);
    forall i, j | 0 <= i < j < |f| ensures Before(index, f[i], f[j]) {
      SelfFusedBefore(l, n, w, index, i, j);
    }
    forall h ensures h in f <==> h.id in s && s[h.id] == h.score {
      SelfFusedHit(l, n, w, h);
    }
  }

  /** Fusing copies of one list by reciprocal ranks gives the list's order back. */
  lemma SelfRrfKeepsOrder(l: seq<Hit>, n: nat, k: nat, index: Index, top: seq<Hit>)
    requires DistinctIds(l) && n > 0 && IsTop(Scores(Copies(l, n), Reciprocal(k)), index, top)
    ensures Ids(top) == Ids(l)[..Min(100, |l|)]
  {
    ReciprocalFalls(k);
    SelfFusedRanks(l, n, Reciprocal(k), index);
    TopIsOf(Scores(Copies(l, n), Reciprocal(k)), index, top, SelfFused(l, n, Reciprocal(k)));
  }

  // ---- weighted fusion ----

  /** A score on the list's own scale, 0 for its last hit and 1 for its first. */
  function Norm(l: seq<Hit>, score: real): real
    requires l != []
  {
    var lo := l[|l| - 1].score;
    var span := l[0].score - lo;
    if span == 0.0 then 1.0 else (score - lo) / span
  }

  function MinMaxOf(l: seq<Hit>, n: nat): map<Id, real>
    requires l != [] && n <= |l|
  {
    if n == 0 then map[] else MinMaxOf(l, n - 1)[l[n - 1].id := Norm(l, l[n - 1].score)]
  }

  function WeightedScores(la: seq<Hit>, lb: seq<Hit>, w: real): map<Id, real>
    requires la != [] && lb != []
  {
    var a, b := MinMaxOf(la, |la|), MinMaxOf(lb, |lb|);
    map id | id in a.Keys + b.Keys :: w * Get(a, id) + (1.0 - w) * Get(b, id)
  }

  method Weighted(la: seq<Hit>, lb: seq<Hit>, w: real, index: Index) returns (top: seq<Hit>)
    requires la != [] && lb != [] && Injective(index, WeightedScores(la, lb, w).Keys)
    ensures IsTop(WeightedScores(la, lb, w), index, top)
  {
    top := TopFromDict(WeightedScores(la, lb, w), index);
  }

  lemma {:induction false} MinMaxValue(l: seq<Hit>, n: nat, id: Id)
    requires l != [] && n <= |l| && DistinctIds(l)
    ensures id in MinMaxOf(l, n) <==> exists i :: 0 <= i < n && l[i].id == id
    ensures forall i :: 0 <= i < n && l[i].id == id ==> MinMaxOf(l, n)[id] == Norm(l, l[i].score)
  {
    if n > 0 {
      MinMaxValue(l, n - 1, id);
    }
  }

  /** What list `l` gives to `id`: its score on the list's scale, or nothing. */
  ghost predicate Gives(l: seq<Hit>, id: Id, x: real)
    requires l != []
  {
    if Holds(l, |l|, id) then exists i :: 0 <= i < |l| && l[i].id == id && x == Norm(l, l[i].score)
    else x == 0.0
  }

  lemma GivesValue(l: seq<Hit>, id: Id)
    requires l != [] && DistinctIds(l)
    ensures Gives(l, id, Get(MinMaxOf(l, |l|), id)) && (id in MinMaxOf(l, |l|) <==> Holds(l, |l|, id))
  {
    hide Norm;
    MinMaxValue(l, |l|, id);
  }

  /** A fused score is the first list's share at weight w and the second's at 1 - w; every node of either
      list has one. */
  lemma WeightedValue(la: seq<Hit>, lb: seq<Hit>, w: real, id: Id) returns (x: real, y: real)
    requires la != [] && lb != [] && DistinctIds(la) && DistinctIds(lb)
    ensures Gives(la, id, x) && Gives(lb, id, y)
    ensures id in WeightedScores(la, lb, w) <==> Holds(la, |la|, id) || Holds(lb, |lb|, id)
    ensures id in WeightedScores(la, lb, w) ==> WeightedScores(la, lb, w)[id] == w * x + (1.0 - w) * y
  {
    hide Gives, MinMaxOf, Holds;
    x, y := Get(MinMaxOf(la, |la|), id), Get(MinMaxOf(lb, |lb|), id);
    GivesValue(la, id);
    GivesValue(lb, id);
  }

  /** On its own scale a list runs from 1 at its first hit to 0 at its last, or is 1 throughout. */
  lemma NormEnds(l: seq<Hit>)
    requires l != []
    ensures l[0].score != l[|l| - 1].score ==> Norm(l, l[0].score) == 1.0 && Norm(l, l[|l| - 1].score) == 0.0
    ensures l[0].score == l[|l| - 1].score ==> forall x :: Norm(l, x) == 1.0
  {
    var span := l[0].score - l[|l| - 1].score;
    assert span != 0.0 ==> span / span == 1.0 && 0.0 / span == 0.0;
  }

  /** With all the weight on one ranking, its nodes keep its order, ties included: weight 1 is the first
      list's, weight 0 the second's. */
  lemma AllWeightOnOne(la: seq<Hit>, lb: seq<Hit>, first: bool, index: Index, i: nat, j: nat)
    requires la != [] && lb != [] && DistinctIds(la) && DistinctIds(lb)
    requires var l := if first then la else lb; Ranked(index, l) && i < j < |l|
    ensures
      var l, s := if first then la else lb, WeightedScores(la, lb, if first then 1.0 else 0.0);
      l[i].id in s && l[j].id in s && Before(index, Hit(l[i].id, s[l[i].id]), Hit(l[j].id, s[l[j].id]))
  {
    var l, s := if first then la else lb, WeightedScores(la, lb, if first then 1.0 else 0.0);
    MinMaxValue(l, |l|, l[i].id);
    MinMaxValue(l, |l|, l[j].id);
    NormedRanked(l, index);
    assert Before(index, Normed(l)[i], Normed(l)[j]);
  }

  /** The weights of a list with itself cancel out. */
  lemma SelfWeights(l: seq<Hit>, w: real)
    requires l != []
    ensures WeightedScores(l, l, w) == MinMaxOf(l, |l|)
  {
    var a := MinMaxOf(l, |l|);
    forall id | id in a ensures w * Get(a, id) + (1.0 - w) * Get(a, id) == a[id] {
    }
  }

  function Normed(l: seq<Hit>): seq<Hit>
    requires l != []
  {
    seq(|l|, i requires 0 <= i < |l| => Hit(l[i].id, Norm(l, l[i].score)))
  }

  /** Scores between the ends keep their order, strictly where they differ. */
  lemma NormMonotone(l: seq<Hit>, x: real, y: real)
    requires l != [] && l[|l| - 1].score <= y < x <= l[0].score
    ensures Norm(l, x) > Norm(l, y)
  {
    var lo := l[|l| - 1].score;
    var span := l[0].score - lo;
    assert (x - lo) / span - (y - lo) / span == (x - y) / span;
    assert (x - y) / span > 0.0;
  }

  lemma NormedRanked(l: seq<Hit>, index: Index)
    requires l != [] && Ranked(index, l)
    ensures Ranked(index, Normed(l))
  {
    var f := Normed(l);
    forall i, j | 0 <= i < j < |f| ensures Before(index, f[i], f[j]) {
      assert Before(index, l[i], l[j]);
      assert i == 0 || Before(index, l[0], l[i]);
      assert j == |l| - 1 || Before(index, l[j], l[|l| - 1]);
      if l[i].score > l[j].score {
        NormMonotone(l, l[i].score, l[j].score);
      }
    }
  }

  lemma NormedHits(l: seq<Hit>)
    requires l != [] && DistinctIds(l)
    ensures var s := MinMaxOf(l, |l|);
            forall h :: h in Normed(l) <==> h.id in s && s[h.id] == h.score
  {
    var s, f := MinMaxOf(l, |l|), Normed(l);
    forall h ensures h in f <==> h.id in s && s[h.id] == h.score {
      MinMaxValue(l, |l|, h.id);
      if h.id in s && s[h.id] == h.score {
        var i :| 0 <= i < |l| && l[i].id == h.id;
        assert f[i] == h;
      }
    }
  }

  /** A ranking fused with itself by weighted scores, at any weight, is that ranking again, ties included. */
  lemma SelfWeightedKeepsOrder(l: seq<Hit>, w: real, index: Index, top: seq<Hit>)
    requires l != [] && DistinctIds(l) && Ranked(index, l)
    requires IsTop(WeightedScores(l, l, w), index, top)
    ensures Ids(top) == Ids(l)[..Min(100, |l|)]
  {
    SelfWeights(l, w);
    NormedRanked(l, index);
    NormedHits(l);
    TopIsOf(WeightedScores(l, l, w), index, top, Normed(l));
  }
}
