/** Rankings: hits by falling score, ties by an order of the candidates. */
module Ranking {

  type Id = nat

  datatype Hit = Hit(id: Id, score: real)

  /** The candidates' order, which breaks ties. */
  type Index = Id -> nat

  predicate Before(index: Index, a: Hit, b: Hit)
  {
    a.score > b.score || (a.score == b.score && index(a.id) < index(b.id))
  }

  predicate Ranked(index: Index, l: seq<Hit>)
  {
    forall i, j :: 0 <= i < j < |l| ==> Before(index, l[i], l[j])
  }

  /** No two hits of `l` have the same place in the candidates' order. */
  predicate Distinct(index: Index, l: seq<Hit>)
  {
    forall i, j :: 0 <= i < j < |l| ==> index(l[i].id) != index(l[j].id)
  }

  ghost predicate SameHits(a: seq<Hit>, b: seq<Hit>)
  {
    forall h :: h in a <==> h in b
  }

  // ---- sorting ----

  function Insert(index: Index, l: seq<Hit>, h: Hit): seq<Hit>
  {
    if l == [] then [h]
    else if Before(index, h, l[0]) then [h] + l
    else [l[0]] + Insert(index, l[1..], h)
  }

  /** The one sorted arrangement of `l`. */
  function Sorted(index: Index, l: seq<Hit>): seq<Hit>
  {
    if l == [] then [] else Insert(index, Sorted(index, l[..|l| - 1]), l[|l| - 1])
  }

  lemma {:induction false} InsertHits(index: Index, l: seq<Hit>, h: Hit)
    ensures |Insert(index, l, h)| == |l| + 1
    ensures forall x :: x in Insert(index, l, h) <==> x == h || x in l
  {
    if l != [] && !Before(index, h, l[0]) {
      InsertHits(index, l[1..], h);
      forall x ensures x in l <==> x == l[0] || x in l[1..] {
        assert l == [l[0]] + l[1..];
      }
    }
  }

  lemma {:induction false} InsertRanked(index: Index, l: seq<Hit>, h: Hit)
    requires Ranked(index, l)
    requires forall i :: 0 <= i < |l| ==> index(l[i].id) != index(h.id)
    ensures Ranked(index, Insert(index, l, h))
  {
    if l != [] && !Before(index, h, l[0]) {
      InsertRanked(index, l[1..], h);
      InsertHits(index, l[1..], h);
      ConsRanked(index, l[0], Insert(index, l[1..], h));
    } else if l != [] {
      ConsRanked(index, h, l);
    }
  }

  lemma ConsRanked(index: Index, h: Hit, l: seq<Hit>)
    requires Ranked(index, l) && forall x :: x in l ==> Before(index, h, x)
    ensures Ranked(index, [h] + l)
  {
    var r := [h] + l;
    forall i, j | 0 <= i < j < |r| ensures Before(index, r[i], r[j]) {
      assert r[j] == l[j - 1] && l[j - 1] in l;
    }
  }

  lemma {:induction false} SortedHits(index: Index, l: seq<Hit>)
    ensures |Sorted(index, l)| == |l| && SameHits(Sorted(index, l), l)
  {
    if l != [] {
      var front, last := l[..|l| - 1], l[|l| - 1];
      SortedHits(index, front);
      InsertHits(index, Sorted(index, front), last);
      assert l == front + [last];
    }
  }

  lemma {:induction false} SortedRanked(index: Index, l: seq<Hit>)
    requires Distinct(index, l)
    ensures Ranked(index, Sorted(index, l))
  {
    if l != [] {
      var front, last := l[..|l| - 1], l[|l| - 1];
      SortedRanked(index, front);
      SortedHits(index, front);
      forall i | 0 <= i < |front| ensures index(Sorted(index, front)[i].id) != index(last.id) {
        var h := Sorted(index, front)[i];
        assert h in front;
      }
      InsertRanked(index, Sorted(index, front), last);
    }
  }

  /** A ranking is determined by its hits. */
  lemma {:induction false} RankedUnique(index: Index, a: seq<Hit>, b: seq<Hit>)
    requires Ranked(index, a) && Ranked(index, b) && SameHits(a, b)
    ensures a == b
  {
    if a != [] || b != [] {
      assert (a != [] ==> a[0] in a) && (b != [] ==> b[0] in b);
      HeadsAgree(index, a, b);
      TailHits(index, a);
      TailHits(index, b);
      RankedUnique(index, a[1..], b[1..]);
      assert a == [a[0]] + a[1..] && b == [b[0]] + b[1..];
    }
  }

  lemma HeadFirst(index: Index, l: seq<Hit>, h: Hit)
    requires Ranked(index, l) && h in l
    ensures h == l[0] || Before(index, l[0], h)
  {
  }

  lemma HeadsAgree(index: Index, a: seq<Hit>, b: seq<Hit>)
    requires Ranked(index, a) && Ranked(index, b) && SameHits(a, b) && a != [] && b != []
    ensures a[0] == b[0]
  {
    assert a[0] in b && b[0] in a;
    HeadFirst(index, a, b[0]);
    HeadFirst(index, b, a[0]);
  }

  lemma TailHits(index: Index, l: seq<Hit>)
    requires Ranked(index, l) && l != []
    ensures forall h :: h in l[1..] <==> h in l && h != l[0]
  {
    assert l == [l[0]] + l[1..];
    forall k | 0 <= k < |l[1..]| ensures l[1..][k] != l[0] {
      assert Before(index, l[0], l[k + 1]);
    }
  }
}
