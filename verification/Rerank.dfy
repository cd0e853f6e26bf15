/** Reranking a query's first `K` hits by a second score, and what that does to recall. */
module Rerank {
  import opened Prelude
  import opened Ranking

  /** Position `i` with its new score. */
  function Positions(score: seq<real>, k: nat): seq<Hit>
    requires k <= |score|
  {
    seq(k, i requires 0 <= i < k => Hit(i, score[i]))
  }

  /** The order of the first `k` positions: falling score, ties by position. */
  function Order(score: seq<real>, k: nat): seq<Hit>
    requires k <= |score|
  {
    Sorted(i => i, Positions(score, k))
  }

  lemma OrderIsPermutation(score: seq<real>, k: nat)
    requires k <= |score|
    ensures |Order(score, k)| == k
    ensures forall j :: 0 <= j < k ==> Order(score, k)[j].id < k && Order(score, k)[j].score == score[Order(score, k)[j].id]
    ensures forall i :: 0 <= i < k ==> Hit(i, score[i]) in Order(score, k)
    ensures Ranked(i => i, Order(score, k))
  {
    var ps := Positions(score, k);
    SortedHits(i => i, ps);
    SortedRanked(i => i, ps);
    forall j | 0 <= j < k ensures Order(score, k)[j].id < k && Order(score, k)[j].score == score[Order(score, k)[j].id] {
      assert Order(score, k)[j] in ps;
    }
    forall i | 0 <= i < k ensures Hit(i, score[i]) in Order(score, k) {
      assert ps[i] in ps;
    }
  }

  function Reranked(hits: seq<Hit>, K: nat, score: seq<real>): seq<Hit>
    requires |score| >= Min(K, |hits|)
  {
    var k := Min(K, |hits|);
    OrderIsPermutation(score, k);
    var order := Order(score, k);
    seq(k, j requires 0 <= j < k => Hit(hits[order[j].id].id, score[order[j].id])) + hits[k..]
  }

  /**
   * Only the first `K` hits move: `from` says which hit each place got. Every one of them gets exactly
   * one place, scores fall, and hits of one score keep their order.
   */
  lemma RerankIsStable(hits: seq<Hit>, K: nat, score: seq<real>) returns (from: seq<nat>)
    requires |score| >= Min(K, |hits|)
    ensures var r := Reranked(hits, K, score); var k := Min(K, |hits|);
            && |r| == |hits| && r[k..] == hits[k..] && |from| == k
            && (forall j :: 0 <= j < k ==> from[j] < k && r[j] == Hit(hits[from[j]].id, score[from[j]]))
            && (forall i :: 0 <= i < k ==> i in from)
            && (forall a, b :: 0 <= a < b < k ==>
                  from[a] != from[b] && r[a].score >= r[b].score && (r[a].score == r[b].score ==> from[a] < from[b]))
  {
    var k := Min(K, |hits|);
    OrderIsPermutation(score, k);
    var order := Order(score, k);
    from := seq(k, j requires 0 <= j < k => order[j].id);
    var r := Reranked(hits, K, score);
    assert r[k..] == hits[k..];
    forall i | 0 <= i < k ensures i in from {
      var j :| 0 <= j < |order| && order[j] == Hit(i, score[i]);
      assert from[j] == i;
    }
    forall a, b | 0 <= a < b < k
      ensures from[a] != from[b] && r[a].score >= r[b].score && (r[a].score == r[b].score ==> from[a] < from[b])
    {
      assert Before(i => i, order[a], order[b]);
    }
  }

  // ---- recall ----

  /** The first rank, from 1, at which an expected node stands. */
  function FirstRank(hits: seq<Hit>, expected: set<Id>): (rank: Option<nat>)
    ensures rank.Some? ==> 1 <= rank.value <= |hits| && hits[rank.value - 1].id in expected
    ensures forall i :: 0 <= i < (if rank.Some? then rank.value - 1 else |hits|) ==> hits[i].id !in expected
  {
    if hits == [] then None
    else if hits[0].id in expected then Some(1)
    else
      match FirstRank(hits[1..], expected)
      case None =>
        assert forall i :: 0 < i < |hits| ==> hits[i] == hits[1..][i - 1];
        None
      case Some(r) =>
        assert forall i :: 0 < i <= r ==> hits[i] == hits[1..][i - 1];
        Some(r + 1)
  }

  predicate HitAt(m: nat, hits: seq<Hit>, expected: set<Id>)
  {
    var rank := FirstRank(hits, expected);
    rank.Some? && rank.value <= m
  }

  lemma HitAtIff(m: nat, hits: seq<Hit>, expected: set<Id>)
    ensures HitAt(m, hits, expected) <==> exists i :: 0 <= i < |hits| && i < m && hits[i].id in expected
  {
    var rank := FirstRank(hits, expected);
    if rank.Some? && rank.value <= m {
      assert hits[rank.value - 1].id in expected;
    }
  }

  /** `r` is `hits` with its first `k` places rearranged by `from`. */
  ghost predicate Moved(hits: seq<Hit>, r: seq<Hit>, k: nat, from: seq<nat>)
  {
    && k <= |hits| == |r| && |from| == k
    && (forall i :: k <= i < |r| ==> r[i] == hits[i])
    && (forall j :: 0 <= j < k ==> from[j] < k && r[j].id == hits[from[j]].id)
    && (forall i :: 0 <= i < k ==> i in from)
  }

  lemma RerankMoves(hits: seq<Hit>, K: nat, score: seq<real>) returns (from: seq<nat>)
    requires |score| >= Min(K, |hits|)
    ensures Moved(hits, Reranked(hits, K, score), Min(K, |hits|), from)
  {
    from := RerankIsStable(hits, K, score);
    var r, k := Reranked(hits, K, score), Min(K, |hits|);
    forall i | k <= i < |r| ensures r[i] == hits[i] {
      assert r[i] == r[k..][i - k] && hits[i] == hits[k..][i - k];
    }
  }

  lemma AnswerBefore(hits: seq<Hit>, r: seq<Hit>, k: nat, from: seq<nat>, expected: set<Id>, j: nat) returns (i: nat)
    requires Moved(hits, r, k, from) && j < |r| && r[j].id in expected
    ensures i < |hits| && hits[i].id in expected && (if j < k then i < k else i == j)
  {
    i := if j < k then from[j] else j;
  }

  lemma AnswerAfter(hits: seq<Hit>, r: seq<Hit>, k: nat, from: seq<nat>, expected: set<Id>, i: nat) returns (j: nat)
    requires Moved(hits, r, k, from) && i < |hits| && hits[i].id in expected
    ensures j < |r| && r[j].id in expected && (if i < k then j < k else j == i)
  {
    j := i;
    if i < k {
      assert i in from;
      j :| 0 <= j < |from| && from[j] == i;
    }
  }

  /** Reranking moves no answer across place `K`: recall from there on is unchanged, and recall before it is bounded. */
  lemma RecallKept(hits: seq<Hit>, K: nat, score: seq<real>, expected: set<Id>, m: nat)
    requires |score| >= Min(K, |hits|)
    ensures m >= K ==> (HitAt(m, Reranked(hits, K, score), expected) <==> HitAt(m, hits, expected))
    ensures m <= K ==> HitAt(m, Reranked(hits, K, score), expected) ==> HitAt(K, hits, expected)
  {
    var r, k := Reranked(hits, K, score), Min(K, |hits|);
    var from := RerankMoves(hits, K, score);
    RecallMoved(hits, r, k, from, expected, K, m);
  }

  lemma RecallMoved(hits: seq<Hit>, r: seq<Hit>, k: nat, from: seq<nat>, expected: set<Id>, K: nat, m: nat)
    requires Moved(hits, r, k, from) && k == Min(K, |hits|)
    ensures m >= K ==> (HitAt(m, r, expected) <==> HitAt(m, hits, expected))
    ensures m <= K ==> HitAt(m, r, expected) ==> HitAt(K, hits, expected)
  {
    HitAtIff(m, r, expected);
    HitAtIff(m, hits, expected);
    HitAtIff(K, hits, expected);
    if HitAt(m, hits, expected) {
      var i :| 0 <= i < |hits| && i < m && hits[i].id in expected;
      var j := AnswerAfter(hits, r, k, from, expected, i);
    }
    if HitAt(m, r, expected) {
      var j :| 0 <= j < |r| && j < m && r[j].id in expected;
      var i := AnswerBefore(hits, r, k, from, expected, j);
    }
  }
}
