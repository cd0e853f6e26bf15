/** Small shared definitions. */
module Prelude {

  datatype Option<+T> = None | Some(value: T)

  function Max(a: int, b: int): int { if a < b then b else a }

  function Min(a: int, b: int): int { if a < b then a else b }

  /** `m` lies in one of the spans `from[i] .. to[i]`. */
  ghost predicate InSome(from: seq<nat>, to: seq<nat>, m: nat)
    requires |from| == |to|
  {
    exists i :: 0 <= i < |from| && from[i] <= m < to[i]
  }

  lemma InMore(from: seq<nat>, to: seq<nat>, a: nat, b: nat, m: nat)
    requires |from| == |to| && (a <= m < b || InSome(from, to, m))
    ensures InSome([a] + from, [b] + to, m)
  {
    var from', to' := [a] + from, [b] + to;
    if a <= m < b {
      assert from'[0] <= m < to'[0];
    } else {
      var i :| 0 <= i < |from| && from[i] <= m < to[i];
      assert from'[i + 1] <= m < to'[i + 1];
    }
  }

  /** The spans stand in order, apart, from `a` on. */
  ghost predicate Spans(a: nat, from: seq<nat>, to: seq<nat>)
  {
    && |from| == |to|
    && (forall i :: 0 <= i < |from| ==> a <= from[i] < to[i])
    && (forall i, j :: 0 <= i < j < |from| ==> to[i] <= from[j])
  }

  lemma MoreSpans(from: seq<nat>, to: seq<nat>, a: nat, b: nat)
    requires a < b && Spans(b, from, to)
    ensures Spans(a, [a] + from, [b] + to)
  {
    var from', to' := [a] + from, [b] + to;
    forall i | 0 < i < |from'| ensures from'[i] == from[i - 1] && to'[i] == to[i - 1] {}
  }

  /** `at` are the places from `d` to `n` that are wanted, in order, and `kept` what stands there. */
  ghost predicate Picks<T>(d: nat, n: nat, wanted: nat -> bool, there: nat -> T, kept: seq<T>, at: seq<nat>)
  {
    && |kept| == |at| && (forall i, j :: 0 <= i < j < |at| ==> at[i] < at[j])
    && (forall i :: 0 <= i < |at| ==> d <= at[i] < n && kept[i] == there(at[i]))
    && (forall m :: d <= m < n ==> (m in at <==> wanted(m)))
  }

  lemma PicksNone<T>(d: nat, n: nat, wanted: nat -> bool, there: nat -> T)
    requires forall m :: d <= m < n ==> !wanted(m)
    ensures Picks(d, n, wanted, there, [], [])
  {
  }

  lemma PicksMore<T>(d: nat, n: nat, wanted: nat -> bool, there: nat -> T, kept: seq<T>, at: seq<nat>)
    requires d < n && Picks(d + 1, n, wanted, there, kept, at)
    ensures wanted(d) ==> Picks(d, n, wanted, there, [there(d)] + kept, [d] + at)
    ensures !wanted(d) ==> Picks(d, n, wanted, there, kept, at)
  {
    if wanted(d) {
      var kept', at' := [there(d)] + kept, [d] + at;
      forall i | 0 < i < |at'| ensures at'[i] == at[i - 1] && kept'[i] == kept[i - 1] {}
    }
  }
}
