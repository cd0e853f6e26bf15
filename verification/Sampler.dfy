/**
 * The stratified selection loop of the query-set sampler: ten-pick pattern of strata, with an
 * exhausted stratum's slot handed to the next one that has rows left.
 */
module Sampler {
  import opened Prelude

  datatype Stratum = Fn | Type | Other

  type Pattern = p: seq<Stratum> | |p| > 0 witness [Fn]

  const STRATA_PATTERN: Pattern := [Fn, Fn, Type, Fn, Fn, Type, Fn, Type, Fn, Other]

  /** One value per stratum: the shuffled frame, or the cursor into it. */
  datatype PerStratum<T> = PerStratum(fn: T, types: T, other: T) {
    function Of(s: Stratum): T
    {
      match s
      case Fn => fn
      case Type => types
      case Other => other
    }

    function With(s: Stratum, t: T): PerStratum<T>
    {
      match s
      case Fn => this.(fn := t)
      case Type => this.(types := t)
      case Other => this.(other := t)
    }
  }

  datatype Target<Row> = Target(n: nat, stratum: Stratum, row: Row)

  type Frame<Row> = PerStratum<seq<Row>>

  function Total<Row>(frame: Frame<Row>): nat
  {
    |frame.fn| + |frame.types| + |frame.other|
  }

  function Count<Row>(out: seq<Target<Row>>, s: Stratum): nat
  {
    if out == [] then 0
    else Count(out[..|out| - 1], s) + if out[|out| - 1].stratum == s then 1 else 0
  }

  /** How many of the first `p` slots of the repeated pattern ask for `s`. */
  function Quota(pattern: Pattern, p: nat, s: Stratum): nat
  {
    if p == 0 then 0 else Quota(pattern, p - 1, s) + if pattern[(p - 1) % |pattern|] == s then 1 else 0
  }

  predicate Left<Row>(frame: Frame<Row>, out: seq<Target<Row>>, s: Stratum)
  {
    Count(out, s) < |frame.Of(s)|
  }

  predicate NotAfter(s: Stratum, t: Stratum)
  {
    s == Fn || t == Other || s == t
  }

  /**
   * `t` is the right pick after `out`: from the stratum asked for while that has rows left, else from
   * the first in fn, type, other order that does; and it is that stratum's next row.
   */
  ghost predicate RightPick<Row(!new)>(pattern: Pattern, frame: Frame<Row>, out: seq<Target<Row>>, t: Target<Row>)
  {
    var want := pattern[|out| % |pattern|];
    && t.n == |out| + 1
    && Left(frame, out, t.stratum)
    && t.row == frame.Of(t.stratum)[Count(out, t.stratum)]
    && (Left(frame, out, want) ==> t.stratum == want)
    && (!Left(frame, out, want) ==> forall s :: Left(frame, out, s) ==> NotAfter(t.stratum, s))
  }

  ghost predicate Selects<Row(!new)>(pattern: Pattern, frame: Frame<Row>, out: seq<Target<Row>>)
  {
    forall p :: 0 <= p < |out| ==> RightPick(pattern, frame, out[..p], out[p])
  }

  predicate AnyLeft<Row>(frame: Frame<Row>, cursor: PerStratum<nat>)
  {
    cursor.fn < |frame.fn| || cursor.types < |frame.types| || cursor.other < |frame.other|
  }

  ghost predicate Chosen<Row>(frame: Frame<Row>, cursor: PerStratum<nat>, want: Stratum, s: Stratum)
  {
    && cursor.Of(s) < |frame.Of(s)|
    && if cursor.Of(want) < |frame.Of(want)| then s == want
       else forall t :: cursor.Of(t) < |frame.Of(t)| ==> NotAfter(s, t)
  }

  lemma AllTried<Row>(frame: Frame<Row>, cursor: PerStratum<nat>, order: seq<Stratum>, i: nat)
    requires |order| == 4 && order[1..] == [Fn, Type, Other] && i < 4
    requires AnyLeft(frame, cursor)
    requires forall k :: 0 <= k <= i ==> cursor.Of(order[k]) >= |frame.Of(order[k])|
    ensures i < 3
  {
    assert order[1] == order[1..][0] && order[2] == order[1..][1] && order[3] == order[1..][2];
    assert cursor.Of(Fn) < |frame.Of(Fn)| || cursor.Of(Type) < |frame.Of(Type)| || cursor.Of(Other) < |frame.Of(Other)|;
  }

  /** The fallback loop over the slot's stratum, then fn, type, other. */
  method NextStratum<Row>(frame: Frame<Row>, cursor: PerStratum<nat>, want: Stratum) returns (s: Stratum)
    requires AnyLeft(frame, cursor)
    ensures Chosen(frame, cursor, want, s)
  {
    var order := [want, Fn, Type, Other];
    var i := 0;
    while cursor.Of(order[i]) >= |frame.Of(order[i])|
      invariant 0 <= i < 4
      invariant forall k :: 0 <= k < i ==> cursor.Of(order[k]) >= |frame.Of(order[k])|
      decreases 4 - i
    {
      assert i < 3 by { AllTried(frame, cursor, order, i); }
      i := i + 1;
    }
    s := order[i];
    assert i > 0 ==> cursor.Of(order[0]) >= |frame.Of(order[0])|;
    assert i > 1 ==> cursor.Of(order[1]) >= |frame.Of(order[1])|;
    assert i > 2 ==> cursor.Of(order[2]) >= |frame.Of(order[2])|;
  }

  /** The loop: it stops with as many rows as asked for, or with all of them. */
  method Select<Row(!new)>(pattern: Pattern, frame: Frame<Row>, count: int) returns (out: seq<Target<Row>>)
    ensures |out| == Min(Max(count, 0), Total(frame))
    ensures Selects(pattern, frame, out)
  {
    hide Tracks, Selects, Chosen, AnyLeft;
    out := [];
    var cursor: PerStratum<nat> := PerStratum(0, 0, 0);
    SamplingStarts(pattern, frame);
    var i := 0;
    while |out| < count && AnyLeft(frame, cursor)
      invariant i == |out| <= Max(count, 0)
      invariant Sampling(pattern, frame, cursor, out)
      decreases count - |out|
    {
      var want := pattern[i % |pattern|];
      i := i + 1;
      var s := NextStratum(frame, cursor, want);
      var t := Target(|out| + 1, s, frame.Of(s)[cursor.Of(s)]);
      PickStep(pattern, frame, cursor, out, t);
      cursor := cursor.With(s, cursor.Of(s) + 1);
      out := out + [t];
    }
    TracksWithin(frame, cursor, out);
    AllTaken(frame, cursor);
  }

  lemma SamplingStarts<Row(!new)>(pattern: Pattern, frame: Frame<Row>)
    ensures Sampling(pattern, frame, PerStratum(0, 0, 0), [])
  {
    forall s ensures PerStratum(0, 0, 0).Of(s) == Count<Row>([], s) <= |frame.Of(s)| {}
  }

  lemma AllTaken<Row>(frame: Frame<Row>, cursor: PerStratum<nat>)
    requires cursor.fn <= |frame.fn| && cursor.types <= |frame.types| && cursor.other <= |frame.other|
    ensures cursor.fn + cursor.types + cursor.other <= Total(frame)
    ensures AnyLeft(frame, cursor) || cursor.fn + cursor.types + cursor.other == Total(frame)
  {
  }

  /** What holds whenever the loop looks for its next row. */
  ghost predicate Sampling<Row(!new)>(pattern: Pattern, frame: Frame<Row>, cursor: PerStratum<nat>, out: seq<Target<Row>>)
  {
    && Tracks(frame, cursor, out) && Selects(pattern, frame, out)
    && |out| == cursor.fn + cursor.types + cursor.other
  }

  ghost predicate Tracks<Row(!new)>(frame: Frame<Row>, cursor: PerStratum<nat>, out: seq<Target<Row>>)
  {
    forall s :: cursor.Of(s) == Count(out, s) <= |frame.Of(s)|
  }

  lemma TracksWithin<Row(!new)>(frame: Frame<Row>, cursor: PerStratum<nat>, out: seq<Target<Row>>)
    requires Tracks(frame, cursor, out)
    ensures cursor.fn <= |frame.fn| && cursor.types <= |frame.types| && cursor.other <= |frame.other|
  {
    assert cursor.Of(Fn) <= |frame.Of(Fn)| && cursor.Of(Type) <= |frame.Of(Type)| && cursor.Of(Other) <= |frame.Of(Other)|;
  }

  lemma PickStep<Row(!new)>(pattern: Pattern, frame: Frame<Row>, cursor: PerStratum<nat>, out: seq<Target<Row>>, t: Target<Row>)
    requires Sampling(pattern, frame, cursor, out)
    requires Chosen(frame, cursor, pattern[|out| % |pattern|], t.stratum)
    requires t.n == |out| + 1 && t.row == frame.Of(t.stratum)[cursor.Of(t.stratum)]
    ensures Sampling(pattern, frame, cursor.With(t.stratum, cursor.Of(t.stratum) + 1), out + [t])
  {
    ChosenIsRight(pattern, frame, cursor, out, t);
    AppendKeeps(pattern, frame, out, t);
    TrackOne(frame, cursor, out, t);
  }

  lemma ChosenIsRight<Row(!new)>(pattern: Pattern, frame: Frame<Row>, cursor: PerStratum<nat>, out: seq<Target<Row>>, t: Target<Row>)
    requires Tracks(frame, cursor, out)
    requires Chosen(frame, cursor, pattern[|out| % |pattern|], t.stratum)
    requires t.n == |out| + 1 && t.row == frame.Of(t.stratum)[cursor.Of(t.stratum)]
    ensures RightPick(pattern, frame, out, t)
  {
    forall s ensures Left(frame, out, s) <==> cursor.Of(s) < |frame.Of(s)| {
      assert cursor.Of(s) == Count(out, s);
    }
  }

  lemma TrackOne<Row(!new)>(frame: Frame<Row>, cursor: PerStratum<nat>, out: seq<Target<Row>>, t: Target<Row>)
    requires Tracks(frame, cursor, out) && cursor.Of(t.stratum) < |frame.Of(t.stratum)|
    requires forall s :: Count(out + [t], s) == Count(out, s) + if t.stratum == s then 1 else 0
    ensures Tracks(frame, cursor.With(t.stratum, cursor.Of(t.stratum) + 1), out + [t])
  {
    var next := cursor.With(t.stratum, cursor.Of(t.stratum) + 1);
    forall s ensures next.Of(s) == Count(out + [t], s) <= |frame.Of(s)| {
      assert cursor.Of(s) == Count(out, s);
    }
  }

  lemma AppendKeeps<Row(!new)>(pattern: Pattern, frame: Frame<Row>, out: seq<Target<Row>>, t: Target<Row>)
    requires Selects(pattern, frame, out) && RightPick(pattern, frame, out, t)
    ensures Selects(pattern, frame, out + [t])
    ensures forall s :: Count(out + [t], s) == Count(out, s) + if t.stratum == s then 1 else 0
  {
    var next := out + [t];
    assert next[..|out|] == out;
    forall p | 0 <= p < |next| ensures RightPick(pattern, frame, next[..p], next[p]) {
      if p < |out| { assert next[..p] == out[..p]; }
    }
  }

  // ---- what a selection is ----

  function RowsOf<Row>(out: seq<Target<Row>>, s: Stratum): (rows: seq<Row>)
    ensures |rows| == Count(out, s)
  {
    if out == [] then []
    else
      var t := out[|out| - 1];
      RowsOf(out[..|out| - 1], s) + if t.stratum == s then [t.row] else []
  }

  lemma SelectsPrefix<Row(!new)>(pattern: Pattern, frame: Frame<Row>, out: seq<Target<Row>>, p: nat)
    requires Selects(pattern, frame, out) && p <= |out|
    ensures Selects(pattern, frame, out[..p])
  {
    forall k | 0 <= k < p ensures RightPick(pattern, frame, out[..p][..k], out[..p][k]) {
      assert out[..p][..k] == out[..k];
    }
  }

  /** Each stratum's rows come out in frame order, none skipped and none twice: they are a prefix of the frame. */
  lemma {:induction false} OrderKept<Row(!new)>(pattern: Pattern, frame: Frame<Row>, out: seq<Target<Row>>, s: Stratum)
    requires Selects(pattern, frame, out)
    ensures Count(out, s) <= |frame.Of(s)| && RowsOf(out, s) == frame.Of(s)[..Count(out, s)]
  {
    if out != [] {
      var front := out[..|out| - 1];
      SelectsPrefix(pattern, frame, out, |front|);
      OrderKept(pattern, frame, front, s);
      assert RightPick(pattern, frame, front, out[|front|]);
      if out[|front|].stratum == s {
        TakeOneMore(frame.Of(s), Count(front, s));
      }
    }
  }

  lemma TakeOneMore<Row>(rows: seq<Row>, c: nat)
    requires c < |rows|
    ensures rows[..c] + [rows[c]] == rows[..c + 1]
  {
  }

  predicate Fits<Row>(pattern: Pattern, frame: Frame<Row>, p: nat)
  {
    Quota(pattern, p, Fn) <= |frame.fn| && Quota(pattern, p, Type) <= |frame.types| && Quota(pattern, p, Other) <= |frame.other|
  }

  lemma QuotaOneMore<Row(!new)>(pattern: Pattern, frame: Frame<Row>, front: seq<Target<Row>>, t: Target<Row>, s: Stratum)
    requires RightPick(pattern, frame, front, t)
    requires var want := pattern[|front| % |pattern|];
             Count(front, want) == Quota(pattern, |front|, want) && Quota(pattern, |front| + 1, want) <= |frame.Of(want)|
    requires Count(front, s) == Quota(pattern, |front|, s)
    ensures Count(front, s) + (if t.stratum == s then 1 else 0) == Quota(pattern, |front| + 1, s)
  {
  }

  /** While the pattern's demand fits the frame, every prefix holds exactly the pattern's counts. */
  lemma {:induction false} QuotaMet<Row(!new)>(pattern: Pattern, frame: Frame<Row>, out: seq<Target<Row>>, s: Stratum)
    requires Selects(pattern, frame, out) && Fits(pattern, frame, |out|)
    ensures Count(out, s) == Quota(pattern, |out|, s)
  {
    if out != [] {
      var front := out[..|out| - 1];
      var want := pattern[|front| % |pattern|];
      SelectsPrefix(pattern, frame, out, |front|);
      QuotaMet(pattern, frame, front, s);
      QuotaMet(pattern, frame, front, want);
      assert RightPick(pattern, frame, front, out[|front|]);
      QuotaOneMore(pattern, frame, front, out[|front|], s);
    }
  }

  /** A prefix of the list keeps the mix exactly when the frame has the rows for it. */
  lemma MixKeptIffFits<Row(!new)>(pattern: Pattern, frame: Frame<Row>, out: seq<Target<Row>>, p: nat)
    requires Selects(pattern, frame, out) && p <= |out|
    ensures Fits(pattern, frame, p) <==> forall s :: Count(out[..p], s) == Quota(pattern, p, s)
  {
    SelectsPrefix(pattern, frame, out, p);
    if Fits(pattern, frame, p) {
      forall s ensures Count(out[..p], s) == Quota(pattern, p, s) { QuotaMet(pattern, frame, out[..p], s); }
    }
    OrderKept(pattern, frame, out[..p], Fn);
    OrderKept(pattern, frame, out[..p], Type);
    OrderKept(pattern, frame, out[..p], Other);
  }

  /** How many of the pattern's first `i` slots ask for `s`. */
  function Slots(pattern: Pattern, i: nat, s: Stratum): nat
    requires i <= |pattern|
  {
    if i == 0 then 0 else Slots(pattern, i - 1, s) + if pattern[i - 1] == s then 1 else 0
  }

  lemma {:induction false} QuotaOfRound(pattern: Pattern, base: nat, i: nat, s: Stratum)
    requires i <= |pattern| && base % |pattern| == 0
    ensures Quota(pattern, base + i, s) == Quota(pattern, base, s) + Slots(pattern, i, s)
  {
    if i > 0 {
      QuotaOfRound(pattern, base, i - 1, s);
      SlotOf(base, i - 1, |pattern|);
    }
  }

  lemma SlotOf(base: nat, i: nat, n: nat)
    requires i < n && base % n == 0
    ensures (base + i) % n == i
  {
    Remainder(base + i, base / n, i, n);
  }

  lemma Remainder(x: nat, q: nat, r: nat, n: nat)
    requires x == q * n + r && r < n
    ensures x % n == r
  {
    var d := x / n - q;
    assert d * n == r - x % n;
    assert d >= 1 ==> d * n >= n;
    assert d <= -1 ==> d * n <= 0 - n;
  }

  /** After `q` rounds of a pattern, each stratum has been asked for `q` times its slots. */
  lemma {:induction false} QuotaOfRounds(pattern: Pattern, q: nat, s: Stratum)
    ensures Quota(pattern, q * |pattern|, s) == q * Slots(pattern, |pattern|, s)
  {
    if q > 0 {
      QuotaOfRounds(pattern, q - 1, s);
      var base := (q - 1) * |pattern|;
      assert base % |pattern| == 0 by { Remainder(base, q - 1, 0, |pattern|); }
      QuotaOfRound(pattern, base, |pattern|, s);
      assert q * |pattern| == base + |pattern|;
      assert q * Slots(pattern, |pattern|, s) == (q - 1) * Slots(pattern, |pattern|, s) + Slots(pattern, |pattern|, s);
    }
  }

  /** The ten slots are six functions, three types and one other. */
  lemma SlotsOfTen()
    ensures |STRATA_PATTERN| == 10
    ensures Slots(STRATA_PATTERN, 10, Fn) == 6
    ensures Slots(STRATA_PATTERN, 10, Type) == 3
    ensures Slots(STRATA_PATTERN, 10, Other) == 1
  {
  }

  /** Ten picks are six functions, three types and one other, however often the pattern is repeated. */
  lemma QuotaOfTens(q: nat)
    ensures Quota(STRATA_PATTERN, 10 * q, Fn) == 6 * q
    ensures Quota(STRATA_PATTERN, 10 * q, Type) == 3 * q
    ensures Quota(STRATA_PATTERN, 10 * q, Other) == q
  {
    hide Quota, Slots;
    SlotsOfTen();
    QuotaOfRounds(STRATA_PATTERN, q, Fn);
    QuotaOfRounds(STRATA_PATTERN, q, Type);
    QuotaOfRounds(STRATA_PATTERN, q, Other);
  }
}
