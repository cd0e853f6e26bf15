/**
 * The bootstrap's random draws: the generator that steps one state (`Rng`), and the vectorised form
 * that computes every draw from its position (`Boot.indices`, `splitmix_stream`, `below`).
 */
module SplitMix {

  const WORD: int := 0x1_0000_0000            // 2^32
  const M: int := 0x1_0000_0000_0000_0000     // 2^64
  const GAMMA: int := 0x9E37_79B9_7F4A_7C15

  type U64 = x: int | 0 <= x < M

  /** SplitMix64's output function of a state. Everything below holds of any output function `mix`. */
  function Mix(state: U64): U64
  {
    var a := state as bv64;
    var b := (a ^ (a >> 30)) * 0xBF58_476D_1CE4_E5B9;
    var c := (b ^ (b >> 27)) * 0x94D0_49BB_1331_11EB;
    (c ^ (c >> 31)) as int
  }

  /** The first word of SplitMix64 seeded with 0, as published with the generator. */
  lemma FirstWord()
    ensures Mix(GAMMA) == 0xE220_A839_7B1D_CDAF
  {
  }

  /** The state after `k` steps from `seed`. */
  function StateAt(seed: int, k: nat): U64
  {
    (seed + k * GAMMA) % M
  }

  /** The `k`-th draw below `n`: the high word of the 128-bit product. */
  function Draw(mix: U64 -> U64, seed: int, k: nat, n: nat): (d: int)
    ensures n > 0 ==> 0 <= d < n
  {
    var z := mix(StateAt(seed, k));
    assert n > 0 ==> 0 <= z * n / M < n by { if n > 0 { HighWordBelow(z, n); } }
    z * n / M
  }

  // ---- the sequential generator ----

  lemma StateSteps(seed: int, k: nat)
    ensures (StateAt(seed, k) + GAMMA) % M == StateAt(seed, k + 1)
  {
    assert seed + (k + 1) * GAMMA == (seed + k * GAMMA) + GAMMA;
    ModAdd(seed + k * GAMMA, GAMMA);
  }

  lemma ModAdd(a: int, b: int)
    ensures (a % M + b) % M == (a + b) % M
  {
    assert a == a / M * M + a % M;
    ModShift(a % M + b, a / M);
  }

  lemma ModShift(a: int, q: int)
    ensures (a + q * M) % M == a % M
  {
    var lhs := a + q * M;
    assert lhs == (a / M + q) * M + a % M;
    UniqueRemainder(lhs, a / M + q, a % M);
  }

  lemma UniqueRemainder(x: int, q: int, r: int)
    requires x == q * M + r && 0 <= r < M
    ensures x % M == r && x / M == q
  {
    var d := x / M - q;
    assert d * M == r - x % M;
    assert -M < d * M < M;
  }

  /** The sequential generator. `drawn` counts the words drawn since it was seeded. */
  class Rng {
    const mix: U64 -> U64
    ghost const seed: int
    ghost var drawn: nat
    var state: U64

    ghost predicate Valid() reads this
    {
      state == StateAt(seed, drawn)
    }

    constructor (mix: U64 -> U64, seed: int)
      ensures Valid() && this.mix == mix && this.seed == seed && drawn == 0
    {
      this.mix, this.seed, drawn, state := mix, seed, 0, seed % M;
    }

    /** The k-th call gives the output function of seed + k * gamma, modulo 2^64. */
    method NextU64() returns (z: U64)
      requires Valid()
      modifies this
      ensures Valid() && drawn == old(drawn) + 1 && z == mix(StateAt(seed, drawn))
    {
      StateSteps(seed, drawn);
      state := (state + GAMMA) % M;
      drawn := drawn + 1;
      z := mix(state);
    }

    /** The k-th call gives the k-th draw. */
    method Below(n: nat) returns (r: int)
      requires Valid()
      modifies this
      ensures Valid() && drawn == old(drawn) + 1 && r == Draw(mix, seed, drawn, n)
    {
      var z := NextU64();
      r := z * n / M;
    }
  }

  function Total(sizes: seq<nat>): nat
  {
    if sizes == [] then 0 else Total(sizes[..|sizes| - 1]) + sizes[|sizes| - 1]
  }

  lemma TotalStep(sizes: seq<nat>, g: nat)
    requires g < |sizes|
    ensures Total(sizes[..g + 1]) == Total(sizes[..g]) + sizes[g]
  {
    assert sizes[..g + 1][..g] == sizes[..g];
  }

  // ---- what a resample is, independently of how its draws are made ----

  type Group = v: seq<real> | |v| > 0 witness [0.0]

  /** How many values the first `g` groups hold. */
  function Offset(groups: seq<Group>, g: nat): nat
    requires g <= |groups|
  {
    if g == 0 then 0 else Offset(groups, g - 1) + |groups[g - 1]|
  }

  /** The first draw of resample `r`, less one. */
  function Start(r: nat, total: nat): nat { r * total }

  /** The sum of the first `i` values drawn from a group whose draws follow draw `at`. */
  function GroupSum(mix: U64 -> U64, seed: int, at: nat, values: Group, i: nat): real
  {
    if i == 0 then 0.0 else GroupSum(mix, seed, at, values, i - 1) + values[Draw(mix, seed, at + i, |values|)]
  }

  function GroupMean(mix: U64 -> U64, seed: int, at: nat, values: Group): real
  {
    GroupSum(mix, seed, at, values, |values|) / |values| as real
  }

  /** The sum of the first `g` groups' means in the resample whose draws follow draw `at`. */
  function MeanSum(mix: U64 -> U64, seed: int, at: nat, groups: seq<Group>, g: nat): real
    requires g <= |groups|
  {
    if g == 0 then 0.0
    else MeanSum(mix, seed, at, groups, g - 1) + GroupMean(mix, seed, at + Offset(groups, g - 1), groups[g - 1])
  }

  /** The statistic of resample `r`. */
  function Stat(mix: U64 -> U64, seed: int, groups: seq<Group>, r: nat): real
    requires |groups| > 0
  {
    MeanSum(mix, seed, Start(r, Offset(groups, |groups|)), groups, |groups|) / |groups| as real
  }

  method DrawGroup(rng: Rng, values: Group) returns (mean: real)
    requires rng.Valid()
    modifies rng
    ensures rng.Valid() && rng.drawn == old(rng.drawn) + |values|
    ensures mean == GroupMean(rng.mix, rng.seed, old(rng.drawn), values)
  {
    hide Draw, StateAt;
    var total := 0.0;
    var n := |values|;
    for i := 0 to n
      invariant rng.Valid() && rng.drawn == old(rng.drawn) + i
      invariant total == GroupSum(rng.mix, rng.seed, old(rng.drawn), values, i)
    {
      var k := rng.Below(n);
      total := total + values[k];
    }
    mean := total / n as real;
  }

  method DrawResample(rng: Rng, groups: seq<Group>) returns (s: real)
    requires rng.Valid()
    modifies rng
    ensures rng.Valid() && rng.drawn == old(rng.drawn) + Offset(groups, |groups|)
    ensures s == MeanSum(rng.mix, rng.seed, old(rng.drawn), groups, |groups|)
  {
    hide StateAt, GroupMean;
    s := 0.0;
    for g := 0 to |groups|
      invariant rng.Valid() && rng.drawn == old(rng.drawn) + Offset(groups, g)
      invariant s == MeanSum(rng.mix, rng.seed, old(rng.drawn), groups, g)
    {
      var mean := DrawGroup(rng, groups[g]);
      s := s + mean;
    }
  }

  /** `bootstrap`'s nested loops: for every resample, every group in turn, one draw per value. */
  method SequentialStats(mix: U64 -> U64, seed: int, groups: seq<Group>, resamples: nat) returns (stats: seq<real>)
    requires |groups| > 0
    ensures |stats| == resamples
    ensures forall r :: 0 <= r < resamples ==> stats[r] == Stat(mix, seed, groups, r)
  {
    hide StateAt, MeanSum, Start;
    var rng := new Rng(mix, seed);
    StartZero(Offset(groups, |groups|));
    stats := [];
    ghost var total := Offset(groups, |groups|);
    for r := 0 to resamples
      invariant rng.Valid() && rng.mix == mix && rng.seed == seed && rng.drawn == Start(r, total)
      invariant |stats| == r && forall k :: 0 <= k < r ==> stats[k] == Stat(mix, seed, groups, k)
    {
      StartStep(r, total);
      var s := DrawResample(rng, groups);
      stats := stats + [s / |groups| as real];
    }
  }

  lemma StartZero(total: nat)
    ensures Start(0, total) == 0
  {
  }

  lemma StartStep(r: nat, total: nat)
    ensures Start(r + 1, total) == Start(r, total) + total
  {
  }

  // ---- the vectorised form ----

  /** 64-bit addition and multiplication, with wrap-around. */
  function Add64(a: int, b: int): U64 { (a + b) % M }
  function Mul64(a: int, b: int): U64 { (a * b) % M }

  /** `below` on split words: no 128-bit product. */
  function SplitBelow(x: U64, n: nat): int
  {
    var hi, lo := x / WORD, x % WORD;
    Add64(Mul64(hi, n), Mul64(lo, n) / WORD) / WORD
  }

  /** What the vectorised form computes at position `k` (from 1). */
  function VectorDraw(mix: U64 -> U64, seed: int, k: nat, n: nat): int
  {
    SplitBelow(mix(Add64(seed, Mul64(k, GAMMA))), n)
  }

  lemma SmallMod(x: int)
    requires 0 <= x < M
    ensures x % M == x
  {
  }

  /** The split-word product never leaves 64 bits, is the high word exactly, and is below `n`. */
  lemma SplitBelowIsExact(x: int, n: nat)
    requires 0 <= x < M && n < WORD
    ensures 0 <= x / WORD * n + x % WORD * n / WORD < M
    ensures SplitBelow(x, n) == x * n / M
    ensures n > 0 ==> 0 <= SplitBelow(x, n) < n
  {
    var hi, lo := x / WORD, x % WORD;
    assert 0 <= hi < WORD && 0 <= lo < WORD;
    MulBelow(hi, n);
    MulBelow(lo, n);
    SmallMod(hi * n);
    SmallMod(lo * n);
    var q, s := lo * n / WORD, lo * n % WORD;
    var t := hi * n + q;
    assert q < WORD;
    assert 0 <= t < M;
    SmallMod(t);
    var u, v := t / WORD, t % WORD;
    assert lo * n == q * WORD + s && t == u * WORD + v;
    assert x == hi * WORD + lo;
    Expand(hi, lo, n, q, s, u, v, t);
    UniqueRemainder(x * n, u, v * WORD + s);
    if n > 0 { HighWordBelow(x, n); }
  }

  lemma MulBelow(a: int, n: nat)
    requires 0 <= a < WORD && n < WORD
    ensures 0 <= a * n <= (WORD - 1) * (WORD - 1)
  {
    MulMonotone(a, WORD - 1, n, WORD - 1);
  }

  lemma MulMonotone(a: nat, b: nat, c: nat, d: nat)
    requires a <= b && c <= d
    ensures 0 <= a * c <= b * d
  {
    assert b * d == a * c + a * (d - c) + (b - a) * d;
  }

  lemma Expand(hi: int, lo: int, n: int, q: int, s: int, u: int, v: int, t: int)
    requires lo * n == q * WORD + s && t == hi * n + q && t == u * WORD + v
    ensures (hi * WORD + lo) * n == u * M + (v * WORD + s)
  {
    assert (hi * WORD + lo) * n == (hi * n) * WORD + lo * n;
    assert (hi * n) * WORD + q * WORD == t * WORD;
    assert t * WORD == u * WORD * WORD + v * WORD;
  }

  lemma HighWordBelow(x: int, n: nat)
    requires 0 <= x < M && 0 < n
    ensures 0 <= x * n / M < n
  {
    Product(x, n);
    Product(M - x, n);
    assert x * n + (M - x) * n == M * n;
    QuotientBelow(x * n, n);
  }

  lemma Product(a: int, n: nat)
    requires 0 <= a && 0 < n
    ensures 0 <= a * n && (a > 0 ==> a * n > 0)
  {
  }

  lemma QuotientBelow(y: int, n: nat)
    requires 0 <= y < M * n
    ensures 0 <= y / M < n
  {
  }

  /** Position by position, the vectorised form draws what the sequential one draws. */
  lemma VectorDrawIsDraw(mix: U64 -> U64, seed: int, k: nat, n: nat)
    requires n < WORD
    ensures VectorDraw(mix, seed, k, n) == Draw(mix, seed, k, n)
    ensures n > 0 ==> 0 <= VectorDraw(mix, seed, k, n) < n
  {
    ModAdd(k * GAMMA, seed);
    assert Add64(seed, Mul64(k, GAMMA)) == StateAt(seed, k);
    SplitBelowIsExact(mix(StateAt(seed, k)), n);
  }

  /** What the vectorised form draws for one group of one resample. */
  function Row(mix: U64 -> U64, seed: int, at: nat, n: nat): (row: seq<int>)
    ensures |row| == n
  {
    seq(n, i requires 0 <= i < n => VectorDraw(mix, seed, at + i + 1, n))
  }

  lemma RowDraws(mix: U64 -> U64, seed: int, at: nat, n: nat)
    requires n < WORD
    ensures forall i :: 0 <= i < n ==> Row(mix, seed, at, n)[i] == Draw(mix, seed, at + i + 1, n)
  {
    forall i | 0 <= i < n ensures Row(mix, seed, at, n)[i] == Draw(mix, seed, at + i + 1, n) {
      VectorDrawIsDraw(mix, seed, at + i + 1, n);
    }
  }

  function Gathered(values: Group, row: seq<int>): real
    requires forall i :: 0 <= i < |row| ==> 0 <= row[i] < |values|
  {
    if row == [] then 0.0 else Gathered(values, row[..|row| - 1]) + values[row[|row| - 1]]
  }

  lemma {:induction false} GatheredIsGroupSum(mix: U64 -> U64, seed: int, at: nat, values: Group, row: seq<int>)
    requires forall i :: 0 <= i < |row| ==> 0 <= row[i] < |values| && row[i] == Draw(mix, seed, at + i + 1, |values|)
    ensures Gathered(values, row) == GroupSum(mix, seed, at, values, |row|)
  {
    if row != [] {
      GatheredIsGroupSum(mix, seed, at, values, row[..|row| - 1]);
      assert at + |row| == at + (|row| - 1) + 1;
    }
  }

  lemma RowMeanIsGroupMean(mix: U64 -> U64, seed: int, at: nat, values: Group)
    requires |values| < WORD
    ensures var row := Row(mix, seed, at, |values|);
            && (forall i :: 0 <= i < |row| ==> 0 <= row[i] < |values|)
            && Gathered(values, row) / |values| as real == GroupMean(mix, seed, at, values)
  {
    RowDraws(mix, seed, at, |values|);
    GatheredIsGroupSum(mix, seed, at, values, Row(mix, seed, at, |values|));
  }

  /** One group's means, a column over all resamples. */
  method Column(mix: U64 -> U64, seed: int, values: Group, total: nat, off: nat, resamples: nat) returns (column: seq<real>)
    requires |values| < WORD
    ensures |column| == resamples
    ensures forall r :: 0 <= r < resamples ==>
              column[r] == GroupMean(mix, seed, Start(r, total) + off, values)
  {
    column := [];
    for r := 0 to resamples
      invariant |column| == r
      invariant forall k :: 0 <= k < r ==>
                  column[k] == GroupMean(mix, seed, Start(k, total) + off, values)
    {
      RowMeanIsGroupMean(mix, seed, Start(r, total) + off, values);
      column := column + [Gathered(values, Row(mix, seed, Start(r, total) + off, |values|)) / |values| as real];
    }
  }

  /** The vectorised `bootstrap`: group by group, all resamples at once, no state carried. */
  method VectorStats(mix: U64 -> U64, seed: int, groups: seq<Group>, resamples: nat) returns (stats: seq<real>)
    requires |groups| > 0 && forall g :: 0 <= g < |groups| ==> |groups[g]| < WORD
    ensures |stats| == resamples
    ensures forall r :: 0 <= r < resamples ==> stats[r] == Stat(mix, seed, groups, r)
  {
    var total := Offset(groups, |groups|);
    var s := seq(resamples, r => 0.0);
    var off := 0;
    for g := 0 to |groups|
      invariant off == Offset(groups, g) && |s| == resamples
      invariant forall r :: 0 <= r < resamples ==> s[r] == MeanSum(mix, seed, Start(r, total), groups, g)
    {
      var column := Column(mix, seed, groups[g], total, off, resamples);
      s := seq(resamples, r requires 0 <= r < resamples => s[r] + column[r]);
      off := off + |groups[g]|;
    }
    stats := seq(resamples, r requires 0 <= r < resamples => s[r] / |groups| as real);
  }

  /** With SplitMix64's own output function: the vectorised bootstrap gives the sequential one's statistics. */
  method BothBootstraps(seed: int, groups: seq<Group>, resamples: nat)
    returns (sequential: seq<real>, vectorised: seq<real>)
    requires |groups| > 0 && forall g :: 0 <= g < |groups| ==> |groups[g]| < WORD
    ensures sequential == vectorised && |vectorised| == resamples
  {
    sequential := SequentialStats(Mix, seed, groups, resamples);
    vectorised := VectorStats(Mix, seed, groups, resamples);
  }

  type Indices = seq<seq<seq<int>>>

  /** The rows of one group, resample by resample. */
  ghost predicate DrawsOf(mix: U64 -> U64, seed: int, total: nat, off: nat, n: nat, rows: seq<seq<int>>)
  {
    forall r :: 0 <= r < |rows| ==>
      && |rows[r]| == n
      && forall i :: 0 <= i < n ==> rows[r][i] == Draw(mix, seed, Start(r, total) + off + i + 1, n)
  }

  ghost predicate SameDraws(mix: U64 -> U64, seed: int, sizes: seq<nat>, resamples: nat, out: Indices)
  {
    && |out| == |sizes|
    && forall g :: 0 <= g < |sizes| ==> GroupDrawn(mix, seed, sizes, resamples, g, out[g])
  }

  ghost predicate GroupDrawn(mix: U64 -> U64, seed: int, sizes: seq<nat>, resamples: nat, g: nat, rows: seq<seq<int>>)
    requires g < |sizes|
  {
    |rows| == resamples && DrawsOf(mix, seed, Total(sizes), Total(sizes[..g]), sizes[g], rows)
  }

  /** `z[:, off:off + n]`, scaled to indices. */
  method RowsOf(mix: U64 -> U64, seed: int, total: nat, off: nat, n: nat, resamples: nat)
    returns (rows: seq<seq<int>>)
    requires n < WORD
    ensures |rows| == resamples && DrawsOf(mix, seed, total, off, n, rows)
  {
    rows := [];
    for r := 0 to resamples
      invariant |rows| == r && DrawsOf(mix, seed, total, off, n, rows)
    {
      RowDraws(mix, seed, Start(r, total) + off, n);
      rows := rows + [Row(mix, seed, Start(r, total) + off, n)];
    }
  }

  method DrawIndices(mix: U64 -> U64, seed: int, sizes: seq<nat>, resamples: nat) returns (out: Indices)
    requires forall g :: 0 <= g < |sizes| ==> sizes[g] < WORD
    ensures SameDraws(mix, seed, sizes, resamples, out)
  {
    out := [];
    var total, off := Total(sizes), 0;
    for g := 0 to |sizes|
      invariant off == Total(sizes[..g]) && |out| == g
      invariant forall k :: 0 <= k < g ==> GroupDrawn(mix, seed, sizes, resamples, k, out[k])
    {
      TotalStep(sizes, g);
      var rows := RowsOf(mix, seed, total, off, sizes[g], resamples);
      assert GroupDrawn(mix, seed, sizes, resamples, g, rows);
      out := out + [rows];
      off := off + sizes[g];
    }
  }

  /** The vectorised bootstrap: its index draws depend on the group sizes only, and are cached. */
  class Boot {
    const mix: U64 -> U64
    const resamples: nat
    const seed: int
    var cache: map<seq<nat>, Indices>

    ghost predicate Valid() reads this
    {
      forall sizes :: sizes in cache ==> SameDraws(mix, seed, sizes, resamples, cache[sizes])
    }

    constructor (mix: U64 -> U64, resamples: nat, seed: int)
      ensures Valid() && this.mix == mix && this.resamples == resamples && this.seed == seed && cache == map[]
    {
      this.mix, this.resamples, this.seed, cache := mix, resamples, seed, map[];
    }

    /** `indices`: a cached answer is the answer a fresh computation gives. */
    method IndicesOf(sizes: seq<nat>) returns (out: Indices)
      requires Valid()
      requires forall g :: 0 <= g < |sizes| ==> sizes[g] < WORD
      modifies this
      ensures Valid() && SameDraws(mix, seed, sizes, resamples, out)
      ensures cache == old(cache)[sizes := out]
    {
      if sizes in cache {
        return cache[sizes];
      }
      out := DrawIndices(mix, seed, sizes, resamples);
      cache := cache[sizes := out];
    }
  }
}
