/** Load-cell levels: stretches of samples with their mean. The change-point reconstruction partitions
    the samples, keeps every mean exact, and what is emitted as steps differs from the whole change by a
    bounded amount. */
module Levels {
  import opened Types

  datatype Level = Level(start: nat, end: nat, mean: real)

  function Sum(xs: seq<real>): real { if xs == [] then 0.0 else Sum(xs[..|xs| - 1]) + xs[|xs| - 1] }

  function Length(l: Level): nat { if l.start <= l.end then l.end - l.start + 1 else 0 }

  /** The mean of exactly the samples it spans. */
  ghost predicate IsMean(xs: seq<real>, l: Level) {
    l.start <= l.end < |xs| && Times(Length(l), l.mean) == Sum(xs[l.start..l.end + 1])
  }

  ghost predicate AllMeans(xs: seq<real>, ls: seq<Level>) { forall l :: l in ls ==> IsMean(xs, l) }

  /** The levels cover `lo..hi` in order, without gap or overlap. */
  ghost predicate Tiles(ls: seq<Level>, lo: nat, hi: nat) {
    if ls == [] then lo == hi
    else
      var last := ls[|ls| - 1];
      last.start <= last.end && last.end + 1 == hi && Tiles(ls[..|ls| - 1], lo, last.start)
  }

  // ---- sums ----

  lemma {:induction false} SumConcat(a: seq<real>, b: seq<real>)
    ensures Sum(a + b) == Sum(a) + Sum(b)
  {
    if b == [] {
      assert a + b == a;
    } else {
      assert (a + b)[..|a + b| - 1] == a + b[..|b| - 1];
      SumConcat(a, b[..|b| - 1]);
    }
  }

  lemma {:induction false} TimesIsProduct(n: nat, w: real)
    ensures Times(n, w) == n as real * w
  {
    if n > 0 {
      TimesIsProduct(n - 1, w);
    }
  }

  lemma MeanTimesCount(sum: real, n: nat)
    requires n >= 1
    ensures Times(n, sum / n as real) == sum
  {
    TimesIsProduct(n, sum / n as real);
  }

  function MeanOf(xs: seq<real>): real
    requires xs != []
  {
    Sum(xs) / |xs| as real
  }

  // ---- tilings ----

  lemma {:induction false} TilesBounds(ls: seq<Level>, lo: nat, hi: nat)
    requires Tiles(ls, lo, hi)
    ensures lo <= hi && forall l :: l in ls ==> lo <= l.start <= l.end < hi
  {
    if ls != [] {
      TilesBounds(ls[..|ls| - 1], lo, ls[|ls| - 1].start);
      assert ls == ls[..|ls| - 1] + [ls[|ls| - 1]];
    }
  }

  function StartOf(ls: seq<Level>, lo: nat, k: nat): nat
    requires k <= |ls|
  {
    if k == 0 then lo else ls[k - 1].end + 1
  }

  /** Each level starts where the one before ended. */
  lemma {:induction false} TilesChain(ls: seq<Level>, lo: nat, hi: nat, k: nat)
    requires Tiles(ls, lo, hi) && k <= |ls|
    ensures if k < |ls| then ls[k].start == StartOf(ls, lo, k) else StartOf(ls, lo, k) == hi
  {
    if ls != [] {
      var n := |ls| - 1;
      if k < n {
        TilesChain(ls[..n], lo, ls[n].start, k);
      } else if k == n {
        TilesChain(ls[..n], lo, ls[n].start, n);
      }
    }
  }

  /** The mean of two stretches, weighted by their lengths. */
  function Weighted(a: real, na: nat, b: real, nb: nat): real
    requires na + nb >= 1
  {
    (a * na as real + b * nb as real) / (na + nb) as real
  }

  lemma WeightedTimesCount(a: real, na: nat, b: real, nb: nat)
    requires na + nb >= 1
    ensures Times(na + nb, Weighted(a, na, b, nb)) == Times(na, a) + Times(nb, b)
  {
    MeanTimesCount(a * na as real + b * nb as real, na + nb);
    TimesIsProduct(na, a);
    TimesIsProduct(nb, b);
  }

  function Join(a: Level, b: Level): Level
    requires Length(a) + Length(b) >= 1
  {
    Level(a.start, b.end, Weighted(a.mean, Length(a), b.mean, Length(b)))
  }

  /** Adjacent means, weighted by their lengths, give the mean of the union. */
  lemma JoinIsMean(a: Level, b: Level, xs: seq<real>)
    requires IsMean(xs, a) && IsMean(xs, b) && a.end + 1 == b.start
    ensures IsMean(xs, Join(a, b))
  {
    assert xs[a.start..a.end + 1] + xs[b.start..b.end + 1] == xs[a.start..b.end + 1];
    SumConcat(xs[a.start..a.end + 1], xs[b.start..b.end + 1]);
    WeightedTimesCount(a.mean, Length(a), b.mean, Length(b));
  }

  /** Mean times length, summed over all levels. */
  function Mass(ls: seq<Level>): real {
    if ls == [] then 0.0 else Mass(ls[..|ls| - 1]) + Times(Length(ls[|ls| - 1]), ls[|ls| - 1].mean)
  }

  lemma {:induction false} MassIsSum(xs: seq<real>, ls: seq<Level>, lo: nat, hi: nat)
    requires Tiles(ls, lo, hi) && hi <= |xs| && AllMeans(xs, ls)
    ensures lo <= hi && Mass(ls) == Sum(xs[lo..hi])
  {
    TilesBounds(ls, lo, hi);
    if ls != [] {
      var n := |ls| - 1;
      TilesBounds(ls[..n], lo, ls[n].start);
      MassIsSum(xs, ls[..n], lo, ls[n].start);
      assert ls[n] in ls;
      assert xs[lo..ls[n].start] + xs[ls[n].start..hi] == xs[lo..hi];
      SumConcat(xs[lo..ls[n].start], xs[ls[n].start..hi]);
    }
  }

  // ---- reconstruction from run lengths ----

  function Reverse(ls: seq<Level>): seq<Level> { if ls == [] then [] else [ls[|ls| - 1]] + Reverse(ls[..|ls| - 1]) }

  /** Where the run that ends at `e` begins: never after `e`, never before the first sample. */
  function RunStart(runs: seq<int>, e: nat): (s: nat)
    requires e < |runs|
    ensures s <= e
  {
    Min(e, Max(0, e - runs[e] + 1))
  }

  /** The stretches of the runs that cover the samples up to but excluding `end`: each ends where the next begins. */
  function Stretches(xs: seq<real>, runs: seq<int>, end: nat): seq<Level>
    requires end <= |xs| == |runs|
    decreases end
  {
    if end == 0 then []
    else
      var s := RunStart(runs, end - 1);
      Stretches(xs, runs, s) + [Level(s, end - 1, MeanOf(xs[s..end]))]
  }

  lemma {:induction false} StretchesTile(xs: seq<real>, runs: seq<int>, end: nat)
    requires end <= |xs| == |runs|
    ensures Tiles(Stretches(xs, runs, end), 0, end) && AllMeans(xs, Stretches(xs, runs, end))
    decreases end
  {
    if end > 0 {
      var s := RunStart(runs, end - 1);
      var l := Level(s, end - 1, MeanOf(xs[s..end]));
      StretchesTile(xs, runs, s);
      MeanTimesCount(Sum(xs[s..end]), end - s);
      PushLevel(xs, Stretches(xs, runs, s), l);
    }
  }

  /** Walks back from the last sample, one run at a time. Any run-length vector will do. */
  method Reconstruct(xs: seq<real>, runs: seq<int>) returns (ls: seq<Level>)
    requires |runs| == |xs|
    ensures ls == Stretches(xs, runs, |xs|)
  {
    var found: seq<Level> := [];
    var e: int := |xs| - 1;
    while e >= 0
      invariant -1 <= e < |xs|
      invariant Stretches(xs, runs, e + 1) + Reverse(found) == Stretches(xs, runs, |xs|)
      decreases e
    {
      var s: int := RunStart(runs, e);
      var l := Level(s, e, MeanOf(xs[s..e + 1]));
      ghost var before := Stretches(xs, runs, s);
      assert (found + [l])[..|found|] == found;
      assert (before + [l]) + Reverse(found) == before + ([l] + Reverse(found));
      found := found + [l];
      e := s - 1;
    }
    ls := Reverse(found);
    assert [] + ls == ls;
  }

  predicate CloseTo(a: Level, b: Level, sigma: real) { Abs(b.mean - a.mean) <= 2.0 * sigma }

  /** One more level: joined to the last one if close to it, else appended. */
  function MergedInto(before: seq<Level>, l: Level, sigma: real): seq<Level> {
    var n := |before| - 1;
    if before != [] && CloseTo(before[n], l, sigma) && Length(before[n]) + Length(l) >= 1
    then before[n := Join(before[n], l)]
    else before + [l]
  }

  function MergedClose(ls: seq<Level>, sigma: real): seq<Level> {
    if ls == [] then [] else MergedInto(MergedClose(ls[..|ls| - 1], sigma), ls[|ls| - 1], sigma)
  }

  /** The levels of a channel: the stretches of its runs, close neighbours joined. */
  function LevelsOf(xs: seq<real>, runs: seq<int>, sigma: real): seq<Level>
    requires |runs| == |xs|
  {
    MergedClose(Stretches(xs, runs, |xs|), sigma)
  }

  lemma PushLevel(xs: seq<real>, ls: seq<Level>, l: Level)
    requires Tiles(ls, 0, l.start) && AllMeans(xs, ls) && IsMean(xs, l)
    ensures Tiles(ls + [l], 0, l.end + 1) && AllMeans(xs, ls + [l])
  {
    assert (ls + [l])[..|ls|] == ls;
  }

  lemma ReplaceLast(xs: seq<real>, ls: seq<Level>, hi: nat, joined: Level)
    requires ls != [] && Tiles(ls, 0, hi) && AllMeans(xs, ls) && IsMean(xs, joined)
             && joined.start == ls[|ls| - 1].start
    ensures var r := ls[|ls| - 1 := joined]; Tiles(r, 0, joined.end + 1) && AllMeans(xs, r)
  {
    var n := |ls| - 1;
    var r := ls[n := joined];
    assert r[..n] == ls[..n];
    forall l | l in r ensures IsMean(xs, l) {
      assert l in ls || l == joined;
    }
  }

  /** Joins neighbours whose levels are within twice sigma. */
  method MergeClose(ghost xs: seq<real>, ls: seq<Level>, sigma: real) returns (merged: seq<Level>)
    requires Tiles(ls, 0, |xs|) && AllMeans(xs, ls)
    ensures merged == MergedClose(ls, sigma)
    ensures Tiles(merged, 0, |xs|) && AllMeans(xs, merged)
    ensures |merged| <= |ls| && (ls != [] ==> merged != [])
  {
    merged := [];
    for k := 0 to |ls|
      invariant merged == MergedClose(ls[..k], sigma)
      invariant Tiles(merged, 0, StartOf(ls, 0, k)) && AllMeans(xs, merged)
      invariant |merged| <= k && (k > 0 ==> merged != [])
    {
      var l := ls[k];
      TilesChain(ls, 0, |xs|, k);
      assert l in ls && ls[..k + 1][..k] == ls[..k];
      merged := MergeOne(xs, merged, l, sigma);
    }
    TilesChain(ls, 0, |xs|, |ls|);
    assert ls[..|ls|] == ls;
  }

  method MergeOne(ghost xs: seq<real>, before: seq<Level>, l: Level, sigma: real) returns (merged: seq<Level>)
    requires Tiles(before, 0, l.start) && AllMeans(xs, before) && IsMean(xs, l)
    ensures merged == MergedInto(before, l, sigma)
    ensures Tiles(merged, 0, l.end + 1) && AllMeans(xs, merged)
    ensures merged != [] && |merged| <= |before| + 1
  {
    var n := |before| - 1;
    if before != [] && CloseTo(before[n], l, sigma) {
      assert before[n] in before;
      JoinIsMean(before[n], l, xs);
      ReplaceLast(xs, before, l.start, Join(before[n], l));
      merged := before[n := Join(before[n], l)];
    } else {
      PushLevel(xs, before, l);
      merged := before + [l];
    }
  }

  /** For any run lengths the reconstruction ends; raw and merged levels partition the samples in order,
      every level is the exact mean of its stretch, and no mass is lost. */
  method Segments(xs: seq<real>, runs: seq<int>, sigma: real) returns (merged: seq<Level>)
    requires |runs| == |xs| > 0
    ensures merged == LevelsOf(xs, runs, sigma)
    ensures merged != [] && Tiles(merged, 0, |xs|) && AllMeans(xs, merged) && Mass(merged) == Sum(xs)
  {
    var ls := Reconstruct(xs, runs);
    StretchesTile(xs, runs, |xs|);
    merged := MergeClose(xs, ls, sigma);
    MassIsSum(xs, merged, 0, |xs|);
    assert xs[0..|xs|] == xs;
  }
}
