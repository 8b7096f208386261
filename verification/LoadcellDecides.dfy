/** What the load-cell analysers report, exactly: which stretches are joined, which steps become segments,
    which channels count, and what the zone makes of them. */
module LoadcellDecides {
  import opened Types
  import opened Sorting
  import opened Levels
  import opened Loadcell
  import opened Plateaus

  // ---- which stretches are joined ----

  /** Going back from sample `e`, a run covers as many samples as its length says, at least one and no more
      than there are. */
  lemma StretchCovers(runs: seq<int>, e: nat)
    requires e < |runs|
    ensures var covered := e - RunStart(runs, e) + 1;
            covered == if runs[e] < 1 then 1 else if runs[e] > e + 1 then e + 1 else runs[e]
  {
  }

  /** Level `g` is the stretches from `from` up to `to`: each of them lies within twice sigma of the mean of
      the samples before it in the level. */
  ghost predicate Group(xs: seq<real>, ls: seq<Level>, sigma: real, l: Level, from: nat, to: nat) {
    && from < to <= |ls| && l.start == ls[from].start && l.end == ls[to - 1].end
    && forall j :: from < j < to ==> JoinsAt(xs, ls, sigma, from, j)
  }

  ghost predicate JoinsAt(xs: seq<real>, ls: seq<Level>, sigma: real, from: nat, j: nat)
    requires from < j < |ls|
  {
    ls[from].start < ls[j].start <= |xs| && Abs(ls[j].mean - MeanOf(xs[ls[from].start..ls[j].start])) <= 2.0 * sigma
  }

  ghost predicate GroupAt(xs: seq<real>, ls: seq<Level>, sigma: real, ms: seq<Level>, cuts: seq<nat>, g: nat) {
    g < |ms| && g + 1 < |cuts| && Group(xs, ls, sigma, ms[g], cuts[g], cuts[g + 1])
  }

  ghost predicate CutAt(ls: seq<Level>, sigma: real, ms: seq<Level>, cuts: seq<nat>, g: nat) {
    && 0 < g < |ms| && g < |cuts| && cuts[g] < |ls|
    && Abs(ls[cuts[g]].mean - ms[g - 1].mean) > 2.0 * sigma
  }

  /** The cuts fall exactly where a stretch is further than twice sigma from the whole level before it. */
  ghost predicate Grouped(xs: seq<real>, ls: seq<Level>, sigma: real, ms: seq<Level>, cuts: seq<nat>) {
    && |cuts| == |ms| + 1 && cuts[0] == 0 && cuts[|ms|] == |ls|
    && (forall g :: 0 <= g < |ms| ==> GroupAt(xs, ls, sigma, ms, cuts, g))
    && forall g :: 0 < g < |ms| ==> CutAt(ls, sigma, ms, cuts, g)
  }

  lemma MeanIsQuotient(xs: seq<real>, l: Level)
    requires IsMean(xs, l)
    ensures l.mean == MeanOf(xs[l.start..l.end + 1])
  {
    TimesIsProduct(Length(l), l.mean);
    QuotientOfProduct(Length(l), l.mean);
  }

  lemma QuotientOfProduct(n: nat, m: real)
    requires n > 0
    ensures (n as real * m) / n as real == m
  {
  }

  lemma GroupGrows(xs: seq<real>, ls: seq<Level>, sigma: real, l: Level, from: nat, to: nat, joined: Level)
    requires to < |ls| && Group(xs, ls[..to], sigma, l, from, to) && IsMean(xs, l) && l.end + 1 == ls[to].start
    requires CloseTo(l, ls[to], sigma) && joined.start == l.start && joined.end == ls[to].end
    ensures Group(xs, ls[..to + 1], sigma, joined, from, to + 1)
  {
    var more := ls[..to + 1];
    MeanIsQuotient(xs, l);
    forall j | from < j < to + 1 ensures JoinsAt(xs, more, sigma, from, j) {
      assert j < to ==> JoinsAt(xs, ls[..to], sigma, from, j);
    }
  }

  lemma GroupKept(xs: seq<real>, ls: seq<Level>, sigma: real, l: Level, from: nat, to: nat, n: nat)
    requires n < |ls| && Group(xs, ls[..n], sigma, l, from, to)
    ensures Group(xs, ls[..n + 1], sigma, l, from, to)
  {
    var more := ls[..n + 1];
    forall j | from < j < to ensures JoinsAt(xs, more, sigma, from, j) {
      assert JoinsAt(xs, ls[..n], sigma, from, j);
    }
  }

  /** The merged levels and their exact means. */
  lemma {:induction false} MergedTiles(xs: seq<real>, ls: seq<Level>, sigma: real, hi: nat)
    requires Tiles(ls, 0, hi) && AllMeans(xs, ls)
    ensures var ms := MergedClose(ls, sigma);
            Tiles(ms, 0, hi) && AllMeans(xs, ms) && (ls == [] <==> ms == [])
    decreases |ls|
  {
    if ls != [] {
      var n := |ls| - 1;
      MergedTiles(xs, ls[..n], sigma, ls[n].start);
      var before := MergedClose(ls[..n], sigma);
      assert ls[n] in ls;
      if before != [] && CloseTo(before[|before| - 1], ls[n], sigma) {
        assert before[|before| - 1] in before;
        JoinIsMean(before[|before| - 1], ls[n], xs);
        ReplaceLast(xs, before, ls[n].start, Join(before[|before| - 1], ls[n]));
      } else {
        PushLevel(xs, before, ls[n]);
      }
    }
  }

  /** Neighbouring stretches are joined exactly when they are close to what was joined so far. */
  lemma {:induction false} MergeGroups(xs: seq<real>, ls: seq<Level>, sigma: real, hi: nat) returns (cuts: seq<nat>)
    requires Tiles(ls, 0, hi) && AllMeans(xs, ls)
    ensures Grouped(xs, ls, sigma, MergedClose(ls, sigma), cuts)
    decreases |ls|
  {
    if ls == [] {
      cuts := [0];
    } else {
      var n := |ls| - 1;
      var before := MergedClose(ls[..n], sigma);
      var was := MergeGroups(xs, ls[..n], sigma, ls[n].start);
      MergedTiles(xs, ls[..n], sigma, ls[n].start);
      assert ls[..n + 1] == ls && ls[n] in ls;
      if before != [] && CloseTo(before[|before| - 1], ls[n], sigma) {
        assert before[|before| - 1] in before;
        cuts := was[|before| := |ls|];
        JoinGroup(xs, ls, sigma, before, was);
      } else {
        cuts := was + [|ls|];
        CutGroup(xs, ls, sigma, before, was);
      }
    }
  }

  /** A longer list of stretches, and levels and cuts that agree up to group `g`. */
  lemma SameGroupAt(
      xs: seq<real>, ls: seq<Level>, sigma: real, before: seq<Level>, was: seq<nat>, ms: seq<Level>, cuts: seq<nat>,
      g: nat)
    requires ls != [] && GroupAt(xs, ls[..|ls| - 1], sigma, before, was, g)
    requires g < |ms| && g + 1 < |cuts| && ms[g] == before[g] && cuts[g] == was[g] && cuts[g + 1] == was[g + 1]
    ensures GroupAt(xs, ls, sigma, ms, cuts, g)
  {
    assert ls[..|ls| - 1 + 1] == ls;
    GroupKept(xs, ls, sigma, before[g], was[g], was[g + 1], |ls| - 1);
  }

  lemma SameCutAt(
      ls: seq<Level>, sigma: real, before: seq<Level>, was: seq<nat>, ms: seq<Level>, cuts: seq<nat>, g: nat)
    requires ls != [] && CutAt(ls[..|ls| - 1], sigma, before, was, g)
    requires g < |ms| && g < |cuts| && ms[g - 1] == before[g - 1] && cuts[g] == was[g]
    ensures CutAt(ls, sigma, ms, cuts, g)
  {
  }

  lemma JoinGroup(xs: seq<real>, ls: seq<Level>, sigma: real, before: seq<Level>, was: seq<nat>)
    requires ls != [] && before != [] && Grouped(xs, ls[..|ls| - 1], sigma, before, was)
    requires var last := before[|before| - 1];
             IsMean(xs, last) && last.end + 1 == ls[|ls| - 1].start && CloseTo(last, ls[|ls| - 1], sigma)
             && Length(last) + Length(ls[|ls| - 1]) >= 1
    ensures var last := before[|before| - 1];
            Grouped(xs, ls, sigma, before[|before| - 1 := Join(last, ls[|ls| - 1])], was[|before| := |ls|])
  {
    var n, m := |ls| - 1, |before| - 1;
    var ms, cuts := before[m := Join(before[m], ls[n])], was[|before| := |ls|];
    forall g | 0 <= g < |ms| ensures GroupAt(xs, ls, sigma, ms, cuts, g) {
      assert GroupAt(xs, ls[..n], sigma, before, was, g);
      if g < m {
        SameGroupAt(xs, ls, sigma, before, was, ms, cuts, g);
      } else {
        assert ls[..n + 1] == ls;
        GroupGrows(xs, ls, sigma, before[m], was[m], n, ms[m]);
      }
    }
    forall g | 0 < g < |ms| ensures CutAt(ls, sigma, ms, cuts, g) {
      assert CutAt(ls[..n], sigma, before, was, g);
      SameCutAt(ls, sigma, before, was, ms, cuts, g);
    }
  }

  lemma CutGroup(xs: seq<real>, ls: seq<Level>, sigma: real, before: seq<Level>, was: seq<nat>)
    requires ls != [] && Grouped(xs, ls[..|ls| - 1], sigma, before, was)
    requires before != [] ==> !CloseTo(before[|before| - 1], ls[|ls| - 1], sigma)
    requires before == [] ==> |ls| == 1
    ensures Grouped(xs, ls, sigma, before + [ls[|ls| - 1]], was + [|ls|])
  {
    var n := |ls| - 1;
    var ms, cuts := before + [ls[n]], was + [|ls|];
    forall g | 0 <= g < |ms| ensures GroupAt(xs, ls, sigma, ms, cuts, g) {
      if g < |before| {
        assert GroupAt(xs, ls[..n], sigma, before, was, g);
        SameGroupAt(xs, ls, sigma, before, was, ms, cuts, g);
      }
    }
    forall g | 0 < g < |ms| ensures CutAt(ls, sigma, ms, cuts, g) {
      if g < |before| {
        assert CutAt(ls[..n], sigma, before, was, g);
        SameCutAt(ls, sigma, before, was, ms, cuts, g);
      }
    }
  }

  // ---- which steps become segments ----

  /** The segments are the steps at the listed positions, in order: exactly those at least as large as the
      threshold, from the end of one level to the start of the next. */
  ghost predicate LargeSteps(
      ls: seq<Level>, ts: seq<real>, step: real, n: nat, segments: seq<WeightSegment>, at: seq<nat>)
    requires n <= |ls| && InRange(ls, ts)
  {
    && |at| == |segments| && (forall i, j :: 0 <= i < j < |at| ==> at[i] < at[j])
    && (forall k :: 0 <= k < |at| ==> at[k] + 1 < n && IsStep(ls, ts, step, at[k], segments[k]))
    && forall i: nat :: i + 1 < n && Large(ls, step, i) ==> i in at
  }

  predicate Large(ls: seq<Level>, step: real, i: nat)
    requires i + 1 < |ls|
  {
    ls[i + 1].mean - ls[i].mean >= step || ls[i].mean - ls[i + 1].mean >= step
  }

  predicate IsStep(ls: seq<Level>, ts: seq<real>, step: real, i: nat, s: WeightSegment)
    requires i + 1 < |ls| && InRange(ls, ts)
  {
    Large(ls, step, i) && s == WeightSegment(ts[ls[i].end], ts[ls[i + 1].start], ls[i + 1].mean - ls[i].mean)
  }

  lemma StepsSnoc(ls: seq<Level>, ts: seq<real>, step: real, n: nat)
    requires 2 <= n <= |ls| && InRange(ls, ts)
    ensures InRange(ls[..n], ts) && InRange(ls[..n - 1], ts)
    ensures Steps(ls[..n], ts, step) ==
            Steps(ls[..n - 1], ts, step)
              + if Large(ls, step, n - 2)
                then [WeightSegment(ts[ls[n - 2].end], ts[ls[n - 1].start], ls[n - 1].mean - ls[n - 2].mean)] else []
    ensures Dropped(ls[..n], step) == Dropped(ls[..n - 1], step) + if Large(ls, step, n - 2) then 0 else 1
  {
    assert ls[..n][..n - 1] == ls[..n - 1];
    assert forall l :: l in ls[..n] ==> l in ls;
  }

  lemma LargeStepsNext(
      ls: seq<Level>, ts: seq<real>, step: real, n: nat, segments: seq<WeightSegment>, at: seq<nat>)
    requires 2 <= n <= |ls| && InRange(ls, ts) && LargeSteps(ls, ts, step, n - 1, segments, at)
    ensures !Large(ls, step, n - 2) ==> LargeSteps(ls, ts, step, n, segments, at)
    ensures var s := WeightSegment(ts[ls[n - 2].end], ts[ls[n - 1].start], ls[n - 1].mean - ls[n - 2].mean);
            Large(ls, step, n - 2) ==> LargeSteps(ls, ts, step, n, segments + [s], at + [n - 2])
  {
  }

  lemma {:induction false} StepsAreLarge(ls: seq<Level>, ts: seq<real>, step: real, n: nat) returns (at: seq<nat>)
    requires n <= |ls| && InRange(ls, ts)
    ensures InRange(ls[..n], ts) && LargeSteps(ls, ts, step, n, Steps(ls[..n], ts, step), at)
    ensures |at| + Dropped(ls[..n], step) == if n == 0 then 0 else n - 1
  {
    assert forall l :: l in ls[..n] ==> l in ls;
    at := [];
    if n >= 2 {
      at := StepsAreLarge(ls, ts, step, n - 1);
      StepsSnoc(ls, ts, step, n);
      LargeStepsNext(ls, ts, step, n, Steps(ls[..n - 1], ts, step), at);
      assert Steps(ls[..n - 1], ts, step) + [] == Steps(ls[..n - 1], ts, step);
      if Large(ls, step, n - 2) {
        at := at + [n - 2];
      }
    }
  }

  // ---- what a channel amounts to ----

  /** A change-point channel: quiet below the weight that counts, waiting while a return has not lasted, else
      an event of its whole change with its large steps. */
  lemma ChannelDecides(ch: nat, ls: seq<Level>, ts: seq<real>, g: Gates)
    requires ls != [] && InRange(ls, ts)
    ensures var change, last := ls[|ls| - 1].mean - ls[0].mean, ls[|ls| - 1];
            var c := ChannelOf(ch, ls, ts, g);
            var counts := change >= g.minChange || -change >= g.minChange;
            if !counts then c == Quiet(change, |ls| > 1)
            else if change > 0.0 && ts[last.end] < ts[last.start] + g.wait then c == Returning(change)
            else
              c.Moving? && c.event.channel == ch && c.event.deltaGrams == change
              && c.event.segments == Steps(ls, ts, g.step) && c.dropped == Dropped(ls, g.step)
  {
  }

  /** A plateau channel: it fails when it is too short, or has one level and is not calm throughout; the
      rest as above, except that a return waits before the weight is asked for. */
  lemma TrayDecides(cfg: PlateauConfig, ch: nat, xs: seq<real>, ls: seq<Level>, ts: seq<real>)
    requires InRange(ls, ts) && cfg.window >= 1
    ensures var t := TrayOf(cfg, ch, xs, ls, ts);
            if |xs| < 2 * cfg.window then t == Fails(InsufficientSamples)
            else if |ls| < 2 then
              t == if Calm(xs, cfg.threshold) then Tray(Quiet(0.0, false), Sum(xs) / |xs| as real)
                   else Fails(InsufficientStableRegions)
            else
              var change, last := ls[|ls| - 1].mean - ls[0].mean, ls[|ls| - 1];
              t.Tray? && t.baseline == ls[0].mean &&
              if change > 0.0 && ts[last.end] < ts[last.start] + cfg.gates.wait then t.channel == Returning(change)
              else if change >= cfg.gates.minChange || -change >= cfg.gates.minChange then
                t.channel.Moving? && t.channel.event.channel == ch && t.channel.event.deltaGrams == change
                && t.channel.event.segments == Steps(ls, ts, cfg.gates.step)
                && t.channel.dropped == Dropped(ls, cfg.gates.step)
              else t.channel == Quiet(change, true)
  {
  }

  /** A single plateau channel: it needs two levels; a return that has not lasted waits with its change but
      no segments; otherwise the change and the large steps are reported, however small the change. */
  lemma SingleDecides(cfg: PlateauConfig, n: nat, ls: seq<Level>, ts: seq<real>)
    requires InRange(ls, ts)
    ensures var a := SingleAnalysis(cfg, n, ls, ts);
            && a.events == []
            && if n < 2 * cfg.window || |ls| < 2 then
                 && !a.stabilized && a.delta == 0.0 && a.segments == []
                 && a.reason == if n < 2 * cfg.window then InsufficientSamples else InsufficientStableRegions
               else
                 var last := ls[|ls| - 1];
                 var waits := a.delta > 0.0 && ts[last.end] < ts[last.start] + cfg.gates.wait;
                 && a.delta == last.mean - ls[0].mean && a.baseline == ls[0].mean && a.stabilized == !waits
                 && a.segments == (if waits then [] else Steps(ls, ts, cfg.gates.step))
                 && a.reason == if waits then NeedsReturnStabilization else NoReason
  {
  }

  // ---- what the zone makes of its channels ----

  predicate IsEvent(c: Channel) { c.Moving? }

  /** The changes of the channels that pass, added up. */
  function SumOver(cs: seq<Channel>, p: Channel -> bool): real {
    if cs == [] then 0.0 else (if p(cs[0]) then ChangeOf(cs[0]) else 0.0) + SumOver(cs[1..], p)
  }

  lemma {:induction false} SumOverSnoc(cs: seq<Channel>, c: Channel, p: Channel -> bool)
    ensures SumOver(cs + [c], p) == SumOver(cs, p) + if p(c) then ChangeOf(c) else 0.0
  {
    if cs == [] {
      assert cs + [c] == [c] && [c][1..] == [];
    } else {
      assert (cs + [c])[1..] == cs[1..] + [c];
      SumOverSnoc(cs[1..], c, p);
    }
  }

  function Waits(): Channel -> bool { (c: Channel) => c.Returning? }

  function Moves(): Channel -> bool { (c: Channel) => c.Moving? }

  function Any(): Channel -> bool { (c: Channel) => true }

  lemma {:induction false} TotalsAreSums(cs: seq<Channel>)
    ensures ReturningTotal(cs) == SumOver(cs, Waits())
    ensures EventTotal(EventsOf(cs)) == SumOver(cs, Moves())
    ensures ChangeTotal(cs) == SumOver(cs, Any())
    ensures forall e :: e in EventsOf(cs) <==> Moving(e, 0) in Undropped(cs)
  {
    if cs != [] {
      var n := |cs| - 1;
      var before := EventsOf(cs[..n]);
      assert cs == cs[..n] + [cs[n]];
      TotalsAreSums(cs[..n]);
      SumOverSnoc(cs[..n], cs[n], Waits());
      SumOverSnoc(cs[..n], cs[n], Moves());
      SumOverSnoc(cs[..n], cs[n], Any());
      if cs[n].Moving? {
        assert (before + [cs[n].event])[..|before|] == before;
      } else {
        assert before + [] == before;
      }
    }
  }

  ghost function Undropped(cs: seq<Channel>): set<Channel> { set c | c in cs && c.Moving? :: Moving(c.event, 0) }

  lemma {:induction false} SegmentsOfEvents(es: seq<ChannelEvent>)
    ensures forall s :: s in AllSegments(es) <==> exists e :: e in es && s in e.segments
  {
    if es != [] {
      var n := |es| - 1;
      assert es == es[..n] + [es[n]];
      SegmentsOfEvents(es[..n]);
    }
  }

  /** While a return is settling the zone waits, and reports what returned and what moved; otherwise the
      events and their segments in order of time; without events only that something moved, or nothing. */
  lemma ZoneDecides(cs: seq<Channel>, baseline: real)
    ensures var a := Combine(cs, baseline);
            a.baseline == baseline &&
            if exists c :: c in cs && c.Returning? then
              && !a.stabilized && a.reason == NeedsReturnStabilization && a.events == [] && a.segments == []
              && a.delta == SumOver(cs, Waits()) + SumOver(cs, Moves())
            else if exists c :: c in cs && c.Moving? then
              && a.stabilized && a.reason == NoReason && a.delta == SumOver(cs, Moves())
              && (forall e :: e in a.events <==> Moving(e, 0) in Undropped(cs))
              && (forall s :: s in a.segments <==> exists e :: e in a.events && s in e.segments)
              && forall i, j :: 0 <= i < j < |a.segments| ==> a.segments[i].startTs <= a.segments[j].startTs
            else if exists c :: c in cs && c.Quiet? && c.moved then
              a.stabilized && a.delta == SumOver(cs, Any()) && a.events == [] && a.segments == []
            else
              && !a.stabilized && a.delta == 0.0 && a.reason == InsufficientStableRegions && a.events == []
              && a.segments == []
  {
    TotalsAreSums(cs);
    NoEvents(cs);
    SegmentsOfEvents(EventsOf(cs));
    SortMembers(AllSegments(EventsOf(cs)), StartsFirst);
    StableSortSorts(AllSegments(EventsOf(cs)), StartsFirst);
  }

  lemma {:induction false} NoEvents(cs: seq<Channel>)
    ensures EventsOf(cs) != [] <==> exists c :: c in cs && c.Moving?
  {
    if cs != [] {
      assert cs == cs[..|cs| - 1] + [cs[|cs| - 1]];
      NoEvents(cs[..|cs| - 1]);
    }
  }

  // ---- what calm means ----

  predicate SquareWithin(x: real, mean: real, t: real) { (x - mean) * (x - mean) <= t }

  lemma {:induction false} SquaredOffBounds(xs: seq<real>, mean: real, t: real)
    ensures SquaredOff(xs, mean) >= 0.0
    ensures (forall x :: x in xs ==> SquareWithin(x, mean, t)) ==> SquaredOff(xs, mean) <= Times(|xs|, t)
    ensures forall x :: x in xs ==> SquareWithin(x, mean, SquaredOff(xs, mean))
  {
    if xs != [] {
      var n := |xs| - 1;
      assert xs == xs[..n] + [xs[n]];
      SquaredOffBounds(xs[..n], mean, t);
      OneMoreSquare(xs, mean, t);
      assert xs[n] in xs;
    }
  }

  lemma OneMoreSquare(xs: seq<real>, mean: real, t: real)
    requires xs != []
    ensures var n := |xs| - 1;
            && SquaredOff(xs, mean) >= SquaredOff(xs[..n], mean)
            && (SquaredOff(xs[..n], mean) >= 0.0 ==> SquareWithin(xs[n], mean, SquaredOff(xs, mean)))
            && (SquareWithin(xs[n], mean, t) && SquaredOff(xs[..n], mean) <= Times(n, t) ==>
                SquaredOff(xs, mean) <= Times(n + 1, t))
            && forall x, bound :: SquareWithin(x, mean, bound) && bound <= SquaredOff(xs[..n], mean) ==>
                 SquareWithin(x, mean, SquaredOff(xs, mean))
  {
    SquareIsPositive(xs[|xs| - 1] - mean);
  }

  lemma SquareIsPositive(d: real)
    ensures d * d >= 0.0
  {
    if d < 0.0 {
      assert (-d) * (-d) >= 0.0;
    }
  }

  lemma SquareOfBounded(d: real, t: real)
    requires -t <= d <= t
    ensures d * d <= t * t
  {
    assert (t - d) * (t + d) >= 0.0;
  }

  lemma AtMostTimes(total: real, n: nat, t: real)
    requires n > 0
    ensures total <= Times(n, t) <==> total / n as real <= t
  {
    TimesIsProduct(n, t);
  }

  /** A window whose samples all lie within the threshold of their mean is calm. */
  lemma CalmWhenClose(xs: seq<real>, threshold: real)
    requires xs != [] && forall x :: x in xs ==> -threshold <= x - MeanOf(xs) <= threshold
    ensures Calm(xs, threshold)
  {
    assert xs[0] in xs;
    forall x | x in xs ensures SquareWithin(x, MeanOf(xs), threshold * threshold) {
      SquareOfBounded(x - MeanOf(xs), threshold);
    }
    SquaredOffBounds(xs, MeanOf(xs), threshold * threshold);
    AtMostTimes(SquaredOff(xs, MeanOf(xs)), |xs|, threshold * threshold);
  }

  /** In a calm window no sample strays further than the root of its length times the threshold. */
  lemma CalmBoundsEach(xs: seq<real>, threshold: real)
    requires xs != [] && Calm(xs, threshold)
    ensures forall x :: x in xs ==> SquareWithin(x, MeanOf(xs), Times(|xs|, threshold * threshold))
  {
    SquaredOffBounds(xs, MeanOf(xs), 0.0);
    AtMostTimes(SquaredOff(xs, MeanOf(xs)), |xs|, threshold * threshold);
  }
}
