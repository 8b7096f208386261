/** Both load-cell analysers: per-channel levels become a change and its steps, and the channels are
    combined into one analysis. */
module Loadcell {
  import opened Types
  import opened Sorting
  import opened Levels

  // ---- steps between levels ----

  function StepAt(ls: seq<Level>, i: nat): real
    requires i + 1 < |ls|
  {
    ls[i + 1].mean - ls[i].mean
  }

  predicate InRange(ls: seq<Level>, ts: seq<real>) { forall l :: l in ls ==> l.start < |ts| && l.end < |ts| }

  /** The steps large enough to report, in order. */
  function Steps(ls: seq<Level>, ts: seq<real>, step: real): seq<WeightSegment>
    requires InRange(ls, ts)
  {
    if |ls| < 2 then []
    else
      var n := |ls| - 2;
      var before := Steps(ls[..n + 1], ts, step);
      if Abs(StepAt(ls, n)) >= step
      then before + [WeightSegment(ts[ls[n].end], ts[ls[n + 1].start], StepAt(ls, n))]
      else before
  }

  function Dropped(ls: seq<Level>, step: real): nat {
    if |ls| < 2 then 0
    else Dropped(ls[..|ls| - 1], step) + if Abs(StepAt(ls, |ls| - 2)) >= step then 0 else 1
  }

  function Total(ss: seq<WeightSegment>): real { if ss == [] then 0.0 else ss[0].deltaGrams + Total(ss[1..]) }

  function Change(ls: seq<Level>): real
    requires ls != []
  {
    ls[|ls| - 1].mean - ls[0].mean
  }

  lemma {:induction false} TotalConcat(a: seq<WeightSegment>, b: seq<WeightSegment>)
    ensures Total(a + b) == Total(a) + Total(b)
  {
    if a == [] {
      assert a + b == b;
    } else {
      assert (a + b)[1..] == a[1..] + b;
      TotalConcat(a[1..], b);
    }
  }

  /** The reported steps telescope: they miss the change by less than one threshold per dropped step. */
  lemma {:induction false} StepsTelescope(ls: seq<Level>, ts: seq<real>, step: real)
    requires ls != [] && InRange(ls, ts) && step >= 0.0
    ensures Abs(Change(ls) - Total(Steps(ls, ts, step))) <= Times(Dropped(ls, step), step)
  {
    if |ls| >= 2 {
      var n := |ls| - 2;
      StepsTelescope(ls[..n + 1], ts, step);
      var last := WeightSegment(ts[ls[n].end], ts[ls[n + 1].start], StepAt(ls, n));
      TotalConcat(Steps(ls[..n + 1], ts, step), [last]);
      assert [last][1..] == [] && Total([last]) == StepAt(ls, n);
    }
  }

  // ---- combining channels ----

  datatype LoadReason = NoReason | InsufficientSamples | InsufficientStableRegions | NeedsReturnStabilization

  datatype ChannelEvent = ChannelEvent(channel: nat, deltaGrams: real, segments: seq<WeightSegment>)

  datatype Analysis = Analysis(
    delta: real,
    segments: seq<WeightSegment>,
    stabilized: bool,
    baseline: real,
    reason: LoadReason,
    events: seq<ChannelEvent>)

  function EventTotal(es: seq<ChannelEvent>): real {
    if es == [] then 0.0 else EventTotal(es[..|es| - 1]) + es[|es| - 1].deltaGrams
  }

  function AllSegments(es: seq<ChannelEvent>): seq<WeightSegment> {
    if es == [] then [] else AllSegments(es[..|es| - 1]) + es[|es| - 1].segments
  }

  function StartsFirst(a: WeightSegment, b: WeightSegment): bool { a.startTs <= b.startTs }

  function Chronological(es: seq<ChannelEvent>): seq<WeightSegment> { StableSort(AllSegments(es), StartsFirst) }

  /** What a channel amounts to. */
  datatype Channel =
    | Quiet(change: real, moved: bool)
    | Returning(change: real)
    | Moving(event: ChannelEvent, dropped: nat)

  /** An event whose steps explain its change but for the dropped ones. */
  ghost predicate Faithful(c: Channel, step: real) {
    c.Moving? ==> Abs(c.event.deltaGrams - Total(c.event.segments)) <= Times(c.dropped, step)
  }

  function EventsOf(cs: seq<Channel>): seq<ChannelEvent> {
    if cs == [] then []
    else
      var c := cs[|cs| - 1];
      EventsOf(cs[..|cs| - 1]) + if c.Moving? then [c.event] else []
  }

  function ReturningTotal(cs: seq<Channel>): real {
    if cs == [] then 0.0
    else
      var c := cs[|cs| - 1];
      ReturningTotal(cs[..|cs| - 1]) + if c.Returning? then c.change else 0.0
  }

  function ChangeOf(c: Channel): real { if c.Moving? then c.event.deltaGrams else c.change }

  function ChangeTotal(cs: seq<Channel>): real {
    if cs == [] then 0.0 else ChangeTotal(cs[..|cs| - 1]) + ChangeOf(cs[|cs| - 1])
  }

  function DroppedTotal(cs: seq<Channel>): nat {
    if cs == [] then 0
    else
      var c := cs[|cs| - 1];
      DroppedTotal(cs[..|cs| - 1]) + if c.Moving? then c.dropped else 0
  }

  lemma {:induction false} TimesAdds(m: nat, n: nat, w: real)
    ensures Times(m + n, w) == Times(m, w) + Times(n, w)
  {
    if m > 0 {
      TimesAdds(m - 1, n, w);
    }
  }

  lemma PushEvent(before: seq<ChannelEvent>, e: ChannelEvent)
    ensures EventTotal(before + [e]) == EventTotal(before) + e.deltaGrams
    ensures Total(AllSegments(before + [e])) == Total(AllSegments(before)) + Total(e.segments)
  {
    assert (before + [e])[..|before|] == before;
    TotalConcat(AllSegments(before), e.segments);
  }

  /** The events' changes and their segments differ by no more than the dropped steps allow. */
  ghost predicate Telescopes(cs: seq<Channel>, step: real) {
    Abs(EventTotal(EventsOf(cs)) - Total(AllSegments(EventsOf(cs)))) <= Times(DroppedTotal(cs), step)
  }

  lemma OneMoreEvent(before: seq<ChannelEvent>, e: ChannelEvent, m: nat, n: nat, step: real)
    requires Abs(EventTotal(before) - Total(AllSegments(before))) <= Times(m, step)
    requires Abs(e.deltaGrams - Total(e.segments)) <= Times(n, step)
    ensures Abs(EventTotal(before + [e]) - Total(AllSegments(before + [e]))) <= Times(m + n, step)
  {
    PushEvent(before, e);
    TimesAdds(m, n, step);
  }

  lemma {:induction false} EventsTelescope(cs: seq<Channel>, step: real)
    requires forall c :: c in cs ==> Faithful(c, step)
    ensures Telescopes(cs, step)
  {
    if cs != [] {
      var n := |cs| - 1;
      var before := EventsOf(cs[..n]);
      assert cs == cs[..n] + [cs[n]] && before + [] == before;
      EventsTelescope(cs[..n], step);
      assert Faithful(cs[n], step);
      if cs[n].Moving? {
        OneMoreEvent(before, cs[n].event, DroppedTotal(cs[..n]), cs[n].dropped, step);
      }
    }
  }

  lemma {:induction false} InsertTotal(s: WeightSegment, ss: seq<WeightSegment>)
    ensures Total(Insert(s, ss, StartsFirst)) == s.deltaGrams + Total(ss)
  {
    assert ([s] + ss)[1..] == ss;
    if ss != [] && !StartsFirst(s, ss[0]) {
      InsertTotal(s, ss[1..]);
      assert ([ss[0]] + Insert(s, ss[1..], StartsFirst))[1..] == Insert(s, ss[1..], StartsFirst);
    }
  }

  lemma {:induction false} SortTotal(ss: seq<WeightSegment>)
    ensures Total(StableSort(ss, StartsFirst)) == Total(ss)
  {
    if ss != [] {
      SortTotal(ss[1..]);
      InsertTotal(ss[0], StableSort(ss[1..], StartsFirst));
    }
  }

  /** The zone's change differs from the sum of its emitted segments by at most one threshold for every
      step dropped, over all its channels. */
  lemma ZoneTelescopes(cs: seq<Channel>, step: real)
    requires forall c :: c in cs ==> Faithful(c, step)
    ensures Abs(EventTotal(EventsOf(cs)) - Total(Chronological(EventsOf(cs)))) <= Times(DroppedTotal(cs), step)
  {
    EventsTelescope(cs, step);
    SortTotal(AllSegments(EventsOf(cs)));
  }

  predicate AnyReturning(cs: seq<Channel>) { exists c :: c in cs && c.Returning? }

  predicate AnyMoved(cs: seq<Channel>) { exists c :: c in cs && c.Quiet? && c.moved }

  /** How the channels of a zone make up its analysis; the same for both analysers. */
  function Combine(cs: seq<Channel>, baseline: real): Analysis {
    var events := EventsOf(cs);
    if AnyReturning(cs)
      then Analysis(ReturningTotal(cs) + EventTotal(events), [], false, baseline, NeedsReturnStabilization, [])
    else if events != [] then Analysis(EventTotal(events), Chronological(events), true, baseline, NoReason, events)
    else if AnyMoved(cs) then Analysis(ChangeTotal(cs), [], true, baseline, NoReason, [])
    else Analysis(0.0, [], false, baseline, InsufficientStableRegions, [])
  }

  function Failure(reason: LoadReason): Analysis { Analysis(0.0, [], false, 0.0, reason, []) }

  /** A stabilised analysis with events: its segments miss its change by at most one threshold for every step
      dropped. */
  lemma SegmentsExplainChange(cs: seq<Channel>, baseline: real, step: real)
    requires forall c :: c in cs ==> Faithful(c, step)
    ensures var a := Combine(cs, baseline);
            a.events != [] ==> a.stabilized && Abs(a.delta - Total(a.segments)) <= Times(DroppedTotal(cs), step)
  {
    ZoneTelescopes(cs, step);
  }

  // ---- samples ----

  datatype Sample = Sample(ts: real, values: seq<real>)

  function Stamps(samples: seq<Sample>): seq<real> { seq(|samples|, i requires 0 <= i < |samples| => samples[i].ts) }

  /** One tray; a missing reading counts as zero. */
  function Column(samples: seq<Sample>, ch: nat): seq<real> {
    seq(|samples|, i requires 0 <= i < |samples| => if ch < |samples[i].values| then samples[i].values[ch] else 0.0)
  }

  function Totals(samples: seq<Sample>): seq<real> {
    seq(|samples|, i requires 0 <= i < |samples| => Sum(samples[i].values))
  }

  datatype Gates = Gates(minChange: real, step: real, wait: real)

  function Duration(l: Level, ts: seq<real>): real
    requires l.start < |ts| && l.end < |ts|
  {
    ts[l.end] - ts[l.start]
  }

  // ---- change-point analyser ----

  function ChannelOf(ch: nat, ls: seq<Level>, ts: seq<real>, g: Gates): Channel
    requires ls != [] && InRange(ls, ts)
  {
    var change := Change(ls);
    if Abs(change) < g.minChange then Quiet(change, |ls| >= 2)
    else if change > 0.0 && Duration(ls[|ls| - 1], ts) < g.wait then Returning(change)
    else Moving(ChannelEvent(ch, change, Steps(ls, ts, g.step)), Dropped(ls, g.step))
  }

  lemma ChannelIsFaithful(ch: nat, ls: seq<Level>, ts: seq<real>, g: Gates)
    requires ls != [] && InRange(ls, ts) && g.step >= 0.0
    ensures Faithful(ChannelOf(ch, ls, ts, g), g.step)
  {
    StepsTelescope(ls, ts, g.step);
  }

  /** One channel: its levels partition the samples and its steps come from them. */
  ghost predicate ChannelFrom(
      samples: seq<Sample>, ch: nat, runs: seq<int>, sigma: real, g: Gates, ls: seq<Level>, c: Channel)
    requires |runs| == |samples|
  {
    var xs, ts := Column(samples, ch), Stamps(samples);
    && ls == LevelsOf(xs, runs, sigma) && ls != [] && Tiles(ls, 0, |xs|) && AllMeans(xs, ls) && Mass(ls) == Sum(xs)
    && InRange(ls, ts) && c == ChannelOf(ch, ls, ts, g)
  }

  /** All channels so far, each with its levels. */
  ghost predicate ChannelsFrom(
      samples: seq<Sample>, runs: seq<seq<int>>, sigma: real, g: Gates, levels: seq<seq<Level>>, cs: seq<Channel>)
    requires forall r :: r in runs ==> |r| == |samples|
  {
    && |cs| == |levels| <= |runs|
    && forall ch :: 0 <= ch < |cs| ==> ChannelFrom(samples, ch, runs[ch], sigma, g, levels[ch], cs[ch])
  }

  lemma ChannelsSnoc(
      samples: seq<Sample>, runs: seq<seq<int>>, sigma: real, g: Gates, levels: seq<seq<Level>>, cs: seq<Channel>,
      ls: seq<Level>, c: Channel)
    requires (forall r :: r in runs ==> |r| == |samples|) && |cs| < |runs|
    requires ChannelsFrom(samples, runs, sigma, g, levels, cs)
             && ChannelFrom(samples, |cs|, runs[|cs|], sigma, g, ls, c)
    ensures ChannelsFrom(samples, runs, sigma, g, levels + [ls], cs + [c])
  {
    forall ch | 0 <= ch < |cs| + 1
      ensures ChannelFrom(samples, ch, runs[ch], sigma, g, (levels + [ls])[ch], (cs + [c])[ch])
    {
      assert ch < |cs| ==> ChannelFrom(samples, ch, runs[ch], sigma, g, levels[ch], cs[ch]);
    }
  }

  method AnalyzeChannel(samples: seq<Sample>, ch: nat, runs: seq<int>, sigma: real, g: Gates)
    returns (c: Channel, ls: seq<Level>)
    requires |runs| == |samples| > 0
    ensures ChannelFrom(samples, ch, runs, sigma, g, ls, c)
    ensures ls != [] && (c.Quiet? ==> c.moved == (|ls| >= 2))
  {
    var xs := Column(samples, ch);
    ls := Segments(xs, runs, sigma);
    TilesBounds(ls, 0, |xs|);
    c := ChannelOf(ch, ls, Stamps(samples), g);
  }

  /** The running totals of the channel loop. */
  datatype Sums = Sums(events: seq<ChannelEvent>, pending: bool, pendingDelta: real, moved: bool, delta: real)

  ghost predicate Accumulates(cs: seq<Channel>, s: Sums) {
    && s.events == EventsOf(cs) && s.pending == AnyReturning(cs) && s.pendingDelta == ReturningTotal(cs)
    && s.delta == ChangeTotal(cs) && (s.events == [] && !s.pending ==> s.moved == AnyMoved(cs))
  }

  lemma AccumulatesSnoc(cs: seq<Channel>, c: Channel)
    ensures EventsOf(cs + [c]) == EventsOf(cs) + if c.Moving? then [c.event] else []
    ensures ReturningTotal(cs + [c]) == ReturningTotal(cs) + if c.Returning? then c.change else 0.0
    ensures ChangeTotal(cs + [c]) == ChangeTotal(cs) + ChangeOf(c)
    ensures AnyReturning(cs + [c]) <==> AnyReturning(cs) || c.Returning?
    ensures AnyMoved(cs + [c]) <==> AnyMoved(cs) || (c.Quiet? && c.moved)
  {
    assert (cs + [c])[..|cs|] == cs;
    assert c in cs + [c] && forall x :: x in cs ==> x in cs + [c];
  }

  method AddChannel(s: Sums, c: Channel, several: bool, ghost cs: seq<Channel>) returns (r: Sums)
    requires Accumulates(cs, s) && (c.Quiet? ==> c.moved == several)
    ensures Accumulates(cs + [c], r)
  {
    AccumulatesSnoc(cs, c);
    r := s.(delta := s.delta + ChangeOf(c), moved := s.moved || several);
    match c {
      case Quiet(_, _) =>
      case Returning(change) =>
        r := r.(pending := true, pendingDelta := s.pendingDelta + change);
      case Moving(event, _) =>
        r := r.(events := s.events + [event]);
    }
  }

  method Report(s: Sums, baseline: real, ghost cs: seq<Channel>) returns (a: Analysis)
    requires Accumulates(cs, s)
    ensures a == Combine(cs, baseline)
  {
    if s.pending {
      a := Analysis(s.pendingDelta + EventTotal(s.events), [], false, baseline, NeedsReturnStabilization, []);
    } else if s.events != [] {
      a := Analysis(EventTotal(s.events), Chronological(s.events), true, baseline, NoReason, s.events);
    } else if s.moved {
      a := Analysis(s.delta, [], true, baseline, NoReason, []);
    } else {
      a := Analysis(0.0, [], false, baseline, InsufficientStableRegions, []);
    }
  }

  function FirstMeans(levels: seq<seq<Level>>): real {
    if levels == [] then 0.0
    else
      var last := levels[|levels| - 1];
      FirstMeans(levels[..|levels| - 1]) + if last == [] then 0.0 else last[0].mean
  }

  lemma FirstMeansSnoc(levels: seq<seq<Level>>, ls: seq<Level>)
    requires ls != []
    ensures FirstMeans(levels + [ls]) == FirstMeans(levels) + ls[0].mean
  {
    assert (levels + [ls])[..|levels|] == levels;
  }

  method TallyChannel(
      s: Sums, baseline: real, c: Channel, ls: seq<Level>, ghost cs: seq<Channel>, ghost levels: seq<seq<Level>>)
    returns (r: Sums, base: real)
    requires Accumulates(cs, s) && baseline == FirstMeans(levels)
    requires ls != [] && (c.Quiet? ==> c.moved == (|ls| >= 2))
    ensures Accumulates(cs + [c], r) && base == FirstMeans(levels + [ls])
  {
    base := baseline + ls[0].mean;
    r := AddChannel(s, c, |ls| >= 2, cs);
    FirstMeansSnoc(levels, ls);
  }

  /** One more channel of the zone. */
  method AddAnalyzed(
      samples: seq<Sample>, runs: seq<seq<int>>, sigma: real, g: Gates, s: Sums, baseline: real, ch: nat,
      ghost cs: seq<Channel>, ghost levels: seq<seq<Level>>)
    returns (r: Sums, base: real, ghost more: seq<Channel>, ghost moreLevels: seq<seq<Level>>)
    requires samples != [] && (forall x :: x in runs ==> |x| == |samples|)
    requires |cs| == ch < |runs| && ChannelsFrom(samples, runs, sigma, g, levels, cs)
    requires Accumulates(cs, s) && baseline == FirstMeans(levels)
    ensures |more| == ch + 1 && ChannelsFrom(samples, runs, sigma, g, moreLevels, more)
    ensures Accumulates(more, r) && base == FirstMeans(moreLevels)
  {
    var c, ls := AnalyzeChannel(samples, ch, runs[ch], sigma, g);
    r, base := TallyChannel(s, baseline, c, ls, cs, levels);
    ChannelsSnoc(samples, runs, sigma, g, levels, cs, ls, c);
    more, moreLevels := cs + [c], levels + [ls];
  }

  /** Every channel is reconstructed, gated and combined; the baseline is the sum of the first levels. */
  method AnalyzeBocpd(samples: seq<Sample>, channels: nat, runs: seq<seq<int>>, sigma: real, g: Gates)
    returns (a: Analysis, ghost cs: seq<Channel>, ghost levels: seq<seq<Level>>)
    requires |runs| == channels && forall r :: r in runs ==> |r| == |samples|
    ensures |samples| < 2 ==> a == Failure(InsufficientSamples)
    ensures |samples| >= 2 ==>
              |cs| == channels && ChannelsFrom(samples, runs, sigma, g, levels, cs)
                && a == Combine(cs, FirstMeans(levels))
  {
    cs, levels := [], [];
    if |samples| < 2 {
      return Failure(InsufficientSamples), cs, levels;
    }
    var baseline := 0.0;
    var sums := Sums([], false, 0.0, false, 0.0);
    for ch := 0 to channels
      invariant |cs| == ch && ChannelsFrom(samples, runs, sigma, g, levels, cs)
      invariant Accumulates(cs, sums) && baseline == FirstMeans(levels)
    {
      sums, baseline, cs, levels := AddAnalyzed(samples, runs, sigma, g, sums, baseline, ch, cs, levels);
    }
    a := Report(sums, baseline, cs);
  }

  /** Change-point analysis: with a non-negative threshold the emitted segments explain the change. */
  lemma {:induction false} BocpdExplains(
      samples: seq<Sample>, runs: seq<seq<int>>, sigma: real, g: Gates, levels: seq<seq<Level>>, cs: seq<Channel>,
      baseline: real)
    requires g.step >= 0.0 && (forall r :: r in runs ==> |r| == |samples|)
    requires ChannelsFrom(samples, runs, sigma, g, levels, cs)
    ensures var a := Combine(cs, baseline);
            a.events != [] ==> a.stabilized && Abs(a.delta - Total(a.segments)) <= Times(DroppedTotal(cs), g.step)
  {
    forall c | c in cs ensures Faithful(c, g.step) {
      var ch :| 0 <= ch < |cs| && cs[ch] == c;
      assert ChannelFrom(samples, ch, runs[ch], sigma, g, levels[ch], cs[ch]);
      ChannelIsFaithful(ch, levels[ch], Stamps(samples), g);
    }
    SegmentsExplainChange(cs, baseline, g.step);
  }
}
