/** The plateau analyser: a level is a maximal run of samples whose trailing window is calm. */
module Plateaus {
  import opened Types
  import opened Levels
  import opened Loadcell

  datatype PlateauConfig = PlateauConfig(window: nat, threshold: real, gates: Gates)

  function SquaredOff(xs: seq<real>, mean: real): real {
    if xs == [] then 0.0 else SquaredOff(xs[..|xs| - 1], mean) + (xs[|xs| - 1] - mean) * (xs[|xs| - 1] - mean)
  }

  /** The standard deviation is at most the threshold (compared as squares). */
  predicate Calm(xs: seq<real>, threshold: real)
    requires xs != []
  {
    threshold >= 0.0 && SquaredOff(xs, MeanOf(xs)) / |xs| as real <= threshold * threshold
  }

  /** The window that ends at `i` is calm. */
  predicate Stable(totals: seq<real>, w: nat, threshold: real, i: nat)
    requires w >= 1 && i < |totals|
  {
    i + 1 >= w && Calm(totals[i + 1 - w..i + 1], threshold)
  }

  /** Strictly one after the other, with at least one unstable sample in between. */
  ghost predicate Apart(ls: seq<Level>) { forall i :: 0 <= i < |ls| - 1 ==> ls[i].end + 1 < ls[i + 1].start }

  ghost predicate Covers(ls: seq<Level>, i: nat) { exists l :: l in ls && l.start <= i <= l.end }

  /** Exactly the maximal marked runs of the first `n` samples, each with its exact mean. */
  ghost predicate Runs(xs: seq<real>, marks: seq<bool>, ls: seq<Level>, n: nat)
    requires n <= |xs| == |marks|
  {
    && Apart(ls) && AllMeans(xs, ls) && (forall l :: l in ls ==> l.end < n)
    && forall i :: 0 <= i < n ==> (marks[i] <==> Covers(ls, i))
  }

  /** Exactly the maximal stable runs. */
  ghost predicate StableRuns(totals: seq<real>, w: nat, threshold: real, ls: seq<Level>)
    requires w >= 1
  {
    exists marks: seq<bool> ::
      && |marks| == |totals| && (forall i :: 0 <= i < |totals| ==> marks[i] == Stable(totals, w, threshold, i))
      && Runs(totals, marks, ls, |totals|)
  }

  method StableMarks(totals: seq<real>, w: nat, threshold: real) returns (marks: seq<bool>)
    requires w >= 1
    ensures |marks| == |totals| && forall i :: 0 <= i < |totals| ==> marks[i] == Stable(totals, w, threshold, i)
  {
    var a := new bool[|totals|](i => false);
    var i: nat := w - 1;
    while i < |totals|
      invariant w - 1 <= i
      invariant forall k :: 0 <= k < |totals| ==> a[k] == (k < i && Stable(totals, w, threshold, k))
    {
      if Calm(totals[i + 1 - w..i + 1], threshold) {
        a[i] := true;
      }
      i := i + 1;
    }
    marks := a[..];
  }

  lemma AppendRun(xs: seq<real>, marks: seq<bool>, ls: seq<Level>, start: nat, i: nat)
    requires start < i <= |xs| == |marks| && Runs(xs, marks, ls, start)
    requires ls != [] ==> ls[|ls| - 1].end + 1 < start
    requires forall k :: start <= k < i ==> marks[k]
    ensures Runs(xs, marks, ls + [Level(start, i - 1, MeanOf(xs[start..i]))], i)
  {
    var l := Level(start, i - 1, MeanOf(xs[start..i]));
    MeanTimesCount(Sum(xs[start..i]), i - start);
    assert IsMean(xs, l);
    forall k | 0 <= k < i ensures marks[k] <==> Covers(ls + [l], k) {
      assert l in ls + [l];
      if k < start {
        assert Covers(ls, k) <==> marks[k];
        assert Covers(ls, k) ==> Covers(ls + [l], k);
      }
    }
  }

  lemma SkipSample(xs: seq<real>, marks: seq<bool>, ls: seq<Level>, i: nat)
    requires i < |xs| == |marks| && Runs(xs, marks, ls, i) && !marks[i]
    ensures Runs(xs, marks, ls, i + 1)
  {
  }

  /** The scan keeps the start of the run it is in; one index past the end closes the last run. */
  method ScanRuns(xs: seq<real>, marks: seq<bool>) returns (ls: seq<Level>)
    requires |marks| == |xs|
    ensures Runs(xs, marks, ls, |xs|)
  {
    var n := |xs|;
    ls := [];
    var start: Option<nat> := None;
    for i := 0 to n + 1
      invariant start.None? ==> Runs(xs, marks, ls, Min(i, n))
      invariant start.Some? ==>
                  && start.value < i <= n && Runs(xs, marks, ls, start.value)
                  && (ls != [] ==> ls[|ls| - 1].end + 1 < start.value)
                  && forall k :: start.value <= k < i ==> marks[k]
      invariant start.None? && ls != [] && i < n && marks[i] ==> ls[|ls| - 1].end + 1 < i
    {
      if i < n && marks[i] {
        if start.None? {
          start := Some(i);
        }
      } else {
        if start.Some? {
          AppendRun(xs, marks, ls, start.value, i);
          ls := ls + [Level(start.value, i - 1, MeanOf(xs[start.value..i]))];
          start := None;
        }
        if i < n {
          SkipSample(xs, marks, ls, i);
          assert ls != [] ==> ls[|ls| - 1] in ls;
        }
      }
    }
  }

  method StablePlateaus(totals: seq<real>, w: nat, threshold: real) returns (ls: seq<Level>)
    requires w >= 1
    ensures StableRuns(totals, w, threshold, ls) && AllMeans(totals, ls)
  {
    var marks := StableMarks(totals, w, threshold);
    ls := ScanRuns(totals, marks);
  }

  // ---- one series ----

  /** The plateaus of a series long enough to have any. */
  ghost predicate PlateausOf(cfg: PlateauConfig, xs: seq<real>, ts: seq<real>, ls: seq<Level>)
    requires cfg.window >= 1
  {
    InRange(ls, ts) && (|xs| >= 2 * cfg.window ==> StableRuns(xs, cfg.window, cfg.threshold, ls))
  }

  method FindPlateaus(cfg: PlateauConfig, xs: seq<real>, ts: seq<real>) returns (ls: seq<Level>)
    requires cfg.window >= 1 && |ts| == |xs|
    ensures PlateausOf(cfg, xs, ts, ls)
  {
    ls := [];
    if |xs| >= 2 * cfg.window {
      ls := StablePlateaus(xs, cfg.window, cfg.threshold);
      assert forall l :: l in ls ==> IsMean(xs, l);
    }
  }

  /** A return whose last level has not lasted long enough. */
  predicate Unsettled(cfg: PlateauConfig, ls: seq<Level>, ts: seq<real>)
    requires ls != [] && InRange(ls, ts)
  {
    Change(ls) > 0.0 && Duration(ls[|ls| - 1], ts) < cfg.gates.wait
  }

  /** A zone with a single channel reports its series as it is, without the channel gate. */
  function SingleAnalysis(cfg: PlateauConfig, n: nat, ls: seq<Level>, ts: seq<real>): Analysis
    requires InRange(ls, ts)
  {
    if n < 2 * cfg.window then Failure(InsufficientSamples)
    else if |ls| < 2 then Failure(InsufficientStableRegions)
    else if Unsettled(cfg, ls, ts) then Analysis(Change(ls), [], false, ls[0].mean, NeedsReturnStabilization, [])
    else Analysis(Change(ls), Steps(ls, ts, cfg.gates.step), true, ls[0].mean, NoReason, [])
  }

  method AnalyzeSingle(cfg: PlateauConfig, samples: seq<Sample>) returns (a: Analysis, ls: seq<Level>)
    requires cfg.window >= 1
    ensures PlateausOf(cfg, Totals(samples), Stamps(samples), ls)
    ensures a == SingleAnalysis(cfg, |samples|, ls, Stamps(samples))
  {
    ls := FindPlateaus(cfg, Totals(samples), Stamps(samples));
    a := SingleAnalysis(cfg, |samples|, ls, Stamps(samples));
  }

  /** The same bound as for several channels. */
  lemma SingleExplains(cfg: PlateauConfig, n: nat, ls: seq<Level>, ts: seq<real>)
    requires InRange(ls, ts) && cfg.gates.step >= 0.0
    ensures var a := SingleAnalysis(cfg, n, ls, ts);
            a.stabilized ==> Abs(a.delta - Total(a.segments)) <= Times(Dropped(ls, cfg.gates.step), cfg.gates.step)
  {
    if |ls| >= 2 {
      StepsTelescope(ls, ts, cfg.gates.step);
    }
  }

  // ---- all channels ----

  /** What one channel adds to the zone, or the reason the zone cannot be analysed. */
  datatype Tray = Tray(channel: Channel, baseline: real) | Fails(reason: LoadReason)

  function TrayOf(cfg: PlateauConfig, ch: nat, xs: seq<real>, ls: seq<Level>, ts: seq<real>): Tray
    requires InRange(ls, ts)
  {
    if |xs| < 2 * cfg.window then Fails(InsufficientSamples)
    else if |ls| < 2 then
      (if xs != [] && Calm(xs, cfg.threshold) then Tray(Quiet(0.0, false), MeanOf(xs))
       else Fails(InsufficientStableRegions))
    else if Unsettled(cfg, ls, ts) then Tray(Returning(Change(ls)), ls[0].mean)
    else if Abs(Change(ls)) >= cfg.gates.minChange
    then Tray(Moving(ChannelEvent(ch, Change(ls), Steps(ls, ts, cfg.gates.step)), Dropped(ls, cfg.gates.step)),
              ls[0].mean)
    else Tray(Quiet(Change(ls), true), ls[0].mean)
  }

  ghost predicate TrayFrom(cfg: PlateauConfig, samples: seq<Sample>, ch: nat, ls: seq<Level>, t: Tray)
    requires cfg.window >= 1
  {
    PlateausOf(cfg, Column(samples, ch), Stamps(samples), ls)
      && t == TrayOf(cfg, ch, Column(samples, ch), ls, Stamps(samples))
  }

  method AnalyzeTray(cfg: PlateauConfig, samples: seq<Sample>, ch: nat) returns (t: Tray, ls: seq<Level>)
    requires cfg.window >= 1
    ensures TrayFrom(cfg, samples, ch, ls, t)
  {
    var xs, ts := Column(samples, ch), Stamps(samples);
    ls := FindPlateaus(cfg, xs, ts);
    t := TrayOf(cfg, ch, xs, ls, ts);
  }

  function ChannelsOf(trays: seq<Tray>): seq<Channel> {
    if trays == [] then []
    else
      var t := trays[|trays| - 1];
      ChannelsOf(trays[..|trays| - 1]) + if t.Tray? then [t.channel] else []
  }

  function Baselines(trays: seq<Tray>): real {
    if trays == [] then 0.0
    else
      var t := trays[|trays| - 1];
      Baselines(trays[..|trays| - 1]) + if t.Tray? then t.baseline else 0.0
  }

  lemma TraysSnoc(trays: seq<Tray>, t: Tray)
    requires t.Tray?
    ensures ChannelsOf(trays + [t]) == ChannelsOf(trays) + [t.channel]
    ensures Baselines(trays + [t]) == Baselines(trays) + t.baseline
  {
    assert (trays + [t])[..|trays|] == trays;
  }

  ghost predicate TraysFrom(cfg: PlateauConfig, samples: seq<Sample>, levels: seq<seq<Level>>, trays: seq<Tray>)
    requires cfg.window >= 1
  {
    |levels| == |trays| && forall ch :: 0 <= ch < |trays| ==> TrayFrom(cfg, samples, ch, levels[ch], trays[ch])
  }

  function SeveralLevels(c: Channel): bool { if c.Quiet? then c.moved else true }

  /** The first tray that cannot be analysed decides; otherwise the channels are combined. */
  method AnalyzePlateaus(cfg: PlateauConfig, samples: seq<Sample>, channels: nat)
    returns (a: Analysis, ghost trays: seq<Tray>, ghost levels: seq<seq<Level>>)
    requires cfg.window >= 1 && channels >= 2
    ensures samples == [] ==> a == Failure(InsufficientSamples)
    ensures samples != [] ==>
              && TraysFrom(cfg, samples, levels, trays)
              && (forall ch :: 0 <= ch < |trays| - 1 ==> trays[ch].Tray?)
              && if |trays| > 0 && trays[|trays| - 1].Fails? then a == Failure(trays[|trays| - 1].reason)
                 else |trays| == channels && a == Combine(ChannelsOf(trays), Baselines(trays))
  {
    trays, levels := [], [];
    if samples == [] {
      return Failure(InsufficientSamples), trays, levels;
    }
    var baseline := 0.0;
    var sums := Sums([], false, 0.0, false, 0.0);
    for ch := 0 to channels
      invariant |trays| == ch && TraysFrom(cfg, samples, levels, trays) && forall k :: 0 <= k < ch ==> trays[k].Tray?
      invariant Accumulates(ChannelsOf(trays), sums) && baseline == Baselines(trays)
    {
      var t, ls := AnalyzeTray(cfg, samples, ch);
      ghost var before := trays;
      trays, levels := trays + [t], levels + [ls];
      if t.Fails? {
        return Failure(t.reason), trays, levels;
      }
      TraysSnoc(before, t);
      sums := AddChannel(sums, t.channel, SeveralLevels(t.channel), ChannelsOf(before));
      baseline := baseline + t.baseline;
    }
    a := Report(sums, baseline, ChannelsOf(trays));
  }

  lemma TrayIsFaithful(cfg: PlateauConfig, ch: nat, xs: seq<real>, ls: seq<Level>, ts: seq<real>)
    requires InRange(ls, ts) && cfg.gates.step >= 0.0
    ensures var t := TrayOf(cfg, ch, xs, ls, ts); t.Tray? ==> Faithful(t.channel, cfg.gates.step)
  {
    if |ls| >= 2 {
      StepsTelescope(ls, ts, cfg.gates.step);
    }
  }

  lemma {:induction false} ChannelsMember(trays: seq<Tray>, c: Channel)
    requires c in ChannelsOf(trays)
    ensures exists ch :: 0 <= ch < |trays| && trays[ch].Tray? && trays[ch].channel == c
  {
    var n := |trays| - 1;
    if c in ChannelsOf(trays[..n]) {
      ChannelsMember(trays[..n], c);
      var ch :| 0 <= ch < n && trays[..n][ch].Tray? && trays[..n][ch].channel == c;
      assert trays[ch].channel == c;
    } else {
      assert trays[n].Tray? && trays[n].channel == c;
    }
  }

  /** Plateau analysis: with a non-negative threshold the emitted segments explain the change. */
  lemma PlateausExplain(
      cfg: PlateauConfig, samples: seq<Sample>, levels: seq<seq<Level>>, trays: seq<Tray>, baseline: real)
    requires cfg.window >= 1 && cfg.gates.step >= 0.0 && TraysFrom(cfg, samples, levels, trays)
    ensures var cs := ChannelsOf(trays);
            var a := Combine(cs, baseline);
            a.events != [] ==>
              a.stabilized && Abs(a.delta - Total(a.segments)) <= Times(DroppedTotal(cs), cfg.gates.step)
  {
    var cs := ChannelsOf(trays);
    forall c | c in cs ensures Faithful(c, cfg.gates.step) {
      ChannelsMember(trays, c);
      var ch :| 0 <= ch < |trays| && trays[ch].Tray? && trays[ch].channel == c;
      TrayIsFaithful(cfg, ch, Column(samples, ch), levels[ch], Stamps(samples));
    }
    SegmentsExplainChange(cs, baseline, cfg.gates.step);
  }
}
