/** What makes a class a candidate, exactly: which votes stand, how sure they make it, and which gate
    rejects it first. */
module VotingDecides {
  import opened Types
  import opened Voting

  // ---- which votes stand ----

  /** A tracked vote needs a track that moved and was not carried; an untracked one needs motion of its class. */
  ghost predicate Counts(cfg: VotingConfig, ev: Option<Evidence>, camera: Camera, cid: int, v: Vote) {
    ev.None?
    || match v.tid
       case None => ev.value.classMotion(camera, cid)
       case Some(t) => ev.value.qualifies(t) && (cfg.heldActive ==> !ev.value.held(t))
  }

  /** The confidences of exactly those of the first `n` votes that count, in order. */
  ghost predicate Standing(
      cfg: VotingConfig, ev: Option<Evidence>, camera: Camera, cid: int, votes: seq<Vote>, n: nat, confs: seq<real>,
      at: seq<nat>)
    requires n <= |votes|
  {
    && |at| == |confs| && (forall i, j :: 0 <= i < j < |at| ==> at[i] < at[j])
    && (forall k :: 0 <= k < |at| ==>
          at[k] < n && Counts(cfg, ev, camera, cid, votes[at[k]]) && confs[k] == votes[at[k]].conf)
    && forall i: nat :: i < n && Counts(cfg, ev, camera, cid, votes[i]) ==> i in at
  }

  lemma {:induction false} EffectiveSnoc(
      cfg: VotingConfig, ev: Option<Evidence>, camera: Camera, cid: int, votes: seq<Vote>, v: Vote)
    ensures Effective(cfg, ev, camera, cid, votes + [v]) ==
            Effective(cfg, ev, camera, cid, votes) + if Counts(cfg, ev, camera, cid, v) then [v.conf] else []
  {
    if votes == [] {
      assert votes + [v] == [v] && [v][1..] == [];
    } else {
      assert (votes + [v])[1..] == votes[1..] + [v];
      EffectiveSnoc(cfg, ev, camera, cid, votes[1..], v);
    }
  }

  lemma {:induction false} EffectiveStands(
      cfg: VotingConfig, ev: Option<Evidence>, camera: Camera, cid: int, votes: seq<Vote>, n: nat)
    returns (at: seq<nat>)
    requires n <= |votes|
    ensures Standing(cfg, ev, camera, cid, votes, n, Effective(cfg, ev, camera, cid, votes[..n]), at)
  {
    at := [];
    if n > 0 {
      at := EffectiveStands(cfg, ev, camera, cid, votes, n - 1);
      assert votes[..n] == votes[..n - 1] + [votes[n - 1]];
      EffectiveSnoc(cfg, ev, camera, cid, votes[..n - 1], votes[n - 1]);
      if Counts(cfg, ev, camera, cid, votes[n - 1]) {
        at := at + [n - 1];
      }
    }
  }

  /** The votes of a class that stand on one camera. */
  ghost predicate StandsOn(
      cfg: VotingConfig, ev: Option<Evidence>, b: Ballot, camera: Camera, cid: int, confs: seq<real>)
  {
    var votes := VotesAt(b, camera, cid);
    exists at :: Standing(cfg, ev, camera, cid, votes, |votes|, confs, at)
  }

  lemma OnStands(cfg: VotingConfig, ev: Option<Evidence>, b: Ballot, camera: Camera, cid: int)
    ensures StandsOn(cfg, ev, b, camera, cid, On(cfg, ev, b, camera, cid))
  {
    var votes := VotesAt(b, camera, cid);
    var at := EffectiveStands(cfg, ev, camera, cid, votes, |votes|);
    assert votes[..|votes|] == votes;
  }

  // ---- how sure they make the class ----

  predicate IsMost(xs: seq<real>, m: real) {
    if xs == [] then m == 0.0 else m in xs && forall x :: x in xs ==> x <= m
  }

  lemma {:induction false} MaxConfIsMost(xs: seq<real>)
    ensures IsMost(xs, MaxConf(xs))
  {
    if |xs| > 1 {
      MaxConfIsMost(xs[1..]);
      assert xs == [xs[0]] + xs[1..];
    }
  }

  /** Both cameras agreeing earn a bonus on the weaker one; one camera alone has its own weight; never above one. */
  ghost predicate Blends(cfg: VotingConfig, top: seq<real>, side: seq<real>, conf: real) {
    exists t, s ::
      IsMost(top, t) && IsMost(side, s) &&
      var weaker := if t <= s then t else s;
      var w := if top == [] then s * cfg.sideOnlyWeight
               else if side == [] then t * cfg.topOnlyWeight
               else t * cfg.topWeight + s * cfg.sideWeight + weaker * cfg.commonBonus;
      conf == if w > 1.0 then 1.0 else w
  }

  lemma WeightedBlends(cfg: VotingConfig, top: seq<real>, side: seq<real>)
    ensures Blends(cfg, top, side, Weighted(cfg, top, side))
  {
    MaxConfIsMost(top);
    MaxConfIsMost(side);
  }

  // ---- which gate rejects first ----

  /** What is measured of a class with these standing votes. */
  ghost predicate Measured(
      cfg: VotingConfig, b: Ballot, frames: nat, cid: int, top: seq<real>, side: seq<real>, f: Finding)
  {
    var n, raw := |top| + |side|, |VotesAt(b, Top, cid)| + |VotesAt(b, Side, cid)|;
    && (frames > 0 ==> f.ratio == n as real / frames as real) && Blends(cfg, top, side, f.conf)
    && f.votes == if n == 0 then raw else n
  }

  ghost predicate Unmeasurable(ev: Option<Evidence>, b: Ballot, cid: int) {
    ev.Some? && exists camera: Camera :: VotesAt(b, camera, cid) != [] && ev.value.unmeasurable(camera, cid)
  }

  /** The first gate that rejects it: too little motion, then too few votes for the frames, then too small a
      share of the most votes, then too little confidence. */
  ghost predicate Gated(
      cfg: VotingConfig, ev: Option<Evidence>, b: Ballot, floor: real, cid: int, n: nat, f: Finding)
  {
    f.rejectedBy ==
    if n == 0 && (VotesAt(b, Top, cid) != [] || VotesAt(b, Side, cid) != []) then
      Some(if Unmeasurable(ev, b, cid) then NoMotionUnmeasurable else NoMotion)
    else if f.ratio < cfg.minRatio && n < cfg.minCount then Some(LowRatio)
    else if n as real < floor then Some(LowShare)
    else if f.conf < cfg.confFloor then Some(LowConfidence)
    else None
  }

  lemma ReportMeasures(cfg: VotingConfig, ev: Option<Evidence>, b: Ballot, frames: nat, floor: real, cid: int)
    ensures Measured(cfg, b, frames, cid, On(cfg, ev, b, Top, cid), On(cfg, ev, b, Side, cid),
                     Report(cfg, ev, b, frames, floor, cid))
  {
    WeightedBlends(cfg, On(cfg, ev, b, Top, cid), On(cfg, ev, b, Side, cid));
    EffectiveIsFewer(cfg, ev, Top, cid, VotesAt(b, Top, cid));
    EffectiveIsFewer(cfg, ev, Side, cid, VotesAt(b, Side, cid));
  }

  lemma UnmeasuredExact(ev: Option<Evidence>, b: Ballot, cid: int)
    ensures Unmeasured(ev, b, cid) <==> Unmeasurable(ev, b, cid)
  {
    if ev.Some? && exists camera: Camera :: VotesAt(b, camera, cid) != [] && ev.value.unmeasurable(camera, cid) {
      var camera: Camera :| VotesAt(b, camera, cid) != [] && ev.value.unmeasurable(camera, cid);
      assert camera == Top || camera == Side;
    }
  }

  lemma ReportGates(cfg: VotingConfig, ev: Option<Evidence>, b: Ballot, frames: nat, floor: real, cid: int)
    ensures Gated(cfg, ev, b, floor, cid, Count(cfg, ev, b, cid), Report(cfg, ev, b, frames, floor, cid))
  {
    UnmeasuredExact(ev, b, cid);
  }

  /** The report of a class, from its standing votes. */
  lemma FindingDecides(cfg: VotingConfig, ev: Option<Evidence>, b: Ballot, frames: nat, floor: real, cid: int)
    returns (top: seq<real>, side: seq<real>)
    ensures StandsOn(cfg, ev, b, Top, cid, top) && StandsOn(cfg, ev, b, Side, cid, side)
    ensures var f := Report(cfg, ev, b, frames, floor, cid);
            Measured(cfg, b, frames, cid, top, side, f) && Gated(cfg, ev, b, floor, cid, |top| + |side|, f)
  {
    top, side := On(cfg, ev, b, Top, cid), On(cfg, ev, b, Side, cid);
    OnStands(cfg, ev, b, Top, cid);
    OnStands(cfg, ev, b, Side, cid);
    ReportMeasures(cfg, ev, b, frames, floor, cid);
    ReportGates(cfg, ev, b, frames, floor, cid);
  }

  // ---- which detections vote ----

  /** The votes are those of the visible, confident detections of the class, in order. */
  ghost predicate VotesOf(
      entry: real, xs: seq<Sighting>, tids: seq<Option<int>>, cid: int, n: nat, votes: seq<Vote>, at: seq<nat>)
    requires n <= |xs| == |tids|
  {
    && |at| == |votes| && (forall i, j :: 0 <= i < j < |at| ==> at[i] < at[j])
    && (forall k :: 0 <= k < |at| ==>
          at[k] < n && VotesFor(entry, xs[at[k]], cid) && votes[k] == Vote(xs[at[k]].conf, tids[at[k]]))
    && forall i: nat :: i < n && VotesFor(entry, xs[i], cid) ==> i in at
  }

  predicate VotesFor(entry: real, x: Sighting, cid: int) { !x.isHand && x.classId == cid && x.conf >= entry }

  lemma {:induction false} EnteredVotes(
      entry: real, xs: seq<Sighting>, tids: seq<Option<int>>, cid: int, n: nat)
    returns (at: seq<nat>)
    requires n <= |xs| == |tids|
    ensures VotesOf(entry, xs, tids, cid, n, Entered(entry, xs[..n], tids[..n], cid), at)
  {
    at := [];
    if n > 0 {
      at := EnteredVotes(entry, xs, tids, cid, n - 1);
      assert xs[..n][..n - 1] == xs[..n - 1] && tids[..n][..n - 1] == tids[..n - 1];
      if VotesFor(entry, xs[n - 1], cid) {
        at := at + [n - 1];
      }
    }
  }

  /** The frames a ratio refers to: with the hand window, per camera those with a hand in view if there were
      any; at least one. */
  lemma FramesDecide(v: VotingEnsemble)
    requires Top in v.gateFrames && Side in v.gateFrames && Top in v.handFrames && Side in v.handFrames
    ensures var top := if v.cfg.handWindow && v.handFrames[Top] != 0 then v.handFrames[Top] else v.gateFrames[Top];
            var side := if v.cfg.handWindow && v.handFrames[Side] != 0 then v.handFrames[Side] else v.gateFrames[Side];
            v.Frames() == if top + side == 0 then 1 else top + side
  {
  }
}
