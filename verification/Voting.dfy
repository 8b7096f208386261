/** The voting ensemble: per-camera, per-class votes tied to tracks, filtered by motion evidence and
    turned into candidates; and the read-only report that says why each class was dropped. */
module Voting {
  import opened Types
  import opened Sorting

  datatype Camera = Top | Side

  datatype Vote = Vote(conf: real, tid: Option<int>)

  datatype Sighting = Sighting(classId: int, conf: real, isHand: bool)

  datatype VotingConfig = VotingConfig(
    confFloor: real, minRatio: real, minCount: int, topWeight: real, sideWeight: real, commonBonus: real,
    topOnlyWeight: real, sideOnlyWeight: real, entryTop: real, entrySide: real, minShare: real,
    heldActive: bool, handWindow: bool)

  /** What the motion evidence answers. */
  datatype Evidence = Evidence(
    qualifies: int -> bool, held: int -> bool, classMotion: (Camera, int) -> bool, unmeasurable: (Camera, int) -> bool)

  type Ballot = map<(Camera, int), seq<Vote>>

  function VotesAt(b: Ballot, camera: Camera, cid: int): seq<Vote> {
    if (camera, cid) in b then b[(camera, cid)] else []
  }

  // ---- effective votes ----

  predicate Stands(cfg: VotingConfig, ev: Evidence, camera: Camera, cid: int, v: Vote) {
    match v.tid
    case Some(t) => ev.qualifies(t) && !(cfg.heldActive && ev.held(t))
    case None => ev.classMotion(camera, cid)
  }

  /** The confidences of the votes that survive the evidence, in order. */
  function Effective(cfg: VotingConfig, ev: Option<Evidence>, camera: Camera, cid: int, votes: seq<Vote>): seq<real> {
    if votes == [] then []
    else
      var rest := Effective(cfg, ev, camera, cid, votes[1..]);
      if ev.None? || Stands(cfg, ev.value, camera, cid, votes[0]) then [votes[0].conf] + rest else rest
  }

  lemma {:induction false} EffectiveIsFewer(
      cfg: VotingConfig, ev: Option<Evidence>, camera: Camera, cid: int, votes: seq<Vote>)
    ensures |Effective(cfg, ev, camera, cid, votes)| <= |votes|
    ensures ev.None? ==> |Effective(cfg, ev, camera, cid, votes)| == |votes|
  {
    if votes != [] {
      EffectiveIsFewer(cfg, ev, camera, cid, votes[1..]);
    }
  }

  /** The effective votes of a class on one camera. */
  function On(cfg: VotingConfig, ev: Option<Evidence>, b: Ballot, camera: Camera, cid: int): seq<real> {
    Effective(cfg, ev, camera, cid, VotesAt(b, camera, cid))
  }

  function RawCount(b: Ballot, cid: int): nat { |VotesAt(b, Top, cid)| + |VotesAt(b, Side, cid)| }

  function Count(cfg: VotingConfig, ev: Option<Evidence>, b: Ballot, cid: int): nat {
    |On(cfg, ev, b, Top, cid)| + |On(cfg, ev, b, Side, cid)|
  }

  function MostVotes(cfg: VotingConfig, ev: Option<Evidence>, b: Ballot, classes: seq<int>): nat {
    if classes == [] then 0 else Max(Count(cfg, ev, b, classes[0]), MostVotes(cfg, ev, b, classes[1..]))
  }

  function MaxConf(s: seq<real>): real {
    if s == [] then 0.0 else if |s| == 1 then s[0] else RMax(s[0], MaxConf(s[1..]))
  }

  function Weighted(cfg: VotingConfig, top: seq<real>, side: seq<real>): real {
    var t, s := MaxConf(top), MaxConf(side);
    var w :=
      if top != [] && side != [] then t * cfg.topWeight + s * cfg.sideWeight + RMin(t, s) * cfg.commonBonus
      else if top != [] then t * cfg.topOnlyWeight
      else s * cfg.sideOnlyWeight;
    RMin(w, 1.0)
  }

  function Ratio(votes: int, frames: nat): real {
    if frames == 0 then votes as real else votes as real / frames as real
  }

  /** Votes times a share of the most votes. */
  function ShareFloor(most: nat, share: real): real { most as real * share }

  // ---- the candidates ----

  datatype Tallied = Tallied(votes: nat, ratio: real, conf: real)

  function Tallying(cfg: VotingConfig, ev: Option<Evidence>, b: Ballot, frames: nat, cid: int): Tallied {
    var n := Count(cfg, ev, b, cid);
    Tallied(n, Ratio(n, frames), Weighted(cfg, On(cfg, ev, b, Top, cid), On(cfg, ev, b, Side, cid)))
  }

  predicate Admitted(cfg: VotingConfig, t: Tallied, floor: real) {
    && t.votes != 0 && (t.ratio >= cfg.minRatio || t.votes >= cfg.minCount)
    && t.votes as real >= floor && t.conf >= cfg.confFloor
  }

  predicate MoreSupported(a: VisionCandidate, b: VisionCandidate) {
    a.voteCount > b.voteCount || (a.voteCount == b.voteCount && a.confidence >= b.confidence)
  }

  function Candidates(
      cfg: VotingConfig, ev: Option<Evidence>, b: Ballot, frames: nat, floor: real,
      classes: seq<int>): seq<VisionCandidate> {
    if classes == [] then []
    else
      var rest := Candidates(cfg, ev, b, frames, floor, classes[..|classes| - 1]);
      var cid := classes[|classes| - 1];
      var t := Tallying(cfg, ev, b, frames, cid);
      if Admitted(cfg, t, floor) then rest + [VisionCandidate(cid, t.conf, t.votes, t.ratio)] else rest
  }

  ghost predicate OncePerClass(cs: seq<VisionCandidate>) {
    forall i, j :: 0 <= i < j < |cs| ==> cs[i].classId != cs[j].classId
  }

  lemma {:induction false} CandidatesOnce(
      cfg: VotingConfig, ev: Option<Evidence>, b: Ballot, frames: nat, floor: real, classes: seq<int>)
    requires forall i, j :: 0 <= i < j < |classes| ==> classes[i] != classes[j]
    ensures OncePerClass(Candidates(cfg, ev, b, frames, floor, classes))
  {
    if classes != [] {
      var n := |classes| - 1;
      var rest := Candidates(cfg, ev, b, frames, floor, classes[..n]);
      CandidatesOnce(cfg, ev, b, frames, floor, classes[..n]);
      forall c | c in rest ensures c.classId != classes[n] {
        CandidatesMember(cfg, ev, b, frames, floor, classes[..n], c);
      }
    }
  }

  lemma OnceIsOne(cs: seq<VisionCandidate>, c: VisionCandidate)
    requires OncePerClass(cs)
    ensures multiset(cs)[c] <= 1
  {
    if c in cs {
      var k :| 0 <= k < |cs| && cs[k] == c;
      assert cs == cs[..k] + [c] + cs[k + 1..];
    }
  }

  lemma TwiceIsTwo(cs: seq<VisionCandidate>, i: nat, j: nat)
    requires i < j < |cs| && cs[i] == cs[j]
    ensures multiset(cs)[cs[i]] >= 2
  {
    assert cs == cs[..i] + [cs[i]] + cs[i + 1..j] + [cs[j]] + cs[j + 1..];
  }

  lemma ReorderedOnce(cs: seq<VisionCandidate>, sorted: seq<VisionCandidate>)
    requires OncePerClass(cs) && multiset(sorted) == multiset(cs)
    ensures OncePerClass(sorted)
  {
    if !OncePerClass(sorted) {
      var i, j :| 0 <= i < j < |sorted| && sorted[i].classId == sorted[j].classId;
      assert sorted[i] in multiset(sorted) && sorted[j] in multiset(sorted);
      var k :| 0 <= k < |cs| && cs[k] == sorted[i];
      var m :| 0 <= m < |cs| && cs[m] == sorted[j];
      TwiceIsTwo(sorted, i, j);
      OnceIsOne(cs, sorted[i]);
    }
  }

  // ---- the report ----

  datatype Rejection = NoMotion | NoMotionUnmeasurable | LowRatio | LowShare | LowConfidence

  datatype Finding = Finding(votes: nat, ratio: real, conf: real, rejectedBy: Option<Rejection>)

  predicate Unmeasured(ev: Option<Evidence>, b: Ballot, cid: int) {
    ev.Some? && ((VotesAt(b, Top, cid) != [] && ev.value.unmeasurable(Top, cid))
                 || (VotesAt(b, Side, cid) != [] && ev.value.unmeasurable(Side, cid)))
  }

  /** The same gates once more, with a reason; a class without effective votes reports its raw ones. */
  function Report(cfg: VotingConfig, ev: Option<Evidence>, b: Ballot, frames: nat, floor: real, cid: int): Finding {
    var t := Tallying(cfg, ev, b, frames, cid);
    if t.votes == 0 && RawCount(b, cid) > 0 then
      Finding(RawCount(b, cid), t.ratio, t.conf,
              Some(if Unmeasured(ev, b, cid) then NoMotionUnmeasurable else NoMotion))
    else if !(t.ratio >= cfg.minRatio || t.votes >= cfg.minCount) then Finding(t.votes, t.ratio, t.conf, Some(LowRatio))
    else if (t.votes as real) < floor then Finding(t.votes, t.ratio, t.conf, Some(LowShare))
    else if t.conf < cfg.confFloor then Finding(t.votes, t.ratio, t.conf, Some(LowConfidence))
    else Finding(t.votes, t.ratio, t.conf, None)
  }

  lemma {:induction false} CandidatesMember(
      cfg: VotingConfig, ev: Option<Evidence>, b: Ballot, frames: nat, floor: real, classes: seq<int>,
      c: VisionCandidate)
    ensures c in Candidates(cfg, ev, b, frames, floor, classes) <==>
            && c.classId in classes
            && var t := Tallying(cfg, ev, b, frames, c.classId);
               Admitted(cfg, t, floor) && c == VisionCandidate(c.classId, t.conf, t.votes, t.ratio)
  {
    if classes != [] {
      var n := |classes| - 1;
      assert classes == classes[..n] + [classes[n]];
      CandidatesMember(cfg, ev, b, frames, floor, classes[..n], c);
    }
  }

  /** Admission and report agree, class by class. */
  lemma ReportAgrees(
      cfg: VotingConfig, ev: Option<Evidence>, b: Ballot, frames: nat, floor: real, cid: int)
    requires RawCount(b, cid) > 0
    ensures var t, r := Tallying(cfg, ev, b, frames, cid), Report(cfg, ev, b, frames, floor, cid);
            && (r.rejectedBy.None? <==> Admitted(cfg, t, floor))
            && (r.rejectedBy.None? ==> r.votes == t.votes && r.ratio == t.ratio && r.conf == t.conf)
            && ((r.rejectedBy == Some(NoMotion) || r.rejectedBy == Some(NoMotionUnmeasurable)) <==> t.votes == 0)
  {
  }

  lemma {:induction false} MostVotesIsMost(cfg: VotingConfig, ev: Option<Evidence>, b: Ballot, classes: seq<int>)
    ensures forall cid :: cid in classes ==> Count(cfg, ev, b, cid) <= MostVotes(cfg, ev, b, classes)
    ensures classes != [] ==> exists cid :: cid in classes && Count(cfg, ev, b, cid) == MostVotes(cfg, ev, b, classes)
  {
    if classes != [] {
      MostVotesIsMost(cfg, ev, b, classes[1..]);
      assert classes == [classes[0]] + classes[1..];
      if |classes| == 1 {
        assert classes[0] in classes;
      }
    }
  }

  lemma ShareFloorIsLower(most: nat, share: real)
    requires share <= 1.0
    ensures ShareFloor(most, share) <= most as real
  {
    assert (1.0 - share) * most as real >= 0.0;
  }

  lemma ReachesFloor(
      cfg: VotingConfig, ev: Option<Evidence>, b: Ballot, frames: nat, floor: real, cid: int)
    requires floor <= Count(cfg, ev, b, cid) as real
    ensures Report(cfg, ev, b, frames, floor, cid).rejectedBy != Some(LowShare)
  {
  }

  /** A class with the most effective votes is never dropped for its share. */
  lemma TheTopKeepsItsShare(
      cfg: VotingConfig, ev: Option<Evidence>, b: Ballot, frames: nat, classes: seq<int>, cid: int)
    requires cfg.minShare <= 1.0 && Count(cfg, ev, b, cid) == MostVotes(cfg, ev, b, classes)
    ensures Report(cfg, ev, b, frames, ShareFloor(MostVotes(cfg, ev, b, classes), cfg.minShare),
                   cid).rejectedBy != Some(LowShare)
  {
    var most := MostVotes(cfg, ev, b, classes);
    ShareFloorIsLower(most, cfg.minShare);
    ReachesFloor(cfg, ev, b, frames, ShareFloor(most, cfg.minShare), cid);
  }

  // ---- the object ----

  class VotingEnsemble {
    const cfg: VotingConfig
    var ballot: Ballot
    var classes: seq<int>           // every class voted for, in order of its first vote
    var gateFrames: map<Camera, nat>
    var handFrames: map<Camera, nat>
    var dropped: nat
    ghost var cast: nat             // votes recorded

    ghost predicate Valid()
      reads this
    {
      && (forall k :: k in ballot ==> ballot[k] != [] && k.1 in classes)
      && (forall cid :: cid in classes ==> RawCount(ballot, cid) > 0)
      && (forall i, j :: 0 <= i < j < |classes| ==> classes[i] != classes[j])
      && Top in gateFrames && Side in gateFrames && Top in handFrames && Side in handFrames
    }

    constructor (cfg: VotingConfig)
      ensures Valid() && this.cfg == cfg && ballot == map[] && classes == [] && dropped == 0 && cast == 0
    {
      this.cfg := cfg;
      ballot, classes, dropped, cast := map[], [], 0, 0;
      gateFrames, handFrames := map[Top := 0, Side := 0], map[Top := 0, Side := 0];
    }

    function Frames(): nat
      requires Top in gateFrames && Side in gateFrames && Top in handFrames && Side in handFrames
      reads this
    {
      if cfg.handWindow
      then Max(1, (if handFrames[Top] > 0 then handFrames[Top] else gateFrames[Top])
                  + (if handFrames[Side] > 0 then handFrames[Side] else gateFrames[Side]))
      else Max(1, gateFrames[Top] + gateFrames[Side])
    }

    function EntryConf(camera: Camera): real { if camera.Top? then cfg.entryTop else cfg.entrySide }

    method Record(camera: Camera, cid: int, v: Vote)
      requires Valid()
      modifies this`ballot, this`classes, this`cast
      ensures Valid() && cast == old(cast) + 1
      ensures ballot == old(ballot)[(camera, cid) := VotesAt(old(ballot), camera, cid) + [v]]
      ensures classes == if cid in old(classes) then old(classes) else old(classes) + [cid]
    {
      var was := VotesAt(ballot, camera, cid);
      ghost var before := ballot;
      ballot := ballot[(camera, cid) := was + [v]];
      if cid !in classes {
        classes := classes + [cid];
      }
      cast := cast + 1;
      forall c | c in classes ensures RawCount(ballot, c) > 0 {
        if c != cid {
          assert VotesAt(ballot, Top, c) == VotesAt(before, Top, c)
                 && VotesAt(ballot, Side, c) == VotesAt(before, Side, c);
        }
      }
    }

    /** One inferred frame: every detection that is no hand is recorded, in order, for its class and track
        or counted as dropped for its confidence. */
    method AddFrame(camera: Camera, xs: seq<Sighting>, tids: seq<Option<int>>, handActive: bool)
      requires Valid() && |tids| == |xs|
      modifies this
      ensures Valid()
      ensures ballot == Polled(old(ballot), camera, if camera.Top? then cfg.entryTop else cfg.entrySide, xs, tids)
      ensures cast + dropped == old(cast) + old(dropped) + Visible(xs)
      ensures gateFrames == old(gateFrames)[camera := old(gateFrames)[camera] + 1]
      ensures handFrames == old(handFrames)[camera := old(handFrames)[camera] + if handActive then 1 else 0]
    {
      gateFrames := gateFrames[camera := gateFrames[camera] + 1];
      handFrames := handFrames[camera := handFrames[camera] + if handActive then 1 else 0];
      TakeVotes(camera, xs, tids);
    }

    method TakeVote(camera: Camera, x: Sighting, tid: Option<int>)
      requires Valid()
      modifies this`ballot, this`classes, this`cast, this`dropped
      ensures Valid()
      ensures ballot == if Enters(EntryConf(camera), x) then Cast(old(ballot), camera, x, tid) else old(ballot)
      ensures cast + dropped == old(cast) + old(dropped) + if x.isHand then 0 else 1
    {
      if !x.isHand {
        if x.conf < EntryConf(camera) {
          dropped := dropped + 1;
        } else {
          Record(camera, x.classId, Vote(x.conf, tid));
        }
      }
    }

    method TakeVotes(camera: Camera, xs: seq<Sighting>, tids: seq<Option<int>>)
      requires Valid() && |tids| == |xs|
      modifies this`ballot, this`classes, this`cast, this`dropped
      ensures Valid()
      ensures ballot == Polled(old(ballot), camera, EntryConf(camera), xs, tids)
      ensures cast + dropped == old(cast) + old(dropped) + Visible(xs)
    {
      for i := 0 to |xs|
        invariant Valid()
        invariant ballot == Polled(old(ballot), camera, EntryConf(camera), xs[..i], tids[..i])
        invariant cast + dropped == old(cast) + old(dropped) + Visible(xs[..i])
      {
        assert xs[..i + 1][..i] == xs[..i] && tids[..i + 1][..i] == tids[..i];
        TakeVote(camera, xs[i], tids[i]);
      }
      assert xs[..|xs|] == xs && tids[..|xs|] == tids;
    }

    method Combine(ev: Option<Evidence>) returns (out: seq<VisionCandidate>)
      requires Valid()
      ensures var floor := ShareFloor(MostVotes(cfg, ev, ballot, classes), cfg.minShare);
              && OncePerClass(out)
              && (forall i, j :: 0 <= i < j < |out| ==>
                    out[i].voteCount > out[j].voteCount
                    || (out[i].voteCount == out[j].voteCount && out[i].confidence >= out[j].confidence))
              && forall c :: c in out <==>
                   && c.classId in classes
                   && var r := Report(cfg, ev, ballot, Frames(), floor, c.classId);
                      r.rejectedBy.None? && c == VisionCandidate(c.classId, r.conf, r.votes, r.ratio)
    {
      var frames := Frames();
      var floor := ShareFloor(MostVotes(cfg, ev, ballot, classes), cfg.minShare);
      out := [];
      for i := 0 to |classes|
        invariant out == Candidates(cfg, ev, ballot, frames, floor, classes[..i])
      {
        assert classes[..i + 1][..i] == classes[..i];
        var t := Tallying(cfg, ev, ballot, frames, classes[i]);
        if Admitted(cfg, t, floor) {
          out := out + [VisionCandidate(classes[i], t.conf, t.votes, t.ratio)];
        }
      }
      assert classes[..|classes|] == classes;
      forall c ensures c in out <==>
                   && c.classId in classes
                   && var r := Report(cfg, ev, ballot, frames, floor, c.classId);
                      r.rejectedBy.None? && c == VisionCandidate(c.classId, r.conf, r.votes, r.ratio)
      {
        CandidatesMember(cfg, ev, ballot, frames, floor, classes, c);
        if c.classId in classes {
          ReportAgrees(cfg, ev, ballot, frames, floor, c.classId);
        }
      }
      CandidatesOnce(cfg, ev, ballot, frames, floor, classes);
      SortMembers(out, MoreSupported);
      SortPermutes(out, MoreSupported);
      ReorderedOnce(out, StableSort(out, MoreSupported));
      StableSortSorts(out, MoreSupported);
      out := StableSort(out, MoreSupported);
    }

    /** The read-only report over every class. */
    method DebugSummary(ev: Option<Evidence>) returns (summary: map<int, Finding>)
      requires Valid()
      ensures var floor := ShareFloor(MostVotes(cfg, ev, ballot, classes), cfg.minShare);
              && (forall cid :: cid in summary <==> cid in classes)
              && forall cid :: cid in summary ==> summary[cid] == Report(cfg, ev, ballot, Frames(), floor, cid)
    {
      var floor := ShareFloor(MostVotes(cfg, ev, ballot, classes), cfg.minShare);
      summary := map cid | cid in classes :: Report(cfg, ev, ballot, Frames(), floor, cid);
    }
  }

  predicate Enters(entry: real, x: Sighting) { !x.isHand && x.conf >= entry }

  function Cast(b: Ballot, camera: Camera, x: Sighting, tid: Option<int>): Ballot {
    b[(camera, x.classId) := VotesAt(b, camera, x.classId) + [Vote(x.conf, tid)]]
  }

  /** The votes the detections of one class cast, in order. */
  function Entered(entry: real, xs: seq<Sighting>, tids: seq<Option<int>>, cid: int): seq<Vote>
    requires |tids| == |xs|
  {
    if xs == [] then []
    else
      var n := |xs| - 1;
      Entered(entry, xs[..n], tids[..n], cid)
      + if Enters(entry, xs[n]) && xs[n].classId == cid then [Vote(xs[n].conf, tids[n])] else []
  }

  /** The ballot after the detections of a frame voted, one by one. */
  function Polled(b: Ballot, camera: Camera, entry: real, xs: seq<Sighting>, tids: seq<Option<int>>): Ballot
    requires |tids| == |xs|
  {
    if xs == [] then b
    else
      var n := |xs| - 1;
      var before := Polled(b, camera, entry, xs[..n], tids[..n]);
      if Enters(entry, xs[n]) then Cast(before, camera, xs[n], tids[n]) else before
  }

  /** Every class gains exactly the votes its own detections cast on that camera, in order; nothing else changes. */
  lemma {:induction false} PollCountsOwnVotes(
      b: Ballot, camera: Camera, entry: real, xs: seq<Sighting>, tids: seq<Option<int>>, c: Camera, cid: int)
    requires |tids| == |xs|
    ensures VotesAt(Polled(b, camera, entry, xs, tids), c, cid) ==
            VotesAt(b, c, cid) + if c == camera then Entered(entry, xs, tids, cid) else []
  {
    if xs != [] {
      var n := |xs| - 1;
      PollCountsOwnVotes(b, camera, entry, xs[..n], tids[..n], c, cid);
    }
  }

  function Visible(xs: seq<Sighting>): nat {
    if xs == [] then 0 else Visible(xs[..|xs| - 1]) + if xs[|xs| - 1].isHand then 0 else 1
  }
}
