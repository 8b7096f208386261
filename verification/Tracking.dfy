/** Motion evidence: every detection of a frame joins one class-conditional track and one class-free tube
    of its camera. Distances come from any metric. */
module Tracking {
  import opened Types

  datatype Point = Point(x: real, y: real)

  predicate Apart(d: (Point, Point) -> real, p: Point, q: Point) {
    d(p, q) >= 0.0 && d(p, p) == 0.0 && d(p, q) == d(q, p)
  }

  predicate Triangle(d: (Point, Point) -> real, p: Point, q: Point, r: Point) { d(p, r) <= d(p, q) + d(q, r) }

  ghost predicate IsMetric(d: (Point, Point) -> real) {
    (forall p, q :: Apart(d, p, q)) && forall p, q, r :: Triangle(d, p, q, r)
  }

  /** A detection; without a box it cannot be tracked. */
  datatype Box = Box(x1: real, y1: real, x2: real, y2: real)
  {
    function Center(): (p: Point)
      ensures p.x - x1 == x2 - p.x && p.y - y1 == y2 - p.y
    {
      Point((x1 + x2) / 2.0, (y1 + y2) / 2.0)
    }

    /** The longer side. */
    function Size(): (s: real)
      ensures s >= x2 - x1 && s >= y2 - y1 && (s == x2 - x1 || s == y2 - y1)
    {
      RMax(x2 - x1, y2 - y1)
    }
  }

  datatype Detection = Detection(classId: int, isHand: bool, box: Option<Box>)

  // `wideJump` is the jump radius times the re-association factor.
  datatype TrackingConfig = TrackingConfig(maxJump: real, wideJump: real, headFrames: int, reassocWindow: int)

  datatype Track = Track(
    camera: int, classId: int, first: Point, last: Point, path: real, maxDisp: real, sizeSum: real, n: nat,
    matchedFrame: int, firstPos: int, lastPos: int, headObs: nat, headPath: real)

  datatype ClassCount = ClassCount(classId: int, count: nat)

  datatype Tube = Tube(camera: int, last: Point, sizeSum: real, n: nat, matchedFrame: int, histogram: seq<ClassCount>)

  // ---- one track ----

  function NewTrack(camera: int, cid: int, p: Point): Track {
    Track(camera, cid, p, p, 0.0, 0.0, 0.0, 0, -1, -1, -1, 0, 0.0)
  }

  function Observed(d: (Point, Point) -> real, t: Track, p: Point, size: real, frame: int): Track {
    t.(path := t.path + d(t.last, p), maxDisp := RMax(t.maxDisp, d(t.first, p)), last := p,
       sizeSum := t.sizeSum + size, n := t.n + 1, matchedFrame := frame)
  }

  /** Where in the stream it was seen, and how far it moved in the head of it. */
  function Positioned(cfg: TrackingConfig, t: Track, pos: Option<nat>, step: real): Track {
    match pos
    case None => t
    case Some(at) =>
      var seen := t.(firstPos := if t.firstPos < 0 then at else t.firstPos, lastPos := at);
      if at < cfg.headFrames then seen.(headObs := t.headObs + 1, headPath := t.headPath + step) else seen
  }

  /** No track strays further than it has moved. */
  predicate Plausible(d: (Point, Point) -> real, t: Track) {
    d(t.first, t.last) <= t.path && 0.0 <= t.maxDisp <= t.path && 0.0 <= t.headPath <= t.path && t.headObs <= t.n
  }

  function Updated(
      d: (Point, Point) -> real, cfg: TrackingConfig, t: Track, p: Point, size: real, frame: int,
      pos: Option<nat>): Track
  {
    Positioned(cfg, Observed(d, t, p, size, frame), pos, d(t.last, p))
  }

  /** An observation keeps a track plausible, in spite of the running maximum and the head share. */
  lemma UpdatedFacts(
      d: (Point, Point) -> real, cfg: TrackingConfig, t: Track, p: Point, size: real, frame: int, pos: Option<nat>)
    requires IsMetric(d) && Plausible(d, t)
    ensures var u := Updated(d, cfg, t, p, size, frame, pos);
            Plausible(d, u) && u.camera == t.camera && u.classId == t.classId && u.matchedFrame == frame
              && u.n == t.n + 1
  {
    assert Triangle(d, t.first, t.last, p) && Apart(d, t.last, p);
  }

  /** One detection as a track sees it. */
  datatype Sight = Sight(p: Point, size: real, frame: int, pos: Option<nat>)

  /** The track that a history of detections makes. */
  function Replayed(
      d: (Point, Point) -> real, cfg: TrackingConfig, camera: int, cid: int, history: seq<Sight>): Track
    requires history != []
  {
    var n := |history| - 1;
    var s := history[n];
    var before := if n == 0 then NewTrack(camera, cid, s.p) else Replayed(d, cfg, camera, cid, history[..n]);
    Updated(d, cfg, before, s.p, s.size, s.frame, s.pos)
  }

  lemma NewTrackPlausible(d: (Point, Point) -> real, camera: int, cid: int, p: Point)
    requires IsMetric(d)
    ensures Plausible(d, NewTrack(camera, cid, p)) && d(p, p) == 0.0
  {
    assert Apart(d, p, p);
  }

  // ---- sums over a camera ----

  function TrackObs(ts: seq<Track>, camera: int): nat {
    if ts == [] then 0
    else
      var last := ts[|ts| - 1];
      TrackObs(ts[..|ts| - 1], camera) + if last.camera == camera then last.n else 0
  }

  /** The tracks of one camera hold `n` observations more; those of every other camera as many as before. */
  ghost predicate Gained(before: seq<Track>, after: seq<Track>, camera: int, n: nat) {
    forall c :: TrackObs(after, c) == TrackObs(before, c) + if c == camera then n else 0
  }

  function TubeObs(ts: seq<Tube>, camera: int): nat {
    if ts == [] then 0
    else
      var last := ts[|ts| - 1];
      TubeObs(ts[..|ts| - 1], camera) + if last.camera == camera then last.n else 0
  }

  function HistogramTotal(h: seq<ClassCount>): nat { if h == [] then 0 else h[0].count + HistogramTotal(h[1..]) }

  /** One more observation of a class in an insertion-ordered histogram. */
  function Counted(h: seq<ClassCount>, cid: int): seq<ClassCount> {
    if h == [] then [ClassCount(cid, 1)]
    else if h[0].classId == cid then [ClassCount(cid, h[0].count + 1)] + h[1..]
    else [h[0]] + Counted(h[1..], cid)
  }

  lemma {:induction false} CountedTotal(h: seq<ClassCount>, cid: int)
    ensures HistogramTotal(Counted(h, cid)) == HistogramTotal(h) + 1
  {
    if h == [] {
      assert Counted(h, cid)[1..] == [];
    } else if h[0].classId == cid {
      assert Counted(h, cid)[1..] == h[1..];
    } else {
      CountedTotal(h[1..], cid);
      assert Counted(h, cid)[1..] == Counted(h[1..], cid);
    }
  }

  lemma {:induction false} TrackObsUpdate(ts: seq<Track>, k: nat, t: Track, camera: int)
    requires k < |ts| && t.camera == ts[k].camera
    ensures TrackObs(ts[k := t], camera) == TrackObs(ts, camera) + if t.camera == camera then t.n - ts[k].n else 0
  {
    var n := |ts| - 1;
    if k < n {
      assert ts[k := t][..n] == ts[..n][k := t];
      TrackObsUpdate(ts[..n], k, t, camera);
    } else {
      assert ts[k := t][..n] == ts[..n];
    }
  }

  lemma {:induction false} TubeObsUpdate(ts: seq<Tube>, k: nat, t: Tube, camera: int)
    requires k < |ts| && t.camera == ts[k].camera
    ensures TubeObs(ts[k := t], camera) == TubeObs(ts, camera) + if t.camera == camera then t.n - ts[k].n else 0
  {
    var n := |ts| - 1;
    if k < n {
      assert ts[k := t][..n] == ts[..n][k := t];
      TubeObsUpdate(ts[..n], k, t, camera);
    } else {
      assert ts[k := t][..n] == ts[..n];
    }
  }

  lemma ObsAppend(ts: seq<Track>, t: Track, us: seq<Tube>, u: Tube, camera: int)
    ensures TrackObs(ts + [t], camera) == TrackObs(ts, camera) + if t.camera == camera then t.n else 0
    ensures TubeObs(us + [u], camera) == TubeObs(us, camera) + if u.camera == camera then u.n else 0
  {
    assert (ts + [t])[..|ts|] == ts && (us + [u])[..|us|] == us;
  }

  function NewTube(camera: int, p: Point): Tube { Tube(camera, p, 0.0, 0, -1, []) }

  /** One more detection in a tube; one absorbed in place does not move it. */
  function Grown(t: Tube, cid: int, p: Point, size: real, frame: int, same: bool): Tube {
    var u := t.(sizeSum := t.sizeSum + size, n := t.n + 1, histogram := Counted(t.histogram, cid));
    if same then u else u.(last := p, matchedFrame := frame)
  }

  /** Replaces entry `k`, or appends it. */
  function Put<T>(s: seq<T>, k: nat, x: T): seq<T>
    requires k <= |s|
  {
    if k < |s| then s[k := x] else s + [x]
  }

  // ---- matching ----

  /** A track that paused may be picked up again a little further away. */
  function Radius(cfg: TrackingConfig, gap: int): real {
    if 1 < gap <= cfg.reassocWindow then cfg.wideJump else cfg.maxJump
  }

  /** A track's last tube is of its camera. */
  ghost predicate Linked(ts: seq<Track>, us: seq<Tube>, tubeOf: map<nat, nat>) {
    forall k :: k in tubeOf ==> k < |ts| && tubeOf[k] < |us| && us[tubeOf[k]].camera == ts[k].camera
  }

  lemma LinkKept(
      ts: seq<Track>, ts1: seq<Track>, us: seq<Tube>, us1: seq<Tube>, tubeOf: map<nat, nat>, tid: nat, aid: nat)
    requires Linked(ts, us, tubeOf) && |ts| <= |ts1| && |us| <= |us1|
    requires forall k :: 0 <= k < |ts| ==> ts1[k].camera == ts[k].camera
    requires forall k :: 0 <= k < |us| ==> us1[k].camera == us[k].camera
    requires tid < |ts1| && aid < |us1| && us1[aid].camera == ts1[tid].camera
    ensures Linked(ts1, us1, tubeOf[tid := aid])
  {
    var after := tubeOf[tid := aid];
    forall k | k in after ensures k < |ts1| && after[k] < |us1| && us1[after[k]].camera == ts1[k].camera {
      assert k != tid ==> k in tubeOf;
    }
  }

  ghost predicate SumsUp(d: (Point, Point) -> real, cfg: TrackingConfig, t: Track, history: seq<Sight>) {
    history != [] && t == Replayed(d, cfg, t.camera, t.classId, history)
  }

  /** Every track sums up exactly the detections that joined it. */
  ghost predicate Summarised(
      d: (Point, Point) -> real, cfg: TrackingConfig, ts: seq<Track>, histories: seq<seq<Sight>>)
  {
    |histories| == |ts| && forall k :: 0 <= k < |ts| ==> SumsUp(d, cfg, ts[k], histories[k])
  }

  ghost predicate TracksValid(
      d: (Point, Point) -> real, cfg: TrackingConfig, ts: seq<Track>, histories: seq<seq<Sight>>)
  {
    IsMetric(d) && Summarised(d, cfg, ts, histories) && forall t :: t in ts ==> Plausible(d, t)
  }

  ghost predicate TubesValid(us: seq<Tube>) { forall u :: u in us ==> HistogramTotal(u.histogram) == u.n }

  ghost predicate SameObs(ts: seq<Track>, us: seq<Tube>) {
    forall camera :: TrackObs(ts, camera) == TubeObs(us, camera)
  }

  ghost predicate TubesGained(before: seq<Tube>, after: seq<Tube>, camera: int, n: nat) {
    forall c :: TubeObs(after, c) == TubeObs(before, c) + if c == camera then n else 0
  }

  lemma BothGained(ts: seq<Track>, ts1: seq<Track>, us: seq<Tube>, us1: seq<Tube>, camera: int, n: nat)
    requires SameObs(ts, us) && Gained(ts, ts1, camera, n) && TubesGained(us, us1, camera, n)
    ensures SameObs(ts1, us1)
  {
  }

  datatype Snapshot = Snapshot(tracks: seq<Track>, tubes: seq<Tube>)

  class MotionEvidence {
    const metric: (Point, Point) -> real
    const cfg: TrackingConfig
    var tracks: seq<Track>          // a track id is its index
    var tubes: seq<Tube>            // a tube id is its index
    var frames: map<int, nat>       // inferred frames so far, per camera
    var exempt: set<(int, int)>     // (camera, class) seen without a box
    var maxPos: map<int, nat>
    var tubeOf: map<nat, nat>       // track id to the tube it last joined
    ghost var histories: seq<seq<Sight>>  // the detections that joined each track

    ghost predicate Valid()
      reads this
    {
      && TracksValid(metric, cfg, tracks, histories) && TubesValid(tubes) && SameObs(tracks, tubes)
      && Linked(tracks, tubes, tubeOf)
    }

    constructor (metric: (Point, Point) -> real, cfg: TrackingConfig)
      requires IsMetric(metric)
      ensures Valid() && tracks == [] && tubes == [] && this.metric == metric && this.cfg == cfg
    {
      this.metric, this.cfg := metric, cfg;
      tracks, tubes, frames, exempt, maxPos, tubeOf, histories := [], [], map[], {}, map[], map[], [];
    }

    /** A track of the class that this frame has not used and that is near enough. */
    predicate Reaches(t: Track, camera: int, cid: int, p: Point, frame: int) {
      && t.camera == camera && t.classId == cid && t.matchedFrame != frame
      && metric(p, t.last) <= Radius(cfg, frame - t.matchedFrame)
    }

    /** The first of the nearest tracks that reach the detection, or a new one when none does. */
    ghost predicate Nearest(ts: seq<Track>, tid: nat, camera: int, cid: int, p: Point, frame: int) {
      && tid <= |ts| && (tid < |ts| ==> Reaches(ts[tid], camera, cid, p, frame))
      && forall k :: 0 <= k < |ts| && Reaches(ts[k], camera, cid, p, frame) ==>
           && tid < |ts| && metric(p, ts[tid].last) <= metric(p, ts[k].last)
           && (k < tid ==> metric(p, ts[tid].last) < metric(p, ts[k].last))
    }

    method FindTrack(camera: int, cid: int, p: Point, frame: int) returns (best: nat)
      ensures Nearest(tracks, best, camera, cid, p, frame)
    {
      best := |tracks|;
      for k := 0 to |tracks|
        invariant best == |tracks| || best < k
        invariant best < |tracks| ==> Reaches(tracks[best], camera, cid, p, frame)
        invariant forall j :: 0 <= j < k && Reaches(tracks[j], camera, cid, p, frame) ==>
                    && best < |tracks| && metric(p, tracks[best].last) <= metric(p, tracks[j].last)
                    && (j < best ==> metric(p, tracks[best].last) < metric(p, tracks[j].last))
      {
        if Reaches(tracks[k], camera, cid, p, frame)
           && (best == |tracks| || metric(p, tracks[k].last) < metric(p, tracks[best].last)) {
          best := k;
        }
      }
    }

    /** What joining does to the list of tracks: one entry is new or replaced, and counts one more observation. */
    ghost predicate Joined(before: seq<Track>, after: seq<Track>, tid: nat, camera: int, cid: int, frame: int) {
      && tid < |after| && |before| <= |after| <= |before| + 1
      && after[tid].camera == camera && after[tid].classId == cid && after[tid].matchedFrame == frame
      && (tid < |before| ==> before[tid].matchedFrame != frame)
      && (forall k :: 0 <= k < |before| ==> after[k].camera == before[k].camera)
      && (forall k :: 0 <= k < |before| && k != tid ==> after[k] == before[k])
      && forall c :: TrackObs(after, c) == TrackObs(before, c) + if c == camera then 1 else 0
    }

    lemma AppendJoins(before: seq<Track>, t: Track, camera: int, cid: int, frame: int)
      requires t.camera == camera && t.classId == cid && t.matchedFrame == frame && t.n == 1
      ensures Joined(before, before + [t], |before|, camera, cid, frame)
    {
      forall c ensures TrackObs(before + [t], c) == TrackObs(before, c) + if c == camera then 1 else 0 {
        ObsAppend(before, t, [], Tube(0, t.last, 0.0, 0, 0, []), c);
      }
    }

    lemma ReplaceJoins(before: seq<Track>, tid: nat, t: Track, camera: int, cid: int, frame: int)
      requires tid < |before| && before[tid].camera == camera && before[tid].matchedFrame != frame
      requires t.camera == camera && t.classId == cid && t.matchedFrame == frame && t.n == before[tid].n + 1
      ensures Joined(before, before[tid := t], tid, camera, cid, frame)
    {
      forall c ensures TrackObs(before[tid := t], c) == TrackObs(before, c) + if c == camera then 1 else 0 {
        TrackObsUpdate(before, tid, t, c);
      }
    }

    /** Joins the detection to its best track, or starts one. */
    method JoinTrack(camera: int, cid: int, p: Point, size: real, frame: int, pos: Option<nat>) returns (tid: nat)
      requires TracksValid(metric, cfg, tracks, histories)
      modifies this`tracks, this`histories
      ensures TracksValid(metric, cfg, tracks, histories)
      ensures Nearest(old(tracks), tid, camera, cid, p, frame)
      ensures var was := if tid < |old(tracks)| then old(tracks)[tid] else NewTrack(camera, cid, p);
              tracks == Put(old(tracks), tid, Updated(metric, cfg, was, p, size, frame, pos))
      ensures Joined(old(tracks), tracks, tid, camera, cid, frame)
    {
      tid := FindTrack(camera, cid, p, frame);
      if tid == |tracks| {
        NewTrackPlausible(metric, camera, cid, p);
        var t := Updated(metric, cfg, NewTrack(camera, cid, p), p, size, frame, pos);
        UpdatedFacts(metric, cfg, NewTrack(camera, cid, p), p, size, frame, pos);
        AppendJoins(tracks, t, camera, cid, frame);
        tracks, histories := tracks + [t], histories + [[Sight(p, size, frame, pos)]];
      } else {
        assert tracks[tid] in tracks;
        var t := Updated(metric, cfg, tracks[tid], p, size, frame, pos);
        UpdatedFacts(metric, cfg, tracks[tid], p, size, frame, pos);
        ReplaceJoins(tracks, tid, t, camera, cid, frame);
        assert SumsUp(metric, cfg, tracks[tid], histories[tid]);
        ghost var longer := histories[tid] + [Sight(p, size, frame, pos)];
        assert longer[..|histories[tid]|] == histories[tid];
        tracks, histories := tracks[tid := t], histories[tid := longer];
      }
    }

    /** Another box of the same object in this frame: within half the tube's mean size (multiplied out). */
    predicate Absorbs(t: Tube, camera: int, p: Point, frame: int) {
      && t.camera == camera && t.matchedFrame == frame && t.n > 0
      && Times(t.n, 2.0 * metric(p, t.last)) <= t.sizeSum
    }

    predicate Follows(t: Tube, camera: int, p: Point, frame: int) {
      t.camera == camera && t.matchedFrame != frame && metric(p, t.last) <= Radius(cfg, frame - t.matchedFrame)
    }

    /** The first tube that absorbs the detection; failing that the first of the nearest it follows, or a new one. */
    ghost predicate Chosen(ts: seq<Tube>, aid: nat, same: bool, camera: int, p: Point, frame: int) {
      if same then
        aid < |ts| && Absorbs(ts[aid], camera, p, frame) && forall k :: 0 <= k < aid ==>
          !Absorbs(ts[k], camera, p, frame)
      else
        && (forall k :: 0 <= k < |ts| ==> !Absorbs(ts[k], camera, p, frame))
        && aid <= |ts| && (aid < |ts| ==> Follows(ts[aid], camera, p, frame))
        && forall k :: 0 <= k < |ts| && Follows(ts[k], camera, p, frame) ==>
             && aid < |ts| && metric(p, ts[aid].last) <= metric(p, ts[k].last)
             && (k < aid ==> metric(p, ts[aid].last) < metric(p, ts[k].last))
    }

    method FindTube(camera: int, p: Point, frame: int) returns (found: nat, same: bool)
      ensures Chosen(tubes, found, same, camera, p, frame)
    {
      for k := 0 to |tubes|
        invariant forall j :: 0 <= j < k ==> !Absorbs(tubes[j], camera, p, frame)
      {
        if Absorbs(tubes[k], camera, p, frame) {
          return k, true;
        }
      }
      found, same := |tubes|, false;
      for k := 0 to |tubes|
        invariant found == |tubes| || found < k
        invariant found < |tubes| ==> Follows(tubes[found], camera, p, frame)
        invariant forall j :: 0 <= j < k && Follows(tubes[j], camera, p, frame) ==>
                    && found < |tubes| && metric(p, tubes[found].last) <= metric(p, tubes[j].last)
                    && (j < found ==> metric(p, tubes[found].last) < metric(p, tubes[j].last))
      {
        if Follows(tubes[k], camera, p, frame)
           && (found == |tubes| || metric(p, tubes[k].last) < metric(p, tubes[found].last)) {
          found := k;
        }
      }
    }

    /** Joins the detection to a tube: absorbed in place, moved along, or started. */
    method JoinTube(camera: int, cid: int, p: Point, size: real, frame: int) returns (aid: nat, ghost same: bool)
      requires forall u :: u in tubes ==> HistogramTotal(u.histogram) == u.n
      modifies this`tubes
      ensures Chosen(old(tubes), aid, same, camera, p, frame)
      ensures var was := if aid < |old(tubes)| then old(tubes)[aid] else NewTube(camera, p);
              tubes == Put(old(tubes), aid, Grown(was, cid, p, size, frame, same))
      ensures aid < |tubes| && |old(tubes)| <= |tubes| && tubes[aid].camera == camera
              && tubes[aid].matchedFrame == frame
      ensures forall k :: 0 <= k < |old(tubes)| ==> tubes[k].camera == old(tubes)[k].camera
      ensures forall u :: u in tubes ==> HistogramTotal(u.histogram) == u.n
      ensures forall c :: TubeObs(tubes, c) == TubeObs(old(tubes), c) + if c == camera then 1 else 0
    {
      var found;
      found, same := FindTube(camera, p, frame);
      aid := found;
      if found == |tubes| {
        var u := Grown(NewTube(camera, p), cid, p, size, frame, false);
        CountedTotal([], cid);
        forall c ensures TubeObs(tubes + [u], c) == TubeObs(tubes, c) + if c == camera then 1 else 0 {
          ObsAppend([], NewTrack(0, 0, p), tubes, u, c);
        }
        tubes := tubes + [u];
      } else {
        var was := tubes[aid];
        assert was in tubes;
        CountedTotal(was.histogram, cid);
        var absorbed := was.matchedFrame == frame;
        var u := was.(sizeSum := was.sizeSum + size, n := was.n + 1, histogram := Counted(was.histogram, cid));
        if !absorbed {
          u := u.(last := p, matchedFrame := frame);
        }
        forall c ensures TubeObs(tubes[aid := u], c) == TubeObs(tubes, c) + if c == camera then 1 else 0 {
          TubeObsUpdate(tubes, aid, u, c);
        }
        tubes := tubes[aid := u];
      }
    }

    predicate Trackable(x: Detection) { !x.isHand && x.box.Some? }

    /** The ids given out so far in this frame: distinct, of this camera, and used up for the frame. */
    ghost predicate FrameIds(ts: seq<Track>, ids: seq<Option<nat>>, camera: int, frame: int) {
      && (forall i :: 0 <= i < |ids| && ids[i].Some? ==>
            ids[i].value < |ts| && ts[ids[i].value].camera == camera && ts[ids[i].value].matchedFrame == frame)
      && forall i, j :: 0 <= i < j < |ids| && ids[i].Some? && ids[j].Some? ==> ids[i].value != ids[j].value
    }

    /** What one detection does to the tracks, and to the tubes. */
    ghost predicate TrackStep(
        before: seq<Track>, after: seq<Track>, camera: int, x: Detection, frame: int, pos: Option<nat>, tid: nat)
      requires x.box.Some?
    {
      var p, size := x.box.value.Center(), x.box.value.Size();
      && Nearest(before, tid, camera, x.classId, p, frame)
      && var was := if tid < |before| then before[tid] else NewTrack(camera, x.classId, p);
         after == Put(before, tid, Updated(metric, cfg, was, p, size, frame, pos))
    }

    ghost predicate TubeStep(before: seq<Tube>, after: seq<Tube>, camera: int, x: Detection, frame: int)
      requires x.box.Some?
    {
      var p, size := x.box.value.Center(), x.box.value.Size();
      exists aid: nat, same ::
        aid <= |before| && Chosen(before, aid, same, camera, p, frame)
        && var was := if aid < |before| then before[aid] else NewTube(camera, p);
           after == Put(before, aid, Grown(was, x.classId, p, size, frame, same))
    }

    /** Hands and boxless detections change neither. */
    ghost predicate DetectionStep(
        b: Snapshot, a: Snapshot, camera: int, x: Detection, frame: int, pos: Option<nat>, id: Option<nat>)
    {
      if Trackable(x) then
        && id.Some? && TrackStep(b.tracks, a.tracks, camera, x, frame, pos, id.value)
        && TubeStep(b.tubes, a.tubes, camera, x, frame)
      else id.None? && a == b
    }

    /** The detections of a frame, one after the other. */
    ghost predicate FrameSteps(
        steps: seq<Snapshot>, camera: int, xs: seq<Detection>, frame: int, pos: Option<nat>, ids: seq<Option<nat>>)
    {
      && |steps| == |xs| + 1 == |ids| + 1
      && forall i :: 0 <= i < |xs| ==> DetectionStep(steps[i], steps[i + 1], camera, xs[i], frame, pos, ids[i])
    }

    lemma StepsSnoc(
        steps: seq<Snapshot>, camera: int, xs: seq<Detection>, i: nat, frame: int, pos: Option<nat>,
        ids: seq<Option<nat>>, next: Snapshot, id: Option<nat>)
      requires i < |xs| && FrameSteps(steps, camera, xs[..i], frame, pos, ids)
      requires DetectionStep(steps[i], next, camera, xs[i], frame, pos, id)
      ensures FrameSteps(steps + [next], camera, xs[..i + 1], frame, pos, ids + [id])
    {
      forall k | 0 <= k < i + 1
        ensures DetectionStep((steps + [next])[k], (steps + [next])[k + 1], camera, xs[..i + 1][k], frame, pos,
                              (ids + [id])[k])
      {
        if k < i {
          assert DetectionStep(steps[k], steps[k + 1], camera, xs[..i][k], frame, pos, ids[k]);
        }
      }
    }

    /** After `i` detections of a frame. */
    ghost predicate Progress(
        start: Snapshot, exempted: set<(int, int)>, camera: int, xs: seq<Detection>, i: nat, frame: int,
        pos: Option<nat>, ids: seq<Option<nat>>, steps: seq<Snapshot>, now: Snapshot, exemptNow: set<(int, int)>)
      requires i <= |xs|
    {
      && FrameSteps(steps, camera, xs[..i], frame, pos, ids) && steps[0] == start && steps[i] == now
      && FrameIds(now.tracks, ids, camera, frame)
      && (forall k :: 0 <= k < i ==> (ids[k].Some? <==> Trackable(xs[k])))
      && Gained(start.tracks, now.tracks, camera, Tracked(xs[..i]))
      && exemptNow == exempted + Exempted(xs[..i], camera)
    }

    lemma ProgressNext(
        start: Snapshot, exempted: set<(int, int)>, camera: int, xs: seq<Detection>, i: nat, frame: int,
        pos: Option<nat>, ids: seq<Option<nat>>, steps: seq<Snapshot>, now: Snapshot, exemptNow: set<(int, int)>,
        next: Snapshot, exemptNext: set<(int, int)>, id: Option<nat>)
      requires i < |xs|
      requires Progress(start, exempted, camera, xs, i, frame, pos, ids, steps, now, exemptNow)
      requires DetectionStep(now, next, camera, xs[i], frame, pos, id)
      requires FrameIds(next.tracks, ids + [id], camera, frame) && (id.Some? <==> Trackable(xs[i]))
      requires Gained(now.tracks, next.tracks, camera, if Trackable(xs[i]) then 1 else 0)
      requires exemptNext == if Boxless(xs[i]) then exemptNow + {(camera, xs[i].classId)} else exemptNow
      ensures Progress(start, exempted, camera, xs, i + 1, frame, pos, ids + [id], steps + [next], next, exemptNext)
    {
      StepsSnoc(steps, camera, xs, i, frame, pos, ids, next, id);
      PrefixGrows(xs, i, camera);
    }

    lemma JoinedIsNew(
        before: seq<Track>, after: seq<Track>, ids: seq<Option<nat>>, tid: nat, camera: int, cid: int, frame: int)
      requires FrameIds(before, ids, camera, frame) && Joined(before, after, tid, camera, cid, frame)
      ensures FrameIds(after, ids + [Some(tid)], camera, frame)
    {
    }

    method TrackOne(camera: int, x: Detection, frame: int, pos: Option<nat>, ghost ids: seq<Option<nat>>)
      returns (tid: nat)
      requires TracksValid(metric, cfg, tracks, histories)
      requires Trackable(x) && FrameIds(tracks, ids, camera, frame)
      modifies this`tracks, this`histories
      ensures TracksValid(metric, cfg, tracks, histories)
      ensures TrackStep(old(tracks), tracks, camera, x, frame, pos, tid)
      ensures FrameIds(tracks, ids + [Some(tid)], camera, frame) && Gained(old(tracks), tracks, camera, 1)
      ensures tid < |tracks| && |old(tracks)| <= |tracks| && tracks[tid].camera == camera
      ensures forall k :: 0 <= k < |old(tracks)| ==> tracks[k].camera == old(tracks)[k].camera
    {
      tid := JoinTrack(camera, x.classId, x.box.value.Center(), x.box.value.Size(), frame, pos);
      JoinedIsNew(old(tracks), tracks, ids, tid, camera, x.classId, frame);
    }

    method TubeOne(camera: int, x: Detection, frame: int) returns (aid: nat)
      requires Trackable(x) && TubesValid(tubes)
      modifies this`tubes
      ensures TubesValid(tubes)
      ensures TubeStep(old(tubes), tubes, camera, x, frame)
      ensures aid < |tubes| && |old(tubes)| <= |tubes| && tubes[aid].camera == camera
      ensures forall k :: 0 <= k < |old(tubes)| ==> tubes[k].camera == old(tubes)[k].camera
      ensures TubesGained(old(tubes), tubes, camera, 1)
    {
      ghost var same;
      aid, same := JoinTube(camera, x.classId, x.box.value.Center(), x.box.value.Size(), frame);
    }

    method ObserveOne(
        camera: int, x: Detection, frame: int, pos: Option<nat>, ghost ids: seq<Option<nat>>) returns (tid: nat)
      requires Valid() && Trackable(x) && FrameIds(tracks, ids, camera, frame)
      modifies this`tracks, this`histories, this`tubes, this`tubeOf, this`maxPos
      ensures TrackStep(old(tracks), tracks, camera, x, frame, pos, tid)
      ensures TubeStep(old(tubes), tubes, camera, x, frame)
      ensures Valid() && FrameIds(tracks, ids + [Some(tid)], camera, frame)
      ensures Gained(old(tracks), tracks, camera, 1)
    {
      tid := TrackOne(camera, x, frame, pos, ids);
      var aid := TubeOne(camera, x, frame);
      LinkKept(old(tracks), tracks, old(tubes), tubes, tubeOf, tid, aid);
      BothGained(old(tracks), tracks, old(tubes), tubes, camera, 1);
      tubeOf := tubeOf[tid := aid];
      if pos.Some? && (camera !in maxPos || pos.value > maxPos[camera]) {
        maxPos := maxPos[camera := pos.value];
      }
    }

    method ObserveEach(camera: int, x: Detection, frame: int, pos: Option<nat>, ghost ids: seq<Option<nat>>)
      returns (id: Option<nat>)
      requires Valid() && FrameIds(tracks, ids, camera, frame)
      modifies this`tracks, this`histories, this`tubes, this`tubeOf, this`maxPos, this`exempt
      ensures DetectionStep(Snapshot(old(tracks), old(tubes)), Snapshot(tracks, tubes), camera, x, frame, pos, id)
      ensures Valid() && FrameIds(tracks, ids + [id], camera, frame) && (id.Some? <==> Trackable(x))
      ensures Gained(old(tracks), tracks, camera, if Trackable(x) then 1 else 0)
      ensures exempt == if Boxless(x) then old(exempt) + {(camera, x.classId)} else old(exempt)
    {
      id := None;
      if x.isHand {
        return;
      }
      if x.box.None? {
        exempt := exempt + {(camera, x.classId)};
      } else {
        var tid := ObserveOne(camera, x, frame, pos, ids);
        id := Some(tid);
      }
    }

    method ObserveAll(
        camera: int, detections: seq<Detection>, frame: int, pos: Option<nat>)
      returns (ids: seq<Option<nat>>, ghost steps: seq<Snapshot>)
      requires Valid()
      modifies this`tracks, this`histories, this`tubes, this`tubeOf, this`maxPos, this`exempt
      ensures FrameSteps(steps, camera, detections, frame, pos, ids)
      ensures steps[0] == Snapshot(old(tracks), old(tubes)) && steps[|detections|] == Snapshot(tracks, tubes)
      ensures Valid() && |ids| == |detections| && FrameIds(tracks, ids, camera, frame)
      ensures forall i :: 0 <= i < |ids| ==> (ids[i].Some? <==> Trackable(detections[i]))
      ensures Gained(old(tracks), tracks, camera, Tracked(detections))
      ensures exempt == old(exempt) + Exempted(detections, camera)
    {
      ids, steps := [], [Snapshot(tracks, tubes)];
      ghost var start, exempted := Snapshot(tracks, tubes), exempt;
      assert detections[..0] == [] && Tracked([]) == 0;
      for i := 0 to |detections|
        invariant Valid()
        invariant Progress(start, exempted, camera, detections, i, frame, pos, ids, steps, Snapshot(tracks, tubes),
                           exempt)
      {
        ghost var was, exemptedWas := Snapshot(tracks, tubes), exempt;
        var id := ObserveEach(camera, detections[i], frame, pos, ids);
        ProgressNext(start, exempted, camera, detections, i, frame, pos, ids, steps, was, exemptedWas,
                     Snapshot(tracks, tubes), exempt, id);
        ids, steps := ids + [id], steps + [Snapshot(tracks, tubes)];
      }
      assert detections[..|detections|] == detections;
    }

    /** One frame: an id per detection, none for hands and boxless ones; no two detections of a frame share
        a track; per camera the observations over tracks stay those over tubes. */
    method Observe(camera: int, detections: seq<Detection>, pos: Option<nat>)
      returns (ids: seq<Option<nat>>, ghost steps: seq<Snapshot>)
      requires Valid()
      modifies this
      ensures var frame := if camera in old(frames) then old(frames)[camera] else 0;
              FrameSteps(steps, camera, detections, frame, pos, ids)
      ensures steps[0] == Snapshot(old(tracks), old(tubes)) && steps[|detections|] == Snapshot(tracks, tubes)
      ensures Valid() && |ids| == |detections|
      ensures forall i :: 0 <= i < |ids| ==> (ids[i].Some? <==> Trackable(detections[i]))
      ensures forall i, j :: 0 <= i < j < |ids| && ids[i].Some? && ids[j].Some? ==> ids[i].value != ids[j].value
      ensures Gained(old(tracks), tracks, camera, Tracked(detections))
      ensures frames == old(frames)[camera := (if camera in old(frames) then old(frames)[camera] else 0) + 1]
      ensures exempt == old(exempt) + Exempted(detections, camera)
    {
      var frame := if camera in frames then frames[camera] else 0;
      frames := frames[camera := frame + 1];
      ids, steps := ObserveAll(camera, detections, frame, pos);
    }
  }

  predicate Boxless(x: Detection) { !x.isHand && x.box.None? }

  function Exempted(xs: seq<Detection>, camera: int): set<(int, int)> {
    set x | x in xs && Boxless(x) :: (camera, x.classId)
  }

  lemma PrefixGrows(xs: seq<Detection>, i: nat, camera: int)
    requires i < |xs|
    ensures Tracked(xs[..i + 1]) == Tracked(xs[..i]) + if !xs[i].isHand && xs[i].box.Some? then 1 else 0
    ensures Exempted(xs[..i + 1], camera) == Exempted(xs[..i], camera)
            + if Boxless(xs[i]) then {(camera, xs[i].classId)} else {}
  {
    assert xs[..i + 1][..i] == xs[..i];
    assert xs[..i + 1] == xs[..i] + [xs[i]];
  }

  /** Detections that can be tracked. */
  function Tracked(xs: seq<Detection>): nat {
    if xs == [] then 0
    else
      var x := xs[|xs| - 1];
      Tracked(xs[..|xs| - 1]) + if !x.isHand && x.box.Some? then 1 else 0
  }
}
