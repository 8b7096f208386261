/** What a track says of the detections that joined it, and when a detection starts a track or a tube. */
module TrackingDecides {
  import opened Types
  import opened Tracking

  // ---- the statistics of a history, front to back ----

  function Walked(d: (Point, Point) -> real, h: seq<Sight>): real {
    if |h| < 2 then 0.0 else d(h[0].p, h[1].p) + Walked(d, h[1..])
  }

  function SizesOf(h: seq<Sight>): real { if h == [] then 0.0 else h[0].size + SizesOf(h[1..]) }

  predicate InHead(cfg: TrackingConfig, s: Sight) { s.pos.Some? && s.pos.value < cfg.headFrames }

  function HeadSights(cfg: TrackingConfig, h: seq<Sight>): nat {
    if h == [] then 0 else HeadSights(cfg, h[1..]) + if InHead(cfg, h[0]) then 1 else 0
  }

  /** The steps that end in the head of the stream. */
  function HeadWalked(d: (Point, Point) -> real, cfg: TrackingConfig, h: seq<Sight>): real {
    if |h| < 2 then 0.0
    else (if InHead(cfg, h[1]) then d(h[0].p, h[1].p) else 0.0) + HeadWalked(d, cfg, h[1..])
  }

  /** The greatest distance from where it began. */
  ghost predicate Furthest(d: (Point, Point) -> real, h: seq<Sight>, m: real)
    requires h != []
  {
    (exists k :: 0 <= k < |h| && d(h[0].p, h[k].p) == m) && forall k :: 0 <= k < |h| ==> d(h[0].p, h[k].p) <= m
  }

  ghost predicate FirstSeen(h: seq<Sight>, at: int) {
    if exists k :: 0 <= k < |h| && h[k].pos.Some? then
      exists k ::
        && 0 <= k < |h| && h[k].pos.Some? && at == h[k].pos.value
        && forall j :: 0 <= j < k ==> h[j].pos.None?
    else at == -1
  }

  ghost predicate LastSeen(h: seq<Sight>, at: int) {
    if exists k :: 0 <= k < |h| && h[k].pos.Some? then
      exists k ::
        && 0 <= k < |h| && h[k].pos.Some? && at == h[k].pos.value
        && forall j :: k < j < |h| ==> h[j].pos.None?
    else at == -1
  }

  ghost predicate Sums(d: (Point, Point) -> real, cfg: TrackingConfig, t: Track, h: seq<Sight>)
    requires h != []
  {
    && t.n == |h| && t.path == Walked(d, h) && t.sizeSum == SizesOf(h)
    && t.headObs == HeadSights(cfg, h) && t.headPath == HeadWalked(d, cfg, h)
  }

  ghost predicate Marks(d: (Point, Point) -> real, t: Track, h: seq<Sight>)
    requires h != []
  {
    && t.first == h[0].p && t.last == h[|h| - 1].p && t.matchedFrame == h[|h| - 1].frame
    && Furthest(d, h, t.maxDisp) && FirstSeen(h, t.firstPos) && LastSeen(h, t.lastPos)
  }

  lemma {:induction false} StatisticsSnoc(d: (Point, Point) -> real, cfg: TrackingConfig, h: seq<Sight>, s: Sight)
    requires h != []
    ensures Walked(d, h + [s]) == Walked(d, h) + d(h[|h| - 1].p, s.p)
    ensures HeadWalked(d, cfg, h + [s])
         == HeadWalked(d, cfg, h) + if InHead(cfg, s) then d(h[|h| - 1].p, s.p) else 0.0
    ensures SizesOf(h + [s]) == SizesOf(h) + s.size
    ensures HeadSights(cfg, h + [s]) == HeadSights(cfg, h) + if InHead(cfg, s) then 1 else 0
  {
    assert (h + [s])[1..] == h[1..] + [s];
    if |h| == 1 {
      assert h[1..] + [s] == [s];
    } else {
      StatisticsSnoc(d, cfg, h[1..], s);
    }
  }

  lemma MarksSnoc(d: (Point, Point) -> real, cfg: TrackingConfig, t: Track, h: seq<Sight>, s: Sight)
    requires IsMetric(d) && h != [] && Marks(d, t, h)
    ensures Marks(d, Updated(d, cfg, t, s.p, s.size, s.frame, s.pos), h + [s])
  {
    var longer := h + [s];
    var u := Updated(d, cfg, t, s.p, s.size, s.frame, s.pos);
    assert forall k :: 0 <= k < |h| ==> longer[k] == h[k];
    assert longer[|h|] == s;
    assert Furthest(d, longer, u.maxDisp) by {
      var k :| 0 <= k < |h| && d(h[0].p, h[k].p) == t.maxDisp;
      assert d(longer[0].p, longer[k].p) == t.maxDisp && d(longer[0].p, longer[|h|].p) == d(h[0].p, s.p);
    }
    SeenSnoc(h, s, t.firstPos, t.lastPos);
  }

  lemma SeenSnoc(h: seq<Sight>, s: Sight, first: int, last: int)
    requires FirstSeen(h, first) && LastSeen(h, last)
    ensures FirstSeen(h + [s], if s.pos.Some? && first < 0 then s.pos.value else first)
    ensures LastSeen(h + [s], if s.pos.Some? then s.pos.value else last)
  {
    var longer := h + [s];
    assert longer[|h|] == s;
    if k :| 0 <= k < |h| && h[k].pos.Some? {
      assert longer[k] == h[k];
      var i :| 0 <= i < |h| && h[i].pos.Some? && first == h[i].pos.value && forall j :: 0 <= j < i ==> h[j].pos.None?;
      assert longer[i] == h[i];
      var j :| 0 <= j < |h| && h[j].pos.Some? && last == h[j].pos.value && forall l :: j < l < |h| ==> h[l].pos.None?;
      assert longer[j] == h[j];
    } else {
      assert forall k :: 0 <= k < |h| ==> h[k].pos.None?;
      assert forall k :: 0 <= k < |h| ==> longer[k].pos.None?;
    }
  }

  /** A track's counters are the path, sizes, head share, furthest point and positions of the detections that
      joined it, and of no others. */
  lemma {:induction false} TrackTellsHistory(
      d: (Point, Point) -> real, cfg: TrackingConfig, camera: int, cid: int, h: seq<Sight>)
    requires IsMetric(d) && h != []
    ensures Sums(d, cfg, Replayed(d, cfg, camera, cid, h), h) && Marks(d, Replayed(d, cfg, camera, cid, h), h)
  {
    var n := |h| - 1;
    var s := h[n];
    if n == 0 {
      assert h == [s];
      assert Apart(d, s.p, s.p);
      assert d(h[0].p, h[0].p) == 0.0;
    } else {
      TrackTellsHistory(d, cfg, camera, cid, h[..n]);
      StatisticsSnoc(d, cfg, h[..n], s);
      MarksSnoc(d, cfg, Replayed(d, cfg, camera, cid, h[..n]), h[..n], s);
      assert h == h[..n] + [s];
    }
  }

  // ---- when something new begins ----

  /** Two or more frames without a match, but not more than the window. */
  predicate Paused(cfg: TrackingConfig, since: int, frame: int) { 2 <= frame - since <= cfg.reassocWindow }

  predicate TooFar(cfg: TrackingConfig, away: real, since: int, frame: int) {
    if Paused(cfg, since, frame) then away > cfg.wideJump else away > cfg.maxJump
  }

  /** A detection starts a track exactly when every track of its class on this camera is used up for the frame or
      too far. */
  lemma StartsTrackExactly(m: MotionEvidence, ts: seq<Track>, camera: int, cid: int, p: Point, frame: int)
    ensures m.Nearest(ts, |ts|, camera, cid, p, frame)
       <==> forall t :: t in ts && t.camera == camera && t.classId == cid ==>
              t.matchedFrame == frame || TooFar(m.cfg, m.metric(p, t.last), t.matchedFrame, frame)
  {
  }

  /** A detection starts a tube exactly when every tube of this camera that moved in this frame is further off
      than half its mean size, and every other one is too far. */
  lemma StartsTubeExactly(m: MotionEvidence, ts: seq<Tube>, camera: int, p: Point, frame: int)
    ensures m.Chosen(ts, |ts|, false, camera, p, frame)
       <==> forall t :: t in ts && t.camera == camera ==>
              if t.matchedFrame == frame then t.n > 0 ==> Times(t.n, 2.0 * m.metric(p, t.last)) > t.sizeSum
              else TooFar(m.cfg, m.metric(p, t.last), t.matchedFrame, frame)
  {
  }
}
