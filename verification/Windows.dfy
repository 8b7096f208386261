/** Contamination windows: which instants of another zone's video can show this
    event's scene (the pure half of the cross-zone module). */
module Windows {
  import opened Types

  datatype CrossZoneConfig = CrossZoneConfig(
    enabled: bool,
    replayS: real,
    triggerS: real,
    epsilonS: real,
    alpha: real,
    sourceConfMin: real)

  /** Sub-event anchors: recorded change timestamps, else segment starts, else the event time. */
  function Anchors(e: TriggerEvent): (r: seq<real>)
    ensures r != []
  {
    if e.changeTimestamps != [] then e.changeTimestamps
    else if e.segments != [] then seq(|e.segments|, i requires 0 <= i < |e.segments| => e.segments[i].startTs)
    else [e.ts]
  }

  function Least(s: seq<real>): (m: real)
    requires s != []
    ensures m in s && forall x :: x in s ==> m <= x
  {
    if |s| == 1 then s[0]
    else
      assert s == [s[0]] + s[1..];
      RMin(s[0], Least(s[1..]))
  }

  function Greatest(s: seq<real>): (m: real)
    requires s != []
    ensures m in s && forall x :: x in s ==> x <= m
  {
    if |s| == 1 then s[0]
    else
      assert s == [s[0]] + s[1..];
      RMax(s[0], Greatest(s[1..]))
  }

  function WindowLow(e: TriggerEvent, cfg: CrossZoneConfig): real {
    Least(Anchors(e)) - cfg.replayS - cfg.epsilonS
  }

  function WindowHigh(e: TriggerEvent, cfg: CrossZoneConfig): real {
    Greatest(Anchors(e)) + cfg.triggerS + cfg.epsilonS
  }

  /** Some anchor of `other` falls inside the window of `e`. */
  predicate Reaches(e: TriggerEvent, other: TriggerEvent, cfg: CrossZoneConfig) {
    exists t :: t in Anchors(other) && WindowLow(e, cfg) <= t <= WindowHigh(e, cfg)
  }

  predicate MutuallyOverlap(e1: TriggerEvent, e2: TriggerEvent, cfg: CrossZoneConfig) {
    Reaches(e1, e2, cfg) && Reaches(e2, e1, cfg)
  }
}
