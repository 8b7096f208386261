/** The session ghost ledger: union-find groups events that filmed the same moment,
    and a class is a ghost when it shows up in several zones and several such groups
    while no weight-backed judgement of the session ever billed it. */
module Ghosts {
  import opened Types
  import opened Sorting
  import opened Windows
  import opened UnionFind

  datatype GhostMode = Off | Shadow | Active
  datatype GhostConfig = GhostConfig(mode: GhostMode, minZones: int, voteFloor: int, alpha: real)

  // ---- "same episode" and its closure ----

  predicate SameEpisode(e1: TriggerEvent, e2: TriggerEvent, window: Option<CrossZoneConfig>) {
    || (e1.videoPaths != [] && e1.videoPaths == e2.videoPaths)
    || (window.Some? && MutuallyOverlap(e1, e2, window.value))
  }

  ghost function Edges(events: seq<TriggerEvent>, window: Option<CrossZoneConfig>): set<(nat, nat)> {
    set a: nat, b: nat | a < b < |events| && SameEpisode(events[a], events[b], window) :: (a, b)
  }

  /** Linked by a chain of shared episodes. */
  ghost predicate Connected(events: seq<TriggerEvent>, window: Option<CrossZoneConfig>, a: nat, b: nat) {
    UnionFind.Connected(|events|, Edges(events, window), a, b)
  }

  /** The double loop over all pairs, then one `find` per event. */
  method UniteAll(
      events: seq<TriggerEvent>, window: Option<CrossZoneConfig>, ghost edges: set<(nat, nat)>, ghost classes: seq<nat>)
    returns (ids: seq<nat>)
    requires edges == Edges(events, window) && |classes| == |events|
    requires forall a: nat, b: nat :: (a, b) in edges ==> a < b < |classes| && classes[a] == classes[b]
    ensures |ids| == |events|
    ensures forall x :: 0 <= x < |ids| ==> ids[x] < |ids| && classes[ids[x]] == classes[x]
    ensures forall a: nat, b: nat :: (a, b) in edges ==> ids[a] == ids[b]
  {
    var n := |events|;
    var parent := new nat[n](i => i);
    ghost var root: seq<nat> := seq(n, i => i);
    ghost var depth: seq<nat> := seq(n, i => 0);
    for i := 0 to n
      invariant Represents(edges, classes, parent[..], root, depth, i, i + 1)
    {
      for j := i + 1 to n
        invariant Represents(edges, classes, parent[..], root, depth, i, j)
      {
        var same := SameEpisode(events[i], events[j], window);
        root, depth := Visit(same, parent, i, j, edges, classes, root, depth);
      }
    }
    ids := [];
    for i := 0 to n
      invariant |root| == n && Forest(parent[..], root, depth)
      invariant ids == root[..i]
    {
      var r := Find(parent, i, root, depth);
      ids := ids + [r];
    }
    assert ids == root;
  }

  method EpisodeIds(events: seq<TriggerEvent>, window: Option<CrossZoneConfig>) returns (ids: seq<nat>)
    ensures |ids| == |events|
    ensures forall a, b :: 0 <= a < |ids| && 0 <= b < |ids| ==>
              (ids[a] == ids[b] <==> Connected(events, window, a, b))
  {
    ghost var edges := Edges(events, window);
    ghost var classes := ClassLabels(|events|, edges);
    forall a: nat, b: nat | (a, b) in edges ensures classes[a] == classes[b] {
      EdgeConnects(|events|, edges, a, b);
    }
    ids := UniteAll(events, window, edges, classes);
    LabelsAreClasses(|events|, edges, classes, ids);
  }

  // ---- ghost detection ----

  predicate Considered(e: TriggerEvent) { e.status.EventOk? && e.deltaWeight < 0.0 }

  /** The event gave class `cid` at least `floor` votes. */
  predicate Sights(e: TriggerEvent, cid: int, floor: int) { cid > 0 && VotedFor(e.visionCandidates, cid, floor) }

  predicate VotedFor(candidates: seq<VisionCandidate>, cid: int, floor: int) {
    exists c :: c in candidates && c.classId == cid && c.voteCount >= floor
  }

  /** A COMPLETE judgement off the refit and near-gate paths billed class `cid`. */
  predicate Backs(e: TriggerEvent, cid: int) {
    && e.status.EventOk? && e.judgment.status.Complete?
    && !MentionsRefit(e.judgment.reason) && !MentionsNearGate(e.judgment.reason)
    && exists pc :: pc in e.judgment.products && pc.product.classId == cid
  }

  predicate Backed(events: seq<TriggerEvent>, cid: int) {
    exists e :: e in events && Backs(e, cid)
  }

  ghost function ZonesSighting(events: seq<TriggerEvent>, cid: int, floor: int): set<int> {
    set e | e in events && Sights(e, cid, floor) :: e.zone
  }

  /** Two sightings that no chain of shared episodes links. */
  ghost predicate SightedApart(events: seq<TriggerEvent>, window: Option<CrossZoneConfig>, cid: int, floor: int) {
    exists a: nat, b: nat :: a < |events| && b < |events| && Sights(events[a], cid, floor)
      && Sights(events[b], cid, floor) && !Connected(events, window, a, b)
  }

  ghost predicate IsGhost(events: seq<TriggerEvent>, cfg: GhostConfig, window: Option<CrossZoneConfig>, cid: int) {
    var considered := Filter(events, Considered);
    && |ZonesSighting(considered, cid, cfg.voteFloor)| >= cfg.minZones
    && SightedApart(considered, window, cid, cfg.voteFloor)
    && !Backed(events, cid)
  }

  function SetAt(m: map<int, set<int>>, k: int): set<int> { if k in m then m[k] else {} }

  method WeightBackedClasses(events: seq<TriggerEvent>) returns (backed: set<int>)
    ensures forall cid :: cid in backed <==> Backed(events, cid)
  {
    backed := {};
    for i := 0 to |events|
      invariant forall cid :: cid in backed <==> Backed(events[..i], cid)
    {
      var j := events[i].judgment;
      if events[i].status.EventOk? && j.status.Complete? && !MentionsRefit(j.reason) && !MentionsNearGate(j.reason) {
        backed := backed + (set pc | pc in j.products :: pc.product.classId);
      }
      assert events[..i + 1] == events[..i] + [events[i]];
      assert forall cid :: Backed(events[..i + 1], cid) <==> Backed(events[..i], cid) || Backs(events[i], cid);
    }
    assert events[..|events|] == events;
  }

  method NoteSightings(
      e: TriggerEvent, floor: int, mark: int, seen: map<int, set<int>>) returns (updated: map<int, set<int>>)
    requires forall cid :: cid in seen ==> seen[cid] != {}
    ensures forall cid :: cid in updated ==> updated[cid] != {}
    ensures forall cid :: SetAt(updated, cid) ==
                          if Sights(e, cid, floor) then SetAt(seen, cid) + {mark} else SetAt(seen, cid)
  {
    updated := seen;
    var cs := e.visionCandidates;
    for k := 0 to |cs|
      invariant forall cid :: cid in updated ==> updated[cid] != {}
      invariant forall cid :: SetAt(updated, cid) ==
                  if cid > 0 && VotedFor(cs[..k], cid, floor) then SetAt(seen, cid) + {mark} else SetAt(seen, cid)
    {
      assert cs[..k + 1] == cs[..k] + [cs[k]];
      var cid := cs[k].classId;
      if cid > 0 && cs[k].voteCount >= floor {
        updated := updated[cid := SetAt(updated, cid) + {mark}];
      }
    }
    assert cs[..|cs|] == cs;
  }

  ghost function EpisodesSighting(events: seq<TriggerEvent>, ids: seq<int>, cid: int, floor: int): set<int>
    requires |ids| >= |events|
  {
    set k | 0 <= k < |events| && Sights(events[k], cid, floor) :: ids[k]
  }

  method CollectSightings(events: seq<TriggerEvent>, ids: seq<int>, floor: int)
    returns (zones: map<int, set<int>>, episodes: map<int, set<int>>)
    requires |ids| == |events|
    ensures forall cid :: SetAt(zones, cid) == ZonesSighting(events, cid, floor)
    ensures forall cid :: SetAt(episodes, cid) == EpisodesSighting(events, ids, cid, floor)
  {
    zones, episodes := map[], map[];
    for i := 0 to |events|
      invariant forall cid :: cid in zones ==> zones[cid] != {}
      invariant forall cid :: cid in episodes ==> episodes[cid] != {}
      invariant forall cid :: SetAt(zones, cid) == ZonesSighting(events[..i], cid, floor)
      invariant forall cid :: SetAt(episodes, cid) == EpisodesSighting(events[..i], ids, cid, floor)
    {
      ghost var zones0, episodes0 := zones, episodes;
      zones := NoteSightings(events[i], floor, events[i].zone, zones);
      episodes := NoteSightings(events[i], floor, ids[i], episodes);
      forall cid
        ensures SetAt(zones, cid) == ZonesSighting(events[..i + 1], cid, floor)
        ensures SetAt(episodes, cid) == EpisodesSighting(events[..i + 1], ids, cid, floor)
      {
        SightingsGrow(events, ids, i, cid, floor);
        assert SetAt(zones0, cid) == ZonesSighting(events[..i], cid, floor);
      }
    }
    assert events[..|events|] == events;
  }

  lemma SightingsGrow(events: seq<TriggerEvent>, ids: seq<int>, i: nat, cid: int, floor: int)
    requires i < |events| == |ids|
    ensures ZonesSighting(events[..i + 1], cid, floor) ==
            ZonesSighting(events[..i], cid, floor) + if Sights(events[i], cid, floor) then {events[i].zone} else {}
    ensures EpisodesSighting(events[..i + 1], ids, cid, floor) ==
            EpisodesSighting(events[..i], ids, cid, floor) + if Sights(events[i], cid, floor) then {ids[i]} else {}
  {
    assert events[..i + 1] == events[..i] + [events[i]];
    var more := EpisodesSighting(events[..i + 1], ids, cid, floor);
    forall x | x in EpisodesSighting(events[..i], ids, cid, floor) ensures x in more {
      var k :| 0 <= k < i && Sights(events[..i][k], cid, floor) && ids[k] == x;
      assert Sights(events[..i + 1][k], cid, floor);
    }
    if Sights(events[i], cid, floor) {
      assert Sights(events[..i + 1][i], cid, floor);
    }
  }

  method DetectGhosts(events: seq<TriggerEvent>, cfg: GhostConfig, window: Option<CrossZoneConfig>)
    returns (ghosts: map<int, set<int>>)
    ensures forall cid :: cid in ghosts <==> IsGhost(events, cfg, window, cid)
    ensures forall cid :: cid in ghosts ==>
              ghosts[cid] == ZonesSighting(Filter(events, Considered), cid, cfg.voteFloor)
  {
    var considered := Filter(events, Considered);
    var ids := EpisodeIds(considered, window);
    var zones, episodes := CollectSightings(considered, ids, cfg.voteFloor);
    var backed := WeightBackedClasses(events);
    ghosts := map cid | cid in zones && |zones[cid]| >= cfg.minZones && |SetAt(episodes, cid)| >= 2 && cid !in backed
      :: zones[cid];
    forall cid ensures cid in ghosts <==> IsGhost(events, cfg, window, cid) {
      TwoEpisodes(considered, window, ids, cid, cfg.voteFloor);
      SightedSomewhere(considered, window, cid, cfg.voteFloor);
      assert SetAt(zones, cid) == ZonesSighting(considered, cid, cfg.voteFloor);
    }
  }

  lemma SightedSomewhere(
      events: seq<TriggerEvent>, window: Option<CrossZoneConfig>, cid: int, floor: int)
    ensures SightedApart(events, window, cid, floor) ==> ZonesSighting(events, cid, floor) != {}
  {
    if SightedApart(events, window, cid, floor) {
      var a: nat :| a < |events| && Sights(events[a], cid, floor);
      assert events[a].zone in ZonesSighting(events, cid, floor);
    }
  }

  lemma TwoEpisodes(
      events: seq<TriggerEvent>, window: Option<CrossZoneConfig>, ids: seq<nat>, cid: int, floor: int)
    requires |ids| == |events|
    requires forall a, b :: 0 <= a < |ids| && 0 <= b < |ids| ==>
               (ids[a] == ids[b] <==> Connected(events, window, a, b))
    ensures |EpisodesSighting(events, ids, cid, floor)| >= 2 <==> SightedApart(events, window, cid, floor)
  {
    var marks := EpisodesSighting(events, ids, cid, floor);
    if SightedApart(events, window, cid, floor) {
      var a: nat, b: nat :| a < |events| && b < |events| && Sights(events[a], cid, floor)
        && Sights(events[b], cid, floor) && !Connected(events, window, a, b);
      AtLeastTwo(marks, ids[a], ids[b]);
    }
    if |marks| >= 2 {
      var x, y := PickTwo(marks);
      var a: nat :| a < |events| && Sights(events[a], cid, floor) && ids[a] == x;
      var b: nat :| b < |events| && Sights(events[b], cid, floor) && ids[b] == y;
    }
  }

  lemma AtLeastTwo(s: set<int>, x: int, y: int)
    requires x in s && y in s && x != y
    ensures |s| >= 2
  {
    assert |s - {x}| == |s| - 1 && y in s - {x};
  }

  lemma PickOne(s: set<int>) returns (x: int)
    requires |s| >= 1
    ensures x in s
  {
    assert (forall y :: y !in s) ==> s == {};
    x :| x in s;
  }

  lemma PickTwo(s: set<int>) returns (x: int, y: int)
    requires |s| >= 2
    ensures x in s && y in s && x != y
  {
    x := PickOne(s);
    y := PickOne(s - {x});
  }

  // ---- supplying the window configuration can only shrink the ghost map ----

  lemma WindowShrinksGhosts(
      events: seq<TriggerEvent>, cfg: GhostConfig, window: CrossZoneConfig, cid: int)
    requires IsGhost(events, cfg, Some(window), cid)
    ensures IsGhost(events, cfg, None, cid)
  {
    var considered := Filter(events, Considered);
    var a: nat, b: nat :| a < |considered| && b < |considered| && Sights(considered[a], cid, cfg.voteFloor)
      && Sights(considered[b], cid, cfg.voteFloor) && !Connected(considered, Some(window), a, b);
    if Connected(considered, None, a, b) {
      MoreEdgesConnect(|considered|, Edges(considered, None), Edges(considered, Some(window)), a, b);
      assert false;
    }
  }
}
