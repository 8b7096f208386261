/** The settlement of a session from its events to its report: which events take part, what the second passes
    make of each, and how the layers turn them into baskets. */
module CloseDecides {
  import opened Types
  import opened Sorting
  import opened Strict
  import opened Windows
  import opened Ledger
  import opened LedgerRules
  import opened Repass
  import opened RepassDecides
  import opened VisionCombo
  import opened NearestCount
  import opened FreezerResolve
  import opened Close
  import Ghosts

  // ---- the second passes, event by event ----

  /** What the ghost pass over `events` may make of `e`. */
  ghost predicate AfterGhosts(
      setup: Setup, cfg: Ghosts.GhostConfig, window: CrossZoneConfig, events: seq<TriggerEvent>, e: TriggerEvent,
      after: TriggerEvent)
  {
    var ghosts := set c | c in e.visionCandidates && Ghosts.IsGhost(events, cfg, Some(window), c.classId) :: c.classId;
    exists candidates, r, notes ::
      && DemotedTo(e.visionCandidates, ghosts, cfg.alpha, candidates) && Answers(setup, e, candidates, r)
      && if cfg.mode.Active? && setup.active != [] && Eligible(e) && ghosts != {}
         then GhostOutcome(e, ghosts, candidates, r, Repassed(after, notes))
         else after == e
  }

  /** What the cross-zone pass over `events` may make of `e`. */
  ghost predicate AfterCross(
      setup: Setup, cfg: CrossZoneConfig, events: seq<TriggerEvent>, e: TriggerEvent, after: TriggerEvent)
  {
    exists penalised, candidates, r, notes ::
      && penalised == PenalisedClasses(setup, cfg, events, e)
      && DemotedTo(e.visionCandidates, penalised, cfg.alpha, candidates) && Answers(setup, e, candidates, r)
      && if JudgedAgain(setup, cfg, events, e) then CrossOutcome(e, penalised, r, Repassed(after, notes))
         else after == e
  }

  lemma GhostPassDecides(
      setup: Setup, cfg: Ghosts.GhostConfig, window: CrossZoneConfig, events: seq<TriggerEvent>, i: nat)
    requires i < |events|
    ensures var after := GhostPass(setup, cfg, Some(window), events);
            |after| == |events| && AfterGhosts(setup, cfg, window, events, events[i], after[i])
  {
    var e := events[i];
    var candidates, r := GhostDecides(setup, cfg, Some(window), events, e);
    RejudgedAnswers(setup, e, candidates);
    var after := GhostEvent(setup, cfg, Some(window), events, e);
    assert GhostPass(setup, cfg, Some(window), events)[i] == after.event;
    assert after == Repassed(after.event, after.notes);
  }

  lemma CrossPassDecides(setup: Setup, cfg: CrossZoneConfig, events: seq<TriggerEvent>, i: nat)
    requires i < |events|
    ensures var after := Repass.CrossPass(setup, cfg, events);
            |after| == |events| && AfterCross(setup, cfg, events, events[i], after[i])
  {
    var e := events[i];
    var candidates, r := CrossDecides(setup, cfg, events, e);
    RejudgedAnswers(setup, e, candidates);
    var after := CrossEvent(setup, cfg, events, e);
    assert Repass.CrossPass(setup, cfg, events)[i] == after.event;
    assert after == Repassed(after.event, after.notes);
  }

  /** Only events that went well and were judged take part. Each first goes through the ghost pass over all of
      them, and what that leaves through the cross-zone pass over all that it leaves; without a product list
      neither pass does anything. */
  lemma PassesDecide(cfg: CloseConfig, events: seq<TriggerEvent>) returns (mid: seq<TriggerEvent>)
    ensures var normal, final := NormalEvents(events), Final(cfg, events);
            && (forall e :: e in normal <==> e in events && e.status.EventOk? && !e.judgment.status.Error?)
            && |mid| == |normal| && |final| == |normal|
            && forall i :: 0 <= i < |normal| ==>
                 && AfterGhosts(cfg.Passes(), cfg.ghosts, cfg.cross, normal, normal[i], mid[i])
                 && AfterCross(cfg.Passes(), cfg.cross, mid, mid[i], final[i])
    ensures !cfg.hasProducts ==> Final(cfg, events) == NormalEvents(events)
  {
    var normal := NormalEvents(events);
    FilterMembers(events, Normal);
    mid := GhostPass(cfg.Passes(), cfg.ghosts, Some(cfg.cross), normal);
    forall i | 0 <= i < |normal|
      ensures AfterGhosts(cfg.Passes(), cfg.ghosts, cfg.cross, normal, normal[i], mid[i])
      ensures AfterCross(cfg.Passes(), cfg.cross, mid, mid[i], Final(cfg, events)[i])
      ensures !cfg.hasProducts ==> Final(cfg, events)[i] == normal[i]
    {
      GhostPassDecides(cfg.Passes(), cfg.ghosts, cfg.cross, normal, i);
      CrossPassDecides(cfg.Passes(), cfg.cross, mid, i);
    }
  }

  // ---- the baskets ----

  /** What layer 4 makes of a freezer basket, in terms of the net change the scale measured. */
  ghost predicate FreezerOutcome(
      cfg: CloseConfig, final: seq<TriggerEvent>, ghosts: set<int>, backed: map<int, set<int>>, gate: real, zone: int,
      before: seq<Line>, after: seq<Line>)
  {
    var net := NetOf(final, zone);
    if net >= -gate then forall x :: Units(after, x) == 0
    else if |Kinds(before)| != 1 then after == before
    else
      var kind := Kinds(before)[0];
      exists n, answer ::
        && (if kind.product.unitWeight > 0.0 then IsNearest(-net, kind.product.unitWeight, n) else n == 0)
        && Decided(cfg.policy, cfg.Products(), final, ghosts, backed, gate, zone, kind, n, answer, before, after)
  }

  /** One basket of the settlement: what the rules of the first three layers leave in it, and in a freezer what
      layer 4 makes of that. */
  ghost predicate BasketOutcome(
      cfg: CloseConfig, final: seq<TriggerEvent>, ghosts: set<int>, backed: map<int, set<int>>, before: Row, after: Row)
  {
    var profile := ProfileOf(cfg.setup.profiles, after.zone, cfg.setup.fallback);
    && after.zone == before.zone
    && if profile.weightIsDiscriminative then after.lines == before.lines
       else FreezerOutcome(cfg, final, ghosts, backed, profile.CountGate(), after.zone, before.lines, after.lines)
  }

  lemma BasketDecides(
      cfg: CloseConfig, final: seq<TriggerEvent>, ghosts: set<int>, backed: map<int, set<int>>, before: Row, after: Row)
    requires Ledger.Distinct(before.lines) && DistinctProducts(cfg.setup.active) && after.zone == before.zone
    requires Resolves(cfg.policy, cfg.Products(), final, ghosts, backed,
                      ProfileOf(cfg.setup.profiles, after.zone, cfg.setup.fallback), after.zone, before.lines,
                      after.lines)
    ensures BasketOutcome(cfg, final, ghosts, backed, before, after)
  {
    var profile := ProfileOf(cfg.setup.profiles, after.zone, cfg.setup.fallback);
    if !profile.weightIsDiscriminative {
      FreezerBasketIsDecided(cfg.policy, cfg.Products(), final, ghosts, backed, profile, after.zone, before.lines,
                             after.lines);
    }
  }

  /** The baskets of a settled session: the rules of layers 1 to 3 over the events the passes leave, then layer 4
      on every basket, with the ghosts and backing zones of those events. */
  lemma BasketsDecide(cfg: CloseConfig, events: seq<TriggerEvent>, table: seq<Row>)
    returns (sorted: seq<TriggerEvent>, first: seq<Books>, second: seq<Books>, third: seq<Books>)
    requires SettledTo(cfg, events, table) && DistinctProducts(cfg.setup.active)
    ensures Follows(Final(cfg, events), cfg.setup.profiles, cfg.setup.fallback, sorted, first, second, third)
    ensures var before := third[|third| - 1].table;
            && |table| == |before|
            && exists ghosts, backed ::
                 && GuardFacts(cfg.policy, Final(cfg, events), ghosts, backed)
                 && forall k :: 0 <= k < |table| ==>
                      BasketOutcome(cfg, Final(cfg, events), ghosts, backed, before[k], table[k])
  {
    var final := Final(cfg, events);
    sorted, first, second, third := LayersFollowRules(final, cfg.setup.profiles, cfg.setup.fallback);
    var b := AfterLayers(cfg, events);
    LayersConserve(final, cfg.setup.profiles, cfg.setup.fallback, 0, 0, Return(0, 0.0));
    var ghosts: set<int>, backed: map<int, set<int>> :|
      && GuardFacts(cfg.policy, final, ghosts, backed)
      && forall k :: 0 <= k < |table| ==>
           && table[k].zone == b.table[k].zone
           && Resolves(cfg.policy, cfg.Products(), final, ghosts, backed,
                       ProfileOf(cfg.setup.profiles, table[k].zone, cfg.setup.fallback), table[k].zone,
                       b.table[k].lines, table[k].lines);
    forall k | 0 <= k < |table| ensures BasketOutcome(cfg, final, ghosts, backed, b.table[k], table[k]) {
      assert b.table[k] in b.table;
      BasketDecides(cfg, final, ghosts, backed, b.table[k], table[k]);
    }
  }

  // ---- the report ----

  lemma OpenedRows(table: seq<Row>, zone: int, r: Row)
    ensures r in Opened(table, zone) <==>
            r in table || (r == Row(zone, []) && forall x :: x in table ==> x.zone != zone)
  {
    var n := RowOf(table, zone);
    if n < |table| {
      assert table[n] in table && table[n].zone == zone;
    }
    if x :| x in table && x.zone == zone {
      var k :| 0 <= k < |table| && table[k] == x;
    }
  }

  lemma {:induction false} WithZonesRows(table: seq<Row>, events: seq<TriggerEvent>, r: Row)
    ensures r in WithZones(table, events) <==>
            || r in table
            || (r == Row(r.zone, []) && HasZone(events, r.zone) && forall x :: x in table ==> x.zone != r.zone)
    decreases |events|
  {
    if events != [] {
      var more := Opened(table, events[0].zone);
      WithZonesRows(more, events[1..], r);
      OpenedRows(table, events[0].zone, r);
      forall x | x in more ensures x in table || x == Row(events[0].zone, []) {
        OpenedRows(table, events[0].zone, x);
      }
      assert forall x :: x in table ==> x in more;
      assert events == [events[0]] + events[1..];
      OpenedZones(table, events[0].zone, r.zone);
    }
  }

  ghost predicate Errored(events: seq<TriggerEvent>, zone: int) {
    exists e :: e in events && e.zone == zone && (!e.status.EventOk? || e.judgment.status.Error?)
  }

  /** The basket of a zone, or an empty one where something happened without leaving a basket. */
  ghost predicate Reportable(events: seq<TriggerEvent>, table: seq<Row>, r: Row) {
    || r in table
    || (r.lines == [] && HasZone(events, r.zone) && forall x :: x in table ==> x.zone != r.zone)
  }

  lemma SortedRest(rows: seq<Row>, keep: Row -> bool)
    requires SortedBy(rows, ByZone)
    ensures SortedBy(Filter(rows, keep), ByZone)
    decreases |rows|
  {
    if rows != [] {
      assert SortedBy(rows[1..], ByZone) by {
        forall i, j | 0 <= i < j < |rows[1..]| ensures ByZone(rows[1..][i], rows[1..][j]) {
          assert ByZone(rows[i + 1], rows[j + 1]);
        }
      }
      SortedRest(rows[1..], keep);
      FilterMembers(rows[1..], keep);
      forall r | r in Filter(rows[1..], keep) ensures ByZone(rows[0], r) {
        var k :| 0 <= k < |rows[1..]| && rows[1..][k] == r;
        assert ByZone(rows[0], rows[k + 1]);
      }
    }
  }

  /** The report lists every reportable basket in order of zone. Under the policy that confirms error-free zones
      those of errored zones are left out. It is blocked exactly when some zone errored and the policy blocks or
      no zone is left. */
  lemma ReportDecides(cfg: CloseConfig, events: seq<TriggerEvent>, table: seq<Row>)
    ensures var s, all := Reported(cfg, events, table), cfg.errorPolicy.BlockPayment?;
            && SortedBy(s.rows, ByZone)
            && (forall r :: r in s.rows <==> Reportable(events, table, r) && (all || !Errored(events, r.zone)))
            && (s.blocked <==> (exists z :: Errored(events, z)) && (all || s.rows == []))
  {
    var rows, zones := StableSort(WithZones(table, events), ByZone), ErrorZones(events);
    SortMembers(WithZones(table, events), ByZone);
    StableSortSorts(WithZones(table, events), ByZone);
    var kept := (r: Row) => r.zone !in zones;
    FilterMembers(rows, kept);
    SortedRest(rows, kept);
    forall r ensures r in rows <==> Reportable(events, table, r) {
      WithZonesRows(table, events, r);
    }
    ErrorZonesExactly(events);
  }

  lemma ErrorZonesExactly(events: seq<TriggerEvent>)
    ensures forall z :: z in ErrorZones(events) <==> Errored(events, z)
    ensures ErrorZones(events) == {} <==> forall z :: !Errored(events, z)
  {
    forall z ensures z in ErrorZones(events) <==> Errored(events, z) {
    }
    if ErrorZones(events) != {} {
      var z :| z in ErrorZones(events);
    }
  }
}
