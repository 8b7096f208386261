/** The whole settlement of one session: the second passes over its normal events, the four layers over
    its baskets, and the refusal to confirm anything that touches an errored zone. */
module Close {
  import opened Types
  import opened Sorting
  import opened Windows
  import opened Ledger
  import opened Settler
  import opened Repass
  import opened FreezerResolve
  import Ghosts
  import Protocol
  import Router

  datatype ErrorPolicy = BlockPayment | FinalizeErrorFreeZones

  datatype CloseConfig = CloseConfig(
    setup: Setup,
    hasProducts: bool,
    cross: CrossZoneConfig,
    ghosts: Ghosts.GhostConfig,
    policy: ResolvePolicy,
    errorPolicy: ErrorPolicy)
  {
    function Products(): Option<seq<ActiveProduct>> { if hasProducts then Some(setup.active) else None }
    /** Without a product list the second passes do nothing. */
    function Passes(): Setup { if hasProducts then setup else setup.(active := []) }
  }

  predicate Normal(e: TriggerEvent) { e.status.EventOk? && !e.judgment.status.Error? }

  function NormalEvents(events: seq<TriggerEvent>): seq<TriggerEvent> { Filter(events, Normal) }

  /** The events the layers work on. */
  ghost function Final(cfg: CloseConfig, events: seq<TriggerEvent>): seq<TriggerEvent> {
    SecondPasses(cfg.Passes(), cfg.ghosts, cfg.cross, NormalEvents(events))
  }

  ghost function AfterLayers(cfg: CloseConfig, events: seq<TriggerEvent>): Books {
    Layers(Final(cfg, events), cfg.setup.profiles, cfg.setup.fallback)
  }

  // ---- errors ----

  datatype Settlement = Settlement(rows: seq<Row>, blocked: bool)

  function ErrorZones(events: seq<TriggerEvent>): set<int> { set e | e in events && !Normal(e) :: e.zone }

  /** Zones without a basket are reported empty. */
  function WithZones(table: seq<Row>, events: seq<TriggerEvent>): seq<Row>
    decreases |events|
  {
    if events == [] then table else WithZones(Opened(table, events[0].zone), events[1..])
  }

  function ByZone(a: Row, b: Row): bool { a.zone <= b.zone }

  function Conclude(policy: ErrorPolicy, rows: seq<Row>, errorZones: set<int>): Settlement {
    if errorZones == {} then Settlement(rows, false)
    else if policy.BlockPayment? then Settlement(rows, true)
    else
      var kept := Filter(rows, (r: Row) => r.zone !in errorZones);
      Settlement(kept, kept == [])
  }

  /** An errored zone is never billed: the payment is blocked or the zone is left out; and without
      errors nothing is blocked or dropped. */
  lemma ErrorsAreNeverBilled(policy: ErrorPolicy, rows: seq<Row>, events: seq<TriggerEvent>)
    ensures var s := Conclude(policy, rows, ErrorZones(events));
            && (forall e :: e in events && !Normal(e) ==> s.blocked || forall r :: r in s.rows ==> r.zone != e.zone)
            && ((forall e :: e in events ==> Normal(e)) ==> s == Settlement(rows, false))
            && (forall r :: r in s.rows ==> r in rows)
            && (!s.blocked ==> forall r :: r in rows && r.zone !in ErrorZones(events) ==> r in s.rows)
  {
    var zones := ErrorZones(events);
    FilterMembers(rows, (r: Row) => r.zone !in zones);
    assert forall e :: e in events && !Normal(e) ==> e.zone in zones;
  }

  // ---- the second passes leave the weights alone ----

  lemma {:induction false} NetUnchanged(events: seq<TriggerEvent>, after: seq<TriggerEvent>, zone: int)
    requires NoWorse(events, after)
    ensures NetOf(after, zone) == NetOf(events, zone)
  {
    if events != [] {
      assert SameOccasion(events[0], after[0]);
      forall i | 0 <= i < |events[1..]|
        ensures SameOccasion(events[1..][i], after[1..][i])
                && (events[1..][i].judgment.status.Complete? ==> after[1..][i].judgment.status.Complete?)
                && (events[1..][i].deltaWeight >= 0.0 || !events[1..][i].status.EventOk? ==>
                    after[1..][i] == events[1..][i])
      {
        assert SameOccasion(events[i + 1], after[i + 1]);
      }
      NetUnchanged(events[1..], after[1..], zone);
    }
  }

  // ---- settle ----

  /** What settling a session leaves: the books of layers 1 to 3, each basket resolved again by layer 4. */
  ghost predicate SettledTo(cfg: CloseConfig, events: seq<TriggerEvent>, table: seq<Row>) {
    var b := AfterLayers(cfg, events);
    && |table| == |b.table|
    && exists ghosts: set<int>, backed: map<int, set<int>> ::
         && GuardFacts(cfg.policy, Final(cfg, events), ghosts, backed)
         && forall k :: 0 <= k < |table| ==>
              && table[k].zone == b.table[k].zone
              && Resolves(cfg.policy, cfg.Products(), Final(cfg, events), ghosts, backed,
                          ProfileOf(cfg.setup.profiles, table[k].zone, cfg.setup.fallback), table[k].zone,
                          b.table[k].lines, table[k].lines)
  }

  /** Whatever was judged again, the freezer layer leaves a basket that explains the net change the scale
      measured, or the one the first layers left. */
  lemma FreezerExplainsTheScale(cfg: CloseConfig, events: seq<TriggerEvent>, table: seq<Row>, k: nat)
    requires SettledTo(cfg, events, table) && k < |table| && DistinctProducts(cfg.setup.active)
    requires !ProfileOf(cfg.setup.profiles, table[k].zone, cfg.setup.fallback).weightIsDiscriminative
    ensures var zone := table[k].zone;
            && k < |AfterLayers(cfg, events).table|
            && NetExplained(cfg.policy.combo.unitSlack,
                            ProfileOf(cfg.setup.profiles, zone, cfg.setup.fallback).CountGate(),
                            NetOf(NormalEvents(events), zone), AfterLayers(cfg, events).table[k].lines, table[k].lines)
  {
    var b, zone := AfterLayers(cfg, events), table[k].zone;
    var profile := ProfileOf(cfg.setup.profiles, zone, cfg.setup.fallback);
    LayersConserve(Final(cfg, events), cfg.setup.profiles, cfg.setup.fallback, zone, 0, Return(zone, 0.0));
    assert b.table[k] in b.table;
    SecondPassesNeverWorsen(cfg.Passes(), cfg.ghosts, cfg.cross, NormalEvents(events));
    NetUnchanged(NormalEvents(events), Final(cfg, events), zone);
    var ghosts, backed :| Resolves(cfg.policy, cfg.Products(), Final(cfg, events), ghosts, backed, profile, zone,
                                   b.table[k].lines, table[k].lines);
    FreezerBasketsExplainNet(cfg.policy, cfg.Products(), Final(cfg, events), ghosts, backed, profile, zone,
                             b.table[k].lines, table[k].lines);
  }

  /** Where weight discriminates, what was judged is exactly what is billed plus what the layers took back. */
  lemma JudgedIsBilledOrReturned(
      cfg: CloseConfig, events: seq<TriggerEvent>, table: seq<Row>, k: nat, id: ProductId)
    requires SettledTo(cfg, events, table) && k < |table|
    requires ProfileOf(cfg.setup.profiles, table[k].zone, cfg.setup.fallback).weightIsDiscriminative
    ensures var zone := table[k].zone;
            Judged(Final(cfg, events), zone, id) ==
              Units(table[k].lines, id) + Removed(AfterLayers(cfg, events).trail, zone, id)
  {
    var b := AfterLayers(cfg, events);
    var zone := table[k].zone;
    LayersConserve(Final(cfg, events), cfg.setup.profiles, cfg.setup.fallback, zone, id, Return(zone, 0.0));
    assert b.table[k].zone == zone && b.table[k].lines == table[k].lines;
    RowUnique(b.table, zone, k);
  }

  // ---- blocked, in the settlement and in the protocol ----

  function Reported(cfg: CloseConfig, events: seq<TriggerEvent>, table: seq<Row>): Settlement {
    Conclude(cfg.errorPolicy, StableSort(WithZones(table, events), ByZone), ErrorZones(events))
  }

  lemma OpenedZones(table: seq<Row>, zone: int, z: int)
    ensures (exists r :: r in Opened(table, zone) && r.zone == z) <==>
            z == zone || exists r :: r in table && r.zone == z
  {
    var t := Opened(table, zone);
    assert t[RowOf(t, zone)].zone == zone && t[RowOf(t, zone)] in t;
    assert forall r :: r in table ==> r in t;
  }

  lemma {:induction false} WithZonesZones(table: seq<Row>, events: seq<TriggerEvent>, z: int)
    ensures (exists r :: r in WithZones(table, events) && r.zone == z) <==>
            HasZone(events, z) || exists r :: r in table && r.zone == z
    decreases |events|
  {
    if events != [] {
      OpenedZones(table, events[0].zone, z);
      WithZonesZones(Opened(table, events[0].zone), events[1..], z);
      assert events == [events[0]] + events[1..];
    }
  }

  lemma FinalZones(cfg: CloseConfig, events: seq<TriggerEvent>, e: TriggerEvent)
    requires e in Final(cfg, events)
    ensures HasZone(events, e.zone)
  {
    var final := Final(cfg, events);
    SecondPassesNeverWorsen(cfg.Passes(), cfg.ghosts, cfg.cross, NormalEvents(events));
    var i :| 0 <= i < |final| && final[i] == e;
    assert SameOccasion(NormalEvents(events)[i], final[i]) && NormalEvents(events)[i] in NormalEvents(events);
    FilterMembers(events, Normal);
  }

  /** Baskets exist only where something happened, whatever the second passes judged again. */
  lemma SettledZones(cfg: CloseConfig, events: seq<TriggerEvent>, table: seq<Row>, r: Row)
    requires SettledTo(cfg, events, table) && r in table
    ensures HasZone(events, r.zone)
  {
    var b := AfterLayers(cfg, events);
    var k :| 0 <= k < |table| && table[k] == r;
    LayersOpenEventZones(Final(cfg, events), cfg.setup.profiles, cfg.setup.fallback);
    assert b.table[k] in b.table && b.table[k].zone == r.zone;
    var e :| e in Final(cfg, events) && e.zone == r.zone;
    FinalZones(cfg, events, e);
  }

  lemma ReportedZones(cfg: CloseConfig, events: seq<TriggerEvent>, table: seq<Row>, z: int)
    requires SettledTo(cfg, events, table)
    ensures (exists r :: r in StableSort(WithZones(table, events), ByZone) && r.zone == z) <==> HasZone(events, z)
  {
    WithZonesZones(table, events, z);
    SortMembers(WithZones(table, events), ByZone);
    if r :| r in table && r.zone == z {
      SettledZones(cfg, events, table, r);
    }
  }

  /** The log entries of the protocol that stand for the events of a session. */
  ghost predicate LoggedAs(events: seq<TriggerEvent>, logged: seq<Protocol.LoggedEvent>) {
    && |logged| == |events|
    && forall i :: 0 <= i < |events| ==> logged[i].zone == events[i].zone && (logged[i].failed <==> !Normal(events[i]))
  }

  ghost predicate FailedAt(logged: seq<Protocol.LoggedEvent>, z: int) {
    exists f :: f in logged && f.failed && f.zone == z
  }

  lemma FailedZones(events: seq<TriggerEvent>, logged: seq<Protocol.LoggedEvent>, z: int)
    requires LoggedAs(events, logged)
    ensures z in ErrorZones(events) <==> FailedAt(logged, z)
  {
    if z in ErrorZones(events) {
      var e :| e in events && !Normal(e) && e.zone == z;
      var i :| 0 <= i < |events| && events[i] == e;
      assert logged[i] in logged;
    }
    if f :| f in logged && f.failed && f.zone == z {
      var i :| 0 <= i < |logged| && logged[i] == f;
      assert events[i] in events;
    }
  }

  lemma LoggedZones(events: seq<TriggerEvent>, logged: seq<Protocol.LoggedEvent>, z: int)
    requires LoggedAs(events, logged)
    ensures HasZone(events, z) <==> exists e :: e in logged && e.zone == z
  {
    if HasZone(events, z) {
      var e :| e in events && e.zone == z;
      var i :| 0 <= i < |events| && events[i] == e;
      assert logged[i] in logged;
    }
    if e :| e in logged && e.zone == z {
      var i :| 0 <= i < |logged| && logged[i] == e;
      assert events[i] in events;
    }
  }

  /** Nothing is left to confirm exactly when every zone is an errored one. */
  lemma NothingKept(rows: seq<Row>, errorZones: set<int>)
    ensures Filter(rows, (r: Row) => r.zone !in errorZones) == [] <==> forall r :: r in rows ==> r.zone in errorZones
  {
    var kept := Filter(rows, (r: Row) => r.zone !in errorZones);
    FilterMembers(rows, (r: Row) => r.zone !in errorZones);
    if kept != [] {
      assert kept[0] in kept;
    }
  }

  /** Every reported zone is an errored one exactly when every logged zone failed. */
  lemma AllErrored(
      cfg: CloseConfig, events: seq<TriggerEvent>, logged: seq<Protocol.LoggedEvent>, table: seq<Row>)
    requires SettledTo(cfg, events, table) && LoggedAs(events, logged)
    ensures var rows := StableSort(WithZones(table, events), ByZone);
            (forall r :: r in rows ==> r.zone in ErrorZones(events)) <==>
              forall e :: e in logged ==> FailedAt(logged, e.zone)
  {
    var rows, zones := StableSort(WithZones(table, events), ByZone), ErrorZones(events);
    if forall r :: r in rows ==> r.zone in zones {
      forall e | e in logged ensures FailedAt(logged, e.zone) {
        LoggedZones(events, logged, e.zone);
        ReportedZones(cfg, events, table, e.zone);
        FailedZones(events, logged, e.zone);
      }
    }
    if forall e :: e in logged ==> FailedAt(logged, e.zone) {
      forall r | r in rows ensures r.zone in zones {
        ReportedZones(cfg, events, table, r.zone);
        LoggedZones(events, logged, r.zone);
        FailedZones(events, logged, r.zone);
      }
    }
  }

  lemma AnyErrored(events: seq<TriggerEvent>, logged: seq<Protocol.LoggedEvent>)
    requires LoggedAs(events, logged)
    ensures ErrorZones(events) != {} <==> exists f :: f in logged && f.failed
  {
    if z :| z in ErrorZones(events) {
      FailedZones(events, logged, z);
    }
    if f :| f in logged && f.failed {
      FailedZones(events, logged, f.zone);
    }
  }

  lemma ConcludeBlocks(policy: ErrorPolicy, rows: seq<Row>, errorZones: set<int>)
    ensures Conclude(policy, rows, errorZones).blocked <==>
            errorZones != {} && (policy.BlockPayment? || forall r :: r in rows ==> r.zone in errorZones)
  {
    NothingKept(rows, errorZones);
  }

  lemma ProtocolBlocks(protocol: Protocol.Config, logged: seq<Protocol.LoggedEvent>)
    ensures Protocol.Blocked(protocol, logged) <==>
            (exists f :: f in logged && f.failed)
              && (protocol.blockPayment || forall e :: e in logged ==> FailedAt(logged, e.zone))
  {
  }

  /** The settlement is blocked exactly when the protocol takes it to be, under both policies: so what the
      gateway reports as finalised is what the settlement confirms. */
  lemma BlockedAsProtocol(
      cfg: CloseConfig, protocol: Protocol.Config, events: seq<TriggerEvent>, logged: seq<Protocol.LoggedEvent>,
      table: seq<Row>)
    requires SettledTo(cfg, events, table) && LoggedAs(events, logged)
    requires protocol.blockPayment <==> cfg.errorPolicy.BlockPayment?
    ensures Reported(cfg, events, table).blocked == Protocol.Blocked(protocol, logged)
  {
    AnyErrored(events, logged);
    AllErrored(cfg, events, logged, table);
    ConcludeBlocks(cfg.errorPolicy, StableSort(WithZones(table, events), ByZone), ErrorZones(events));
    ProtocolBlocks(protocol, logged);
  }

  // ---- the code ----

  method RunPasses(cfg: CloseConfig, events: seq<TriggerEvent>) returns (final: seq<TriggerEvent>)
    ensures final == Final(cfg, events)
  {
    var setup := cfg.Passes();
    var router := new Router.JudgmentRouter(Router.DefaultPipeline(setup.judge), setup.judge.unitSlack);
    var ok := NormalEvents(events);
    var mid, ghostNotes := ApplyGhostDemotion(setup, cfg.ghosts, Some(cfg.cross), ok, router);
    var crossNotes;
    final, crossNotes := ApplyCrossZonePenalty(setup, cfg.cross, mid, router);
  }

  method RunLayers(cfg: CloseConfig, events: seq<TriggerEvent>, final: seq<TriggerEvent>) returns (slots: seq<Slot>)
    requires final == Final(cfg, events)
    ensures fresh(Baskets(slots)) && Separate(slots) && SettledTo(cfg, events, View(slots))
  {
    var notes;
    ghost var trail;
    slots, notes, trail := SettleLayers(final, cfg.setup.profiles, cfg.setup.fallback);
    ghost var before := View(slots);
    var ghosts, backed :=
      PassFreezer(slots, final, cfg.setup.profiles, cfg.setup.fallback, cfg.policy, cfg.Products());
    assert before == AfterLayers(cfg, events).table;
    assert GuardFacts(cfg.policy, Final(cfg, events), ghosts, backed);
  }

  method RowsOf(slots: seq<Slot>) returns (rows: seq<Row>)
    ensures rows == View(slots)
  {
    rows := [];
    for k := 0 to |slots|
      invariant rows == View(slots)[..k]
    {
      rows := rows + [Row(slots[k].zone, slots[k].basket.lines)];
    }
  }

  method Settle(cfg: CloseConfig, events: seq<TriggerEvent>) returns (s: Settlement, ghost table: seq<Row>)
    ensures SettledTo(cfg, events, table)
    ensures s == Reported(cfg, events, table)
  {
    var final := RunPasses(cfg, events);
    var slots := RunLayers(cfg, events, final);
    var rows := RowsOf(slots);
    table := rows;
    s := Conclude(cfg.errorPolicy, StableSort(WithZones(rows, events), ByZone), ErrorZones(events));
  }
}
