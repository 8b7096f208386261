/** The cross-zone vision penalty: which classes another zone's pick may have leaked into an event's
    video, who is exempt from the penalty, and when weight leaves room for one. */
module CrossZone {
  import opened Types
  import opened Sorting
  import opened Windows

  const SELF_FIT_MARGIN_GRAMS: real := 5.0
  const MAX_COUNT: nat := 6

  predicate Bills(e: TriggerEvent, cid: int) { exists pc :: pc in e.judgment.products && pc.product.classId == cid }

  predicate Qualified(e: TriggerEvent, cfg: CrossZoneConfig) {
    e.status.EventOk? && e.judgment.products != [] && e.judgment.confidence >= cfg.sourceConfMin
  }

  // ---- penalty sources ----

  /** A trusted event of another zone that the window of `e` reaches and that billed the class. */
  predicate SourcedBy(e: TriggerEvent, other: TriggerEvent, cfg: CrossZoneConfig, cid: int) {
    other.zone != e.zone && Qualified(other, cfg) && Reaches(e, other, cfg) && Bills(other, cid)
  }

  predicate IsSource(e: TriggerEvent, events: seq<TriggerEvent>, cfg: CrossZoneConfig, cid: int) {
    cid > 0 && exists other :: other in events && SourcedBy(e, other, cfg, cid)
  }

  datatype SourceRef = SourceRef(product: ProductId, zone: int, anchor: real)

  predicate Inside(e: TriggerEvent, cfg: CrossZoneConfig, t: real) { WindowLow(e, cfg) <= t <= WindowHigh(e, cfg) }

  ghost predicate IsFirstInside(e: TriggerEvent, other: TriggerEvent, cfg: CrossZoneConfig, t: real) {
    exists k :: 0 <= k < |Anchors(other)| && Anchors(other)[k] == t && Inside(e, cfg, t)
      && forall i :: 0 <= i < k ==> !Inside(e, cfg, Anchors(other)[i])
  }

  ghost predicate IsFirstBilled(products: seq<ProductCount>, cid: int, id: ProductId) {
    exists m :: 0 <= m < |products| && products[m].product.classId == cid && products[m].product.productId == id
      && forall i :: 0 <= i < m ==> products[i].product.classId != cid
  }

  /** What the source of a class is reported as: its first product of the class, at its first anchor inside. */
  ghost predicate Locates(r: SourceRef, e: TriggerEvent, other: TriggerEvent, cfg: CrossZoneConfig, cid: int) {
    && r.zone == other.zone && IsFirstInside(e, other, cfg, r.anchor)
    && IsFirstBilled(other.judgment.products, cid, r.product)
  }

  /** The first event that is a source of the class is the one reported. */
  ghost predicate IsFirstSource(
      e: TriggerEvent, events: seq<TriggerEvent>, cfg: CrossZoneConfig, cid: int, r: SourceRef) {
    exists n :: 0 <= n < |events| && SourcedBy(e, events[n], cfg, cid) && Locates(r, e, events[n], cfg, cid)
      && forall i :: 0 <= i < n ==> !SourcedBy(e, events[i], cfg, cid)
  }

  ghost predicate SourcesFrom(
      e: TriggerEvent, events: seq<TriggerEvent>, cfg: CrossZoneConfig, sources: map<int, SourceRef>) {
    && (forall cid :: cid in sources <==> IsSource(e, events, cfg, cid))
    && forall cid :: cid in sources ==> IsFirstSource(e, events, cfg, cid, sources[cid])
  }

  lemma SourcesNext(
      e: TriggerEvent, events: seq<TriggerEvent>, cfg: CrossZoneConfig, before: map<int, SourceRef>,
      other: TriggerEvent,
      after: map<int, SourceRef>)
    requires SourcesFrom(e, events, cfg, before)
    requires forall cid :: cid in after <==> cid in before || (cid > 0 && SourcedBy(e, other, cfg, cid))
    requires forall cid :: cid in before ==> after[cid] == before[cid]
    requires forall cid :: cid in after && cid !in before ==> Locates(after[cid], e, other, cfg, cid)
    ensures SourcesFrom(e, events + [other], cfg, after)
  {
    var all := events + [other];
    forall cid ensures IsSource(e, all, cfg, cid) <==>
                       IsSource(e, events, cfg, cid) || (cid > 0 && SourcedBy(e, other, cfg, cid))
    {
    }
    forall cid | cid in after ensures IsFirstSource(e, all, cfg, cid, after[cid]) {
      if cid in before {
        FirstSourceKept(e, events, cfg, cid, before[cid], other);
      } else {
        FirstSourceNew(e, events, cfg, cid, after[cid], other);
      }
    }
  }

  lemma FirstSourceKept(
      e: TriggerEvent, events: seq<TriggerEvent>, cfg: CrossZoneConfig, cid: int, r: SourceRef, other: TriggerEvent)
    requires IsFirstSource(e, events, cfg, cid, r)
    ensures IsFirstSource(e, events + [other], cfg, cid, r)
  {
    var n :| 0 <= n < |events| && SourcedBy(e, events[n], cfg, cid) && Locates(r, e, events[n], cfg, cid)
             && forall i :: 0 <= i < n ==> !SourcedBy(e, events[i], cfg, cid);
    var all := events + [other];
    assert all[n] == events[n] && forall i :: 0 <= i < n ==> all[i] == events[i];
  }

  lemma FirstSourceNew(
      e: TriggerEvent, events: seq<TriggerEvent>, cfg: CrossZoneConfig, cid: int, r: SourceRef, other: TriggerEvent)
    requires cid > 0 && !IsSource(e, events, cfg, cid)
    requires SourcedBy(e, other, cfg, cid) && Locates(r, e, other, cfg, cid)
    ensures IsFirstSource(e, events + [other], cfg, cid, r)
  {
    var all := events + [other];
    assert forall i :: 0 <= i < |events| ==> all[i] == events[i] && events[i] in events;
    assert all[|events|] == other;
  }

  /** The first anchor inside the window. */
  method FirstInside(e: TriggerEvent, other: TriggerEvent, cfg: CrossZoneConfig) returns (t: Option<real>)
    ensures t.Some? <==> Reaches(e, other, cfg)
    ensures t.Some? ==> IsFirstInside(e, other, cfg, t.value)
  {
    var anchors := Anchors(other);
    for k := 0 to |anchors|
      invariant forall i :: 0 <= i < k ==> !Inside(e, cfg, anchors[i])
    {
      if Inside(e, cfg, anchors[k]) {
        assert anchors[k] in Anchors(other);
        return Some(anchors[k]);
      }
    }
    return None;
  }

  /** Enters every class one trusted, reached event billed; an earlier entry stays. */
  method EnterSources(
      e: TriggerEvent, other: TriggerEvent, cfg: CrossZoneConfig, anchor: real, before: map<int, SourceRef>)
    returns (sources: map<int, SourceRef>)
    requires other.zone != e.zone && Qualified(other, cfg) && IsFirstInside(e, other, cfg, anchor)
    ensures forall cid :: cid in sources <==> cid in before || (cid > 0 && Bills(other, cid))
    ensures forall cid :: cid in before ==> sources[cid] == before[cid]
    ensures forall cid :: cid in sources && cid !in before ==> Locates(sources[cid], e, other, cfg, cid)
  {
    var products := other.judgment.products;
    sources := before;
    for k := 0 to |products|
      invariant forall cid :: cid in sources <==>
                  cid in before || (cid > 0 && exists i :: 0 <= i < k && products[i].product.classId == cid)
      invariant forall cid :: cid in before ==> sources[cid] == before[cid]
      invariant forall cid :: cid in sources && cid !in before ==> Locates(sources[cid], e, other, cfg, cid)
    {
      var p := products[k].product;
      if p.classId > 0 && p.classId !in sources {
        assert IsFirstBilled(products, p.classId, p.productId);
        sources := sources[p.classId := SourceRef(p.productId, other.zone, anchor)];
      }
    }
  }

  /** An overlapping event of another zone whose judgement cannot be trusted as a source. */
  predicate Distrusted(e: TriggerEvent, other: TriggerEvent, cfg: CrossZoneConfig) {
    other.zone != e.zone && other.status.EventOk? && Reaches(e, other, cfg) && !Qualified(other, cfg)
  }

  /** One event's share of the sources, and whether it is passed over as untrusted. */
  method AddSource(e: TriggerEvent, other: TriggerEvent, cfg: CrossZoneConfig, before: map<int, SourceRef>)
    returns (sources: map<int, SourceRef>, distrusted: bool)
    ensures distrusted <==> Distrusted(e, other, cfg)
    ensures forall cid :: cid in sources <==> cid in before || (cid > 0 && SourcedBy(e, other, cfg, cid))
    ensures forall cid :: cid in before ==> sources[cid] == before[cid]
    ensures forall cid :: cid in sources && cid !in before ==> Locates(sources[cid], e, other, cfg, cid)
  {
    if other.zone == e.zone || !other.status.EventOk? {
      return before, false;
    }
    var t := FirstInside(e, other, cfg);
    if t.None? {
      return before, false;
    }
    if other.judgment.products == [] || other.judgment.confidence < cfg.sourceConfMin {
      return before, true;
    }
    sources := EnterSources(e, other, cfg, t.value, before);
    distrusted := false;
  }

  ghost predicate AnyDistrusted(e: TriggerEvent, events: seq<TriggerEvent>, cfg: CrossZoneConfig) {
    exists other :: other in events && Distrusted(e, other, cfg)
  }

  /** The classes another zone may have leaked, each with its first source; and whether an overlapping event
      was passed over as untrusted. */
  method PenaltySources(e: TriggerEvent, events: seq<TriggerEvent>, cfg: CrossZoneConfig)
    returns (sources: map<int, SourceRef>, lowConf: bool)
    ensures SourcesFrom(e, events, cfg, sources)
    ensures lowConf <==> AnyDistrusted(e, events, cfg)
  {
    sources, lowConf := map[], false;
    for n := 0 to |events|
      invariant SourcesFrom(e, events[..n], cfg, sources)
      invariant lowConf <==> AnyDistrusted(e, events[..n], cfg)
    {
      ghost var before := sources;
      assert events[..n + 1] == events[..n] + [events[n]];
      var distrusted;
      sources, distrusted := AddSource(e, events[n], cfg, sources);
      lowConf := lowConf || distrusted;
      SourcesNext(e, events[..n], cfg, before, events[n], sources);
    }
    assert events[..|events|] == events;
  }

  const NO_OVERLAP_HORIZON_S: real := 30.0

  /** A judged event of another zone that came close in time. */
  predicate NearMiss(e: TriggerEvent, other: TriggerEvent) {
    && other.zone != e.zone && other.status.EventOk? && other.judgment.products != []
    && exists a, b :: a in Anchors(e) && b in Anchors(other) && Abs(a - b) <= NO_OVERLAP_HORIZON_S
  }

  method AnyNearMiss(e: TriggerEvent, events: seq<TriggerEvent>) returns (near: bool)
    ensures near <==> exists other :: other in events && NearMiss(e, other)
  {
    near := false;
    for n := 0 to |events|
      invariant near <==> exists other :: other in events[..n] && NearMiss(e, other)
    {
      assert events[..n + 1] == events[..n] + [events[n]];
      if NearMiss(e, events[n]) {
        near := true;
      }
    }
    assert events[..|events|] == events;
  }

  // ---- does the zone's own weight prefer another candidate? ----

  /** How far the judgement is from explaining its own change; unknown without unit weights. */
  function Residual(e: TriggerEvent): Option<real> {
    if e.judgment.products == [] || exists pc :: pc in e.judgment.products && pc.product.unitWeight <= 0.0 then None
    else Some(Abs(Abs(e.deltaWeight) - SumWeight(e.judgment.products)))
  }

  /** `n` units of another seen product. */
  predicate IsAlternative(e: TriggerEvent, cid: int, p: ActiveProduct, n: nat) {
    && p.stockQty > 0 && p.unitWeight > 0.0 && p.classId != cid && 1 <= n <= Min(p.stockQty, MAX_COUNT)
    && exists c :: c in e.visionCandidates && c.classId == p.classId
  }

  function AltResidual(e: TriggerEvent, p: ActiveProduct, n: nat): real {
    Abs(Abs(e.deltaWeight) - Times(n, p.unitWeight))
  }

  /** Some count of another candidate explains the change clearly better than the single product billed. */
  ghost predicate PrefersAlternative(e: TriggerEvent, cid: int, active: seq<ActiveProduct>) {
    && |e.judgment.products| == 1 && Residual(e).Some?
    && exists p, n: nat :: p in active && IsAlternative(e, cid, p, n)
                           && AltResidual(e, p, n) + SELF_FIT_MARGIN_GRAMS <= Residual(e).value
  }

  ghost predicate LeastAlternative(e: TriggerEvent, cid: int, pool: seq<ActiveProduct>, best: Option<real>) {
    match best
    case None => forall p, n: nat :: p in pool ==> !IsAlternative(e, cid, p, n)
    case Some(r) =>
      && (exists p, n: nat :: p in pool && IsAlternative(e, cid, p, n) && AltResidual(e, p, n) == r)
      && forall p, n: nat :: p in pool && IsAlternative(e, cid, p, n) ==> r <= AltResidual(e, p, n)
  }

  /** The least residual over the counts of one product, joined to the best so far. */
  method TryCounts(e: TriggerEvent, cid: int, p: ActiveProduct, best: Option<real>) returns (r: Option<real>)
    requires IsAlternative(e, cid, p, 1)
    ensures r.Some? && (r == best || exists n: nat :: IsAlternative(e, cid, p, n) && AltResidual(e, p, n) == r.value)
    ensures best.Some? ==> r.value <= best.value
    ensures forall n: nat :: IsAlternative(e, cid, p, n) ==> r.value <= AltResidual(e, p, n)
  {
    r := best;
    for n := 1 to Min(p.stockQty, MAX_COUNT) + 1
      invariant n > 1 ==> r.Some?
      invariant r == best
                || (r.Some? && exists k: nat :: IsAlternative(e, cid, p, k) && AltResidual(e, p, k) == r.value)
      invariant best.Some? ==> r.Some? && r.value <= best.value
      invariant forall k: nat :: k < n && IsAlternative(e, cid, p, k) ==> r.Some? && r.value <= AltResidual(e, p, k)
    {
      var residual := AltResidual(e, p, n);
      assert IsAlternative(e, cid, p, n);
      if r.None? || residual < r.value {
        r := Some(residual);
      }
    }
  }

  method SelfFitPrefersAlternative(e: TriggerEvent, cid: int, active: seq<ActiveProduct>) returns (yes: bool)
    ensures yes == PrefersAlternative(e, cid, active)
  {
    if |e.judgment.products| != 1 || Residual(e).None? {
      return false;
    }
    var classes := set c | c in e.visionCandidates && c.classId != cid :: c.classId;
    var best: Option<real> := None;
    for i := 0 to |active|
      invariant LeastAlternative(e, cid, active[..i], best)
    {
      var p := active[i];
      assert active[..i + 1] == active[..i] + [p];
      if p.classId in classes && p.stockQty > 0 && p.unitWeight > 0.0 {
        assert IsAlternative(e, cid, p, 1);
        best := TryCounts(e, cid, p, best);
      } else {
        assert forall n: nat :: !IsAlternative(e, cid, p, n);
      }
    }
    assert active[..|active|] == active;
    yes := best.Some? && best.value + SELF_FIT_MARGIN_GRAMS <= Residual(e).value;
  }

  // ---- mutual exemptions ----

  /** Two trusted events of different zones bill the same class and could each have filmed the other. */
  predicate Clash(e1: TriggerEvent, e2: TriggerEvent, cfg: CrossZoneConfig, cid: int) {
    && Qualified(e1, cfg) && Qualified(e2, cfg) && e1.zone != e2.zone
    && cid > 0 && Bills(e1, cid) && Bills(e2, cid) && MutuallyOverlap(e1, e2, cfg)
  }

  /** The zones of a clash that keep the class: the one whose own weight does not prefer another product,
      else the one that weighs better, else both. */
  ghost function KeepZones(e1: TriggerEvent, e2: TriggerEvent, cid: int, active: seq<ActiveProduct>): set<int> {
    var unfit1, unfit2 := PrefersAlternative(e1, cid, active), PrefersAlternative(e2, cid, active);
    var r1, r2 := Residual(e1), Residual(e2);
    if unfit1 != unfit2 then {if unfit1 then e2.zone else e1.zone}
    else if r1.None? || r2.None? || r1 == r2 then {e1.zone, e2.zone}
    else if r1.value < r2.value then {e1.zone}
    else {e2.zone}
  }

  ghost predicate PairKeeps(
      e1: TriggerEvent, e2: TriggerEvent, cfg: CrossZoneConfig, active: seq<ActiveProduct>, zone: int, cid: int)
  {
    Clash(e1, e2, cfg, cid) && zone in KeepZones(e1, e2, cid, active)
  }

  /** Some clash over `cid` exempts `zone`. No mention of order. */
  ghost predicate IsExempt(
      events: seq<TriggerEvent>, cfg: CrossZoneConfig, active: seq<ActiveProduct>, zone: int, cid: int) {
    exists e1, e2 :: e1 in events && e2 in events && PairKeeps(e1, e2, cfg, active, zone, cid)
  }

  method ExemptClass(e1: TriggerEvent, e2: TriggerEvent, active: seq<ActiveProduct>, cid: int, before: set<(int, int)>)
    returns (exempt: set<(int, int)>)
    ensures exempt == before + set z | z in KeepZones(e1, e2, cid, active) :: (z, cid)
  {
    exempt := before;
    var unfit1 := SelfFitPrefersAlternative(e1, cid, active);
    var unfit2 := SelfFitPrefersAlternative(e2, cid, active);
    var r1, r2 := Residual(e1), Residual(e2);
    if unfit1 != unfit2 {
      exempt := exempt + {(if unfit1 then e2.zone else e1.zone, cid)};
    } else if r1.None? || r2.None? || r1 == r2 {
      exempt := exempt + {(e1.zone, cid)};
      exempt := exempt + {(e2.zone, cid)};
    } else if r1.value < r2.value {
      exempt := exempt + {(e1.zone, cid)};
    } else {
      exempt := exempt + {(e2.zone, cid)};
    }
  }

  /** One pair of events of different zones: every class they share. */
  method ExemptPair(
      e1: TriggerEvent, e2: TriggerEvent, cfg: CrossZoneConfig, active: seq<ActiveProduct>, before: set<(int, int)>)
    returns (exempt: set<(int, int)>)
    requires Qualified(e1, cfg) && Qualified(e2, cfg)
    ensures forall z, cid :: (z, cid) in exempt <==> (z, cid) in before || PairKeeps(e1, e2, cfg, active, z, cid)
  {
    exempt := before;
    if e1.zone == e2.zone {
      return;
    }
    var shared := set pc | pc in e1.judgment.products && pc.product.classId > 0
      && Bills(e2, pc.product.classId) :: pc.product.classId;
    if shared == {} || !MutuallyOverlap(e1, e2, cfg) {
      assert forall cid :: Clash(e1, e2, cfg, cid) ==> cid in shared;
      return;
    }
    var todo := shared;
    while todo != {}
      invariant todo <= shared
      invariant forall z, cid :: (z, cid) in exempt <==>
                  (z, cid) in before || (cid in shared - todo && z in KeepZones(e1, e2, cid, active))
      decreases todo
    {
      assert (forall c :: c !in todo) ==> todo == {};
      var cid :| cid in todo;
      exempt := ExemptClass(e1, e2, active, cid, exempt);
      todo := todo - {cid};
    }
    assert forall cid :: cid in shared <==> Clash(e1, e2, cfg, cid);
  }

  ghost predicate RowKeeps(
      valid: seq<TriggerEvent>, a: nat, cfg: CrossZoneConfig, active: seq<ActiveProduct>, zone: int, cid: int)
    requires a < |valid|
  {
    exists b :: a < b < |valid| && PairKeeps(valid[a], valid[b], cfg, active, zone, cid)
  }

  method ExemptRow(
      valid: seq<TriggerEvent>, a: nat, cfg: CrossZoneConfig, active: seq<ActiveProduct>, before: set<(int, int)>)
    returns (exempt: set<(int, int)>)
    requires a < |valid| && forall e :: e in valid ==> Qualified(e, cfg)
    ensures forall z, cid :: (z, cid) in exempt <==>
              (z, cid) in before || RowKeeps(valid, a, cfg, active, z, cid)
  {
    exempt := before;
    for j := a + 1 to |valid|
      invariant forall z, cid :: (z, cid) in exempt <==>
                  (z, cid) in before || exists b :: a < b < j && PairKeeps(valid[a], valid[b], cfg, active, z, cid)
    {
      exempt := ExemptPair(valid[a], valid[j], cfg, active, exempt);
    }
  }

  lemma KeepZonesSymmetric(e1: TriggerEvent, e2: TriggerEvent, cid: int, active: seq<ActiveProduct>)
    ensures KeepZones(e1, e2, cid, active) == KeepZones(e2, e1, cid, active)
  {
  }

  method ExemptRows(valid: seq<TriggerEvent>, cfg: CrossZoneConfig, active: seq<ActiveProduct>)
    returns (exempt: set<(int, int)>)
    requires forall e :: e in valid ==> Qualified(e, cfg)
    ensures forall z, cid :: (z, cid) in exempt <==>
            exists a :: 0 <= a < |valid| && RowKeeps(valid, a, cfg, active, z, cid)
  {
    exempt := {};
    for i := 0 to |valid|
      invariant forall z, cid :: (z, cid) in exempt <==>
                exists a :: 0 <= a < i && RowKeeps(valid, a, cfg, active, z, cid)
    {
      exempt := ExemptRow(valid, i, cfg, active, exempt);
    }
  }

  /** Every pair of trusted events, once. */
  method MutualExemptions(events: seq<TriggerEvent>, cfg: CrossZoneConfig, active: seq<ActiveProduct>)
    returns (exempt: set<(int, int)>)
    ensures forall z, cid :: (z, cid) in exempt <==> IsExempt(events, cfg, active, z, cid)
  {
    var qualified := (e: TriggerEvent) => Qualified(e, cfg);
    var valid := Filter(events, qualified);
    FilterMembers(events, qualified);
    exempt := ExemptRows(valid, cfg, active);
    forall z, cid ensures (z, cid) in exempt <==> IsExempt(events, cfg, active, z, cid) {
      PairsCover(events, valid, cfg, active, z, cid);
    }
  }

  lemma PairsCover(
      events: seq<TriggerEvent>, valid: seq<TriggerEvent>, cfg: CrossZoneConfig, active: seq<ActiveProduct>, z: int,
      cid: int)
    requires forall e :: e in valid <==> e in events && Qualified(e, cfg)
    ensures IsExempt(events, cfg, active, z, cid) <==>
            exists a :: 0 <= a < |valid| && RowKeeps(valid, a, cfg, active, z, cid)
  {
    if IsExempt(events, cfg, active, z, cid) {
      var e1, e2 :| e1 in events && e2 in events && PairKeeps(e1, e2, cfg, active, z, cid);
      var a :| 0 <= a < |valid| && valid[a] == e1;
      var b :| 0 <= b < |valid| && valid[b] == e2;
      KeepZonesSymmetric(e1, e2, cid, active);
      assert PairKeeps(valid[Min(a, b)], valid[Max(a, b)], cfg, active, z, cid);
      assert RowKeeps(valid, Min(a, b), cfg, active, z, cid);
    }
  }

  // ---- the guard ----

  /** The classes an event is penalised for: seen, sourced elsewhere, and not exempt. */
  ghost predicate IsPenalised(
      e: TriggerEvent, events: seq<TriggerEvent>, cfg: CrossZoneConfig, active: seq<ActiveProduct>, cid: int)
  {
    && (exists c :: c in e.visionCandidates && c.classId == cid) && IsSource(e, events, cfg, cid)
    && !IsExempt(events, cfg, active, e.zone, cid)
  }

  /** A clash is never settled by dropping the class on both sides: one zone is exempt, whatever the
      weights say, so the class is not penalised in both. */
  lemma NeverPenalisedInBoth(
      events: seq<TriggerEvent>, cfg: CrossZoneConfig, active: seq<ActiveProduct>, e1: TriggerEvent, e2: TriggerEvent,
      cid: int)
    requires e1 in events && e2 in events && Clash(e1, e2, cfg, cid)
    ensures IsExempt(events, cfg, active, e1.zone, cid) || IsExempt(events, cfg, active, e2.zone, cid)
    ensures !(IsPenalised(e1, events, cfg, active, cid) && IsPenalised(e2, events, cfg, active, cid))
  {
    var zone := if e1.zone in KeepZones(e1, e2, cid, active) then e1.zone else e2.zone;
    assert PairKeeps(e1, e2, cfg, active, zone, cid);
  }

  /** However many zones bill the class, those not exempt never clash among themselves. */
  lemma UnexemptZonesDoNotClash(
      events: seq<TriggerEvent>, cfg: CrossZoneConfig, active: seq<ActiveProduct>, cid: int)
    ensures forall e1, e2 :: e1 in events && e2 in events
              && !IsExempt(events, cfg, active, e1.zone, cid) && !IsExempt(events, cfg, active, e2.zone, cid)
              ==> !Clash(e1, e2, cfg, cid)
  {
    forall e1, e2 | e1 in events && e2 in events && Clash(e1, e2, cfg, cid)
      ensures IsExempt(events, cfg, active, e1.zone, cid) || IsExempt(events, cfg, active, e2.zone, cid)
    {
      NeverPenalisedInBoth(events, cfg, active, e1, e2, cid);
    }
  }

  /** The order in which the events arrived does not matter, neither to the exemptions nor to the sources. */
  lemma ArrivalOrderIsIrrelevant(
      events: seq<TriggerEvent>, reordered: seq<TriggerEvent>, cfg: CrossZoneConfig, active: seq<ActiveProduct>)
    requires multiset(events) == multiset(reordered)
    ensures forall zone, cid :: IsExempt(events, cfg, active, zone, cid) <==>
            IsExempt(reordered, cfg, active, zone, cid)
    ensures forall e, cid :: IsPenalised(e, events, cfg, active, cid) <==> IsPenalised(e, reordered, cfg, active, cid)
  {
    assert forall e :: e in events <==> e in reordered by {
      forall e ensures e in events <==> e in reordered {
        assert e in events <==> e in multiset(events);
      }
    }
    forall zone, cid ensures IsExempt(events, cfg, active, zone, cid) <==> IsExempt(reordered, cfg, active, zone, cid) {
      if e1, e2 :| e1 in events && e2 in events && PairKeeps(e1, e2, cfg, active, zone, cid) {
        assert e1 in reordered && e2 in reordered;
      }
      if e1, e2 :| e1 in reordered && e2 in reordered && PairKeeps(e1, e2, cfg, active, zone, cid) {
        assert e1 in events && e2 in events;
      }
    }
  }

  // ---- is weight ambiguous? ----

  function GateOf(profile: SensorProfile): real {
    if profile.weightIsDiscriminative then profile.toleranceGrams else profile.CountGate()
  }

  /** Some count of one seen product explains the change within the gate. */
  predicate Explainable(e: TriggerEvent, p: ActiveProduct, gate: real) {
    && p.stockQty > 0 && p.unitWeight > 0.0 && (exists c :: c in e.visionCandidates && c.classId == p.classId)
    && exists n :: 1 <= n <= Min(p.stockQty, MAX_COUNT) && AltResidual(e, p, n) <= gate
  }

  /** Two different products could each explain it alone. */
  predicate WeightAmbiguous(e: TriggerEvent, active: seq<ActiveProduct>, gate: real) {
    exists p, q :: p in active && q in active && p.productId != q.productId && Explainable(e, p, gate)
      && Explainable(e, q, gate)
  }

  ghost predicate IdExplains(e: TriggerEvent, pool: seq<ActiveProduct>, gate: real, id: ProductId) {
    exists p :: p in pool && p.productId == id && Explainable(e, p, gate)
  }

  method IsWeightAmbiguous(e: TriggerEvent, active: seq<ActiveProduct>, gate: real) returns (yes: bool)
    ensures yes == WeightAmbiguous(e, active, gate)
  {
    var explainable: set<ProductId> := {};
    for i := 0 to |active|
      invariant forall id :: id in explainable <==> IdExplains(e, active[..i], gate, id)
    {
      assert active[..i + 1] == active[..i] + [active[i]];
      if Explainable(e, active[i], gate) {
        explainable := explainable + {active[i].productId};
      }
    }
    assert active[..|active|] == active;
    yes := |explainable| >= 2;
    TwoMembers(explainable);
    AmbiguousByIds(e, active, gate);
  }

  lemma AmbiguousByIds(e: TriggerEvent, active: seq<ActiveProduct>, gate: real)
    ensures WeightAmbiguous(e, active, gate) <==>
            exists a, b :: IdExplains(e, active, gate, a) && IdExplains(e, active, gate, b) && a != b
  {
    if p, q :| p in active && q in active && p.productId != q.productId
               && Explainable(e, p, gate) && Explainable(e, q, gate) {
      assert IdExplains(e, active, gate, p.productId) && IdExplains(e, active, gate, q.productId);
    }
  }

  lemma TwoMembers(s: set<ProductId>)
    ensures |s| >= 2 <==> exists a, b :: a in s && b in s && a != b
  {
    if a, b :| a in s && b in s && a != b {
      assert s == {a, b} + (s - {a, b});
      assert |{a, b}| == 2;
    }
    if |s| >= 2 {
      assert (forall y :: y !in s) ==> s == {};
      var a :| a in s;
      var rest := s - {a};
      assert |rest| >= 1;
      assert (forall y :: y !in rest) ==> rest == {};
      var b :| b in rest;
    }
  }

  // ---- the soft penalty ----

  function Demoted(c: VisionCandidate, alpha: real): VisionCandidate {
    c.(confidence := c.confidence * alpha, voteCount := Trunc(c.voteCount as real * alpha),
       voteRatio := c.voteRatio * alpha)
  }

  /** Votes and confidence of the penalised classes are scaled down; nobody is dropped, nobody moves. */
  function Penalize(candidates: seq<VisionCandidate>, penalised: set<int>, alpha: real): seq<VisionCandidate> {
    seq(|candidates|, i requires 0 <= i < |candidates| =>
      if candidates[i].classId in penalised then Demoted(candidates[i], alpha) else candidates[i])
  }
}
