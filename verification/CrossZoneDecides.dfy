/** Which classes an event is penalised for and when weight is ambiguous, told from the events and products. */
module CrossZoneDecides {
  import opened Types
  import opened Windows
  import opened CrossZone

  // ---- who filmed whom ----

  /** The recorded times of change; failing those the starts of the segments, failing those the time itself. */
  predicate IsAnchor(e: TriggerEvent, t: real) {
    if e.changeTimestamps != [] then t in e.changeTimestamps
    else if e.segments != [] then exists s :: s in e.segments && s.startTs == t
    else t == e.ts
  }

  /** Something of `other` happened while the video of `e` may still show it. */
  ghost predicate Films(e: TriggerEvent, other: TriggerEvent, cfg: CrossZoneConfig) {
    exists t, a, b ::
      && IsAnchor(other, t) && IsAnchor(e, a) && IsAnchor(e, b)
      && a - cfg.replayS - cfg.epsilonS <= t <= b + cfg.triggerS + cfg.epsilonS
  }

  lemma AnchorsExactly(e: TriggerEvent)
    ensures forall t :: t in Anchors(e) <==> IsAnchor(e, t)
  {
    forall t ensures t in Anchors(e) <==> IsAnchor(e, t) {
      if e.changeTimestamps == [] && e.segments != [] && IsAnchor(e, t) {
        var s :| s in e.segments && s.startTs == t;
        var i :| 0 <= i < |e.segments| && e.segments[i] == s;
        assert Anchors(e)[i] == t;
      }
    }
  }

  lemma FilmsExactly(e: TriggerEvent, other: TriggerEvent, cfg: CrossZoneConfig)
    ensures Reaches(e, other, cfg) <==> Films(e, other, cfg)
  {
    AnchorsExactly(e);
    AnchorsExactly(other);
    if t :| t in Anchors(other) && WindowLow(e, cfg) <= t <= WindowHigh(e, cfg) {
      assert IsAnchor(e, Least(Anchors(e))) && IsAnchor(e, Greatest(Anchors(e))) && IsAnchor(other, t);
    }
    if Films(e, other, cfg) {
      var t, a, b :|
        && IsAnchor(other, t) && IsAnchor(e, a) && IsAnchor(e, b)
        && a - cfg.replayS - cfg.epsilonS <= t <= b + cfg.triggerS + cfg.epsilonS;
      assert Least(Anchors(e)) <= a && b <= Greatest(Anchors(e));
    }
  }

  // ---- who gives way ----

  predicate Trusted(e: TriggerEvent, cfg: CrossZoneConfig) {
    e.status.EventOk? && e.judgment.products != [] && e.judgment.confidence >= cfg.sourceConfMin
  }

  ghost predicate BilledIn(e: TriggerEvent, cid: int) {
    exists k :: 0 <= k < |e.judgment.products| && e.judgment.products[k].product.classId == cid
  }

  predicate Weighed(e: TriggerEvent) {
    e.judgment.products != [] && forall pc :: pc in e.judgment.products ==> pc.product.unitWeight > 0.0
  }

  function Off(e: TriggerEvent): real { Abs(Abs(e.deltaWeight) - SumWeight(e.judgment.products)) }

  predicate Seen(e: TriggerEvent, cid: int) { exists c :: c in e.visionCandidates && c.classId == cid }

  /** Up to six units of a seen product in stock, this far from the change. */
  predicate Alone(e: TriggerEvent, p: ActiveProduct, n: nat, within: real) {
    && p.unitWeight > 0.0 && Seen(e, p.classId) && 1 <= n <= p.stockQty && n <= 6
    && Abs(Abs(e.deltaWeight) - Times(n, p.unitWeight)) <= within
  }

  predicate Rivals(e: TriggerEvent, cid: int, active: seq<ActiveProduct>, p: ActiveProduct, n: nat) {
    p in active && p.classId != cid && Alone(e, p, n, Off(e) - 5.0)
  }

  /** Its own weight speaks against the class: units of another seen product explain it 5 grams better. */
  ghost predicate Doubts(e: TriggerEvent, cid: int, active: seq<ActiveProduct>) {
    |e.judgment.products| == 1 && Weighed(e) && exists p, n :: Rivals(e, cid, active, p, n)
  }

  /** Which of two contestants gives way: the one that doubts the class alone; if neither or both do, the one
      whose judgement explains its own change less well, provided both can be weighed. */
  ghost predicate GivesWay(e: TriggerEvent, to: TriggerEvent, cid: int, active: seq<ActiveProduct>) {
    if Doubts(e, cid, active) != Doubts(to, cid, active) then Doubts(e, cid, active)
    else Weighed(e) && Weighed(to) && Off(e) > Off(to)
  }

  /** Trusted events of two zones that bill the class, each of which may show the other. */
  ghost predicate Contest(e: TriggerEvent, other: TriggerEvent, cfg: CrossZoneConfig, cid: int) {
    && cid > 0 && e.zone != other.zone && Trusted(e, cfg) && Trusted(other, cfg)
    && BilledIn(e, cid) && BilledIn(other, cid) && Films(e, other, cfg) && Films(other, e, cfg)
  }

  lemma BillsExactly(e: TriggerEvent, cid: int)
    ensures Bills(e, cid) <==> BilledIn(e, cid)
  {
    if pc :| pc in e.judgment.products && pc.product.classId == cid {
      var k :| 0 <= k < |e.judgment.products| && e.judgment.products[k] == pc;
    }
    if BilledIn(e, cid) {
      var k :| 0 <= k < |e.judgment.products| && e.judgment.products[k].product.classId == cid;
      assert e.judgment.products[k] in e.judgment.products;
    }
  }

  lemma ContestExactly(e: TriggerEvent, other: TriggerEvent, cfg: CrossZoneConfig, cid: int)
    ensures Clash(e, other, cfg, cid) <==> Contest(e, other, cfg, cid)
  {
    FilmsExactly(e, other, cfg);
    FilmsExactly(other, e, cfg);
    BillsExactly(e, cid);
    BillsExactly(other, cid);
  }

  lemma ResidualExactly(e: TriggerEvent)
    ensures Residual(e) == if Weighed(e) then Some(Off(e)) else None
  {
    if Weighed(e) {
      assert forall pc :: pc in e.judgment.products ==> pc.product.unitWeight > 0.0;
    }
  }

  lemma DoubtsExactly(e: TriggerEvent, cid: int, active: seq<ActiveProduct>)
    ensures PrefersAlternative(e, cid, active) <==> Doubts(e, cid, active)
  {
    ResidualExactly(e);
    if PrefersAlternative(e, cid, active) {
      var p, n: nat :| p in active && IsAlternative(e, cid, p, n)
                       && AltResidual(e, p, n) + SELF_FIT_MARGIN_GRAMS <= Residual(e).value;
      assert Rivals(e, cid, active, p, n);
    }
    if Doubts(e, cid, active) {
      var p, n :| Rivals(e, cid, active, p, n);
      assert IsAlternative(e, cid, p, n) && AltResidual(e, p, n) + SELF_FIT_MARGIN_GRAMS <= Residual(e).value;
    }
  }

  /** A contestant keeps the class exactly when it does not give way. */
  lemma KeepsExactly(e: TriggerEvent, other: TriggerEvent, cid: int, active: seq<ActiveProduct>)
    requires e.zone != other.zone
    ensures e.zone in KeepZones(e, other, cid, active) <==> !GivesWay(e, other, cid, active)
    ensures forall z :: z in KeepZones(e, other, cid, active) ==> z == e.zone || z == other.zone
  {
    DoubtsExactly(e, cid, active);
    DoubtsExactly(other, cid, active);
    ResidualExactly(e);
    ResidualExactly(other);
  }

  /** A zone is exempt for a class exactly when one of its events is in a contest and does not give way. */
  lemma ExemptExactly(
      events: seq<TriggerEvent>, cfg: CrossZoneConfig, active: seq<ActiveProduct>, zone: int, cid: int)
    ensures IsExempt(events, cfg, active, zone, cid) <==>
            exists e, other :: e in events && other in events && e.zone == zone && Contest(e, other, cfg, cid)
                               && !GivesWay(e, other, cid, active)
  {
    if IsExempt(events, cfg, active, zone, cid) {
      var e1, e2 :| e1 in events && e2 in events && PairKeeps(e1, e2, cfg, active, zone, cid);
      KeepsExactly(e1, e2, cid, active);
      KeepsExactly(e2, e1, cid, active);
      KeepZonesSymmetric(e1, e2, cid, active);
      ContestExactly(e1, e2, cfg, cid);
      ContestExactly(e2, e1, cfg, cid);
      assert zone == e1.zone || zone == e2.zone;
    }
    if e, other :| e in events && other in events && e.zone == zone && Contest(e, other, cfg, cid)
                   && !GivesWay(e, other, cid, active) {
      ContestExactly(e, other, cfg, cid);
      KeepsExactly(e, other, cid, active);
      assert PairKeeps(e, other, cfg, active, zone, cid);
    }
  }

  /** An event is penalised for a class exactly when it saw it, a trusted event of another zone that its video
      may show billed it, and no event of its own zone holds it in a contest. */
  lemma PenalisedExactly(
      e: TriggerEvent, events: seq<TriggerEvent>, cfg: CrossZoneConfig, active: seq<ActiveProduct>, cid: int)
    ensures IsPenalised(e, events, cfg, active, cid) <==>
            && Seen(e, cid) && cid > 0
            && (exists other :: other in events && other.zone != e.zone && Trusted(other, cfg) && Films(e, other, cfg)
                                && BilledIn(other, cid))
            && !exists own, other :: own in events && other in events && own.zone == e.zone
                                     && Contest(own, other, cfg, cid) && !GivesWay(own, other, cid, active)
  {
    ExemptExactly(events, cfg, active, e.zone, cid);
    forall other
      ensures SourcedBy(e, other, cfg, cid) <==>
              other.zone != e.zone && Trusted(other, cfg) && Films(e, other, cfg) && BilledIn(other, cid)
    {
      FilmsExactly(e, other, cfg);
      BillsExactly(other, cid);
    }
  }

  function WeightGate(profile: SensorProfile): real {
    if !profile.weightIsDiscriminative && profile.countGateTolerance.Some? then profile.countGateTolerance.value
    else profile.toleranceGrams
  }

  /** Weight is ambiguous exactly when units of two different products explain the change alone. */
  lemma AmbiguousExactly(e: TriggerEvent, active: seq<ActiveProduct>, profile: SensorProfile)
    ensures var gate := WeightGate(profile);
            WeightAmbiguous(e, active, GateOf(profile)) <==>
              exists p, q, n: nat, m: nat :: p in active && q in active && p.productId != q.productId
                                             && Alone(e, p, n, gate) && Alone(e, q, m, gate)
  {
    var gate := WeightGate(profile);
    assert GateOf(profile) == gate;
    if WeightAmbiguous(e, active, gate) {
      var p, q :| p in active && q in active && p.productId != q.productId && Explainable(e, p, gate)
                  && Explainable(e, q, gate);
      ExplainableExactly(e, p, gate);
      ExplainableExactly(e, q, gate);
    }
    if p, q, n: nat, m: nat :| p in active && q in active && p.productId != q.productId
                               && Alone(e, p, n, gate) && Alone(e, q, m, gate) {
      ExplainableExactly(e, p, gate);
      ExplainableExactly(e, q, gate);
    }
  }

  lemma ExplainableExactly(e: TriggerEvent, p: ActiveProduct, gate: real)
    ensures Explainable(e, p, gate) <==> exists n: nat :: Alone(e, p, n, gate)
  {
    if Explainable(e, p, gate) {
      var n :| 1 <= n <= Min(p.stockQty, MAX_COUNT) && AltResidual(e, p, n) <= gate;
      assert Alone(e, p, n, gate);
    }
    if n: nat :| Alone(e, p, n, gate) {
      assert 1 <= n <= Min(p.stockQty, MAX_COUNT) && AltResidual(e, p, n) <= gate;
    }
  }
}
