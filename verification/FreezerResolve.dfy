/** Layer 4 of the settlement: the basket of a freezer is solved again from the net change of its zone. */
module FreezerResolve {
  import opened Types
  import opened Sorting
  import opened Windows
  import opened Ledger
  import opened Settler
  import opened Ghosts
  import opened VisionCombo
  import opened NearestCount
  import Freezer

  datatype ResolvePolicy = ResolvePolicy(
    combo: ComboPolicy,
    visionCombo: bool,
    sessionGuard: bool,
    ghostConfig: GhostConfig,
    window: CrossZoneConfig)

  /** The products actually left in a basket. */
  function Kinds(ls: seq<Line>): seq<Line> { Filter(ls, (l: Line) => l.count > 0) }

  function Cleared(ls: seq<Line>): seq<Line> {
    seq(|ls|, i requires 0 <= i < |ls| => Line(ls[i].product, 0))
  }

  /** The count that the net change suggests for a single product. */
  function SnapCount(net: real, p: ActiveProduct): nat {
    if p.unitWeight > 0.0 then Max(0, Round(-net / p.unitWeight)) else 0
  }

  predicate SnapFits(slack: real, gate: real, net: real, p: ActiveProduct) {
    var n := SnapCount(net, p);
    1 <= n <= p.stockQty && Abs(-net - Times(n, p.unitWeight)) <= Freezer.GateFor(gate, slack, n)
  }

  predicate CompleteRemoval(e: TriggerEvent, zone: int) { RemovalIn(e, zone) && e.judgment.status.Complete? }

  /** The best confidence of the zone's complete removals. */
  function ZoneConf(events: seq<TriggerEvent>, zone: int): Option<real> {
    if events == [] then None
    else
      var rest := ZoneConf(events[1..], zone);
      if !CompleteRemoval(events[0], zone) then rest
      else if rest.None? then Some(events[0].judgment.confidence)
      else Some(RMax(rest.value, events[0].judgment.confidence))
  }

  predicate Confident(policy: ResolvePolicy, events: seq<TriggerEvent>, zone: int) {
    var conf := ZoneConf(events, zone);
    conf.Some? && conf.value >= policy.combo.overrideMaxConf
  }

  /** A combination is looked for unless one unit settles the matter. */
  predicate WantsCombo(policy: ResolvePolicy, gate: real, net: real, p: ActiveProduct) {
    policy.visionCombo && (SnapCount(net, p) >= 2 || !SnapFits(policy.combo.unitSlack, gate, net, p))
  }

  function AskFor(zone: int, net: real, gate: real, kind: Line): Ask {
    Ask(zone, -net, gate, kind.product.classId, kind.count)
  }

  /** The basket of one zone, given the combination found for it. */
  function Settled(
      policy: ResolvePolicy, gate: real, net: real, ls: seq<Line>, confident: bool, answer: Option<Pair>): seq<Line>
  {
    if net >= -gate then Cleared(ls)
    else if |Kinds(ls)| != 1 then ls
    else
      var p := Kinds(ls)[0].product;
      var snap := SnapFits(policy.combo.unitSlack, gate, net, p);
      if answer.Some? && !(snap && confident)
      then AddUnits(AddUnits(Cleared(ls), answer.value.a, answer.value.na), answer.value.b, answer.value.nb)
      else if snap && Position(ls, p.productId) < |ls| then Recount(ls, Position(ls, p.productId), SnapCount(net, p))
      else ls
  }

  /** Ghosts and zone backing are consulted only under the session guard. */
  ghost predicate GuardFacts(
      policy: ResolvePolicy, events: seq<TriggerEvent>, ghosts: set<int>, backed: map<int, set<int>>) {
    var guard := policy.sessionGuard && policy.visionCombo;
    && (forall cid :: cid in ghosts <==>
        guard && !policy.ghostConfig.mode.Off? && IsGhost(events, policy.ghostConfig, Some(policy.window), cid))
    && (forall cid, z :: BilledIn(backed, cid, z) <==> guard && exists e :: e in events && Backs(e, cid) && e.zone == z)
  }

  ghost predicate Resolves(
      policy: ResolvePolicy, products: Option<seq<ActiveProduct>>, events: seq<TriggerEvent>, ghosts: set<int>,
      backed: map<int, set<int>>, profile: SensorProfile, zone: int, before: seq<Line>, after: seq<Line>)
  {
    if profile.weightIsDiscriminative then after == before
    else
      var gate, net := profile.CountGate(), NetOf(events, zone);
      exists answer: Option<Pair> ::
        && after == Settled(policy, gate, net, before, Confident(policy, events, zone), answer)
        && (net < -gate && |Kinds(before)| == 1 ==>
              if WantsCombo(policy, gate, net, Kinds(before)[0].product)
              then IsAnswer(policy.combo, products, events, ghosts, backed, AskFor(zone, net, gate, Kinds(before)[0]),
                            answer)
              else answer == None)
  }

  // ---- what it comes to ----

  /** Only feasible counts, and a weight that explains the net change within the gate for their number. */
  ghost predicate ExplainsNet(slack: real, gate: real, net: real, ls: seq<Line>) {
    && TotalUnits(ls) >= 1 && Abs(-net - Weight(ls)) <= Freezer.GateFor(gate, slack, TotalUnits(ls))
    && forall l :: l in ls && l.count > 0 ==> l.count <= l.product.stockQty
  }

  lemma {:induction false} ClearedIsEmpty(ls: seq<Line>)
    ensures TotalUnits(Cleared(ls)) == 0 && Weight(Cleared(ls)) == 0.0
  {
    if ls != [] {
      assert Cleared(ls)[1..] == Cleared(ls[1..]);
      ClearedIsEmpty(ls[1..]);
    }
  }

  /** Replacing a line moves weight and total by exactly the difference. */
  lemma {:induction false} SetLine(ls: seq<Line>, i: nat, l: Line)
    requires i < |ls|
    ensures TotalUnits(ls[i := l]) == TotalUnits(ls) - ls[i].count + l.count
    ensures Weight(ls[i := l]) ==
            Weight(ls) - Times(ls[i].count, ls[i].product.unitWeight) + Times(l.count, l.product.unitWeight)
  {
    var r := ls[i := l];
    if i == 0 {
      assert r[1..] == ls[1..];
    } else {
      assert r[1..] == ls[1..][i - 1 := l];
      SetLine(ls[1..], i - 1, l);
    }
  }

  lemma {:induction false} AppendWeighs(ls: seq<Line>, l: Line)
    ensures TotalUnits(ls + [l]) == TotalUnits(ls) + l.count
    ensures Weight(ls + [l]) == Weight(ls) + Times(l.count, l.product.unitWeight)
  {
    if ls == [] {
      assert ls + [l] == [l] && [l][1..] == [];
    } else {
      assert (ls + [l])[1..] == ls[1..] + [l];
      AppendWeighs(ls[1..], l);
    }
  }

  lemma AddToNone(ls: seq<Line>, p: ActiveProduct, n: nat)
    requires Units(ls, p.productId) == 0
    ensures TotalUnits(AddUnits(ls, p, n)) == TotalUnits(ls) + n
    ensures Weight(AddUnits(ls, p, n)) == Weight(ls) + Times(n, p.unitWeight)
    ensures forall l :: l in AddUnits(ls, p, n) ==> l in ls || l == Line(p, n)
  {
    var i := Position(ls, p.productId);
    if i < |ls| {
      SetLine(ls, i, Line(p, n));
    } else {
      AppendWeighs(ls, Line(p, n));
    }
  }

  lemma ClearedDistinct(ls: seq<Line>, id: ProductId)
    requires Distinct(ls)
    ensures Distinct(Cleared(ls)) && Units(Cleared(ls), id) == 0
  {
    SameIds(ls, Cleared(ls), id);
  }

  lemma PairSettles(ls: seq<Line>, pair: Pair)
    requires Distinct(ls) && pair.a.productId != pair.b.productId
    requires 1 <= pair.na <= pair.a.stockQty && 1 <= pair.nb <= pair.b.stockQty
    ensures var r := AddUnits(AddUnits(Cleared(ls), pair.a, pair.na), pair.b, pair.nb);
            && Distinct(r) && TotalUnits(r) == pair.na + pair.nb
            && Weight(r) == Times(pair.na, pair.a.unitWeight) + Times(pair.nb, pair.b.unitWeight)
            && forall l :: l in r && l.count > 0 ==> l.count <= l.product.stockQty
  {
    var none := Cleared(ls);
    var one := AddUnits(none, pair.a, pair.na);
    ClearedIsEmpty(ls);
    ClearedDistinct(ls, pair.a.productId);
    ClearedDistinct(ls, pair.b.productId);
    AddToNone(none, pair.a, pair.na);
    AddUnitsCounts(none, pair.a, pair.na, pair.b.productId);
    AddToNone(one, pair.b, pair.nb);
    AddUnitsCounts(one, pair.b, pair.nb, pair.b.productId);
  }

  lemma {:induction false} OnlyKind(ls: seq<Line>, i: nat)
    requires i < |ls| && Kinds(ls) == [ls[i]] && ls[i].count > 0
    ensures TotalUnits(ls) == ls[i].count && Weight(ls) == Times(ls[i].count, ls[i].product.unitWeight)
    ensures forall l :: l in ls && l.count > 0 ==> l == ls[i]
  {
    var positive := (l: Line) => l.count > 0;
    FilterMembers(ls, positive);
    assert forall l :: l in ls && l.count > 0 ==> l in Filter(ls, positive);
    if ls[0].count == 0 {
      OnlyKind(ls[1..], i - 1);
    } else {
      assert Filter(ls, positive) == [ls[0]] + Filter(ls[1..], positive);
      assert Filter(ls[1..], positive) == [] by {
        assert |Kinds(ls)| == 1;
      }
      NoneLeft(ls[1..]);
    }
  }

  lemma {:induction false} NoneLeft(ls: seq<Line>)
    requires Kinds(ls) == []
    ensures TotalUnits(ls) == 0 && Weight(ls) == 0.0
  {
    if ls != [] {
      NoneLeft(ls[1..]);
    }
  }

  lemma KindIsLine(ls: seq<Line>) returns (i: nat)
    requires Distinct(ls) && |Kinds(ls)| == 1
    ensures i < |ls| && Kinds(ls) == [ls[i]] && ls[i].count > 0 && Position(ls, ls[i].product.productId) == i
  {
    var positive := (l: Line) => l.count > 0;
    FilterMembers(ls, positive);
    assert Kinds(ls)[0] in Filter(ls, positive);
    i :| 0 <= i < |ls| && ls[i] == Kinds(ls)[0];
    assert IdAt(ls, i) == ls[i].product.productId;
    PositionUnique(ls, ls[i].product.productId, i);
  }

  lemma SnapSettles(ls: seq<Line>, slack: real, gate: real, net: real)
    requires Distinct(ls) && |Kinds(ls)| == 1 && SnapFits(slack, gate, net, Kinds(ls)[0].product)
    ensures var p := Kinds(ls)[0].product;
            && Position(ls, p.productId) < |ls|
            && ExplainsNet(slack, gate, net, Recount(ls, Position(ls, p.productId), SnapCount(net, p)))
  {
    var i := KindIsLine(ls);
    var p := ls[i].product;
    OnlyKind(ls, i);
    SetLine(ls, i, Line(p, SnapCount(net, p)));
    var r := Recount(ls, i, SnapCount(net, p));
    forall l | l in r && l.count > 0 ensures l.count <= l.product.stockQty {
      var k :| 0 <= k < |r| && r[k] == l;
      assert k != i ==> IdAt(ls, Min(k, i)) != IdAt(ls, Max(k, i));
    }
  }

  ghost predicate DistinctProducts(active: seq<ActiveProduct>) {
    forall p, q :: p in active && q in active && p.productId == q.productId ==> p == q
  }

  /** A combination that may be put in a basket. */
  predicate FitPair(slack: real, gate: real, net: real, pair: Pair) {
    && pair.a.productId != pair.b.productId
    && 1 <= pair.na <= pair.a.stockQty && 1 <= pair.nb <= pair.b.stockQty
    && Abs(-net - (Times(pair.na, pair.a.unitWeight) + Times(pair.nb, pair.b.unitWeight)))
       <= Freezer.GateFor(gate, slack, pair.na + pair.nb)
  }

  ghost predicate NetExplained(slack: real, gate: real, net: real, before: seq<Line>, after: seq<Line>) {
    && Distinct(after)
    && (|| after == before
        || (net >= -gate && TotalUnits(after) == 0)
        || (net < -gate && ExplainsNet(slack, gate, net, after)))
  }

  lemma SettledExplains(
      policy: ResolvePolicy, gate: real, net: real, before: seq<Line>, confident: bool, answer: Option<Pair>)
    requires Distinct(before)
    requires answer.Some? && net < -gate && |Kinds(before)| == 1 ==>
             FitPair(policy.combo.unitSlack, gate, net, answer.value)
    ensures NetExplained(policy.combo.unitSlack, gate, net, before,
                         Settled(policy, gate, net, before, confident, answer))
  {
    ClearedIsEmpty(before);
    ClearedDistinct(before, 0);
    if net < -gate && |Kinds(before)| == 1 {
      if answer.Some? {
        PairSettles(before, answer.value);
      }
      if SnapFits(policy.combo.unitSlack, gate, net, Kinds(before)[0].product) {
        SnapSettles(before, policy.combo.unitSlack, gate, net);
        RecountCounts(before, Position(before, Kinds(before)[0].product.productId),
                      SnapCount(net, Kinds(before)[0].product), 0);
      }
    }
  }

  lemma AnswerFits(
      policy: ResolvePolicy, products: Option<seq<ActiveProduct>>, events: seq<TriggerEvent>, ghosts: set<int>,
      backed: map<int, set<int>>, zone: int, gate: real, net: real, kind: Line, pair: Pair)
    requires products.Some? ==> DistinctProducts(products.value)
    requires IsAnswer(policy.combo, products, events, ghosts, backed, AskFor(zone, net, gate, kind), Some(pair))
    ensures FitPair(policy.combo.unitSlack, gate, net, pair)
  {
    assert products.Some?;
    AnswerIsSound(policy.combo, products.value, events, ghosts, backed, AskFor(zone, net, gate, kind), pair);
  }

  /** Every freezer basket ends unchanged, or empty with no net removal, or with feasible counts that
      explain the net change of its zone. */
  lemma FreezerBasketsExplainNet(
      policy: ResolvePolicy, products: Option<seq<ActiveProduct>>, events: seq<TriggerEvent>, ghosts: set<int>,
      backed: map<int, set<int>>, profile: SensorProfile, zone: int, before: seq<Line>, after: seq<Line>)
    requires Distinct(before) && !profile.weightIsDiscriminative
    requires products.Some? ==> DistinctProducts(products.value)
    requires Resolves(policy, products, events, ghosts, backed, profile, zone, before, after)
    ensures NetExplained(policy.combo.unitSlack, profile.CountGate(), NetOf(events, zone), before, after)
  {
    var gate, net := profile.CountGate(), NetOf(events, zone);
    var confident := Confident(policy, events, zone);
    var answer: Option<Pair> :|
      && after == Settled(policy, gate, net, before, confident, answer)
      && (net < -gate && |Kinds(before)| == 1 ==>
            if WantsCombo(policy, gate, net, Kinds(before)[0].product)
            then IsAnswer(policy.combo, products, events, ghosts, backed, AskFor(zone, net, gate, Kinds(before)[0]),
                          answer)
            else answer == None);
    if net < -gate && |Kinds(before)| == 1 && answer.Some? {
      AnswerFits(policy, products, events, ghosts, backed, zone, gate, net, Kinds(before)[0], answer.value);
    }
    SettledExplains(policy, gate, net, before, confident, answer);
  }

  // ---- which it comes to ----

  predicate Feasible(slack: real, gate: real, net: real, p: ActiveProduct, n: nat) {
    && 1 <= n <= p.stockQty
    && Abs(-net - Times(n, p.unitWeight)) <= gate + Times(n - 1, slack)
  }

  /** Some complete removal of the zone was judged confidently enough. */
  ghost predicate Sure(policy: ResolvePolicy, events: seq<TriggerEvent>, zone: int) {
    exists e ::
      && e in events && e.zone == zone && e.status.EventOk? && e.deltaWeight < 0.0
      && e.judgment.status.Complete? && e.judgment.confidence >= policy.combo.overrideMaxConf
  }

  ghost predicate HoldsOnly(ls: seq<Line>, id: ProductId, n: nat) {
    forall x :: Units(ls, x) == if x == id then n else 0
  }

  ghost predicate HoldsPair(ls: seq<Line>, pair: Pair) {
    forall x :: Units(ls, x) == if x == pair.a.productId then pair.na else if x == pair.b.productId then pair.nb else 0
  }

  /** What is billed for a net removal when one product is held in count `c`, of which `n` would be nearest:
      the combination vision answers with, unless the nearest count is feasible and a judgement was sure;
      else that count if it is feasible; else what was billed before. */
  ghost predicate Decided(
      policy: ResolvePolicy, products: Option<seq<ActiveProduct>>, events: seq<TriggerEvent>, ghosts: set<int>,
      backed: map<int, set<int>>, gate: real, zone: int, kind: Line, n: nat, answer: Option<Pair>, before: seq<Line>,
      after: seq<Line>)
  {
    var net, p := NetOf(events, zone), kind.product;
    var feasible := Feasible(policy.combo.unitSlack, gate, net, p, n);
    && (if policy.visionCombo && (n >= 2 || !feasible)
        then IsAnswer(policy.combo, products, events, ghosts, backed, AskFor(zone, net, gate, kind), answer)
        else answer == None)
    && if answer.Some? && !(feasible && Sure(policy, events, zone)) then HoldsPair(after, answer.value)
       else if feasible then HoldsOnly(after, p.productId, n)
       else after == before
  }

  lemma {:induction false} ConfidentIsSure(policy: ResolvePolicy, events: seq<TriggerEvent>, zone: int)
    ensures match ZoneConf(events, zone)
            case None => forall e :: e in events ==> !CompleteRemoval(e, zone)
            case Some(c) =>
              && (exists e :: e in events && CompleteRemoval(e, zone) && e.judgment.confidence == c)
              && forall e :: e in events && CompleteRemoval(e, zone) ==> e.judgment.confidence <= c
  {
    if events != [] {
      ConfidentIsSure(policy, events[1..], zone);
      assert events == [events[0]] + events[1..];
    }
  }

  lemma ClearedHoldsNone(ls: seq<Line>, id: ProductId)
    ensures Units(Cleared(ls), id) == 0
  {
  }

  lemma PairIsHeld(ls: seq<Line>, pair: Pair)
    requires Distinct(ls) && pair.a.productId != pair.b.productId
    ensures HoldsPair(AddUnits(AddUnits(Cleared(ls), pair.a, pair.na), pair.b, pair.nb), pair)
  {
    var none := Cleared(ls);
    forall x
      ensures Units(AddUnits(AddUnits(none, pair.a, pair.na), pair.b, pair.nb), x) ==
              if x == pair.a.productId then pair.na else if x == pair.b.productId then pair.nb else 0
    {
      ClearedDistinct(ls, x);
      AddUnitsCounts(none, pair.a, pair.na, x);
      AddUnitsCounts(AddUnits(none, pair.a, pair.na), pair.b, pair.nb, x);
    }
  }

  lemma CountIsHeld(ls: seq<Line>, n: nat)
    requires Distinct(ls) && |Kinds(ls)| == 1
    ensures var p := Kinds(ls)[0].product;
            Position(ls, p.productId) < |ls| && HoldsOnly(Recount(ls, Position(ls, p.productId), n), p.productId, n)
  {
    var i := KindIsLine(ls);
    OnlyKind(ls, i);
    forall x ensures Units(Recount(ls, i, n), x) == if x == ls[i].product.productId then n else 0 {
      RecountCounts(ls, i, n, x);
      var k := Position(ls, x);
      if k < |ls| && ls[k].count > 0 {
        assert ls[k] in ls && IdAt(ls, k) == x;
      }
    }
  }

  /** Layer 4 decides every freezer basket: emptied when nothing was taken on balance, left alone when it
      holds none or several products, and otherwise as `Decided` says. */
  lemma FreezerBasketIsDecided(
      policy: ResolvePolicy, products: Option<seq<ActiveProduct>>, events: seq<TriggerEvent>, ghosts: set<int>,
      backed: map<int, set<int>>, profile: SensorProfile, zone: int, before: seq<Line>, after: seq<Line>)
    requires Distinct(before) && !profile.weightIsDiscriminative
    requires products.Some? ==> DistinctProducts(products.value)
    requires Resolves(policy, products, events, ghosts, backed, profile, zone, before, after)
    ensures var gate, net := profile.CountGate(), NetOf(events, zone);
            if net >= -gate then forall x :: Units(after, x) == 0
            else if |Kinds(before)| != 1 then after == before
            else
              var kind := Kinds(before)[0];
              exists n, answer ::
                && (if kind.product.unitWeight > 0.0 then IsNearest(-net, kind.product.unitWeight, n) else n == 0)
                && Decided(policy, products, events, ghosts, backed, gate, zone, kind, n, answer, before, after)
  {
    var gate, net := profile.CountGate(), NetOf(events, zone);
    var answer: Option<Pair> :|
      && after == Settled(policy, gate, net, before, Confident(policy, events, zone), answer)
      && (net < -gate && |Kinds(before)| == 1 ==>
            if WantsCombo(policy, gate, net, Kinds(before)[0].product)
            then IsAnswer(policy.combo, products, events, ghosts, backed, AskFor(zone, net, gate, Kinds(before)[0]),
                          answer)
            else answer == None);
    if net >= -gate {
      forall x ensures Units(after, x) == 0 {
        ClearedHoldsNone(before, x);
      }
    } else if |Kinds(before)| == 1 {
      var kind := Kinds(before)[0];
      var n := SnapCount(net, kind.product);
      if kind.product.unitWeight > 0.0 {
        RoundedIsNearest(-net, kind.product.unitWeight);
      }
      OneKindIsDecided(policy, products, events, ghosts, backed, gate, zone, answer, before, after);
    }
  }

  lemma OneKindIsDecided(
      policy: ResolvePolicy, products: Option<seq<ActiveProduct>>, events: seq<TriggerEvent>, ghosts: set<int>,
      backed: map<int, set<int>>, gate: real, zone: int, answer: Option<Pair>, before: seq<Line>, after: seq<Line>)
    requires Distinct(before) && |Kinds(before)| == 1 && NetOf(events, zone) < -gate
    requires products.Some? ==> DistinctProducts(products.value)
    requires after == Settled(policy, gate, NetOf(events, zone), before, Confident(policy, events, zone), answer)
    requires var kind := Kinds(before)[0];
             if WantsCombo(policy, gate, NetOf(events, zone), kind.product)
             then IsAnswer(policy.combo, products, events, ghosts, backed,
                           AskFor(zone, NetOf(events, zone), gate, kind),
                           answer)
             else answer == None
    ensures var kind := Kinds(before)[0];
            Decided(policy, products, events, ghosts, backed, gate, zone, kind,
                    SnapCount(NetOf(events, zone), kind.product),
                    answer, before, after)
  {
    var net, kind := NetOf(events, zone), Kinds(before)[0];
    var n := SnapCount(net, kind.product);
    ConfidentIsSure(policy, events, zone);
    assert Confident(policy, events, zone) <==> Sure(policy, events, zone);
    assert SnapFits(policy.combo.unitSlack, gate, net, kind.product) <==>
           Feasible(policy.combo.unitSlack, gate, net, kind.product, n);
    CountIsHeld(before, n);
    if answer.Some? {
      AnswerFits(policy, products, events, ghosts, backed, zone, gate, net, kind, answer.value);
      PairIsHeld(before, answer.value);
    }
  }

  // ---- the loops ----

  /** The zones in which a complete, unrescued judgement billed each class. */
  method BackedZones(events: seq<TriggerEvent>) returns (backed: map<int, set<int>>)
    ensures forall cid, z :: BilledIn(backed, cid, z) <==> exists e :: e in events && Backs(e, cid) && e.zone == z
  {
    backed := map[];
    for i := 0 to |events|
      invariant forall cid, z :: BilledIn(backed, cid, z) <==>
                exists e :: e in events[..i] && Backs(e, cid) && e.zone == z
    {
      ghost var before := backed;
      assert events[..i + 1] == events[..i] + [events[i]];
      var e := events[i];
      if e.status.EventOk? && e.judgment.status.Complete?
         && !MentionsRefit(e.judgment.reason) && !MentionsNearGate(e.judgment.reason) {
        backed := AddZone(backed, e.judgment.products, e.zone);
      }
      assert forall cid :: Backs(e, cid) ==> BillsClass(e.judgment.products, cid);
      assert forall cid, z :: BilledIn(backed, cid, z) <==> BilledIn(before, cid, z) || (Backs(e, cid) && e.zone == z);
    }
    assert events[..|events|] == events;
  }

  predicate BillsClass(products: seq<ProductCount>, cid: int) {
    exists pc :: pc in products && pc.product.classId == cid
  }

  method AddZone(backed: map<int, set<int>>, products: seq<ProductCount>, zone: int) returns (r: map<int, set<int>>)
    ensures forall cid, z :: BilledIn(r, cid, z) <==>
            BilledIn(backed, cid, z) || (z == zone && BillsClass(products, cid))
  {
    r := backed;
    for k := 0 to |products|
      invariant forall cid, z :: BilledIn(r, cid, z) <==>
                  BilledIn(backed, cid, z) || (z == zone && BillsClass(products[..k], cid))
    {
      ghost var before := r;
      var c := products[k].product.classId;
      r := r[c := (if c in r then r[c] else {}) + {zone}];
      forall cid, z
        ensures BilledIn(r, cid, z) <==> BilledIn(backed, cid, z) || (z == zone && BillsClass(products[..k + 1], cid))
      {
        assert products[..k + 1] == products[..k] + [products[k]];
        assert BilledIn(r, cid, z) <==> BilledIn(before, cid, z) || (cid == c && z == zone);
      }
    }
    assert products[..|products|] == products;
  }

  method ClearBasket(b: Basket)
    modifies b
    ensures b.lines == Cleared(old(b.lines))
  {
    b.lines := Cleared(b.lines);
  }

  /** One freezer basket. */
  method ResolveBasket(
      policy: ResolvePolicy, products: Option<seq<ActiveProduct>>, events: seq<TriggerEvent>, ghosts: set<int>,
      backed: map<int, set<int>>, profile: SensorProfile, zone: int, b: Basket)
    requires Distinct(b.lines)
    modifies b
    ensures Resolves(policy, products, events, ghosts, backed, profile, zone, old(b.lines), b.lines)
  {
    if profile.weightIsDiscriminative {
      return;
    }
    var gate, net := profile.CountGate(), NetOf(events, zone);
    ghost var before := b.lines;
    var answer: Option<Pair> := None;
    if net >= -gate {
      ClearBasket(b);
    } else if |Kinds(b.lines)| == 1 {
      var kind := Kinds(b.lines)[0];
      var p := kind.product;
      ghost var i := KindIsLine(b.lines);
      var snap := SnapFits(policy.combo.unitSlack, gate, net, p);
      if WantsCombo(policy, gate, net, p) {
        answer := Answer(policy.combo, products, events, ghosts, backed, AskFor(zone, net, gate, kind));
      }
      if answer.Some? && !(snap && Confident(policy, events, zone)) {
        ClearBasket(b);
        b.Add(answer.value.a, answer.value.na);
        b.Add(answer.value.b, answer.value.nb);
      } else if snap {
        b.SetCount(p.productId, SnapCount(net, p));
      }
    }
    assert b.lines == Settled(policy, gate, net, before, Confident(policy, events, zone), answer);
  }

  method PassFreezer(
      slots: seq<Slot>, events: seq<TriggerEvent>, profiles: map<int, SensorProfile>, fallback: SensorProfile,
      policy: ResolvePolicy, products: Option<seq<ActiveProduct>>)
    returns (ghost ghosts: set<int>, ghost backed: map<int, set<int>>)
    requires Separate(slots) && AllDistinct(slots)
    modifies Baskets(slots)
    ensures GuardFacts(policy, events, ghosts, backed)
    ensures forall k :: 0 <= k < |slots| ==>
              Resolves(policy, products, events, ghosts, backed, ProfileOf(profiles, slots[k].zone, fallback),
                       slots[k].zone,
                       old(slots[k].basket.lines), slots[k].basket.lines)
  {
    var found: map<int, set<int>> := map[];
    var zones: map<int, set<int>> := map[];
    if policy.sessionGuard && policy.visionCombo {
      if !policy.ghostConfig.mode.Off? {
        found := DetectGhosts(events, policy.ghostConfig, Some(policy.window));
      }
      zones := BackedZones(events);
    }
    ghosts, backed := found.Keys, zones;
    for k := 0 to |slots|
      invariant forall i :: k <= i < |slots| ==> slots[i].basket.lines == old(slots[i].basket.lines)
      invariant forall i :: 0 <= i < k ==>
                  Resolves(policy, products, events, ghosts, backed, ProfileOf(profiles, slots[i].zone, fallback),
                           slots[i].zone,
                           old(slots[i].basket.lines), slots[i].basket.lines)
    {
      var zone := slots[k].zone;
      ResolveBasket(policy, products, events, found.Keys, zones, ProfileOf(profiles, zone, fallback), zone,
                    slots[k].basket);
    }
  }
}
