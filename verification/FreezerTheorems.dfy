/** What the freezer strategy guarantees: candidates seen too rarely never matter, what is billed was
    seen and is in stock, and a repeated unit never beats a single one that fits as well. */
module FreezerTheorems {
  import opened Types
  import opened Sorting
  import opened Combos
  import opened Freezer
  import opened Strict

  // ---- non-interference ----

  ghost predicate DescendingVotes(ids: seq<Ident>) {
    forall i, j :: 0 <= i < j < |ids| ==> ids[i].cand.voteCount >= ids[j].cand.voteCount
  }

  lemma {:induction false} FilterNone<T(!new)>(s: seq<T>, p: T -> bool)
    requires forall x :: x in s ==> !p(x)
    ensures Filter(s, p) == []
  {
    if s != [] {
      FilterNone(s[1..], p);
    }
  }

  ghost predicate FrontLoaded<T(!new)>(s: seq<T>, p: T -> bool) {
    forall i, j :: 0 <= i < j < |s| && p(s[j]) ==> p(s[i])
  }

  lemma {:induction false} FilterIsPrefix<T(!new)>(s: seq<T>, p: T -> bool)
    requires FrontLoaded(s, p)
    ensures var k := |Filter(s, p)|;
            k <= |s| && Filter(s, p) == s[..k] && forall i :: k <= i < |s| ==> !p(s[i])
  {
    if s == [] {
    } else if p(s[0]) {
      FilterIsPrefix(s[1..], p);
      var k := |Filter(s[1..], p)|;
      assert s[..k + 1] == [s[0]] + s[1..][..k];
      forall i | k + 1 <= i < |s| ensures !p(s[i]) {
        assert s[i] == s[1..][i - 1];
      }
    } else {
      FilterNone(s, p);
    }
  }

  lemma ShareMonotone(a: real, b: real, votes: int)
    requires a <= b && 0 <= votes
    ensures Share(a, votes) <= Share(b, votes)
  {
    var v := votes as real;
    assert (b - a) * v >= 0.0;
  }

  lemma FilterDropsTail<T(!new)>(s: seq<T>, m: nat, p: T -> bool)
    requires m <= |s| && forall i :: m <= i < |s| ==> !p(s[i])
    ensures Filter(s, p) == Filter(s[..m], p)
  {
    assert s == s[..m] + s[m..];
    FilterConcat(s[..m], s[m..], p);
    FilterNone(s[m..], p);
  }

  predicate SharesOrdered(cfg: FreezerConfig) {
    cfg.refitShare <= 1.0 && cfg.refitShare <= cfg.comboShare && cfg.refitShare <= cfg.singleShare
  }

  /** Identities below the refit share can be cut off the list. */
  lemma TailDoesNotMatter(cfg: FreezerConfig, pull: Pull, ids: seq<Ident>, m: nat)
    requires SharesOrdered(cfg) && 1 <= m <= |ids| && ids[0].cand.voteCount >= 0
    requires forall i :: m <= i < |ids| ==> ids[i].cand.voteCount as real < Share(cfg.refitShare, ids[0].cand.voteCount)
    ensures SolveFor(cfg, pull, ids) == SolveFor(cfg, pull, ids[..m])
  {
    var votes := ids[0].cand.voteCount;
    ShareMonotone(cfg.refitShare, cfg.comboShare, votes);
    ShareMonotone(cfg.refitShare, cfg.singleShare, votes);
    FilterDropsTail(ids, m, Qualifies(cfg, votes));
    assert ids[..m][1..] == ids[1..][..m - 1];
    FilterDropsTail(ids[1..], m - 1, IdentAtLeast(Share(cfg.comboShare, votes)));
    FilterDropsTail(ids[1..], m - 1, IdentAtLeast(Share(cfg.refitShare, votes)));
  }

  lemma {:induction false} IdentsOfFilter(active: seq<ActiveProduct>, ranked: seq<VisionCandidate>, floor: real)
    ensures IdentsOf(active, Filter(ranked, AtLeast(floor))) == Filter(IdentsOf(active, ranked), IdentAtLeast(floor))
  {
    if ranked != [] {
      IdentsOfFilter(active, ranked[1..], floor);
      var rest := IdentsOf(active, ranked[1..]);
      assert ([ranked[0]] + Filter(ranked[1..], AtLeast(floor)))[1..] == Filter(ranked[1..], AtLeast(floor));
      var p := ByClass(active, ranked[0].classId);
      if p.Some? {
        assert ([Ident(p.value, ranked[0])] + rest)[1..] == rest;
      }
    }
  }

  ghost predicate Descending(cs: seq<VisionCandidate>) {
    forall i, j :: 0 <= i < j < |cs| ==> cs[i].voteCount >= cs[j].voteCount
  }

  lemma {:induction false} IdentsOfMembers(active: seq<ActiveProduct>, ranked: seq<VisionCandidate>, x: Ident)
    requires x in IdentsOf(active, ranked)
    ensures x.cand in ranked && ByClass(active, x.cand.classId) == Some(x.product) && x.product.unitWeight > 0.0
  {
    if x in IdentsOf(active, ranked[1..]) {
      IdentsOfMembers(active, ranked[1..], x);
    }
  }

  lemma {:induction false} IdentsOfDescending(active: seq<ActiveProduct>, ranked: seq<VisionCandidate>)
    requires Descending(ranked)
    ensures DescendingVotes(IdentsOf(active, ranked))
  {
    if ranked != [] {
      var rest := IdentsOf(active, ranked[1..]);
      IdentsOfDescending(active, ranked[1..]);
      forall x | x in rest ensures ranked[0].voteCount >= x.cand.voteCount {
        IdentsOfMembers(active, ranked[1..], x);
        var k :| 0 <= k < |ranked[1..]| && ranked[1..][k] == x.cand;
        assert ranked[k + 1] == x.cand;
      }
    }
  }

  lemma RankedDescends(candidates: seq<VisionCandidate>)
    ensures Descending(Ranked(candidates))
  {
    StableSortSorts(candidates, RanksBefore);
  }

  /** The identities, in rank order, before the pool cut. */
  function AllIdents(ctx: Context): seq<Ident> { IdentsOf(ctx.active, Ranked(ctx.candidates)) }

  lemma StrongIdents(ctx: Context, floor: real)
    ensures Filter(AllIdents(ctx), IdentAtLeast(floor)) ==
            IdentsOf(ctx.active, StableSort(Filter(ctx.candidates, AtLeast(floor)), RanksBefore))
  {
    FilterSort(ctx.candidates, RanksBefore, AtLeast(floor));
    IdentsOfFilter(ctx.active, Ranked(ctx.candidates), floor);
  }

  /** The answer depends on the strong identities alone, as far as the pool reaches. */
  lemma SolveByStrong(cfg: FreezerConfig, ctx: Context, strong: seq<Ident>)
    requires SharesOrdered(cfg) && Identities(cfg, ctx) != [] && AllIdents(ctx)[0].cand.voteCount >= 0
    requires strong == Filter(AllIdents(ctx), IdentAtLeast(Share(cfg.refitShare, AllIdents(ctx)[0].cand.voteCount)))
    ensures Solve(cfg, ctx) == SolveFor(cfg, PullOf(ctx), Take(strong, cfg.identityPool))
  {
    var all := AllIdents(ctx);
    var votes := all[0].cand.voteCount;
    RankedDescends(ctx.candidates);
    IdentsOfDescending(ctx.active, Ranked(ctx.candidates));
    FilterIsPrefix(all, IdentAtLeast(Share(cfg.refitShare, votes)));
    ShareMonotone(cfg.refitShare, 1.0, votes);
    var ids, cut := Identities(cfg, ctx), Take(strong, cfg.identityPool);
    assert cut == ids[..|cut|] && 1 <= |cut|;
    TailDoesNotMatter(cfg, PullOf(ctx), ids, |cut|);
  }

  /** Adding or removing candidates with fewer votes than the refit share of the top identity never
      changes the answer, in spite of the sort, the pool cut and the arbitration. */
  lemma NonInterference(cfg: FreezerConfig, ctx: Context, others: seq<VisionCandidate>)
    requires SharesOrdered(cfg) && Identities(cfg, ctx) != [] && AllIdents(ctx)[0].cand.voteCount >= 0
    requires var floor := Share(cfg.refitShare, AllIdents(ctx)[0].cand.voteCount);
             Filter(others, AtLeast(floor)) == Filter(ctx.candidates, AtLeast(floor))
    ensures Solve(cfg, ctx.(candidates := others)) == Solve(cfg, ctx)
    ensures Applies(ctx.(candidates := others)) == Applies(ctx)
  {
    var ctx2 := ctx.(candidates := others);
    assert Ranked([]) == [];
    var votes := AllIdents(ctx)[0].cand.voteCount;
    var floor := Share(cfg.refitShare, votes);
    ShareMonotone(cfg.refitShare, 1.0, votes);
    var strong := Filter(AllIdents(ctx), IdentAtLeast(floor));
    StrongIdents(ctx, floor);
    StrongIdents(ctx2, floor);
    SolveByStrong(cfg, ctx, strong);
    assert strong[0] == AllIdents(ctx)[0];
    StrongIsPrefix(ctx2, floor, strong);
    SolveByStrong(cfg, ctx2, strong);
  }

  lemma StrongIsPrefix(ctx: Context, floor: real, strong: seq<Ident>)
    requires strong == Filter(AllIdents(ctx), IdentAtLeast(floor)) && strong != []
    ensures AllIdents(ctx) != [] && AllIdents(ctx)[0] == strong[0]
  {
    RankedDescends(ctx.candidates);
    IdentsOfDescending(ctx.active, Ranked(ctx.candidates));
    FilterIsPrefix(AllIdents(ctx), IdentAtLeast(floor));
  }

  // ---- what is billed ----

  lemma {:induction false} ByClassIsActive(active: seq<ActiveProduct>, cid: int)
    ensures match ByClass(active, cid)
            case None => forall p :: p in active && p.stockQty > 0 && cid > 0 ==> p.classId != cid
            case Some(p) => p in active && p.stockQty > 0 && p.classId == cid && cid > 0
  {
    if active != [] {
      ByClassIsActive(active[1..], cid);
      assert active == [active[0]] + active[1..];
    }
  }

  /** An identity in rank order: seen, and standing for an in-stock product of a real class and weight. */
  lemma IdentityIsSeen(cfg: FreezerConfig, ctx: Context, x: Ident)
    requires x in Identities(cfg, ctx)
    ensures x.cand in ctx.candidates && x.product in ctx.active
    ensures x.product.stockQty > 0 && x.product.unitWeight > 0.0 && x.product.classId == x.cand.classId > 0
  {
    IdentsOfMembers(ctx.active, Ranked(ctx.candidates), x);
    SortMembers(ctx.candidates, RanksBefore);
    ByClassIsActive(ctx.active, x.cand.classId);
  }

  ghost predicate Usable(ids: seq<Ident>) {
    forall x :: x in ids ==> x.product.stockQty > 0 && x.product.unitWeight > 0.0
  }

  /** One of the identities, with enough votes, in a count the stock allows. */
  ghost predicate BilledBy(ids: seq<Ident>, floor: real, pc: ProductCount) {
    exists x :: x in ids && x.product == pc.product && x.cand.voteCount as real >= floor
      && 1 <= pc.count <= x.product.stockQty
  }

  lemma {:induction false} GateFitsMembers(cfg: FreezerConfig, pull: Pull, ids: seq<Ident>, f: FitOf)
    ensures f in GateFits(cfg, pull, ids) <==> f.id in ids && f == Fit(pull.target, f.id) && InGate(cfg, pull, f)
  {
    if ids != [] {
      var n := |ids| - 1;
      assert ids == ids[..n] + [ids[n]];
      GateFitsMembers(cfg, pull, ids[..n], f);
    }
  }

  lemma {:induction false} NearFitsMembers(cfg: FreezerConfig, pull: Pull, ids: seq<Ident>, f: FitOf)
    ensures f in NearFits(cfg, pull, ids) <==>
            f.id in ids && f == Fit(pull.target, f.id) && !InGate(cfg, pull, f) && NearGate(cfg, pull, f)
  {
    if ids != [] {
      var n := |ids| - 1;
      assert ids == ids[..n] + [ids[n]];
      NearFitsMembers(cfg, pull, ids[..n], f);
    }
  }

  lemma OccamFitsMembers(fits: seq<FitOf>, f: FitOf)
    ensures f in OccamFits(fits) ==> f in fits
  {
    var best := BestSingleResidual(fits);
    if best.Some? {
      FilterMembers(fits, Unrefuted(best.value));
    }
  }

  /** A fit the single stage may choose. */
  lemma WinnerFits(cfg: FreezerConfig, pull: Pull, top: Ident, qualified: seq<Ident>)
    ensures var fits := GateFits(cfg, pull, qualified);
            match Winner(cfg, top, if cfg.countOccam then OccamFits(fits) else fits)
            case None => true
            case Some(win) =>
              win.fit in fits && win.fit.id in qualified && win.fit == Fit(pull.target, win.fit.id)
              && InGate(cfg, pull, win.fit)
  {
    var fits := GateFits(cfg, pull, qualified);
    var win := Winner(cfg, top, if cfg.countOccam then OccamFits(fits) else fits);
    if win.Some? {
      OccamFitsMembers(fits, win.value.fit);
      GateFitsMembers(cfg, pull, qualified, win.value.fit);
    }
  }

  lemma {:induction false} LinesWeigh(subset: seq<Ident>, alloc: seq<nat>)
    requires |alloc| == |subset|
    ensures SumWeight(Lines(subset, alloc)) == AllocWeight(Products(subset), alloc)
    ensures SumCount(Lines(subset, alloc)) == Total(alloc)
    decreases |alloc|
  {
    if alloc == [] {
    } else {
      var n := |alloc| - 1;
      LinesWeigh(subset[..n], alloc[..n]);
      assert Lines(subset, alloc) == Lines(subset[..n], alloc[..n]) + [ProductCount(subset[n].product, alloc[n])];
      SumsOfSnoc(Lines(subset[..n], alloc[..n]), ProductCount(subset[n].product, alloc[n]));
      AllocWeightPrefix(Products(subset), alloc[..n]);
      assert Products(subset)[..n] == Products(subset[..n]);
    }
  }

  lemma {:induction false} AllocWeightPrefix(ps: seq<ActiveProduct>, counts: seq<nat>)
    requires |counts| <= |ps|
    ensures AllocWeight(ps[..|counts|], counts) == AllocWeight(ps, counts)
    decreases |counts|
  {
    if counts != [] {
      var n := |counts| - 1;
      AllocWeightPrefix(ps, counts[..n]);
      AllocWeightPrefix(ps[..n + 1], counts[..n]);
      assert ps[..n + 1][..n] == ps[..n];
    }
  }

  // ---- the combination stages ----

  predicate Floored(floor: real, ids: seq<Ident>) { forall x :: x in ids ==> x.cand.voteCount as real >= floor }

  /** A valid combination, as billed: the top first, every line an identity, the weight within the gate. */
  lemma ComboBills(
      cfg: FreezerConfig, pull: Pull, ids: seq<Ident>, rest: seq<Ident>, floor: real, c: Combo)
    requires ids != [] && Usable(ids) && (forall x :: x in rest ==> x in ids)
    requires ids[0].cand.voteCount as real >= floor && Floored(floor, rest)
    requires ValidCombo(GoalOf(cfg, pull), ids[0], rest, cfg.maxKinds, c)
    ensures var bill := Lines(c.subset, c.alloc);
            && |bill| >= 2 && bill[0].product == ids[0].product && SumCount(bill) <= cfg.maxTotalItems
            && Abs(pull.target - SumWeight(bill)) <= pull.gate
            && forall pc :: pc in bill ==> BilledBy(ids, floor, pc)
  {
    var bill := Lines(c.subset, c.alloc);
    LinesWeigh(c.subset, c.alloc);
    SubMembers(rest, c.subset[1..]);
    forall pc | pc in bill ensures BilledBy(ids, floor, pc) {
      var i :| 0 <= i < |bill| && bill[i] == pc;
      assert i == 0 || c.subset[1..][i - 1] == c.subset[i];
      assert c.subset[i] in ids;
      assert Products(c.subset)[i] == c.subset[i].product;
    }
  }

  lemma PartnersAreIdents(ids: seq<Ident>, share: real, floor: real)
    requires ids != [] && floor <= share
    ensures var chosen := Filter(ids[1..], IdentAtLeast(share));
            (forall x :: x in chosen ==> x in ids) && Floored(floor, chosen)
  {
    FilterMembers(ids[1..], IdentAtLeast(share));
    assert ids == [ids[0]] + ids[1..];
  }

  /** A number of votes no stage goes below. */
  predicate IsFloor(cfg: FreezerConfig, topVotes: int, floor: real) {
    && floor <= topVotes as real && floor <= Share(cfg.singleShare, topVotes)
    && floor <= Share(cfg.comboShare, topVotes) && floor <= Share(cfg.refitShare, topVotes)
  }

  function LeastShare(cfg: FreezerConfig, topVotes: int): (floor: real)
    ensures IsFloor(cfg, topVotes, floor)
  {
    RMin(RMin(topVotes as real, Share(cfg.singleShare, topVotes)),
         RMin(Share(cfg.comboShare, topVotes), Share(cfg.refitShare, topVotes)))
  }

  lemma RefitShareIsFloor(cfg: FreezerConfig, topVotes: int)
    requires SharesOrdered(cfg) && topVotes >= 0
    ensures IsFloor(cfg, topVotes, Share(cfg.refitShare, topVotes))
  {
    ShareMonotone(cfg.refitShare, cfg.singleShare, topVotes);
    ShareMonotone(cfg.refitShare, cfg.comboShare, topVotes);
    ShareMonotone(cfg.refitShare, 1.0, topVotes);
  }

  lemma BestComboIsValid(cfg: FreezerConfig, pull: Pull, ids: seq<Ident>, rest: seq<Ident>)
    requires ids != [] && Usable(ids) && forall x :: x in rest ==> x in ids
    ensures var c := BestCombo(GoalOf(cfg, pull), ids[0], rest, cfg.maxKinds);
            c.Some? ==> ValidCombo(GoalOf(cfg, pull), ids[0], rest, cfg.maxKinds, c.value)
  {
    BestComboExact(GoalOf(cfg, pull), ids[0], rest, cfg.maxKinds, Combo([], [], 0.0));
  }

  // ---- the strategy ----

  /** A bill names identities only, above the floor, in feasible counts; several lines only with
      the top identity first; a complete bill explains the pull, a rescue at least nearly. */
  ghost predicate SoundBill(cfg: FreezerConfig, pull: Pull, ids: seq<Ident>, floor: real, j: JudgmentResult)
    requires ids != []
  {
    && (forall pc :: pc in j.products ==> BilledBy(ids, floor, pc))
    && (|j.products| >= 2 ==>
        j.products[0].product == ids[0].product && Abs(pull.target - SumWeight(j.products)) <= pull.gate)
    && match j.status
       case NoDetection => j.products == []
       case Partial => j.products == [ProductCount(ids[0].product, FitCount(pull.target, ids[0].product))]
       case Complete => j.products != [] && (|j.products| == 1 ==> SingleExplains(cfg, pull, j))
       case _ => false
  }

  predicate SingleExplains(cfg: FreezerConfig, pull: Pull, j: JudgmentResult) {
    var residual := Abs(pull.target - SumWeight(j.products));
    var gate := GateFor(pull.gate, cfg.unitSlack, SumCount(j.products));
    residual <= gate || (j.reason == [FreezerUniqueRefit] && residual <= cfg.nearFactor * gate)
  }

  lemma SingleBill(target: real, ids: seq<Ident>, floor: real, f: FitOf)
    requires Usable(ids) && f.id in ids && f == Fit(target, f.id) && f.id.cand.voteCount as real >= floor
    ensures var bill := [ProductCount(f.id.product, f.count)];
            && SumWeight(bill) == Times(f.count, f.id.product.unitWeight) && SumCount(bill) == f.count
            && f.residual == Abs(target - SumWeight(bill)) && BilledBy(ids, floor, bill[0])
  {
    var pc := ProductCount(f.id.product, f.count);
    assert [pc][1..] == [];
    assert f.id in ids && f.id.product == pc.product;
  }

  /** One fit, billed as complete. */
  lemma SingleResultSound(
      cfg: FreezerConfig, pull: Pull, ids: seq<Ident>, floor: real, f: FitOf, factor: real, reason: Reason)
    requires ids != [] && Usable(ids) && f.id in ids && f == Fit(pull.target, f.id)
    requires f.id.cand.voteCount as real >= floor
    requires InGate(cfg, pull, f) || (reason == FreezerUniqueRefit && NearGate(cfg, pull, f))
    ensures SoundBill(cfg, pull, ids, floor, SingleResult(f, factor, reason))
  {
    SingleBill(pull.target, ids, floor, f);
  }

  lemma ComboResultSound(
      cfg: FreezerConfig, pull: Pull, ids: seq<Ident>, rest: seq<Ident>, floor: real, c: Combo, reason: Reason)
    requires ids != [] && Usable(ids) && (forall x :: x in rest ==> x in ids)
    requires ids[0].cand.voteCount as real >= floor && Floored(floor, rest)
    requires ValidCombo(GoalOf(cfg, pull), ids[0], rest, cfg.maxKinds, c)
    ensures SoundBill(cfg, pull, ids, floor, ComboResult(c, reason))
  {
    ComboBills(cfg, pull, ids, rest, floor, c);
  }

  lemma ComboSound(cfg: FreezerConfig, pull: Pull, ids: seq<Ident>, floor: real, reason: Reason)
    requires ids != [] && Usable(ids) && IsFloor(cfg, ids[0].cand.voteCount, floor)
    ensures var c := BestCombo(GoalOf(cfg, pull), ids[0], Partners(cfg, ids), cfg.maxKinds);
            c.Some? ==> SoundBill(cfg, pull, ids, floor, ComboResult(c.value, reason))
  {
    PartnersAreIdents(ids, Share(cfg.comboShare, ids[0].cand.voteCount), floor);
    BestComboIsValid(cfg, pull, ids, Partners(cfg, ids));
    var c := BestCombo(GoalOf(cfg, pull), ids[0], Partners(cfg, ids), cfg.maxKinds);
    if c.Some? {
      ComboResultSound(cfg, pull, ids, Partners(cfg, ids), floor, c.value, reason);
    }
  }

  lemma QualifiedAreIdents(cfg: FreezerConfig, ids: seq<Ident>, floor: real, x: Ident)
    requires ids != [] && IsFloor(cfg, ids[0].cand.voteCount, floor)
    requires x in Filter(ids, Qualifies(cfg, ids[0].cand.voteCount))
    ensures x in ids && x.cand.voteCount as real >= floor
  {
    FilterMembers(ids, Qualifies(cfg, ids[0].cand.voteCount));
  }

  lemma SingleStageSound(cfg: FreezerConfig, pull: Pull, ids: seq<Ident>, floor: real)
    requires ids != [] && Usable(ids) && IsFloor(cfg, ids[0].cand.voteCount, floor)
    ensures var j := SingleStage(cfg, pull, ids[0], Filter(ids, Qualifies(cfg, ids[0].cand.voteCount)),
                                 Partners(cfg, ids));
            j.Some? ==> SoundBill(cfg, pull, ids, floor, j.value) && j.value.status.Complete?
  {
    var qualified := Filter(ids, Qualifies(cfg, ids[0].cand.voteCount));
    var fits := GateFits(cfg, pull, qualified);
    WinnerFits(cfg, pull, ids[0], qualified);
    ComboSound(cfg, pull, ids, floor, FreezerSegmentCombo);
    match Winner(cfg, ids[0], if cfg.countOccam then OccamFits(fits) else fits)
    case None =>
    case Some(win) =>
      QualifiedAreIdents(cfg, ids, floor, win.fit.id);
      SingleResultSound(cfg, pull, ids, floor, win.fit, 1.0,
                        if win.arbitrated then FreezerSingleArbitrated else FreezerSingle);
  }

  lemma NearStageSound(cfg: FreezerConfig, pull: Pull, ids: seq<Ident>, floor: real)
    requires ids != [] && Usable(ids) && IsFloor(cfg, ids[0].cand.voteCount, floor)
    ensures var j := NearStage(cfg, pull, ids[0]);
            j.Some? ==> SoundBill(cfg, pull, ids, floor, j.value) && !j.value.status.Complete?
  {
    SingleBill(pull.target, ids, floor, Fit(pull.target, ids[0]));
  }

  lemma RescueFits(cfg: FreezerConfig, pull: Pull, others: seq<Ident>)
    ensures match Rescue(cfg, GateFits(cfg, pull, others), NearFits(cfg, pull, others))
            case None => true
            case Some(win) =>
              && win.fit.id in others && win.fit == Fit(pull.target, win.fit.id)
              && (InGate(cfg, pull, win.fit) || (!win.arbitrated && NearGate(cfg, pull, win.fit)))
  {
    var inGate, near := GateFits(cfg, pull, others), NearFits(cfg, pull, others);
    var won := Rescue(cfg, inGate, near);
    if won.Some? {
      GateFitsMembers(cfg, pull, others, won.value.fit);
      NearFitsMembers(cfg, pull, others, won.value.fit);
    }
  }

  lemma RescueStageSound(cfg: FreezerConfig, pull: Pull, ids: seq<Ident>, floor: real)
    requires ids != [] && Usable(ids) && IsFloor(cfg, ids[0].cand.voteCount, floor)
    ensures var j := RescueStage(cfg, pull, Others(cfg, ids));
            j.Some? ==> SoundBill(cfg, pull, ids, floor, j.value)
  {
    var others := Others(cfg, ids);
    RescueFits(cfg, pull, others);
    var won := Rescue(cfg, GateFits(cfg, pull, others), NearFits(cfg, pull, others));
    if won.Some? {
      PartnersAreIdents(ids, Share(cfg.refitShare, ids[0].cand.voteCount), floor);
      SingleResultSound(cfg, pull, ids, floor, won.value.fit, 0.8,
                        if won.value.arbitrated then FreezerRefitArbitrated else FreezerUniqueRefit);
    }
  }

  lemma SolveForSound(cfg: FreezerConfig, pull: Pull, ids: seq<Ident>, floor: real)
    requires ids != [] && Usable(ids) && IsFloor(cfg, ids[0].cand.voteCount, floor)
    ensures var j := SolveFor(cfg, pull, ids); j.Some? ==> SoundBill(cfg, pull, ids, floor, j.value)
  {
    SingleStageSound(cfg, pull, ids, floor);
    NearStageSound(cfg, pull, ids, floor);
    ComboSound(cfg, pull, ids, floor, FreezerCombo);
    RescueStageSound(cfg, pull, ids, floor);
  }

  lemma IdentitiesUsable(cfg: FreezerConfig, ctx: Context)
    ensures Usable(Identities(cfg, ctx))
  {
    forall x | x in Identities(cfg, ctx) ensures x.product.stockQty > 0 && x.product.unitWeight > 0.0 {
      IdentityIsSeen(cfg, ctx, x);
    }
  }

  /** What is billed was seen, is on sale and in stock. */
  lemma BillsOnlyTheSeen(cfg: FreezerConfig, ctx: Context)
    ensures match Solve(cfg, ctx)
            case None => true
            case Some(j) =>
              && (j.status.Complete? || j.status.Partial? || j.status.NoDetection?)
              && (j.status.NoDetection? <==> j.products == [])
              && forall pc :: pc in j.products ==>
                InStock(ctx.active, pc) && pc.product.classId > 0 && Seen(ctx.candidates, pc.product.classId)
  {
    var ids := Identities(cfg, ctx);
    if ids != [] {
      var votes := ids[0].cand.voteCount;
      var floor := LeastShare(cfg, votes);
      IdentitiesUsable(cfg, ctx);
      SolveForSound(cfg, PullOf(ctx), ids, floor);
      var j := Solve(cfg, ctx);
      if j.Some? {
        forall pc | pc in j.value.products
          ensures InStock(ctx.active, pc) && pc.product.classId > 0 && Seen(ctx.candidates, pc.product.classId)
        {
          var x :| x in ids && x.product == pc.product && 1 <= pc.count <= x.product.stockQty;
          IdentityIsSeen(cfg, ctx, x);
        }
      }
    }
  }

  /** A candidate below the refit share of the top identity is never billed. */
  lemma NeverBillsTheUnseen(cfg: FreezerConfig, ctx: Context)
    requires SharesOrdered(cfg) && forall c :: c in ctx.candidates ==> c.voteCount >= 0
    ensures match Solve(cfg, ctx)
            case None => true
            case Some(j) =>
              var ids := Identities(cfg, ctx);
              ids != [] && SoundBill(cfg, PullOf(ctx), ids, Share(cfg.refitShare, ids[0].cand.voteCount), j)
  {
    var ids := Identities(cfg, ctx);
    if ids != [] {
      IdentitiesUsable(cfg, ctx);
      IdentityIsSeen(cfg, ctx, ids[0]);
      RefitShareIsFloor(cfg, ids[0].cand.voteCount);
      SolveForSound(cfg, PullOf(ctx), ids, Share(cfg.refitShare, ids[0].cand.voteCount));
    }
  }

  // ---- votes choose, counts are held to account ----

  ghost predicate StrictOrder<T(!new)>(beats: (T, T) -> bool) {
    && (forall a, b :: beats(a, b) ==> !beats(b, a))
    && (forall a, b, c :: !beats(b, a) && !beats(c, b) ==> !beats(c, a))
  }

  lemma {:induction false} NothingBeatsMax(fits: seq<FitOf>, beats: (FitOf, FitOf) -> bool)
    requires fits != [] && StrictOrder(beats)
    ensures forall f :: f in fits ==> !beats(f, fits[FirstMax(fits, beats)])
  {
    var n := |fits| - 1;
    assert fits == fits[..n] + [fits[n]];
    if n > 0 {
      NothingBeatsMax(fits[..n], beats);
      var best := fits[..n][FirstMax(fits[..n], beats)];
      assert best in fits;
    }
  }

  ghost predicate IsMostVoted(fits: seq<FitOf>, v: FitOf) { v in fits && forall f :: f in fits ==> !MoreVotes(f, v) }

  ghost predicate IsMostConfident(fits: seq<FitOf>, c: FitOf) {
    c in fits && forall f :: f in fits ==> !MoreConfident(f, c)
  }

  /** The most voted fit against the most confident one: confidence decides when far enough ahead, votes
      when both agree or the most voted fit is the top identity, and otherwise nobody wins. */
  ghost predicate Arbitrates(cfg: FreezerConfig, top: Ident, v: FitOf, c: FitOf, won: Option<Win>) {
    match won
    case Some(Win(fit, true)) => fit == c && c.id.cand.confidence >= ArbThreshold(cfg, v.id.cand.confidence)
    case Some(Win(fit, false)) =>
      fit == v && (v == c || (v.id.cand == top.cand && c.id.cand.confidence < ArbThreshold(cfg, v.id.cand.confidence)))
    case None => v.id.cand != top.cand && c.id.cand.confidence < ArbThreshold(cfg, v.id.cand.confidence)
  }

  /** Weight never chooses among the fits: votes and confidence alone do. */
  lemma VotesChoose(cfg: FreezerConfig, top: Ident, fits: seq<FitOf>)
    ensures if fits == [] then Winner(cfg, top, fits) == None
            else exists v, c :: IsMostVoted(fits, v) && IsMostConfident(fits, c)
                                && Arbitrates(cfg, top, v, c, Winner(cfg, top, fits))
  {
    if fits != [] {
      NothingBeatsMax(fits, MoreVotes);
      NothingBeatsMax(fits, MoreConfident);
      var v, c := fits[FirstMax(fits, MoreVotes)], fits[FirstMax(fits, MoreConfident)];
      assert IsMostVoted(fits, v) && IsMostConfident(fits, c);
      assert Arbitrates(cfg, top, v, c, Winner(cfg, top, fits));
    }
  }

  lemma {:induction false} BestSingleIsLeast(fits: seq<FitOf>)
    ensures match BestSingleResidual(fits)
            case None => forall f :: f in fits ==> f.count != 1
            case Some(r) =>
              && (exists f :: f in fits && f.count == 1 && f.residual == r)
              && forall f :: f in fits && f.count == 1 ==> r <= f.residual
  {
    if fits != [] {
      BestSingleIsLeast(fits[1..]);
      assert fits == [fits[0]] + fits[1..];
    }
  }

  /** Several units are charged only if they explain the pull strictly better than every single unit that fits. */
  lemma RepeatsMustFitBetter(cfg: FreezerConfig, pull: Pull, top: Ident, qualified: seq<Ident>)
    requires cfg.countOccam
    ensures var fits := GateFits(cfg, pull, qualified);
            match Winner(cfg, top, OccamFits(fits))
            case None => true
            case Some(win) =>
              win.fit.count != 1 ==> forall f :: f in fits && f.count == 1 ==> win.fit.residual < f.residual
  {
    var fits := GateFits(cfg, pull, qualified);
    BestSingleIsLeast(fits);
    var best := BestSingleResidual(fits);
    if best.Some? {
      FilterMembers(fits, Unrefuted(best.value));
      VotesChoose(cfg, top, OccamFits(fits));
    }
  }

  /** The count filter never empties the fits, and filtering again changes nothing. */
  lemma OccamKeepsSome(fits: seq<FitOf>)
    requires fits != []
    ensures OccamFits(fits) != [] && OccamFits(OccamFits(fits)) == OccamFits(fits)
  {
    BestSingleIsLeast(fits);
    var best := BestSingleResidual(fits);
    if best.Some? {
      var kept := OccamFits(fits);
      FilterMembers(fits, Unrefuted(best.value));
      var f :| f in fits && f.count == 1 && f.residual == best.value;
      assert f in kept;
      BestSingleIsLeast(kept);
      var again := BestSingleResidual(kept);
      assert again == best;
      FilterAll(kept, Unrefuted(best.value));
    }
  }
}
