/** What the default pipeline guarantees for every context. */
module RouterTheorems {
  import opened Types
  import opened Sorting
  import opened Freezer
  import opened FreezerTheorems
  import opened Strict
  import opened Strategies
  import opened Router

  /** Only what is on sale is billed, in counts the stock allows; nothing is billed exactly when nothing
      was detected; when weight does not discriminate every class billed was seen. */
  ghost predicate Billable(ctx: Context, r: JudgmentResult) {
    && (r.status.Complete? || r.status.Partial? || r.status.NoDetection?)
    && (r.status.NoDetection? <==> r.products == [])
    && (forall pc :: pc in r.products ==> InStock(ctx.active, pc))
    && (!ctx.profile.weightIsDiscriminative ==>
          forall pc :: pc in r.products ==> pc.product.classId > 0 && Seen(ctx.candidates, pc.product.classId))
  }

  lemma RankedMembers(candidates: seq<VisionCandidate>, c: VisionCandidate)
    ensures c in Ranked(candidates) <==> c in candidates
  {
    SortMembers(candidates, RanksBefore);
  }

  /** A product a ranked candidate stands for. */
  lemma StandsFor(ctx: Context, c: VisionCandidate)
    requires c in Ranked(ctx.candidates) && ByClass(ctx.active, c.classId).Some?
    ensures var p := ByClass(ctx.active, c.classId).value;
            p in ctx.active && p.stockQty >= 1 && p.classId > 0 && Seen(ctx.candidates, p.classId)
  {
    RankedMembers(ctx.candidates, c);
    ByClassIsActive(ctx.active, c.classId);
  }

  lemma {:induction false} FirstSoldFacts(active: seq<ActiveProduct>, ranked: seq<VisionCandidate>)
    ensures var x := FirstSold(active, ranked);
            x.Some? ==> x.value.cand in ranked && ByClass(active, x.value.cand.classId) == Some(x.value.product)
  {
    if ranked != [] && ByClass(active, ranked[0].classId).None? {
      FirstSoldFacts(active, ranked[1..]);
    }
  }

  lemma VisionOnlyBillable(ctx: Context)
    ensures Billable(ctx, SolveVisionOnly(ctx))
  {
    FirstSoldFacts(ctx.active, Ranked(ctx.candidates));
    var x := FirstSold(ctx.active, Ranked(ctx.candidates));
    if x.Some? {
      StandsFor(ctx, x.value.cand);
    }
  }

  // ---- merged searches ----

  ghost predicate OnSale(active: seq<ActiveProduct>, lines: seq<ProductCount>) {
    forall pc :: pc in lines ==> pc.product in active && pc.count >= 1
  }

  lemma {:induction false} AddLineOnSale(active: seq<ActiveProduct>, merged: seq<ProductCount>, pc: ProductCount)
    requires OnSale(active, merged) && pc.product in active && pc.count >= 1
    ensures OnSale(active, AddLine(merged, pc)) && AddLine(merged, pc) != []
  {
    if merged != [] {
      assert merged == [merged[0]] + merged[1..];
      if merged[0].product.productId != pc.product.productId {
        AddLineOnSale(active, merged[1..], pc);
      }
    }
  }

  lemma {:induction false} AddLinesOnSale(active: seq<ActiveProduct>, merged: seq<ProductCount>, pcs: seq<ProductCount>)
    requires OnSale(active, merged) && OnSale(active, pcs)
    ensures OnSale(active, AddLines(merged, pcs)) && (merged != [] || pcs != [] ==> AddLines(merged, pcs) != [])
    decreases |pcs|
  {
    if pcs != [] {
      AddLineOnSale(active, merged, pcs[0]);
      AddLinesOnSale(active, AddLine(merged, pcs[0]), pcs[1..]);
    }
  }

  lemma BestOnSale(
      cfg: MatcherConfig, candidates: seq<VisionCandidate>, delta: real, active: seq<ActiveProduct>, tol: real)
    ensures var b := Best(cfg, candidates, delta, active, tol);
            b.Some? ==> b.value.products != [] && OnSale(active, b.value.products)
  {
    BestIsValid(cfg, candidates, delta, active, tol);
    var b := Best(cfg, candidates, delta, active, tol);
    if b.Some? {
      forall pc | pc in b.value.products ensures pc.product in active && pc.count >= 1 {
        assert InStock(active, pc);
      }
    }
  }

  lemma BestAddsOnSale(
      cfg: MatcherConfig, candidates: seq<VisionCandidate>, delta: real, active: seq<ActiveProduct>, tol: real,
      lines: seq<ProductCount>, b: Combination)
    requires OnSale(active, lines) && Best(cfg, candidates, delta, active, tol) == Some(b)
    ensures OnSale(active, AddLines(lines, b.products)) && AddLines(lines, b.products) != []
  {
    BestOnSale(cfg, candidates, delta, active, tol);
    AddLinesOnSale(active, lines, b.products);
  }

  lemma {:induction false} MatchTargetsOnSale(
      cfg: MatcherConfig, candidates: seq<VisionCandidate>, active: seq<ActiveProduct>, tol: real,
      targets: seq<real>, acc: Merged, m: Merged)
    requires OnSale(active, acc.lines) && MatchTargets(cfg, candidates, active, tol, targets, acc) == Some(m)
    ensures OnSale(active, m.lines) && (targets != [] || acc.lines != [] ==> m.lines != [])
    decreases |targets|
  {
    if targets != [] {
      var b := Best(cfg, candidates, targets[0], active, tol).value;
      BestAddsOnSale(cfg, candidates, targets[0], active, tol, acc.lines, b);
      MatchTargetsOnSale(cfg, candidates, active, tol, targets[1..],
                         Merged(AddLines(acc.lines, b.products), acc.score + b.matchScore), m);
    }
  }

  lemma MergedBillable(ctx: Context, m: Merged, n: nat, reason: Reason)
    requires ctx.profile.weightIsDiscriminative && OnSale(ctx.active, m.lines) && WithinStock(m.lines) && m.lines != []
    ensures Billable(ctx, MergedResult(m, n, reason))
  {
    SortMembers(m.lines, ById);
    assert m.lines[0] in StableSort(m.lines, ById);
  }

  lemma SegmentsBillable(cfg: MatcherConfig, ctx: Context)
    requires ctx.profile.weightIsDiscriminative && |RemovalsOf(ctx.segments)| >= 2
    ensures var r := SolveSegments(cfg, ctx); r.Some? ==> Billable(ctx, r.value)
  {
    var targets := DeltasOf(RemovalsOf(ctx.segments));
    var m := MatchTargets(cfg, ctx.candidates, ctx.active, ctx.profile.toleranceGrams, targets, Merged([], 0.0));
    if m.Some? && WithinStock(m.value.lines) {
      MatchTargetsOnSale(cfg, ctx.candidates, ctx.active, ctx.profile.toleranceGrams, targets, Merged([], 0.0),
                         m.value);
      MergedBillable(ctx, m.value, |targets|, SegmentWeightMatching);
    }
  }

  lemma StagesBillable(cfg: MatcherConfig, ctx: Context)
    requires ctx.profile.weightIsDiscriminative && |ctx.stageTargets| >= 2
    ensures var r := SolveStages(cfg, ctx); r.Some? ==> Billable(ctx, r.value)
  {
    var candidates := if ctx.candidates != [] then ctx.candidates else StandIns(ctx.active);
    var targets := Negated(ctx.stageTargets);
    var m := MatchTargets(cfg, candidates, ctx.active, ctx.profile.toleranceGrams, targets, Merged([], 0.0));
    if m.Some? && WithinStock(m.value.lines) {
      MatchTargetsOnSale(cfg, candidates, ctx.active, ctx.profile.toleranceGrams, targets, Merged([], 0.0), m.value);
      MergedBillable(ctx, m.value, |ctx.stageTargets|, StageCountCombo);
    }
  }

  // ---- weight alone ----

  lemma {:induction false} CountMatchesBounds(
      p: ActiveProduct, target: real, tol: real, from: nat, most: int, pc: ProductCount)
    requires pc in CountMatches(p, target, tol, from, most)
    ensures pc.product == p && from <= pc.count <= most
    decreases Max(0, most + 1 - from)
  {
    if pc in CountMatches(p, target, tol, from + 1, most) {
      CountMatchesBounds(p, target, tol, from + 1, most, pc);
    }
  }

  lemma {:induction false} WeightMatchesBounds(
      pool: seq<ActiveProduct>, target: real, tol: real, maxItems: nat, pc: ProductCount)
    requires pc in WeightMatches(pool, target, tol, maxItems)
    ensures pc.product in pool && 1 <= pc.count <= pc.product.stockQty
  {
    if pc in WeightMatches(pool[1..], target, tol, maxItems) {
      WeightMatchesBounds(pool[1..], target, tol, maxItems, pc);
    } else {
      CountMatchesBounds(pool[0], target, tol, 1, Min(pool[0].stockQty, maxItems), pc);
    }
  }

  lemma NoCandidateBillable(cfg: MatcherConfig, ctx: Context)
    ensures Billable(ctx, SolveNoCandidate(cfg, ctx))
  {
    var matches := WeightMatches(Weighed(ctx.active), Abs(ctx.deltaWeight), ctx.profile.toleranceGrams, cfg.maxItems);
    if |matches| == 1 {
      WeightMatchesBounds(Weighed(ctx.active), Abs(ctx.deltaWeight), ctx.profile.toleranceGrams, cfg.maxItems,
                          matches[0]);
      FilterMembers(ctx.active, HasWeight);
    }
  }

  // ---- by class ----

  lemma {:induction false} PutMembers(sold: seq<ActiveProduct>, p: ActiveProduct, x: ActiveProduct)
    requires x in PutByClass(sold, p)
    ensures x == p || x in sold
  {
    if sold != [] && sold[0].classId != p.classId && x in PutByClass(sold[1..], p) {
      PutMembers(sold[1..], p, x);
    }
  }

  lemma SoldMembers(active: seq<ActiveProduct>, x: ActiveProduct)
    requires x in Sold(active)
    ensures x in active && x.stockQty >= 1
  {
    var n := |active| - 1;
    assert active == active[..n] + [active[n]];
    if active[n].stockQty > 0 && active[n].classId > 0 {
      PutMembers(Sold(active[..n]), active[n], x);
    }
    if x in Sold(active[..n]) {
      SoldMembers(active[..n], x);
    }
  }

  lemma CollisionBillable(ctx: Context)
    requires ctx.profile.weightIsDiscriminative
    ensures var r := SolveCollision(ctx); r.Some? ==> Billable(ctx, r.value)
  {
    var singles := SingleMatches(ctx);
    var byConf := (a: ActiveProduct, b: ActiveProduct) => Conf(ctx.candidates, a) >= Conf(ctx.candidates, b);
    var matches := (p: ActiveProduct) =>
      ConfOf(ctx.candidates, p.classId).Some? && Abs(Abs(ctx.deltaWeight) - p.unitWeight) <= ctx.profile.toleranceGrams;
    SortMembers(singles, byConf);
    FilterMembers(Sold(ctx.active), matches);
    var ranked := StableSort(singles, byConf);
    if ranked != [] {
      assert ranked[0] in ranked;
      SoldMembers(ctx.active, ranked[0]);
    }
  }

  lemma StrictBillable(
      cfg: MatcherConfig, ctx: Context, factor: real, confFactor: real, reason: Reason)
    requires ctx.profile.weightIsDiscriminative
    ensures var r := SolveStrict(cfg, ctx, factor, confFactor, reason); r.Some? ==> Billable(ctx, r.value)
  {
    BestIsValid(cfg, ctx.candidates, ctx.deltaWeight, ctx.active, Scaled(ctx.profile.toleranceGrams, factor));
  }

  lemma {:induction false} BestRepeatBounds(ctx: Context, sold: seq<ActiveProduct>)
    ensures var r := BestRepeat(ctx, sold); r.Some? ==>
            r.value.product in sold && 2 <= r.value.count <= r.value.product.stockQty
  {
    if sold != [] {
      var n := |sold| - 1;
      assert sold == sold[..n] + [sold[n]];
      BestRepeatBounds(ctx, sold[..n]);
    }
  }

  lemma SameProductBillable(ctx: Context)
    requires ctx.profile.weightIsDiscriminative
    ensures var r := SolveSameProduct(ctx); r.Some? ==> Billable(ctx, r.value)
  {
    BestRepeatBounds(ctx, Sold(ctx.active));
    var best := BestRepeat(ctx, Sold(ctx.active));
    if best.Some? {
      SoldMembers(ctx.active, best.value.product);
    }
  }

  // ---- last resorts ----

  lemma {:induction false} NearestInPool(pool: seq<ActiveProduct>, target: real)
    requires pool != []
    ensures Nearest(pool, target) in pool
  {
    var n := |pool| - 1;
    assert pool == pool[..n] + [pool[n]];
    if n > 0 {
      NearestInPool(pool[..n], target);
    }
  }

  lemma LoadcellOnlyBillable(ctx: Context)
    requires ctx.profile.weightIsDiscriminative
    ensures var r := SolveLoadcellOnly(ctx); r.Some? ==> Billable(ctx, r.value)
  {
    var pool := InStockOnly(ctx.active);
    if pool != [] {
      NearestInPool(pool, Abs(ctx.deltaWeight));
      FilterMembers(ctx.active, (p: ActiveProduct) => p.stockQty > 0);
    }
  }

  lemma IdentityPartialBillable(ctx: Context, minConf: real)
    ensures var r := SolveIdentityPartial(ctx, minConf); r.Some? ==> Billable(ctx, r.value)
  {
    var idents := IdentsOf(ctx.active, Ranked(ctx.candidates));
    if idents != [] {
      assert idents[0] in idents;
      IdentsOfMembers(ctx.active, Ranked(ctx.candidates), idents[0]);
      StandsFor(ctx, idents[0].cand);
    }
  }

  lemma DetectedSingleBillable(ctx: Context, factor: real)
    ensures var r := SolveDetectedSingle(ctx, factor); r.Some? ==> Billable(ctx, r.value)
  {
    var ranked := Ranked(ctx.candidates);
    if ranked != [] {
      assert ranked[0] in ranked;
      if ByClass(ctx.active, ranked[0].classId).Some? {
        StandsFor(ctx, ranked[0]);
      }
    }
  }

  lemma {:induction false} FirstPossibleFacts(
      active: seq<ActiveProduct>, ranked: seq<VisionCandidate>, factor: real, ceiling: real)
    ensures var x := FirstPossible(active, ranked, factor, ceiling);
            x.Some? ==> x.value.cand in ranked && ByClass(active, x.value.cand.classId) == Some(x.value.product)
  {
    if ranked != [] {
      FirstPossibleFacts(active, ranked[1..], factor, ceiling);
    }
  }

  lemma RelaxedPartialBillable(ctx: Context, minConf: real, factor: real)
    ensures var r := SolveRelaxedPartial(ctx, minConf, factor); r.Some? ==> Billable(ctx, r.value)
  {
    var ceiling := RemovalBound(RemovalsOf(ctx.segments), ctx.deltaWeight) + Scaled(ctx.profile.toleranceGrams, factor);
    FirstPossibleFacts(ctx.active, Ranked(ctx.candidates), factor, ceiling);
    var x := FirstPossible(ctx.active, Ranked(ctx.candidates), factor, ceiling);
    if x.Some? {
      StandsFor(ctx, x.value.cand);
    }
  }

  // ---- every strategy ----

  lemma AttemptBillable(cfg: JudgeConfig, s: Strategy, ctx: Context)
    requires Ready(s, ctx)
    ensures var r := Attempt(cfg, s, ctx); r.Some? ==> Billable(ctx, r.value)
  {
    match s
    case VisionOnlyStrategy => VisionOnlyBillable(ctx);
    case FreezerVisionFirst => BillsOnlyTheSeen(cfg.freezer, ctx);
    case SegmentMatching => SegmentsBillable(cfg.matcher, ctx);
    case StageCountCombination(_) => StagesBillable(cfg.matcher, ctx);
    case NoCandidateFallback => NoCandidateBillable(cfg.matcher, ctx);
    case SameWeightGuard => CollisionBillable(ctx);
    case StrictWeight => StrictBillable(cfg.matcher, ctx, 1.0, 1.0, StrictMatch);
    case SameProduct => SameProductBillable(ctx);
    case RelaxedWeight => StrictBillable(cfg.matcher, ctx, cfg.relaxFactor, 0.8, RelaxedCombination);
    case LoadcellOnly => LoadcellOnlyBillable(ctx);
    case IdentityPartial => IdentityPartialBillable(ctx, cfg.partialMinConf);
    case DetectedSingle => DetectedSingleBillable(ctx, cfg.detectedFactor);
    case RelaxedIdentity => RelaxedPartialBillable(ctx, cfg.partialMinConf, cfg.impossibleFactor);
    case _ =>
  }

  // ---- every pipeline ----

  /** A complete answer explains the whole change: the slack applies only where weight does not discriminate. */
  predicate Explains(cfg: JudgeConfig, ctx: Context, r: JudgmentResult) {
    var slack := if ctx.profile.weightIsDiscriminative then 0.0 else cfg.unitSlack;
    Abs(SumWeight(r.products) - Abs(ctx.deltaWeight))
      <= GateFor(ctx.profile.toleranceGrams, slack, SumCount(r.products))
  }

  ghost predicate SoundVerdict(cfg: JudgeConfig, ctx: Context, r: JudgmentResult) {
    Billable(ctx, r) && (r.status.Complete? && !ctx.visionOnly ==> Explains(cfg, ctx, r))
  }

  lemma {:induction false} VerdictSound(cfg: JudgeConfig, order: seq<Strategy>, ctx: Context)
    ensures SoundVerdict(cfg, ctx, VerdictOf(cfg.unitSlack, Entries(cfg, order), ctx).result)
    decreases |order|
  {
    if order != [] {
      assert Entries(cfg, order)[1..] == Entries(cfg, order[1..]);
      if order[0] == AugmentStageWeightGate {
        VerdictSound(cfg, order[1..], Augment(ctx));
      } else {
        VerdictSound(cfg, order[1..], ctx);
        if Ready(order[0], ctx) && Attempt(cfg, order[0], ctx).Some? {
          AttemptBillable(cfg, order[0], ctx);
        }
      }
    }
  }

  /** Where weight does not discriminate, no strategy that lets weight name the product. */
  predicate MayAnswer(s: Strategy, discriminative: bool) {
    if discriminative then s != FreezerVisionFirst && s != IdentityPartial
    else
      || s == VisionOnlyStrategy || s == FreezerVisionFirst || s == NoCandidateFallback || s == MinWeightGate
      || s == IdentityPartial || s == DetectedSingle || s == FinalFallback
  }

  lemma ReadyMayAnswer(s: Strategy, ctx: Context)
    requires Ready(s, ctx)
    ensures MayAnswer(s, ctx.profile.weightIsDiscriminative)
  {
  }

  /** Only strategies fit for the profile answer; with a final fallback in the order some strategy always does. */
  lemma {:induction false} VerdictAuthor(cfg: JudgeConfig, order: seq<Strategy>, ctx: Context)
    ensures var v := VerdictOf(cfg.unitSlack, Entries(cfg, order), ctx);
            && (v.author.Some? ==>
                v.author.value in order && MayAnswer(v.author.value, ctx.profile.weightIsDiscriminative))
            && (FinalFallback in order ==> v.author.Some?)
    decreases |order|
  {
    if order != [] {
      assert Entries(cfg, order)[1..] == Entries(cfg, order[1..]);
      assert order == [order[0]] + order[1..];
      VerdictAuthor(cfg, order[1..], if order[0] == AugmentStageWeightGate then Augment(ctx) else ctx);
      if Ready(order[0], ctx) {
        ReadyMayAnswer(order[0], ctx);
      }
    }
  }

  /** For every context the default pipeline answers; it bills only what may be billed; a complete answer
      explains the change; and weight never names the product where it does not discriminate. */
  lemma DefaultPipelineSound(cfg: JudgeConfig, ctx: Context)
    ensures var v := VerdictOf(cfg.unitSlack, DefaultPipeline(cfg), ctx);
            && v.author.Some? && MayAnswer(v.author.value, ctx.profile.weightIsDiscriminative)
            && SoundVerdict(cfg, ctx, v.result)
  {
    var order := DefaultOrder();
    assert order[16] == FinalFallback;
    VerdictSound(cfg, order, ctx);
    VerdictAuthor(cfg, order, ctx);
  }

  lemma {:induction false} TimesNonNegative(n: nat, w: real)
    requires w >= 0.0
    ensures Times(n, w) >= 0.0
  {
    if n > 0 {
      TimesNonNegative(n - 1, w);
    }
  }

  /** The two gates agree: what the freezer accepts as complete the final check does not demote, except a
      rescue from the near band. */
  lemma FreezerGatesAgree(cfg: JudgeConfig, ctx: Context)
    requires Freezer.Applies(ctx) && ctx.profile.CountGate() <= ctx.profile.toleranceGrams
    requires cfg.unitSlack == cfg.freezer.unitSlack >= 0.0
    ensures var r := Solve(cfg.freezer, ctx);
            r.Some? && r.value.reason != [FreezerUniqueRefit] ==> Checked(cfg.unitSlack, ctx, r.value) == r.value
  {
    var ids := Identities(cfg.freezer, ctx);
    var r := Solve(cfg.freezer, ctx);
    if r.Some? && r.value.status.Complete? {
      var floor := LeastShare(cfg.freezer, ids[0].cand.voteCount);
      IdentitiesUsable(cfg.freezer, ctx);
      SolveForSound(cfg.freezer, PullOf(ctx), ids, floor);
      TimesNonNegative(if SumCount(r.value.products) == 0 then 0 else SumCount(r.value.products) - 1, cfg.unitSlack);
    }
  }

  // ---- non-interference of the whole router ----

  /** Contexts of a freezer that differ only in candidates too weak to matter. */
  ghost predicate Similar(cfg: JudgeConfig, ctx: Context, others: seq<VisionCandidate>) {
    && SharesOrdered(cfg.freezer) && !ctx.profile.weightIsDiscriminative
    && Identities(cfg.freezer, ctx) != [] && AllIdents(ctx)[0].cand.voteCount >= 0
    && var floor := Share(cfg.freezer.refitShare, AllIdents(ctx)[0].cand.voteCount);
       Filter(others, AtLeast(floor)) == Filter(ctx.candidates, AtLeast(floor))
  }

  lemma StrongRanked(candidates: seq<VisionCandidate>, floor: real)
    ensures var strong := StableSort(Filter(candidates, AtLeast(floor)), RanksBefore);
            |strong| <= |Ranked(candidates)| && strong == Ranked(candidates)[..|strong|]
            && strong == Filter(Ranked(candidates), AtLeast(floor))
  {
    FilterSort(candidates, RanksBefore, AtLeast(floor));
    RankedDescends(candidates);
    FilterIsPrefix(Ranked(candidates), AtLeast(floor));
  }

  lemma {:induction false} FirstSoldPrefix(active: seq<ActiveProduct>, a: seq<VisionCandidate>, b: seq<VisionCandidate>)
    requires exists c :: c in a && ByClass(active, c.classId).Some?
    ensures FirstSold(active, a + b) == FirstSold(active, a)
  {
    assert (a + b)[1..] == a[1..] + b;
    if ByClass(active, a[0].classId).None? {
      var c :| c in a && ByClass(active, c.classId).Some?;
      assert c in a[1..];
      FirstSoldPrefix(active, a[1..], b);
    }
  }

  /** What both contexts share: the first ranked candidate, the first one on sale, the first identity. */
  lemma SimilarShare(cfg: JudgeConfig, ctx: Context, others: seq<VisionCandidate>)
    requires Similar(cfg, ctx, others)
    ensures Ranked(others) != [] && Ranked(ctx.candidates) != [] && Ranked(others)[0] == Ranked(ctx.candidates)[0]
    ensures FirstSold(ctx.active, Ranked(others)) == FirstSold(ctx.active, Ranked(ctx.candidates))
  {
    var top := AllIdents(ctx)[0];
    var floor := Share(cfg.freezer.refitShare, top.cand.voteCount);
    var strong := StableSort(Filter(others, AtLeast(floor)), RanksBefore);
    StrongRanked(others, floor);
    StrongRanked(ctx.candidates, floor);
    ShareMonotone(cfg.freezer.refitShare, 1.0, top.cand.voteCount);
    assert top in AllIdents(ctx);
    IdentsOfMembers(ctx.active, Ranked(ctx.candidates), top);
    FilterMembers(Ranked(ctx.candidates), AtLeast(floor));
    assert top.cand in strong;
    FirstSoldPrefix(ctx.active, strong, Ranked(others)[|strong|..]);
    FirstSoldPrefix(ctx.active, strong, Ranked(ctx.candidates)[|strong|..]);
    assert strong + Ranked(others)[|strong|..] == Ranked(others);
    assert strong + Ranked(ctx.candidates)[|strong|..] == Ranked(ctx.candidates);
  }

  lemma SimilarFirstIdentity(cfg: JudgeConfig, ctx: Context, others: seq<VisionCandidate>)
    requires Similar(cfg, ctx, others)
    ensures var idents := IdentsOf(ctx.active, Ranked(others)); idents != [] && idents[0] == AllIdents(ctx)[0]
  {
    var floor := Share(cfg.freezer.refitShare, AllIdents(ctx)[0].cand.voteCount);
    var strong := Filter(AllIdents(ctx), IdentAtLeast(floor));
    ShareMonotone(cfg.freezer.refitShare, 1.0, AllIdents(ctx)[0].cand.voteCount);
    StrongIdents(ctx, floor);
    StrongIdents(ctx.(candidates := others), floor);
    StrongIsPrefix(ctx.(candidates := others), floor, strong);
  }

  lemma SimilarAttempt(cfg: JudgeConfig, s: Strategy, ctx: Context, others: seq<VisionCandidate>)
    requires Similar(cfg, ctx, others)
    ensures var ctx2 := ctx.(candidates := others);
            Ready(s, ctx2) == Ready(s, ctx) && (Ready(s, ctx) ==> Attempt(cfg, s, ctx2) == Attempt(cfg, s, ctx))
  {
    SimilarShare(cfg, ctx, others);
    assert Ranked([]) == [];
    match s
    case FreezerVisionFirst => NonInterference(cfg.freezer, ctx, others);
    case IdentityPartial => SimilarFirstIdentity(cfg, ctx, others);
    case _ =>
  }

  /** On a freezer, candidates below the refit share of the top identity never change the verdict:
      not its result, not its author, not the strategies that failed before. */
  lemma {:induction false} VerdictNonInterference(
      cfg: JudgeConfig, order: seq<Strategy>, ctx: Context, others: seq<VisionCandidate>)
    requires Similar(cfg, ctx, others)
    ensures VerdictOf(cfg.unitSlack, Entries(cfg, order), ctx.(candidates := others)) ==
            VerdictOf(cfg.unitSlack, Entries(cfg, order), ctx)
    decreases |order|
  {
    if order != [] {
      assert Entries(cfg, order)[1..] == Entries(cfg, order[1..]);
      if order[0] == AugmentStageWeightGate {
        assert Augment(ctx.(candidates := others)) == Augment(ctx).(candidates := others);
        VerdictNonInterference(cfg, order[1..], Augment(ctx), others);
      } else {
        SimilarAttempt(cfg, order[0], ctx, others);
        VerdictNonInterference(cfg, order[1..], ctx, others);
      }
    }
  }
}
