/** The other judgement strategies. Each either answers or passes; those that let weight choose the
    identity never apply when weight does not discriminate. */
module Strategies {
  import opened Types
  import opened Sorting
  import opened Combos
  import opened Freezer
  import opened Strict

  datatype JudgeConfig = JudgeConfig(
    freezer: FreezerConfig,
    matcher: MatcherConfig,
    partialMinConf: real,
    impossibleFactor: real,
    relaxFactor: real,
    detectedFactor: real,
    unitSlack: real)

  function Single(status: JudgmentStatus, p: ActiveProduct, n: nat, conf: real, reason: Reason): JudgmentResult {
    JudgmentResult(status, [ProductCount(p, n)], conf, [reason])
  }

  function Scaled(x: real, factor: real): real { x * factor }

  function Nothing(reason: Reason): JudgmentResult { JudgmentResult(NoDetection, [], 0.0, [reason]) }

  // ---- vision only ----

  /** The first ranked candidate that stands for a product on sale. */
  function FirstSold(active: seq<ActiveProduct>, ranked: seq<VisionCandidate>): Option<Ident> {
    if ranked == [] then None
    else
      match ByClass(active, ranked[0].classId)
      case Some(p) => Some(Ident(p, ranked[0]))
      case None => FirstSold(active, ranked[1..])
  }

  function SolveVisionOnly(ctx: Context): JudgmentResult {
    match FirstSold(ctx.active, Ranked(ctx.candidates))
    case Some(x) => Single(JudgmentStatus.Complete, x.product, 1, x.cand.confidence * 0.7, Reason.VisionOnly)
    case None => Nothing(NoVisionCandidates)
  }

  // ---- one search per segment, merged ----

  /** Adds a line to an insertion-ordered dictionary of product counts. */
  function AddLine(merged: seq<ProductCount>, pc: ProductCount): seq<ProductCount> {
    if merged == [] then [pc]
    else if merged[0].product.productId == pc.product.productId
    then [ProductCount(pc.product, merged[0].count + pc.count)] + merged[1..]
    else [merged[0]] + AddLine(merged[1..], pc)
  }

  function AddLines(merged: seq<ProductCount>, pcs: seq<ProductCount>): seq<ProductCount>
    decreases |pcs|
  {
    if pcs == [] then merged else AddLines(AddLine(merged, pcs[0]), pcs[1..])
  }

  datatype Merged = Merged(lines: seq<ProductCount>, score: real)

  /** The best combination of every target, added up; none as soon as one target has none. */
  function MatchTargets(
      cfg: MatcherConfig, candidates: seq<VisionCandidate>, active: seq<ActiveProduct>, tol: real,
      targets: seq<real>, acc: Merged)
    : Option<Merged>
  {
    if targets == [] then Some(acc)
    else
      match Best(cfg, candidates, targets[0], active, tol)
      case None => None
      case Some(b) =>
        MatchTargets(cfg, candidates, active, tol, targets[1..],
                     Merged(AddLines(acc.lines, b.products), acc.score + b.matchScore))
  }

  predicate WithinStock(lines: seq<ProductCount>) { forall pc :: pc in lines ==> pc.count <= pc.product.stockQty }

  function ById(a: ProductCount, b: ProductCount): bool { a.product.productId <= b.product.productId }

  function MergedResult(m: Merged, n: nat, reason: Reason): JudgmentResult {
    JudgmentResult(JudgmentStatus.Complete, StableSort(m.lines, ById),
                   if n == 0 then 0.0 else m.score / n as real, [reason])
  }

  function DeltasOf(segments: seq<WeightSegment>): seq<real> {
    seq(|segments|, i requires 0 <= i < |segments| => segments[i].deltaGrams)
  }

  function SolveSegments(cfg: MatcherConfig, ctx: Context): Option<JudgmentResult> {
    var targets := DeltasOf(RemovalsOf(ctx.segments));
    match MatchTargets(cfg, ctx.candidates, ctx.active, ctx.profile.toleranceGrams, targets, Merged([], 0.0))
    case None => None
    case Some(m) => if WithinStock(m.lines) then Some(MergedResult(m, |targets|, SegmentWeightMatching)) else None
  }

  function InStockOnly(active: seq<ActiveProduct>): seq<ActiveProduct> {
    Filter(active, (p: ActiveProduct) => p.stockQty > 0)
  }

  /** Without vision every product in stock stands in as a candidate without evidence. */
  function StandIns(active: seq<ActiveProduct>): seq<VisionCandidate> {
    var pool := InStockOnly(active);
    seq(|pool|, i requires 0 <= i < |pool| => VisionCandidate(pool[i].classId, 0.0, 0, 0.0))
  }

  function Negated(targets: seq<real>): seq<real> {
    seq(|targets|, i requires 0 <= i < |targets| => -Abs(targets[i]))
  }

  function SolveStages(cfg: MatcherConfig, ctx: Context): Option<JudgmentResult> {
    var candidates := if ctx.candidates != [] then ctx.candidates else StandIns(ctx.active);
    match MatchTargets(cfg, candidates, ctx.active, ctx.profile.toleranceGrams, Negated(ctx.stageTargets),
                       Merged([], 0.0))
    case None => None
    case Some(m) =>
      if SumCount(m.lines) >= 2 && WithinStock(m.lines)
        then Some(MergedResult(m, |ctx.stageTargets|, StageCountCombo)) else None
  }

  // ---- no candidates: weight alone, one product, only if unambiguous ----

  /** The counts `from..most` of one product that explain the target. */
  function CountMatches(p: ActiveProduct, target: real, tol: real, from: nat, most: int): seq<ProductCount>
    decreases Max(0, most + 1 - from)
  {
    if from > most then []
    else
      (if Abs(target - Times(from, p.unitWeight)) <= tol then [ProductCount(p, from)] else [])
      + CountMatches(p, target, tol, from + 1, most)
  }

  function WeightMatches(pool: seq<ActiveProduct>, target: real, tol: real, maxItems: nat): seq<ProductCount> {
    if pool == [] then []
    else
      CountMatches(pool[0], target, tol, 1, Min(pool[0].stockQty, maxItems))
      + WeightMatches(pool[1..], target, tol, maxItems)
  }

  predicate HasWeight(p: ActiveProduct) { p.stockQty > 0 && p.unitWeight > 0.0 }

  function Weighed(active: seq<ActiveProduct>): seq<ActiveProduct> { Filter(active, HasWeight) }

  function SolveNoCandidate(cfg: MatcherConfig, ctx: Context): JudgmentResult {
    if !ctx.profile.weightIsDiscriminative then Nothing(LoadcellIdentitySuppressed)
    else
      var matches := WeightMatches(Weighed(ctx.active), Abs(ctx.deltaWeight), ctx.profile.toleranceGrams, cfg.maxItems);
      if matches == [] then Nothing(NoCandidatesForcedFinal)
      else if |matches| >= 2 then Nothing(WeightOnlyAmbiguous)
      else JudgmentResult(JudgmentStatus.Complete, [matches[0]], 0.3, [WeightOnly])
  }

  // ---- products on sale, by class, in dictionary order ----

  function PutByClass(sold: seq<ActiveProduct>, p: ActiveProduct): seq<ActiveProduct> {
    if sold == [] then [p]
    else if sold[0].classId == p.classId then [p] + sold[1..]
    else [sold[0]] + PutByClass(sold[1..], p)
  }

  function Sold(active: seq<ActiveProduct>): seq<ActiveProduct> {
    if active == [] then []
    else
      var n := |active| - 1;
      var sold := Sold(active[..n]);
      if active[n].stockQty > 0 && active[n].classId > 0 then PutByClass(sold, active[n]) else sold
  }

  /** Confidence of a class, zero if unseen. */
  function Conf(candidates: seq<VisionCandidate>, p: ActiveProduct): real {
    var c := ConfOf(candidates, p.classId);
    if c.Some? then c.value else 0.0
  }

  function SingleMatches(ctx: Context): seq<ActiveProduct> {
    Filter(Sold(ctx.active), (p: ActiveProduct) =>
      ConfOf(ctx.candidates, p.classId).Some? && Abs(Abs(ctx.deltaWeight) - p.unitWeight) <= ctx.profile.toleranceGrams)
  }

  function SolveCollision(ctx: Context): Option<JudgmentResult> {
    var singles := SingleMatches(ctx);
    var ranked := StableSort(singles, (a: ActiveProduct, b: ActiveProduct) =>
                             Conf(ctx.candidates, a) >= Conf(ctx.candidates, b));
    if |ranked| < 2 || Abs(ranked[0].unitWeight - ranked[1].unitWeight) > ctx.profile.toleranceGrams then None
    else Some(Single(JudgmentStatus.Complete, ranked[0], 1, Conf(ctx.candidates, ranked[0]), SameWeightCollisionGuard))
  }

  function SolveStrict(
      cfg: MatcherConfig, ctx: Context, factor: real, confFactor: real, reason: Reason): Option<JudgmentResult> {
    match Best(cfg, ctx.candidates, ctx.deltaWeight, ctx.active, Scaled(ctx.profile.toleranceGrams, factor))
    case None => None
    case Some(b) => Some(JudgmentResult(JudgmentStatus.Complete, b.products, b.matchScore * confFactor, [reason]))
  }

  // ---- one product, several units ----

  datatype Repeat = Repeat(product: ActiveProduct, count: nat, error: real)

  function RepeatOf(ctx: Context, p: ActiveProduct): Option<Repeat> {
    if ConfOf(ctx.candidates, p.classId).None? || p.unitWeight <= 0.0 then None
    else
      var target := Abs(ctx.deltaWeight);
      var n := Round(target / p.unitWeight);
      if n < 2 || n > p.stockQty then None
      else
        var error := Abs(target - Times(n, p.unitWeight));
        if error <= ctx.profile.toleranceGrams then Some(Repeat(p, n, error)) else None
  }

  /** The first repeat with the least error. */
  function BestRepeat(ctx: Context, sold: seq<ActiveProduct>): Option<Repeat> {
    if sold == [] then None
    else
      var n := |sold| - 1;
      var best, next := BestRepeat(ctx, sold[..n]), RepeatOf(ctx, sold[n]);
      if next.Some? && (best.None? || next.value.error < best.value.error) then next else best
  }

  function SolveSameProduct(ctx: Context): Option<JudgmentResult> {
    match BestRepeat(ctx, Sold(ctx.active))
    case None => None
    case Some(r) => Some(Single(JudgmentStatus.Complete, r.product, r.count, Conf(ctx.candidates, r.product),
                                Reason.SameProductCount))
  }

  // ---- last resorts ----

  const NEAREST_SINGLE_GRAMS: real := 5.0

  /** The first product in stock whose weight is nearest. */
  function Nearest(pool: seq<ActiveProduct>, target: real): ActiveProduct
    requires pool != []
  {
    var n := |pool| - 1;
    if n == 0 then pool[0]
    else
      var best := Nearest(pool[..n], target);
      if Abs(target - pool[n].unitWeight) < Abs(target - best.unitWeight) then pool[n] else best
  }

  function SolveLoadcellOnly(ctx: Context): Option<JudgmentResult> {
    var pool := InStockOnly(ctx.active);
    if pool == [] then None
    else
      var target := Abs(ctx.deltaWeight);
      var p := Nearest(pool, target);
      var error := Abs(target - p.unitWeight);
      if error >= NEAREST_SINGLE_GRAMS then None
      else Some(Single(Partial, p, 1, RMax(0.0, 1.0 - error / NEAREST_SINGLE_GRAMS) * 0.7, Reason.RelaxedLoadcellOnly))
  }

  /** Keeps the identity of the best ranked product: counted if the weight agrees, else one unverified unit. */
  function SolveIdentityPartial(ctx: Context, minConf: real): Option<JudgmentResult> {
    var idents := IdentsOf(ctx.active, Ranked(ctx.candidates));
    if idents == [] then None
    else
      var f := Fit(Abs(ctx.deltaWeight), idents[0]);
      var conf := idents[0].cand.confidence;
      if f.residual <= ctx.profile.toleranceGrams
      then Some(Single(JudgmentStatus.Complete, f.id.product, f.count, conf, VisionIdentityWeightValidated))
      else if conf * 0.5 < minConf then None
      else Some(Single(Partial, f.id.product, 1, conf * 0.5, Reason.VisionFirstIdentityPartial))
  }

  function SolveDetectedSingle(ctx: Context, factor: real): Option<JudgmentResult> {
    var ranked := Ranked(ctx.candidates);
    if ranked == [] then None
    else
      match ByClass(ctx.active, ranked[0].classId)
      case None => None
      case Some(p) =>
        if p.unitWeight <= 0.0 then None
        else
          var tol := Scaled(ctx.profile.toleranceGrams, factor);
          var f := Fit(Abs(ctx.deltaWeight), Ident(p, ranked[0]));
          if f.residual > tol then None
          else
            var score := if tol > 0.0 then RMax(0.0, 1.0 - f.residual / tol) else 0.0;
            var conf := RMin(0.65, RMax(0.05, 0.45 * score + 0.25 * ranked[0].confidence + 0.10));
            Some(Single(JudgmentStatus.Complete, p, f.count, conf, Reason.DetectedSingleItemFallback))
  }

  /** The largest removal seen, in any segment or overall. */
  function RemovalBound(removals: seq<WeightSegment>, delta: real): real {
    if removals == [] then Abs(delta) else RMax(Abs(removals[0].deltaGrams), RemovalBound(removals[1..], delta))
  }

  /** The first ranked product not too heavy to have been taken at all. */
  function FirstPossible(
      active: seq<ActiveProduct>, ranked: seq<VisionCandidate>, factor: real, ceiling: real): Option<Ident> {
    if ranked == [] then None
    else
      match ByClass(active, ranked[0].classId)
      case Some(p) =>
        if factor > 0.0 && p.unitWeight > ceiling then FirstPossible(active, ranked[1..], factor, ceiling)
        else Some(Ident(p, ranked[0]))
      case None => FirstPossible(active, ranked[1..], factor, ceiling)
  }

  function SolveRelaxedPartial(ctx: Context, minConf: real, factor: real): Option<JudgmentResult> {
    var ceiling := RemovalBound(RemovalsOf(ctx.segments), ctx.deltaWeight) + Scaled(ctx.profile.toleranceGrams, factor);
    match FirstPossible(ctx.active, Ranked(ctx.candidates), factor, ceiling)
    case None => None
    case Some(x) =>
      if x.cand.confidence * 0.5 < minConf then None
      else Some(Single(Partial, x.product, 1, x.cand.confidence * 0.5, Reason.RelaxedPartial))
  }
}
