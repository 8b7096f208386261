/** The freezer strategy: vision votes name the product, weight only counts and refutes.
    Stages: a single identity in the gate (with arbitration), a near miss of the top identity,
    a combination that includes it, and the rescue of another identity. */
module Freezer {
  import opened Types
  import opened Sorting
  import opened Combos

  datatype Context = Context(
    profile: SensorProfile,
    deltaWeight: real,
    segments: seq<WeightSegment>,
    candidates: seq<VisionCandidate>,
    active: seq<ActiveProduct>,
    visionOnly: bool,
    stageTargets: seq<real>)

  datatype FreezerConfig = FreezerConfig(
    maxKinds: nat,
    identityPool: nat,
    maxTotalItems: nat,
    singleShare: real,
    comboShare: real,
    nearFactor: real,
    refitShare: real,
    unitSlack: real,
    confOverride: real,
    confMargin: real,
    refitArbFloor: real,
    countOccam: bool,
    segmentCombo: bool,
    segmentComboMinSegments: int,
    partialMinConf: real)

  // ---- identities ----

  /** The product a class stands for: the last in-stock one listed with that class. Classes up to 0 are no product. */
  function ByClass(active: seq<ActiveProduct>, cid: int): Option<ActiveProduct> {
    if active == [] then None
    else
      var later := ByClass(active[1..], cid);
      if later.Some? then later
      else if active[0].classId == cid && active[0].stockQty > 0 && cid > 0 then Some(active[0])
      else None
  }

  predicate RanksBefore(a: VisionCandidate, b: VisionCandidate) {
    a.voteCount > b.voteCount || (a.voteCount == b.voteCount && a.confidence >= b.confidence)
  }

  function Ranked(candidates: seq<VisionCandidate>): seq<VisionCandidate> { StableSort(candidates, RanksBefore) }

  /** The ranked candidates that stand for an in-stock product with a positive weight. */
  function IdentsOf(active: seq<ActiveProduct>, ranked: seq<VisionCandidate>): seq<Ident> {
    if ranked == [] then []
    else
      var rest := IdentsOf(active, ranked[1..]);
      match ByClass(active, ranked[0].classId)
      case Some(p) => if p.unitWeight > 0.0 then [Ident(p, ranked[0])] + rest else rest
      case None => rest
  }

  function Take<T>(s: seq<T>, n: nat): seq<T> { if n < |s| then s[..n] else s }

  function Identities(cfg: FreezerConfig, ctx: Context): seq<Ident> {
    Take(IdentsOf(ctx.active, Ranked(ctx.candidates)), cfg.identityPool)
  }

  // ---- counts and gates ----

  datatype FitOf = FitOf(id: Ident, count: nat, residual: real)

  /** The nearest feasible count: at least one, at most the stock. */
  function FitCount(target: real, p: ActiveProduct): nat {
    var q := if p.unitWeight == 0.0 then 0 else Round(target / p.unitWeight);
    Max(0, Min(Max(1, q), p.stockQty))
  }

  function Fit(target: real, id: Ident): FitOf {
    var n := FitCount(target, id.product);
    FitOf(id, n, Abs(target - Times(n, id.product.unitWeight)))
  }

  /** The gate widens by one slack per further unit. */
  function GateFor(gate: real, slack: real, n: nat): real { gate + Times(if n == 0 then 0 else n - 1, slack) }

  /** What the sensor saw, with the gate of its profile. */
  datatype Pull = Pull(target: real, gate: real, removals: nat)

  predicate TakesWeight(s: WeightSegment) { s.deltaGrams < 0.0 }

  function RemovalsOf(segments: seq<WeightSegment>): seq<WeightSegment> { Filter(segments, TakesWeight) }

  function PullOf(ctx: Context): Pull {
    Pull(Abs(ctx.deltaWeight), ctx.profile.CountGate(), |RemovalsOf(ctx.segments)|)
  }

  predicate InGate(cfg: FreezerConfig, pull: Pull, f: FitOf) {
    f.residual <= GateFor(pull.gate, cfg.unitSlack, f.count)
  }

  predicate NearGate(cfg: FreezerConfig, pull: Pull, f: FitOf) {
    f.residual <= cfg.nearFactor * GateFor(pull.gate, cfg.unitSlack, f.count)
  }

  function AtLeast(floor: real): VisionCandidate -> bool { (c: VisionCandidate) => c.voteCount as real >= floor }

  function IdentAtLeast(floor: real): Ident -> bool { (x: Ident) => x.cand.voteCount as real >= floor }

  function Share(share: real, votes: int): real { share * votes as real }

  function Qualifies(cfg: FreezerConfig, topVotes: int): Ident -> bool {
    (x: Ident) =>
      || x.cand.voteCount as real >= Share(cfg.singleShare, topVotes)
      || (x.cand.confidence >= cfg.confOverride && x.cand.voteCount as real >= Share(cfg.refitShare, topVotes))
  }

  /** The identities whose nearest count explains the pull within the gate. */
  function GateFits(cfg: FreezerConfig, pull: Pull, ids: seq<Ident>): seq<FitOf> {
    if ids == [] then []
    else
      var f := Fit(pull.target, ids[|ids| - 1]);
      GateFits(cfg, pull, ids[..|ids| - 1]) + if InGate(cfg, pull, f) then [f] else []
  }

  /** Those outside the gate but within its near band. */
  function NearFits(cfg: FreezerConfig, pull: Pull, ids: seq<Ident>): seq<FitOf> {
    if ids == [] then []
    else
      var f := Fit(pull.target, ids[|ids| - 1]);
      NearFits(cfg, pull, ids[..|ids| - 1]) + if !InGate(cfg, pull, f) && NearGate(cfg, pull, f) then [f] else []
  }

  // ---- single identity ----

  function BestSingleResidual(fits: seq<FitOf>): Option<real> {
    if fits == [] then None
    else
      var rest := BestSingleResidual(fits[1..]);
      if fits[0].count != 1 then rest
      else if rest.None? || fits[0].residual < rest.value then Some(fits[0].residual)
      else rest
  }

  function Unrefuted(best: real): FitOf -> bool { (f: FitOf) => f.count == 1 || f.residual < best }

  /** Drops multi-unit fits that a one-unit fit explains at least as well. */
  function OccamFits(fits: seq<FitOf>): seq<FitOf> {
    match BestSingleResidual(fits)
    case None => fits
    case Some(best) => Filter(fits, Unrefuted(best))
  }

  predicate MoreVotes(a: FitOf, b: FitOf) {
    a.id.cand.voteCount > b.id.cand.voteCount
    || (a.id.cand.voteCount == b.id.cand.voteCount && a.id.cand.confidence > b.id.cand.confidence)
  }

  predicate MoreConfident(a: FitOf, b: FitOf) {
    a.id.cand.confidence > b.id.cand.confidence
    || (a.id.cand.confidence == b.id.cand.confidence && a.id.cand.voteCount > b.id.cand.voteCount)
  }

  /** Where Python's `max` finds its answer: the first element nothing beats. */
  function FirstMax(fits: seq<FitOf>, beats: (FitOf, FitOf) -> bool): (k: nat)
    requires fits != []
    ensures k < |fits|
  {
    var n := |fits| - 1;
    if n == 0 then 0
    else
      var k := FirstMax(fits[..n], beats);
      if beats(fits[n], fits[k]) then n else k
  }

  function ArbThreshold(cfg: FreezerConfig, rivalConf: real): real {
    var raw := rivalConf + cfg.confMargin;
    if cfg.confMargin >= 1.0 || rivalConf >= cfg.confOverride then raw else RMin(0.99, raw)
  }

  datatype Win = Win(fit: FitOf, arbitrated: bool)

  function Winner(cfg: FreezerConfig, top: Ident, fits: seq<FitOf>): Option<Win> {
    if fits == [] then None
    else if |fits| == 1 then Some(Win(fits[0], false))
    else
      var v, c := FirstMax(fits, MoreVotes), FirstMax(fits, MoreConfident);
      var voted, confident := fits[v], fits[c];
      if c == v then Some(Win(voted, false))
      else if confident.id.cand.confidence >= ArbThreshold(cfg, voted.id.cand.confidence)
        then Some(Win(confident, true))
      else if voted.id.cand == top.cand then Some(Win(voted, false))
      else None
  }

  function GoalOf(cfg: FreezerConfig, pull: Pull): AllocGoal { AllocGoal(pull.target, pull.gate, cfg.maxTotalItems) }

  /** The combination that overrides a repeated single: strictly better, no more units, and no more than the
      separate pulls seen. */
  function Challenge(cfg: FreezerConfig, pull: Pull, top: Ident, partners: seq<Ident>, won: FitOf): Option<Combo> {
    if !cfg.segmentCombo || won.count < 2 || won.residual <= 0.0 || pull.removals < cfg.segmentComboMinSegments
      then None
    else
      match BestCombo(GoalOf(cfg, pull), top, partners, cfg.maxKinds)
      case None => None
      case Some(c) =>
        if |c.subset| < 2 || c.residual >= won.residual || Total(c.alloc) > won.count || Total(c.alloc) > pull.removals
        then None
        else Some(c)
  }

  // ---- results ----

  function Lines(subset: seq<Ident>, alloc: seq<nat>): seq<ProductCount> {
    seq(Min(|subset|, |alloc|), i requires 0 <= i < |subset| && i < |alloc| =>
        ProductCount(subset[i].product, alloc[i]))
  }

  function SumConf(subset: seq<Ident>): real {
    if subset == [] then 0.0 else subset[0].cand.confidence + SumConf(subset[1..])
  }

  function ComboResult(c: Combo, reason: Reason): JudgmentResult {
    var conf := if |c.subset| == 0 then 0.0 else SumConf(c.subset) / |c.subset| as real;
    JudgmentResult(JudgmentStatus.Complete, Lines(c.subset, c.alloc), conf, [reason])
  }

  function SingleResult(f: FitOf, factor: real, reason: Reason): JudgmentResult {
    JudgmentResult(JudgmentStatus.Complete, [ProductCount(f.id.product, f.count)], f.id.cand.confidence * factor,
                   [reason])
  }

  function SingleStage(
      cfg: FreezerConfig, pull: Pull, top: Ident, qualified: seq<Ident>, partners: seq<Ident>): Option<JudgmentResult> {
    var fits := GateFits(cfg, pull, qualified);
    match Winner(cfg, top, if cfg.countOccam then OccamFits(fits) else fits)
    case None => None
    case Some(win) =>
      match Challenge(cfg, pull, top, partners, win.fit)
      case Some(c) => Some(ComboResult(c, FreezerSegmentCombo))
      case None => Some(SingleResult(win.fit, 1.0, if win.arbitrated then FreezerSingleArbitrated else FreezerSingle))
  }

  /** The top identity just misses the gate: its count is kept, unverified, unless the evidence is too thin. */
  function NearStage(cfg: FreezerConfig, pull: Pull, top: Ident): Option<JudgmentResult> {
    var f := Fit(pull.target, top);
    if !NearGate(cfg, pull, f) then None
    else
      var conf := top.cand.confidence * 0.6;
      if conf < cfg.partialMinConf then Some(JudgmentResult(NoDetection, [], conf, [FreezerNearGateLowConf]))
      else Some(JudgmentResult(Partial, [ProductCount(top.product, f.count)], conf, [FreezerNearGate]))
  }

  /** The most confident fit is clear in itself and clearly ahead of every other. */
  predicate Outshines(cfg: FreezerConfig, k: nat, fits: seq<FitOf>)
    requires k < |fits|
  {
    && fits[k].id.cand.confidence >= cfg.refitArbFloor
    && forall i :: 0 <= i < |fits| && i != k ==>
       fits[k].id.cand.confidence >= ArbThreshold(cfg, fits[i].id.cand.confidence)
  }

  function Rescue(cfg: FreezerConfig, inGate: seq<FitOf>, near: seq<FitOf>): Option<Win> {
    if |inGate| == 1 then Some(Win(inGate[0], false))
    else if |inGate| >= 2 then
      var k := FirstMax(inGate, MoreConfident);
      if Outshines(cfg, k, inGate) then Some(Win(inGate[k], true)) else None
    else if |near| == 1 then Some(Win(near[0], false))
    else None
  }

  function RescueStage(cfg: FreezerConfig, pull: Pull, others: seq<Ident>): Option<JudgmentResult> {
    match Rescue(cfg, GateFits(cfg, pull, others), NearFits(cfg, pull, others))
    case None => None
    case Some(win) => Some(SingleResult(win.fit, 0.8,
                                        if win.arbitrated then FreezerRefitArbitrated else FreezerUniqueRefit))
  }

  function Decide(
      cfg: FreezerConfig, pull: Pull, top: Ident, qualified: seq<Ident>, partners: seq<Ident>, others: seq<Ident>)
    : Option<JudgmentResult>
  {
    var single := SingleStage(cfg, pull, top, qualified, partners);
    if single.Some? then single
    else
      var near := NearStage(cfg, pull, top);
      if near.Some? then near
      else
        match BestCombo(GoalOf(cfg, pull), top, partners, cfg.maxKinds)
        case Some(c) => Some(ComboResult(c, FreezerCombo))
        case None => RescueStage(cfg, pull, others)
  }

  function Partners(cfg: FreezerConfig, ids: seq<Ident>): seq<Ident>
    requires ids != []
  {
    Filter(ids[1..], IdentAtLeast(Share(cfg.comboShare, ids[0].cand.voteCount)))
  }

  function Others(cfg: FreezerConfig, ids: seq<Ident>): seq<Ident>
    requires ids != []
  {
    Filter(ids[1..], IdentAtLeast(Share(cfg.refitShare, ids[0].cand.voteCount)))
  }

  function SolveFor(cfg: FreezerConfig, pull: Pull, ids: seq<Ident>): Option<JudgmentResult> {
    if ids == [] then None
    else
      Decide(cfg, pull, ids[0], Filter(ids, Qualifies(cfg, ids[0].cand.voteCount)), Partners(cfg, ids),
             Others(cfg, ids))
  }

  function Solve(cfg: FreezerConfig, ctx: Context): Option<JudgmentResult> {
    SolveFor(cfg, PullOf(ctx), Identities(cfg, ctx))
  }

  predicate Applies(ctx: Context) {
    !ctx.profile.weightIsDiscriminative && ctx.candidates != [] && ctx.deltaWeight < 0.0
  }
}
