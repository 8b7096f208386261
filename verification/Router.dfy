/** The judgement router: strategies tried in a fixed order, the first answer wins, and a complete
    answer that does not explain the whole weight change is demoted. */
module Router {
  import opened Types
  import opened Freezer
  import opened Strategies

  datatype Strategy =
    | VisionOnlyStrategy
    | FreezerVisionFirst
    | AugmentStageWeightGate
    | SegmentMatching
    | StageCountCombination(requireNoVision: bool)
    | NoCandidateFallback
    | MinWeightGate
    | SameWeightGuard
    | StrictWeight
    | SameProduct
    | RelaxedWeight
    | LoadcellOnly
    | IdentityPartial
    | DetectedSingle
    | RelaxedIdentity
    | FinalFallback

  /** No candidate stands for a product on sale. */
  predicate NoneSold(ctx: Context) {
    forall c :: c in ctx.candidates ==> ByClass(ctx.active, c.classId).None?
  }

  predicate Ready(s: Strategy, ctx: Context) {
    var discriminative, seen := ctx.profile.weightIsDiscriminative, ctx.candidates != [];
    match s
    case VisionOnlyStrategy => ctx.visionOnly
    case FreezerVisionFirst => Freezer.Applies(ctx)
    case AugmentStageWeightGate => false
    case SegmentMatching => discriminative && |RemovalsOf(ctx.segments)| >= 2 && seen
    case StageCountCombination(requireNoVision) =>
      discriminative && !(requireNoVision && seen) && |ctx.stageTargets| >= 2
    case NoCandidateFallback => !seen && !ctx.visionOnly
    case MinWeightGate => seen && Abs(ctx.deltaWeight) < ctx.profile.minWeightChangeGrams
    case SameWeightGuard => discriminative && seen && ctx.deltaWeight < 0.0
    case StrictWeight => discriminative && seen
    case SameProduct => discriminative && seen
    case RelaxedWeight => discriminative && seen
    case LoadcellOnly => seen && discriminative && NoneSold(ctx)
    case IdentityPartial => !discriminative && seen && ctx.deltaWeight < 0.0
    case DetectedSingle => ctx.deltaWeight < 0.0 && seen
    case RelaxedIdentity => seen && discriminative
    case FinalFallback => true
  }

  function Attempt(cfg: JudgeConfig, s: Strategy, ctx: Context): Option<JudgmentResult> {
    match s
    case VisionOnlyStrategy => Some(SolveVisionOnly(ctx))
    case FreezerVisionFirst => Freezer.Solve(cfg.freezer, ctx)
    case AugmentStageWeightGate => None
    case SegmentMatching => SolveSegments(cfg.matcher, ctx)
    case StageCountCombination(_) => SolveStages(cfg.matcher, ctx)
    case NoCandidateFallback => Some(SolveNoCandidate(cfg.matcher, ctx))
    case MinWeightGate => Some(Nothing(BelowMinWeightChange))
    case SameWeightGuard => SolveCollision(ctx)
    case StrictWeight => SolveStrict(cfg.matcher, ctx, 1.0, 1.0, StrictMatch)
    case SameProduct => SolveSameProduct(ctx)
    case RelaxedWeight => SolveStrict(cfg.matcher, ctx, cfg.relaxFactor, 0.8, RelaxedCombination)
    case LoadcellOnly => SolveLoadcellOnly(ctx)
    case IdentityPartial => SolveIdentityPartial(ctx, cfg.partialMinConf)
    case DetectedSingle => SolveDetectedSingle(ctx, cfg.detectedFactor)
    case RelaxedIdentity => SolveRelaxedPartial(ctx, cfg.partialMinConf, cfg.impossibleFactor)
    case FinalFallback => Some(Nothing(ForcedFinalNoMatch))
  }

  /** Leaves the target weight of every removal segment as a hint. */
  function Augment(ctx: Context): Context {
    var removals := RemovalsOf(ctx.segments);
    if removals == [] then ctx
    else ctx.(stageTargets := seq(|removals|, i requires 0 <= i < |removals| => Abs(removals[i].deltaGrams)))
  }

  /** A complete answer must explain the whole change, within a tolerance that grows with the units billed. */
  function EnforceFullDelta(r: JudgmentResult, delta: real, tol: real, slack: real): JudgmentResult {
    if r.status != JudgmentStatus.Complete then r
    else if Abs(SumWeight(r.products) - Abs(delta)) <= GateFor(tol, slack, SumCount(r.products)) then r
    else r.(status := Partial, reason := r.reason + [FullDeltaUnexplained])
  }

  function Checked(unitSlack: real, ctx: Context, r: JudgmentResult): JudgmentResult {
    if ctx.visionOnly then r
    else
      EnforceFullDelta(r, ctx.deltaWeight, ctx.profile.toleranceGrams,
                       if ctx.profile.weightIsDiscriminative then 0.0 else unitSlack)
  }

  // ---- the pipeline ----

  /** A stage rewrites the context; a decider answers or passes. */
  datatype Entry =
    | Stage(name: Strategy, apply: Context -> Context)
    | Decider(name: Strategy, ready: Context -> bool, solve: Context -> Option<JudgmentResult>)

  function EntryFor(cfg: JudgeConfig, s: Strategy): Entry {
    if s == AugmentStageWeightGate then Stage(s, Augment)
    else Decider(s, (ctx: Context) => Ready(s, ctx), (ctx: Context) => Attempt(cfg, s, ctx))
  }

  function Entries(cfg: JudgeConfig, order: seq<Strategy>): seq<Entry> {
    if order == [] then [] else [EntryFor(cfg, order[0])] + Entries(cfg, order[1..])
  }

  function DefaultOrder(): seq<Strategy> {
    [ VisionOnlyStrategy, FreezerVisionFirst, AugmentStageWeightGate, SegmentMatching, StageCountCombination(true),
      NoCandidateFallback, MinWeightGate, SameWeightGuard, StrictWeight, StageCountCombination(false), SameProduct,
      RelaxedWeight, LoadcellOnly, IdentityPartial, DetectedSingle, RelaxedIdentity, FinalFallback ]
  }

  function DefaultPipeline(cfg: JudgeConfig): seq<Entry> { Entries(cfg, DefaultOrder()) }

  /** An answer, the strategy that gave it, and the strategies that tried before and found none. */
  datatype Verdict = Verdict(result: JudgmentResult, author: Option<Strategy>, misses: seq<Strategy>)

  /** The verdict of the remaining strategies, reached after `missed`. */
  function After(missed: seq<Strategy>, v: Verdict): Verdict { v.(misses := missed + v.misses) }

  function VerdictOf(unitSlack: real, pipeline: seq<Entry>, ctx: Context): Verdict
    decreases |pipeline|
  {
    if pipeline == [] then Verdict(Nothing(PipelineExhausted), None, [])
    else
      match pipeline[0]
      case Stage(_, apply) => VerdictOf(unitSlack, pipeline[1..], apply(ctx))
      case Decider(name, ready, solve) =>
        if !ready(ctx) then VerdictOf(unitSlack, pipeline[1..], ctx)
        else
          match solve(ctx)
          case Some(r) => Verdict(Checked(unitSlack, ctx, r), Some(name), [])
          case None => After([name], VerdictOf(unitSlack, pipeline[1..], ctx))
  }

  // ---- the router object ----

  const MISS_LOG_SIZE: nat := 256

  function LastOf<T>(s: seq<T>, n: nat): seq<T> { s[Max(0, |s| - n)..] }

  class JudgmentRouter {
    const pipeline: seq<Entry>
    const unitSlack: real
    var telemetry: map<Strategy, nat>
    var missLog: seq<Strategy>

    constructor (pipeline: seq<Entry>, unitSlack: real)
      ensures Valid() && this.pipeline == pipeline && this.unitSlack == unitSlack && telemetry == map[] && missLog == []
    {
      this.pipeline, this.unitSlack, telemetry, missLog := pipeline, unitSlack, map[], [];
    }

    predicate Valid()
      reads this
    {
      |missLog| <= MISS_LOG_SIZE
    }

    function Hits(s: Strategy): nat
      reads this
    {
      if s in telemetry then telemetry[s] else 0
    }

    method Judge(start: Context) returns (r: JudgmentResult, author: Option<Strategy>)
      requires Valid()
      modifies this
      ensures Valid()
      ensures var v := VerdictOf(unitSlack, pipeline, start);
              && r == v.result && author == v.author
              && missLog == LastOf(old(missLog) + v.misses, MISS_LOG_SIZE)
              && telemetry ==
                 if v.author.None? then old(telemetry)
                 else old(telemetry)[v.author.value := old(Hits(v.author.value)) + 1]
    {
      var ctx := start;
      ghost var missed: seq<Strategy> := [];
      ghost var logged := missLog;
      assert logged + [] == logged && pipeline[0..] == pipeline;
      var i := 0;
      while i < |pipeline|
        invariant 0 <= i <= |pipeline| && telemetry == old(telemetry) && Valid()
        invariant missLog == LastOf(logged + missed, MISS_LOG_SIZE)
        invariant VerdictOf(unitSlack, pipeline, start) == After(missed, VerdictOf(unitSlack, pipeline[i..], ctx))
      {
        assert pipeline[i..][1..] == pipeline[i + 1..];
        match pipeline[i] {
        case Stage(_, apply) =>
          ctx := apply(ctx);
        case Decider(name, ready, solve) =>
          if ready(ctx) {
            var found := solve(ctx);
            if found.Some? {
              assert missed + [] == missed;
              telemetry := telemetry[name := Hits(name) + 1];
              return Checked(unitSlack, ctx, found.value), Some(name);
            }
            missLog := LastOf(missLog + [name], MISS_LOG_SIZE);
            ghost var later := VerdictOf(unitSlack, pipeline[i + 1..], ctx).misses;
            assert missed + ([name] + later) == (missed + [name]) + later;
            assert (logged + missed) + [name] == logged + (missed + [name]);
            missed := missed + [name];
          }
        }
        i := i + 1;
      }
      assert missed + [] == missed;
      return Nothing(PipelineExhausted), None;
    }
  }
}
