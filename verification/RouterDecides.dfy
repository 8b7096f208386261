/** Who answers: the first strategy of the order that is ready and finds something, and for the default
    order which one that is, read off the context. */
module RouterDecides {
  import opened Types
  import opened Sorting
  import opened Freezer
  import opened Strategies
  import opened Router

  // ---- any order ----

  /** What the `k`-th strategy sees: the stage, if it came before, has left the weights of the removals. */
  ghost function SeenBy(order: seq<Strategy>, k: nat, ctx: Context): Context
    requires k <= |order|
  {
    if AugmentStageWeightGate in order[..k] then Augment(ctx) else ctx
  }

  ghost predicate Responds(cfg: JudgeConfig, s: Strategy, ctx: Context) {
    s != AugmentStageWeightGate && Ready(s, ctx) && Attempt(cfg, s, ctx).Some?
  }

  ghost predicate RespondsAt(cfg: JudgeConfig, order: seq<Strategy>, ctx: Context, k: nat)
    requires k < |order|
  {
    Responds(cfg, order[k], SeenBy(order, k, ctx))
  }

  lemma AugmentTwice(ctx: Context)
    ensures Augment(Augment(ctx)) == Augment(ctx)
  {
  }

  lemma SeenByRest(order: seq<Strategy>, k: nat, ctx: Context)
    requires order != [] && k < |order|
    ensures var next := if order[0] == AugmentStageWeightGate then Augment(ctx) else ctx;
            SeenBy(order, k + 1, ctx) == SeenBy(order[1..], k, next)
  {
    assert order[..k + 1] == [order[0]] + order[1..][..k];
    AugmentTwice(ctx);
  }

  /** One strategy decides, or leaves the decision to those after it. */
  lemma VerdictStep(cfg: JudgeConfig, s: Strategy, rest: seq<Strategy>, ctx: Context)
    ensures var v := VerdictOf(cfg.unitSlack, Entries(cfg, [s] + rest), ctx);
            var next := if s == AugmentStageWeightGate then Augment(ctx) else ctx;
            var later := VerdictOf(cfg.unitSlack, Entries(cfg, rest), next);
            if Responds(cfg, s, ctx)
            then v == Verdict(Checked(cfg.unitSlack, ctx, Attempt(cfg, s, ctx).value), Some(s), [])
            else
              && v.author == later.author && v.result == later.result
              && v.misses == (if s != AugmentStageWeightGate && Ready(s, ctx) then [s] else []) + later.misses
  {
    assert ([s] + rest)[1..] == rest;
    assert Entries(cfg, [s] + rest)[1..] == Entries(cfg, rest);
  }

  ghost predicate FirstAt(cfg: JudgeConfig, order: seq<Strategy>, ctx: Context, k: nat)
    requires k < |order|
  {
    RespondsAt(cfg, order, ctx, k) && forall j :: 0 <= j < k ==> !RespondsAt(cfg, order, ctx, j)
  }

  ghost predicate NobodyResponds(cfg: JudgeConfig, order: seq<Strategy>, ctx: Context) {
    forall k :: 0 <= k < |order| ==> !RespondsAt(cfg, order, ctx, k)
  }

  lemma LaterResponds(cfg: JudgeConfig, order: seq<Strategy>, ctx: Context, next: Context)
    requires order != [] && !RespondsAt(cfg, order, ctx, 0)
    requires next == if order[0] == AugmentStageWeightGate then Augment(ctx) else ctx
    ensures NobodyResponds(cfg, order[1..], next) ==> NobodyResponds(cfg, order, ctx)
    ensures forall k :: 0 <= k < |order| - 1 && FirstAt(cfg, order[1..], next, k) ==>
              FirstAt(cfg, order, ctx, k + 1) && SeenBy(order[1..], k, next) == SeenBy(order, k + 1, ctx)
  {
    var rest := order[1..];
    forall k | 0 <= k < |rest|
      ensures RespondsAt(cfg, rest, next, k) == RespondsAt(cfg, order, ctx, k + 1)
      ensures SeenBy(rest, k, next) == SeenBy(order, k + 1, ctx)
    {
      SeenByRest(order, k, ctx);
    }
    forall k, j | 0 <= k < |rest| && FirstAt(cfg, rest, next, k) && 0 <= j < k + 1
      ensures !RespondsAt(cfg, order, ctx, j)
    {
      assert j > 0 ==> !RespondsAt(cfg, rest, next, j - 1);
    }
    forall j | NobodyResponds(cfg, rest, next) && 0 <= j < |order| ensures !RespondsAt(cfg, order, ctx, j) {
      assert j > 0 ==> !RespondsAt(cfg, rest, next, j - 1);
    }
  }

  /** The verdict of the strategy at position `k`. */
  ghost predicate DecidedAt(cfg: JudgeConfig, order: seq<Strategy>, ctx: Context, k: nat, v: Verdict)
    requires k < |order|
  {
    FirstAt(cfg, order, ctx, k) && v.author == Some(order[k]) &&
    var seen := SeenBy(order, k, ctx);
    v.result == Checked(cfg.unitSlack, seen, Attempt(cfg, order[k], seen).value)
  }

  /** The author is the first strategy that responds to what it sees, and its answer is checked against the
      whole change; nobody is the author exactly when nobody responds. */
  lemma {:induction false} FirstResponderDecides(cfg: JudgeConfig, order: seq<Strategy>, ctx: Context, v: Verdict)
    requires v.author == VerdictOf(cfg.unitSlack, Entries(cfg, order), ctx).author
    requires v.result == VerdictOf(cfg.unitSlack, Entries(cfg, order), ctx).result
    ensures if v.author.None? then v.result == Nothing(PipelineExhausted) && NobodyResponds(cfg, order, ctx)
            else exists k :: 0 <= k < |order| && DecidedAt(cfg, order, ctx, k, v)
    decreases |order|
  {
    if order != [] {
      var next := if order[0] == AugmentStageWeightGate then Augment(ctx) else ctx;
      assert order == [order[0]] + order[1..];
      VerdictStep(cfg, order[0], order[1..], ctx);
      assert SeenBy(order, 0, ctx) == ctx;
      if Responds(cfg, order[0], ctx) {
        assert DecidedAt(cfg, order, ctx, 0, v);
      } else {
        FirstResponderDecides(cfg, order[1..], next, v);
        LaterResponds(cfg, order, ctx, next);
        if k :| 0 <= k < |order[1..]| && DecidedAt(cfg, order[1..], next, k, v) {
          assert DecidedAt(cfg, order, ctx, k + 1, v);
        }
      }
    }
  }

  // ---- the default order ----

  /** Who responds, as a function of the strategy alone. */
  ghost predicate Tells(responds: Strategy -> bool, cfg: JudgeConfig, ctx: Context) {
    forall s {:trigger Responds(cfg, s, ctx)} :: responds(s) == Responds(cfg, s, ctx)
  }

  ghost predicate Names(cfg: JudgeConfig, order: seq<Strategy>, ctx: Context, s: Strategy) {
    VerdictOf(cfg.unitSlack, Entries(cfg, order), ctx).author == Some(s)
  }

  lemma NamesStep(
      cfg: JudgeConfig, s: Strategy, rest: seq<Strategy>, ctx: Context, t: Strategy, responds: Strategy -> bool)
    requires Tells(responds, cfg, ctx) && Names(cfg, rest, ctx, t) && s != AugmentStageWeightGate
    ensures Names(cfg, [s] + rest, ctx, if responds(s) then s else t)
  {
    assert Responds(cfg, s, ctx) == responds(s);
    VerdictStep(cfg, s, rest, ctx);
  }

  lemma StageStep(cfg: JudgeConfig, rest: seq<Strategy>, ctx: Context, t: Strategy)
    requires Names(cfg, rest, Augment(ctx), t)
    ensures Names(cfg, [AugmentStageWeightGate] + rest, ctx, t)
  {
    VerdictStep(cfg, AugmentStageWeightGate, rest, ctx);
  }

  lemma FinalNamed(cfg: JudgeConfig, ctx: Context)
    ensures Names(cfg, [FinalFallback], ctx, FinalFallback)
  {
    VerdictStep(cfg, FinalFallback, [], ctx);
    assert [FinalFallback] + [] == [FinalFallback];
  }

  /** A list of strategies before a decided rest: the first that responds, else the rest's. */
  function FirstOf(front: seq<Strategy>, responds: Strategy -> bool, otherwise: Strategy): Strategy {
    if front == [] then otherwise
    else if responds(front[0]) then front[0]
    else FirstOf(front[1..], responds, otherwise)
  }

  lemma {:induction false} FrontNamed(
      cfg: JudgeConfig, front: seq<Strategy>, rest: seq<Strategy>, ctx: Context, t: Strategy,
      responds: Strategy -> bool)
    requires Tells(responds, cfg, ctx) && Names(cfg, rest, ctx, t) && AugmentStageWeightGate !in front
    ensures Names(cfg, front + rest, ctx, FirstOf(front, responds, t))
  {
    if front == [] {
      assert front + rest == rest;
    } else {
      FrontNamed(cfg, front[1..], rest, ctx, t, responds);
      NamesStep(cfg, front[0], front[1..] + rest, ctx, FirstOf(front[1..], responds, t), responds);
      assert front + rest == [front[0]] + (front[1..] + rest);
    }
  }

  lemma NamedInParts(
      cfg: JudgeConfig, early: seq<Strategy>, late: seq<Strategy>, ctx: Context, before: Strategy -> bool,
      after: Strategy -> bool)
    requires Tells(before, cfg, ctx) && Tells(after, cfg, Augment(ctx))
    requires AugmentStageWeightGate !in early + late
    ensures Names(cfg, early + ([AugmentStageWeightGate] + (late + [FinalFallback])), ctx,
                  FirstOf(early, before, FirstOf(late, after, FinalFallback)))
  {
    FinalNamed(cfg, Augment(ctx));
    FrontNamed(cfg, late, [FinalFallback], Augment(ctx), FinalFallback, after);
    StageStep(cfg, late + [FinalFallback], ctx, FirstOf(late, after, FinalFallback));
    FrontNamed(cfg, early, [AugmentStageWeightGate] + (late + [FinalFallback]), ctx,
               FirstOf(late, after, FinalFallback), before);
  }

  /** The ranks before the stage that notes the weights of the removals, and those after it. */
  function Early(): seq<Strategy> { [VisionOnlyStrategy, FreezerVisionFirst] }

  function Late(): seq<Strategy> {
    [ SegmentMatching, StageCountCombination(true), NoCandidateFallback, MinWeightGate, SameWeightGuard, StrictWeight,
      StageCountCombination(false), SameProduct, RelaxedWeight, LoadcellOnly, IdentityPartial, DetectedSingle,
      RelaxedIdentity ]
  }

  lemma DefaultOrderInParts()
    ensures DefaultOrder() == Early() + ([AugmentStageWeightGate] + (Late() + [FinalFallback]))
    ensures AugmentStageWeightGate !in Early() + Late()
  {
  }

  /** The author of the default pipeline, for every context: the first of the early ranks that responds to
      it, else the first of the late ones that responds after the stage, else the final fallback. */
  lemma DefaultAuthor(cfg: JudgeConfig, ctx: Context, before: Strategy -> bool, after: Strategy -> bool)
    requires Tells(before, cfg, ctx) && Tells(after, cfg, Augment(ctx))
    ensures VerdictOf(cfg.unitSlack, DefaultPipeline(cfg), ctx).author ==
            Some(FirstOf(Early(), before, FirstOf(Late(), after, FinalFallback)))
  {
    DefaultOrderInParts();
    NamedInParts(cfg, Early(), Late(), ctx, before, after);
  }

  // ---- the check, and the stage ----

  /** A complete answer keeps its status exactly when it explains the whole change, within the tolerance
      and, on a freezer, one slack for every unit after the first; vision alone is not checked. */
  lemma CheckDemotesExactly(unitSlack: real, ctx: Context, r: JudgmentResult)
    requires r.status.Complete?
    ensures var c := Checked(unitSlack, ctx, r);
            var slack := if ctx.profile.weightIsDiscriminative then 0.0 else unitSlack;
            var further := if SumCount(r.products) == 0 then 0 else SumCount(r.products) - 1;
            && c.products == r.products && c.confidence == r.confidence
            && (c.status.Complete? || c.status.Partial?)
            && (c.status.Partial? <==>
                !ctx.visionOnly
                && Abs(SumWeight(r.products) - Abs(ctx.deltaWeight))
                   > ctx.profile.toleranceGrams + Times(further, slack))
            && c.reason == r.reason + if c.status.Partial? then [FullDeltaUnexplained] else []
  {
    assert r.reason + [] == r.reason;
  }

  /** The stage leaves, for every removal segment in order, the weight that was taken; nothing else changes. */
  lemma StageLeavesWeights(ctx: Context)
    requires RemovalsOf(ctx.segments) != []
    ensures var removals, seen := RemovalsOf(ctx.segments), Augment(ctx);
            && seen == ctx.(stageTargets := seen.stageTargets) && |seen.stageTargets| == |removals|
            && forall k :: 0 <= k < |removals| ==> seen.stageTargets[k] == -removals[k].deltaGrams > 0.0
  {
    FilterMembers(ctx.segments, TakesWeight);
    assert forall k :: 0 <= k < |RemovalsOf(ctx.segments)| ==> RemovalsOf(ctx.segments)[k] in RemovalsOf(ctx.segments);
  }

  // ---- who may respond at all ----

  function Always(ctx: Context): set<Strategy> {
    (if ctx.visionOnly then {VisionOnlyStrategy} else {}) + {FinalFallback}
  }

  function LightOnly(ctx: Context): set<Strategy> {
    if Abs(ctx.deltaWeight) < ctx.profile.minWeightChangeGrams then {MinWeightGate} else {}
  }

  /** On a freezer only strategies that keep the identity vision named, and only for removals. */
  function ReadyOnFreezer(ctx: Context): set<Strategy> {
    if ctx.deltaWeight < 0.0 then {FreezerVisionFirst, IdentityPartial, DetectedSingle} else {}
  }

  /** Elsewhere the searches by weight; guard and rescue of a single unit only for removals. */
  function ReadyByWeight(ctx: Context): set<Strategy> {
    {StrictWeight, SameProduct, RelaxedWeight, RelaxedIdentity}
    + (if ctx.deltaWeight < 0.0 then {SameWeightGuard, DetectedSingle} else {})
    + (if |RemovalsOf(ctx.segments)| >= 2 then {SegmentMatching} else {})
    + (if |ctx.stageTargets| >= 2 then {StageCountCombination(false)} else {})
    + (if forall c :: c in ctx.candidates ==> ByClass(ctx.active, c.classId).None? then {LoadcellOnly} else {})
  }

  function ReadySeen(ctx: Context): set<Strategy> {
    Always(ctx) + LightOnly(ctx)
    + if ctx.profile.weightIsDiscriminative then ReadyByWeight(ctx) else ReadyOnFreezer(ctx)
  }

  /** Without candidates. */
  function ReadyUnseen(ctx: Context): set<Strategy> {
    Always(ctx) + (if ctx.visionOnly then {} else {NoCandidateFallback})
    + if ctx.profile.weightIsDiscriminative && |ctx.stageTargets| >= 2
      then {StageCountCombination(true), StageCountCombination(false)} else {}
  }

  lemma WhoMayRespond(ctx: Context, s: Strategy)
    ensures Ready(s, ctx) <==> s in if ctx.candidates == [] then ReadyUnseen(ctx) else ReadySeen(ctx)
  {
    if ctx.candidates == [] {
      UnseenMayRespond(ctx, s);
    } else {
      SeenMayRespond(ctx, s);
    }
  }

  lemma UnseenMayRespond(ctx: Context, s: Strategy)
    requires ctx.candidates == []
    ensures Ready(s, ctx) <==> s in ReadyUnseen(ctx)
  {
  }

  lemma SeenMayRespond(ctx: Context, s: Strategy)
    requires ctx.candidates != []
    ensures Ready(s, ctx) <==> s in ReadySeen(ctx)
  {
    var general := s.VisionOnlyStrategy? || s.FinalFallback? || s.MinWeightGate?;
    if !general && ctx.profile.weightIsDiscriminative {
      ByWeightMayRespond(ctx, s);
    } else if !general {
      OnFreezerMayRespond(ctx, s);
    }
  }

  lemma ByWeightMayRespond(ctx: Context, s: Strategy)
    requires ctx.candidates != [] && ctx.profile.weightIsDiscriminative
    requires !s.VisionOnlyStrategy? && !s.FinalFallback? && !s.MinWeightGate?
    ensures Ready(s, ctx) <==> s in ReadyByWeight(ctx)
  {
  }

  lemma OnFreezerMayRespond(ctx: Context, s: Strategy)
    requires ctx.candidates != [] && !ctx.profile.weightIsDiscriminative
    requires !s.VisionOnlyStrategy? && !s.FinalFallback? && !s.MinWeightGate?
    ensures Ready(s, ctx) <==> s in ReadyOnFreezer(ctx)
  {
  }
}
