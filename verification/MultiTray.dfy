/** Simultaneous pulls from several trays: each tray event is judged on its own weight against the shared
    candidates, retried when its change looks contaminated or a sibling took its identity, and merged. */
module MultiTray {
  import opened Types
  import opened Sorting
  import opened Freezer
  import opened Strict
  import opened Strategies
  import opened Router
  import opened RouterTheorems
  import opened Loadcell
  import Ledger
  import StrategyTheorems

  datatype TrayConfig = TrayConfig(judge: JudgeConfig, retryGap: real)

  datatype TrayResult = TrayResult(event: ChannelEvent, judgment: JudgmentResult)

  function Verdict(cfg: TrayConfig, ctx: Context): JudgmentResult {
    VerdictOf(cfg.judge.unitSlack, DefaultPipeline(cfg.judge), ctx).result
  }

  predicate Bills(j: JudgmentResult) { j.status.Complete? && j.products != [] }

  predicate Names(j: JudgmentResult, cid: int) { exists pc :: pc in j.products && pc.product.classId == cid }

  predicate Overlap(a: JudgmentResult, b: JudgmentResult) {
    exists pc :: pc in a.products && Names(b, pc.product.classId)
  }

  // ---- the two retries ----

  /** The change does not match its own segments, so one of them is contaminated. */
  predicate LooksContaminated(cfg: TrayConfig, ctx: Context, j: JudgmentResult, segments: seq<WeightSegment>) {
    && !j.status.Complete? && !ctx.visionOnly && ctx.deltaWeight < 0.0 && segments != []
    && Total(segments) < 0.0 && Abs(ctx.deltaWeight - Total(segments)) > cfg.retryGap
  }

  function Retargeted(cfg: TrayConfig, ctx: Context, segments: seq<WeightSegment>): JudgmentResult {
    Verdict(cfg, ctx.(deltaWeight := Total(segments)))
  }

  function SegmentRetry(
      cfg: TrayConfig, ctx: Context, j: JudgmentResult, segments: seq<WeightSegment>): JudgmentResult {
    if !LooksContaminated(cfg, ctx, j, segments) then j
    else
      var retry := Retargeted(cfg, ctx, segments);
      if !Bills(retry) then j else retry.(reason := retry.reason + [Reason.SegmentTargetRetry])
  }

  function ForEvent(ctx: Context, e: ChannelEvent): Context {
    ctx.(deltaWeight := e.deltaGrams, segments := e.segments)
  }

  function JudgeOnce(cfg: TrayConfig, ctx: Context, e: ChannelEvent): JudgmentResult {
    SegmentRetry(cfg, ForEvent(ctx, e), Verdict(cfg, ForEvent(ctx, e)), e.segments)
  }

  function FirstPass(cfg: TrayConfig, ctx: Context, events: seq<ChannelEvent>): seq<TrayResult> {
    seq(|events|, i requires 0 <= i < |events| => TrayResult(events[i], JudgeOnce(cfg, ctx, events[i])))
  }

  /** Some sibling's complete judgement already billed the class. */
  predicate Consumed(rs: seq<TrayResult>, cid: int) {
    exists r :: r in rs && r.judgment.status.Complete? && Names(r.judgment, cid)
  }

  function Leftover(rs: seq<TrayResult>, candidates: seq<VisionCandidate>): seq<VisionCandidate> {
    Filter(candidates, (c: VisionCandidate) => !Consumed(rs, c.classId))
  }

  lemma LeftoverExact(rs: seq<TrayResult>, candidates: seq<VisionCandidate>)
    ensures forall c :: c in Leftover(rs, candidates) <==> c in candidates && !Consumed(rs, c.classId)
    ensures |Leftover(rs, candidates)| == |candidates| <==> forall c :: c in candidates ==> !Consumed(rs, c.classId)
  {
    FilterMembers(candidates, (c: VisionCandidate) => !Consumed(rs, c.classId));
    FilterDrops(candidates, (c: VisionCandidate) => !Consumed(rs, c.classId));
  }

  /** An unsettled event is judged again without the identities its siblings consumed. */
  function PoolRetry(cfg: TrayConfig, ctx: Context, rs: seq<TrayResult>, r: TrayResult): TrayResult {
    var pool := Leftover(rs, ctx.candidates);
    if !(r.judgment.status.Partial? || r.judgment.status.NoDetection?) || pool == [] || |pool| == |ctx.candidates|
      then r
    else
      var again := JudgeOnce(cfg, ctx.(candidates := pool), r.event);
      if !Bills(again) then r else r.(judgment := again.(reason := again.reason + [PoolExhaustion]))
  }

  function SecondPass(cfg: TrayConfig, ctx: Context, rs: seq<TrayResult>): seq<TrayResult> {
    seq(|rs|, i requires 0 <= i < |rs| => PoolRetry(cfg, ctx, rs, rs[i]))
  }

  // ---- what is billed ----

  predicate UnverifiedBill(r: TrayResult) { r.judgment.status.Partial? && r.judgment.products != [] }

  /** A partial may be billed unless it shares a class with a complete sibling or any other partial. */
  predicate PartialBillable(rs: seq<TrayResult>, k: nat)
    requires k < |rs|
  {
    && UnverifiedBill(rs[k])
    && forall i :: 0 <= i < |rs| && i != k && (Bills(rs[i].judgment) || UnverifiedBill(rs[i])) ==>
         !Overlap(rs[k].judgment, rs[i].judgment)
  }

  function CompleteOnes(rs: seq<TrayResult>): seq<TrayResult> { Filter(rs, (r: TrayResult) => Bills(r.judgment)) }

  /** The billable partials among the first `n`, in order. */
  function PartialOnes(rs: seq<TrayResult>, n: nat): seq<TrayResult>
    requires n <= |rs|
  {
    if n == 0 then [] else PartialOnes(rs, n - 1) + if PartialBillable(rs, n - 1) then [rs[n - 1]] else []
  }

  function BillableOnes(rs: seq<TrayResult>): seq<TrayResult> { CompleteOnes(rs) + PartialOnes(rs, |rs|) }

  function MergedLines(rs: seq<TrayResult>): seq<ProductCount> {
    if rs == [] then [] else AddLines(MergedLines(rs[..|rs| - 1]), rs[|rs| - 1].judgment.products)
  }

  function LeastConf(rs: seq<TrayResult>): real
    requires rs != []
  {
    if |rs| == 1 then rs[0].judgment.confidence else RMin(rs[0].judgment.confidence, LeastConf(rs[1..]))
  }

  function AllReasons(rs: seq<TrayResult>): seq<Reason> {
    if rs == [] then [] else rs[0].judgment.reason + AllReasons(rs[1..])
  }

  function MergeTrays(rs: seq<TrayResult>): JudgmentResult {
    var billable := BillableOnes(rs);
    var lines := MergedLines(billable);
    if |CompleteOnes(rs)| == |rs| then
      JudgmentResult(JudgmentStatus.Complete, lines, if rs == [] then 0.0 else LeastConf(rs), AllReasons(rs))
    else if billable != [] then JudgmentResult(Partial, lines, LeastConf(billable), AllReasons(rs))
    else JudgmentResult(NoDetection, lines, 0.0, AllReasons(rs))
  }

  function JudgeTrays(cfg: TrayConfig, ctx: Context, events: seq<ChannelEvent>): JudgmentResult {
    MergeTrays(SecondPass(cfg, ctx, FirstPass(cfg, ctx, events)))
  }

  // ---- retries never worsen ----

  /** The segment retry keeps the judgement or replaces it with a complete one, sound for the weight of the segments. */
  lemma SegmentRetryNeverWorsens(
      cfg: TrayConfig, ctx: Context, j: JudgmentResult, segments: seq<WeightSegment>)
    ensures var r := SegmentRetry(cfg, ctx, j, segments);
            || r == j
            || (!j.status.Complete? && Bills(r) && SoundVerdict(cfg.judge, ctx.(deltaWeight := Total(segments)), r))
  {
    var target := ctx.(deltaWeight := Total(segments));
    DefaultPipelineSound(cfg.judge, target);
    var retry := Retargeted(cfg, ctx, segments);
    assert Billable(target, retry) ==> Billable(target, retry.(reason := retry.reason + [Reason.SegmentTargetRetry]));
  }

  /** Judged on its own weight or on that of its segments, only what may be billed is billed. */
  lemma JudgeOnceBillable(cfg: TrayConfig, ctx: Context, e: ChannelEvent)
    ensures Billable(ForEvent(ctx, e), JudgeOnce(cfg, ctx, e))
  {
    var ectx := ForEvent(ctx, e);
    DefaultPipelineSound(cfg.judge, ectx);
    SegmentRetryNeverWorsens(cfg, ectx, Verdict(cfg, ectx), e.segments);
    var r := JudgeOnce(cfg, ctx, e);
    if r != Verdict(cfg, ectx) {
      assert Billable(ectx.(deltaWeight := Total(e.segments)), r);
    }
  }

  /** The pool retry keeps the result or replaces it with a complete one; where weight does not
      discriminate, one that names no class a sibling consumed. */
  lemma PoolRetryNeverWorsens(cfg: TrayConfig, ctx: Context, rs: seq<TrayResult>, r: TrayResult)
    ensures var again := PoolRetry(cfg, ctx, rs, r);
            && again.event == r.event
            && (again == r
                || (!r.judgment.status.Complete? && Bills(again.judgment)
                    && (!ctx.profile.weightIsDiscriminative ==>
                          forall pc :: pc in again.judgment.products ==> !Consumed(rs, pc.product.classId))))
  {
    var pool := Leftover(rs, ctx.candidates);
    var pctx := ctx.(candidates := pool);
    JudgeOnceBillable(cfg, pctx, r.event);
    LeftoverExact(rs, ctx.candidates);
    var again := PoolRetry(cfg, ctx, rs, r);
    if again != r && !ctx.profile.weightIsDiscriminative {
      forall pc | pc in again.judgment.products ensures !Consumed(rs, pc.product.classId) {
        assert Seen(ForEvent(pctx, r.event).candidates, pc.product.classId);
      }
    }
  }

  // ---- the merge ----

  function UnitsOver(rs: seq<TrayResult>, id: ProductId): nat {
    if rs == [] then 0 else UnitsOver(rs[..|rs| - 1], id) + Ledger.Billed(rs[|rs| - 1].judgment.products, id)
  }

  /** Merging neither loses nor invents units: each product is billed exactly what the billable events bill of it. */
  lemma {:induction false} MergeConserves(rs: seq<TrayResult>, id: ProductId)
    ensures Ledger.Billed(MergedLines(rs), id) == UnitsOver(rs, id)
  {
    if rs != [] {
      var n := |rs| - 1;
      MergeConserves(rs[..n], id);
      StrategyTheorems.AddLinesBill(MergedLines(rs[..n]), rs[n].judgment.products, id);
    }
  }

  ghost predicate HasId(lines: seq<ProductCount>, id: ProductId) {
    exists pc :: pc in lines && pc.product.productId == id
  }

  /** No product is listed twice. */
  ghost predicate Unique(lines: seq<ProductCount>) {
    lines == [] || (!HasId(lines[1..], lines[0].product.productId) && Unique(lines[1..]))
  }

  lemma {:induction false} AddLineUnique(lines: seq<ProductCount>, pc: ProductCount)
    requires Unique(lines)
    ensures Unique(AddLine(lines, pc))
    ensures forall id :: HasId(AddLine(lines, pc), id) ==> id == pc.product.productId || HasId(lines, id)
  {
    if lines == [] {
      assert [pc][1..] == [];
    } else {
      assert lines == [lines[0]] + lines[1..];
      if lines[0].product.productId == pc.product.productId {
        var r := [ProductCount(pc.product, lines[0].count + pc.count)] + lines[1..];
        assert r[1..] == lines[1..];
        assert forall id :: HasId(lines[1..], id) ==> HasId(lines, id);
      } else {
        AddLineUnique(lines[1..], pc);
        var r := [lines[0]] + AddLine(lines[1..], pc);
        assert r[1..] == AddLine(lines[1..], pc);
        assert HasId(lines, lines[0].product.productId) by { assert lines[0] in lines; }
        assert forall id :: HasId(lines[1..], id) ==> HasId(lines, id);
      }
    }
  }

  lemma {:induction false} AddLinesUnique(lines: seq<ProductCount>, pcs: seq<ProductCount>)
    requires Unique(lines)
    ensures Unique(AddLines(lines, pcs))
    decreases |pcs|
  {
    if pcs != [] {
      AddLineUnique(lines, pcs[0]);
      AddLinesUnique(AddLine(lines, pcs[0]), pcs[1..]);
    }
  }

  lemma {:induction false} MergedUnique(rs: seq<TrayResult>)
    ensures Unique(MergedLines(rs))
  {
    if rs != [] {
      MergedUnique(rs[..|rs| - 1]);
      AddLinesUnique(MergedLines(rs[..|rs| - 1]), rs[|rs| - 1].judgment.products);
    }
  }

  lemma {:induction false} PartialOnesMember(rs: seq<TrayResult>, n: nat, r: TrayResult)
    requires n <= |rs|
    ensures r in PartialOnes(rs, n) <==> exists k :: 0 <= k < n && rs[k] == r && PartialBillable(rs, k)
  {
    if n > 0 {
      PartialOnesMember(rs, n - 1, r);
    }
  }

  lemma CompleteExact(rs: seq<TrayResult>)
    ensures |CompleteOnes(rs)| == |rs| <==> forall r :: r in rs ==> Bills(r.judgment)
    ensures forall r :: r in CompleteOnes(rs) <==> r in rs && Bills(r.judgment)
  {
    FilterDrops(rs, (r: TrayResult) => Bills(r.judgment));
    FilterMembers(rs, (r: TrayResult) => Bills(r.judgment));
  }

  /** The merged judgement: complete exactly when every tray is; it bills each product once, in exactly the
      units of the billable events; nothing is billed exactly when no event is billable; and a billed
      partial shares no class with a complete sibling or with any other partial. */
  lemma MergeIsFair(rs: seq<TrayResult>, id: ProductId)
    ensures var m := MergeTrays(rs);
            && (m.status.Complete? <==> forall r :: r in rs ==> Bills(r.judgment))
            && Unique(m.products) && Ledger.Billed(m.products, id) == UnitsOver(BillableOnes(rs), id)
            && (m.status.NoDetection? ==> m.products == [])
    ensures forall r :: r in PartialOnes(rs, |rs|) ==>
              exists k :: 0 <= k < |rs| && rs[k] == r && UnverifiedBill(r)
                && forall i :: 0 <= i < |rs| && i != k && (Bills(rs[i].judgment) || UnverifiedBill(rs[i])) ==>
                     !Overlap(r.judgment, rs[i].judgment)
  {
    CompleteExact(rs);
    MergedUnique(BillableOnes(rs));
    MergeConserves(BillableOnes(rs), id);
    forall r | r in PartialOnes(rs, |rs|)
      ensures exists k :: 0 <= k < |rs| && rs[k] == r && UnverifiedBill(r)
                && forall i :: 0 <= i < |rs| && i != k && (Bills(rs[i].judgment) || UnverifiedBill(rs[i])) ==>
                     !Overlap(r.judgment, rs[i].judgment)
    {
      PartialOnesMember(rs, |rs|, r);
      var k :| 0 <= k < |rs| && rs[k] == r && PartialBillable(rs, k);
    }
  }

  // ---- the loops ----

  ghost predicate Routes(router: JudgmentRouter, cfg: TrayConfig)
    reads router
  {
    router.Valid() && router.pipeline == DefaultPipeline(cfg.judge) && router.unitSlack == cfg.judge.unitSlack
  }

  method Judge(cfg: TrayConfig, ctx: Context, router: JudgmentRouter) returns (j: JudgmentResult)
    requires Routes(router, cfg)
    modifies router
    ensures Routes(router, cfg) && j == Verdict(cfg, ctx)
  {
    var author: Option<Strategy>;
    j, author := router.Judge(ctx);
  }

  method RetrySegments(
      cfg: TrayConfig, ctx: Context, j: JudgmentResult, segments: seq<WeightSegment>, router: JudgmentRouter)
    returns (r: JudgmentResult)
    requires Routes(router, cfg)
    modifies router
    ensures Routes(router, cfg) && r == SegmentRetry(cfg, ctx, j, segments)
  {
    if !LooksContaminated(cfg, ctx, j, segments) {
      return j;
    }
    var retry := Judge(cfg, ctx.(deltaWeight := Total(segments)), router);
    if !Bills(retry) {
      return j;
    }
    return retry.(reason := retry.reason + [Reason.SegmentTargetRetry]);
  }

  method JudgeEvent(cfg: TrayConfig, ctx: Context, e: ChannelEvent, router: JudgmentRouter) returns (j: JudgmentResult)
    requires Routes(router, cfg)
    modifies router
    ensures Routes(router, cfg) && j == JudgeOnce(cfg, ctx, e)
  {
    j := Judge(cfg, ForEvent(ctx, e), router);
    j := RetrySegments(cfg, ForEvent(ctx, e), j, e.segments, router);
  }

  method RetryPool(
      cfg: TrayConfig, ctx: Context, rs: seq<TrayResult>, router: JudgmentRouter) returns (out: seq<TrayResult>)
    requires Routes(router, cfg)
    modifies router
    ensures Routes(router, cfg) && out == SecondPass(cfg, ctx, rs)
  {
    out := [];
    var pool := Leftover(rs, ctx.candidates);
    for i := 0 to |rs|
      invariant Routes(router, cfg) && out == SecondPass(cfg, ctx, rs)[..i]
    {
      var r := rs[i];
      var status := r.judgment.status;
      if (status.Partial? || status.NoDetection?) && pool != [] && |pool| != |ctx.candidates| {
        var again := JudgeEvent(cfg, ctx.(candidates := pool), r.event, router);
        if Bills(again) {
          r := r.(judgment := again.(reason := again.reason + [PoolExhaustion]));
        }
      }
      out := out + [r];
    }
  }

  method MergeLoop(rs: seq<TrayResult>) returns (lines: seq<ProductCount>)
    ensures lines == MergedLines(rs)
  {
    lines := [];
    for i := 0 to |rs|
      invariant lines == MergedLines(rs[..i])
    {
      var pcs := rs[i].judgment.products;
      assert rs[..i + 1][..i] == rs[..i];
      ghost var goal := AddLines(lines, pcs);
      for k := 0 to |pcs|
        invariant AddLines(lines, pcs[k..]) == goal
      {
        assert pcs[k..][1..] == pcs[k + 1..];
        lines := AddLine(lines, pcs[k]);
      }
    }
    assert rs[..|rs|] == rs;
  }

  method JudgeTrayEvents(cfg: TrayConfig, ctx: Context, events: seq<ChannelEvent>, router: JudgmentRouter)
    returns (j: JudgmentResult)
    requires Routes(router, cfg)
    modifies router
    ensures Routes(router, cfg) && j == JudgeTrays(cfg, ctx, events)
  {
    var first: seq<TrayResult> := [];
    for i := 0 to |events|
      invariant Routes(router, cfg) && first == FirstPass(cfg, ctx, events)[..i]
    {
      var once := JudgeEvent(cfg, ctx, events[i], router);
      first := first + [TrayResult(events[i], once)];
    }
    assert first == FirstPass(cfg, ctx, events);
    var rs := RetryPool(cfg, ctx, first, router);
    var complete := CompleteOnes(rs);
    var partials: seq<TrayResult> := [];
    for i := 0 to |rs|
      invariant partials == PartialOnes(rs, i)
    {
      if PartialBillable(rs, i) {
        partials := partials + [rs[i]];
      }
    }
    var billable := complete + partials;
    var lines := MergeLoop(billable);
    if |complete| == |rs| {
      j := JudgmentResult(JudgmentStatus.Complete, lines, if rs == [] then 0.0 else LeastConf(rs), AllReasons(rs));
    } else if billable != [] {
      j := JudgmentResult(Partial, lines, LeastConf(billable), AllReasons(rs));
    } else {
      j := JudgmentResult(NoDetection, lines, 0.0, AllReasons(rs));
    }
  }
}
