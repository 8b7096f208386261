/** What the retries of a multi-tray judgement must do, and what exactly the merge bills. */
module MultiTrayDecides {
  import opened Types
  import opened Sorting
  import opened Freezer
  import opened Loadcell
  import opened MultiTray
  import Ledger

  // ---- retries ----

  predicate Confirmed(j: JudgmentResult) { j.status.Complete? && j.products != [] }

  /** The judgement with one more reason. */
  predicate TakenOver(again: JudgmentResult, reason: Reason, j: JudgmentResult) {
    && j.status == again.status && j.products == again.products && j.confidence == again.confidence
    && j.reason == again.reason + [reason]
  }

  /** A removal not confirmed by its own weight, whose segments add up to a removal too, but to another one. */
  predicate Suspicious(cfg: TrayConfig, ctx: Context, j: JudgmentResult, segments: seq<WeightSegment>) {
    && !j.status.Complete? && !ctx.visionOnly && segments != []
    && ctx.deltaWeight < 0.0 && Total(segments) < 0.0
    && (ctx.deltaWeight - Total(segments) > cfg.retryGap || Total(segments) - ctx.deltaWeight > cfg.retryGap)
  }

  /** A suspicious removal is judged on the weight of its segments, and takes that judgement exactly when it
      is complete. */
  lemma SegmentRetryDecides(cfg: TrayConfig, ctx: Context, j: JudgmentResult, segments: seq<WeightSegment>)
    ensures var again := Verdict(cfg, ctx.(deltaWeight := Total(segments)));
            var r := SegmentRetry(cfg, ctx, j, segments);
            if Suspicious(cfg, ctx, j, segments) && Confirmed(again) then TakenOver(again, Reason.SegmentTargetRetry, r)
            else r == j
  {
  }

  /** The outcome for one tray on its own: the router's answer to its own weight and segments, or that to
      the weight of its segments. */
  ghost predicate OwnJudgement(cfg: TrayConfig, ctx: Context, e: ChannelEvent, j: JudgmentResult) {
    var own := ctx.(deltaWeight := e.deltaGrams, segments := e.segments);
    var again := Verdict(cfg, own.(deltaWeight := Total(e.segments)));
    if Suspicious(cfg, own, Verdict(cfg, own), e.segments) && Confirmed(again)
    then TakenOver(again, Reason.SegmentTargetRetry, j)
    else j == Verdict(cfg, own)
  }

  lemma JudgeOnceDecides(cfg: TrayConfig, ctx: Context, e: ChannelEvent)
    ensures OwnJudgement(cfg, ctx, e, JudgeOnce(cfg, ctx, e))
  {
    SegmentRetryDecides(cfg, ForEvent(ctx, e), Verdict(cfg, ForEvent(ctx, e)), e.segments);
  }

  ghost predicate Taken(rs: seq<TrayResult>, cid: int) {
    exists i, k :: 0 <= i < |rs| && rs[i].judgment.status.Complete? && 0 <= k < |rs[i].judgment.products|
                   && rs[i].judgment.products[k].product.classId == cid
  }

  lemma TakenIsConsumed(rs: seq<TrayResult>, cid: int)
    ensures Taken(rs, cid) <==> Consumed(rs, cid)
  {
    if r :| r in rs && r.judgment.status.Complete? && Names(r.judgment, cid) {
      var i :| 0 <= i < |rs| && rs[i] == r;
      var pc :| pc in r.judgment.products && pc.product.classId == cid;
      var k :| 0 <= k < |r.judgment.products| && r.judgment.products[k] == pc;
      assert rs[i].judgment.products[k].product.classId == cid;
    }
    if i, k :| 0 <= i < |rs| && rs[i].judgment.status.Complete? && 0 <= k < |rs[i].judgment.products|
               && rs[i].judgment.products[k].product.classId == cid {
      assert rs[i] in rs && rs[i].judgment.products[k] in rs[i].judgment.products;
    }
  }

  /** An unsettled tray is judged again when siblings have taken some candidates and left others. */
  ghost predicate Reconsidered(ctx: Context, rs: seq<TrayResult>, r: TrayResult) {
    && (r.judgment.status.Partial? || r.judgment.status.NoDetection?)
    && (exists c :: c in ctx.candidates && Taken(rs, c.classId))
    && (exists c :: c in ctx.candidates && !Taken(rs, c.classId))
  }

  lemma LeftIsNotTaken(rs: seq<TrayResult>, candidates: seq<VisionCandidate>)
    ensures forall c :: c in Leftover(rs, candidates) <==> c in candidates && !Taken(rs, c.classId)
    ensures |Leftover(rs, candidates)| == |candidates| <==> forall c :: c in candidates ==> !Taken(rs, c.classId)
    ensures Leftover(rs, candidates) == [] <==> forall c :: c in candidates ==> Taken(rs, c.classId)
  {
    forall cid ensures Taken(rs, cid) <==> Consumed(rs, cid) {
      TakenIsConsumed(rs, cid);
    }
    LeftoverExact(rs, candidates);
    if Leftover(rs, candidates) != [] {
      assert Leftover(rs, candidates)[0] in Leftover(rs, candidates);
    }
  }

  /** It is judged on the candidates left, and takes that judgement exactly when it is complete. */
  lemma PoolRetryDecides(cfg: TrayConfig, ctx: Context, rs: seq<TrayResult>, r: TrayResult, again: JudgmentResult)
    requires again == JudgeOnce(cfg, ctx.(candidates := Leftover(rs, ctx.candidates)), r.event)
    ensures forall c :: c in Leftover(rs, ctx.candidates) <==> c in ctx.candidates && !Taken(rs, c.classId)
    ensures var out := PoolRetry(cfg, ctx, rs, r);
            && out.event == r.event
            && if Reconsidered(ctx, rs, r) && Confirmed(again) then TakenOver(again, PoolExhaustion, out.judgment)
               else out == r
  {
    LeftIsNotTaken(rs, ctx.candidates);
  }

  // ---- the merge ----

  predicate MayBill(r: TrayResult) { Confirmed(r.judgment) || UnverifiedBill(r) }

  /** A tray is billed when it is confirmed, or when it is an unverified bill sharing no class with any
      other bill. */
  ghost predicate BilledAt(rs: seq<TrayResult>, k: nat)
    requires k < |rs|
  {
    || Confirmed(rs[k].judgment)
    || (UnverifiedBill(rs[k])
        && forall i :: 0 <= i < |rs| && i != k && MayBill(rs[i]) ==> !Overlap(rs[k].judgment, rs[i].judgment))
  }

  /** Units of a product in the first `n` trays that are billed. */
  ghost function UnitsBilled(rs: seq<TrayResult>, n: nat, id: ProductId): nat
    requires n <= |rs|
  {
    if n == 0 then 0
    else UnitsBilled(rs, n - 1, id) + if BilledAt(rs, n - 1) then Ledger.Billed(rs[n - 1].judgment.products, id) else 0
  }

  lemma {:induction false} UnitsOverConcat(a: seq<TrayResult>, b: seq<TrayResult>, id: ProductId)
    ensures UnitsOver(a + b, id) == UnitsOver(a, id) + UnitsOver(b, id)
  {
    if b == [] {
      assert a + b == a;
    } else {
      var n := |b| - 1;
      assert (a + b)[..|a + b| - 1] == a + b[..n];
      UnitsOverConcat(a, b[..n], id);
    }
  }

  lemma UnitsOverSnoc(a: seq<TrayResult>, r: TrayResult, id: ProductId)
    ensures UnitsOver(a + [r], id) == UnitsOver(a, id) + Ledger.Billed(r.judgment.products, id)
  {
    assert (a + [r])[..|a|] == a;
  }

  lemma CompleteSnoc(rs: seq<TrayResult>, n: nat)
    requires n < |rs|
    ensures CompleteOnes(rs[..n + 1]) == CompleteOnes(rs[..n]) + if Confirmed(rs[n].judgment) then [rs[n]] else []
  {
    assert rs[..n + 1] == rs[..n] + [rs[n]];
    FilterConcat(rs[..n], [rs[n]], (r: TrayResult) => Bills(r.judgment));
    assert [rs[n]][1..] == [];
  }

  function Counted(j: JudgmentResult, counts: bool, id: ProductId): nat {
    if counts then Ledger.Billed(j.products, id) else 0
  }

  lemma CompleteUnits(rs: seq<TrayResult>, n: nat, id: ProductId)
    requires n < |rs|
    ensures UnitsOver(CompleteOnes(rs[..n + 1]), id) ==
            UnitsOver(CompleteOnes(rs[..n]), id) + Counted(rs[n].judgment, Confirmed(rs[n].judgment), id)
  {
    CompleteSnoc(rs, n);
    UnitsOverSnoc(CompleteOnes(rs[..n]), rs[n], id);
    assert CompleteOnes(rs[..n]) + [] == CompleteOnes(rs[..n]);
  }

  lemma PartialUnits(rs: seq<TrayResult>, n: nat, id: ProductId)
    requires n < |rs|
    ensures UnitsOver(PartialOnes(rs, n + 1), id) ==
            UnitsOver(PartialOnes(rs, n), id) + Counted(rs[n].judgment, PartialBillable(rs, n), id)
  {
    UnitsOverSnoc(PartialOnes(rs, n), rs[n], id);
    assert PartialOnes(rs, n) + [] == PartialOnes(rs, n);
  }

  lemma {:induction false} BillableUnits(rs: seq<TrayResult>, n: nat, id: ProductId)
    requires n <= |rs|
    ensures UnitsOver(CompleteOnes(rs[..n]), id) + UnitsOver(PartialOnes(rs, n), id) == UnitsBilled(rs, n, id)
  {
    if n > 0 {
      BillableUnits(rs, n - 1, id);
      CompleteUnits(rs, n - 1, id);
      PartialUnits(rs, n - 1, id);
      assert BilledAt(rs, n - 1) <==> Confirmed(rs[n - 1].judgment) || PartialBillable(rs, n - 1);
    }
  }

  lemma BillableMembers(rs: seq<TrayResult>, r: TrayResult)
    ensures r in BillableOnes(rs) <==> exists k :: 0 <= k < |rs| && rs[k] == r && BilledAt(rs, k)
  {
    CompleteExact(rs);
    PartialOnesMember(rs, |rs|, r);
    if k :| 0 <= k < |rs| && rs[k] == r && BilledAt(rs, k) {
      assert rs[k] in rs;
      assert Bills(r.judgment) || PartialBillable(rs, k);
    }
  }

  lemma {:induction false} LeastConfIsLeast(rs: seq<TrayResult>)
    requires rs != []
    ensures forall r :: r in rs ==> LeastConf(rs) <= r.judgment.confidence
    ensures exists r :: r in rs && r.judgment.confidence == LeastConf(rs)
  {
    assert rs == [rs[0]] + rs[1..];
    if |rs| > 1 {
      LeastConfIsLeast(rs[1..]);
    }
  }

  lemma BilledMembers(rs: seq<TrayResult>)
    ensures forall k :: 0 <= k < |rs| && BilledAt(rs, k) ==> rs[k] in BillableOnes(rs)
    ensures forall r :: r in BillableOnes(rs) ==> exists k :: 0 <= k < |rs| && rs[k] == r && BilledAt(rs, k)
  {
    forall k | 0 <= k < |rs| && BilledAt(rs, k) ensures rs[k] in BillableOnes(rs) {
      BillableMembers(rs, rs[k]);
    }
    forall r | r in BillableOnes(rs) ensures exists k :: 0 <= k < |rs| && rs[k] == r && BilledAt(rs, k) {
      BillableMembers(rs, r);
    }
  }

  lemma MergeBills(rs: seq<TrayResult>, id: ProductId)
    ensures Ledger.Billed(MergeTrays(rs).products, id) == UnitsBilled(rs, |rs|, id)
  {
    MergeConserves(BillableOnes(rs), id);
    UnitsOverConcat(CompleteOnes(rs), PartialOnes(rs, |rs|), id);
    assert rs[..|rs|] == rs;
    BillableUnits(rs, |rs|, id);
  }

  ghost predicate AllConfirmed(rs: seq<TrayResult>) { forall k :: 0 <= k < |rs| ==> Confirmed(rs[k].judgment) }

  ghost predicate SomeBilled(rs: seq<TrayResult>) { exists k :: 0 <= k < |rs| && BilledAt(rs, k) }

  lemma StatusOfMerge(rs: seq<TrayResult>)
    requires rs != []
    ensures |CompleteOnes(rs)| == |rs| <==> AllConfirmed(rs)
    ensures BillableOnes(rs) != [] <==> SomeBilled(rs)
    ensures AllConfirmed(rs) ==> SomeBilled(rs)
  {
    CompleteExact(rs);
    BilledMembers(rs);
    if BillableOnes(rs) != [] {
      assert BillableOnes(rs)[0] in BillableOnes(rs);
    }
    if AllConfirmed(rs) {
      assert BilledAt(rs, 0);
    }
  }

  /** As sure as the least sure tray it bills. */
  ghost predicate LeastSure(rs: seq<TrayResult>, conf: real) {
    && (forall k :: 0 <= k < |rs| && BilledAt(rs, k) ==> conf <= rs[k].judgment.confidence)
    && exists k :: 0 <= k < |rs| && BilledAt(rs, k) && rs[k].judgment.confidence == conf
  }

  lemma BilledIsLeastSure(rs: seq<TrayResult>)
    requires BillableOnes(rs) != []
    ensures LeastSure(rs, LeastConf(BillableOnes(rs)))
  {
    LeastConfIsLeast(BillableOnes(rs));
    BilledMembers(rs);
  }

  lemma AllIsLeastSure(rs: seq<TrayResult>)
    requires rs != [] && AllConfirmed(rs)
    ensures LeastSure(rs, LeastConf(rs))
  {
    LeastConfIsLeast(rs);
    var r :| r in rs && r.judgment.confidence == LeastConf(rs);
    var k :| 0 <= k < |rs| && rs[k] == r;
    assert BilledAt(rs, k);
  }

  /** The merged judgement bills exactly the units of the billed trays; it is complete when every tray is
      confirmed, else partial when some tray is billed, else nothing; and it is as sure as the least sure
      tray it bills. */
  lemma MergeDecides(rs: seq<TrayResult>, id: ProductId)
    requires rs != []
    ensures var m := MergeTrays(rs);
            && Ledger.Billed(m.products, id) == UnitsBilled(rs, |rs|, id)
            && m.status == (if AllConfirmed(rs) then JudgmentStatus.Complete else if SomeBilled(rs) then Partial
                            else NoDetection)
            && if m.status.NoDetection? then m.confidence == 0.0 else LeastSure(rs, m.confidence)
  {
    MergeBills(rs, id);
    StatusOfMerge(rs);
    if AllConfirmed(rs) {
      AllIsLeastSure(rs);
    } else if SomeBilled(rs) {
      BilledIsLeastSure(rs);
    }
  }

  /** What the second pass makes of a tray, given the first judgements of all. */
  ghost predicate Reconsiders(cfg: TrayConfig, ctx: Context, rs: seq<TrayResult>, r: TrayResult, out: TrayResult) {
    exists left, again ::
      && (forall c :: c in left <==> c in ctx.candidates && !Taken(rs, c.classId))
      && OwnJudgement(cfg, ctx.(candidates := left), r.event, again) && out.event == r.event
      && if Reconsidered(ctx, rs, r) && Confirmed(again) then TakenOver(again, PoolExhaustion, out.judgment)
         else out == r
  }

  /** The whole judgement: every tray on its own, then the unsettled ones reconsidered, then the merge. */
  lemma TraysDecide(cfg: TrayConfig, ctx: Context, events: seq<ChannelEvent>)
    returns (first: seq<TrayResult>, second: seq<TrayResult>)
    ensures |first| == |events| == |second| && JudgeTrays(cfg, ctx, events) == MergeTrays(second)
    ensures forall i :: 0 <= i < |events| ==>
              first[i].event == events[i] && OwnJudgement(cfg, ctx, events[i], first[i].judgment)
    ensures forall i :: 0 <= i < |events| ==> Reconsiders(cfg, ctx, first, first[i], second[i])
  {
    first := FirstPass(cfg, ctx, events);
    second := SecondPass(cfg, ctx, first);
    forall i | 0 <= i < |events|
      ensures OwnJudgement(cfg, ctx, events[i], first[i].judgment)
      ensures Reconsiders(cfg, ctx, first, first[i], second[i])
    {
      var left := Leftover(first, ctx.candidates);
      var again := JudgeOnce(cfg, ctx.(candidates := left), first[i].event);
      JudgeOnceDecides(cfg, ctx, events[i]);
      JudgeOnceDecides(cfg, ctx.(candidates := left), events[i]);
      PoolRetryDecides(cfg, ctx, first, first[i], again);
    }
  }
}
