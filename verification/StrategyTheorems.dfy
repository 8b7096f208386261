/** Which answer each strategy gives, and exactly when it gives one, in terms of what is on sale, what was
    seen and what the scale measured. */
module StrategyTheorems {
  import opened Types
  import opened Sorting
  import opened Combos
  import opened Freezer
  import opened FreezerTheorems
  import opened FreezerDecides
  import opened Strict
  import opened Strategies
  import opened RouterTheorems
  import opened NearestCount
  import Ledger

  // ---- the product a class stands for ----

  predicate Stands(p: ActiveProduct, cid: int) { p.classId == cid && p.stockQty > 0 && cid > 0 }

  /** The last product in stock listed with the class. */
  ghost predicate LastOfClass(active: seq<ActiveProduct>, cid: int, p: ActiveProduct) {
    exists k :: 0 <= k < |active| && active[k] == p && Stands(p, cid)
                && forall j :: k < j < |active| ==> !Stands(active[j], cid)
  }

  lemma {:induction false} ByClassIsLast(active: seq<ActiveProduct>, cid: int)
    ensures match ByClass(active, cid)
            case None => forall p :: p in active ==> !Stands(p, cid)
            case Some(p) => LastOfClass(active, cid, p)
  {
    if active != [] {
      ByClassIsLast(active[1..], cid);
      assert active == [active[0]] + active[1..];
      var later := ByClass(active[1..], cid);
      if later.Some? {
        var k :| 0 <= k < |active[1..]| && active[1..][k] == later.value
                 && forall j :: k < j < |active[1..]| ==> !Stands(active[1..][j], cid);
        assert active[k + 1] == later.value;
        assert forall j :: k + 1 < j < |active| ==> active[j] == active[1..][j - 1];
      } else if ByClass(active, cid).Some? {
        assert forall j :: 0 < j < |active| ==> active[j] in active[1..];
      }
    }
  }

  // ---- the best ranked candidate of a kind ----

  /** A candidate of the kind, and none of the kind has more votes, or as many and more confidence. */
  ghost predicate BestRanked(candidates: seq<VisionCandidate>, kind: VisionCandidate -> bool, c: VisionCandidate) {
    c in candidates && kind(c) && forall d :: d in candidates && kind(d) ==> !Louder(d, c)
  }

  lemma RankedInOrder(candidates: seq<VisionCandidate>, i: nat, j: nat)
    requires i <= j < |Ranked(candidates)|
    ensures !Louder(Ranked(candidates)[j], Ranked(candidates)[i])
  {
    StableSortSorts(candidates, RanksBefore);
  }

  /** The first of the kind in rank order. */
  lemma FirstIsBest(candidates: seq<VisionCandidate>, kind: VisionCandidate -> bool, k: nat)
    requires k < |Ranked(candidates)| && kind(Ranked(candidates)[k])
    requires forall i :: 0 <= i < k ==> !kind(Ranked(candidates)[i])
    ensures BestRanked(candidates, kind, Ranked(candidates)[k])
  {
    var ranked := Ranked(candidates);
    SortMembers(candidates, RanksBefore);
    assert ranked[k] in ranked;
    forall d | d in candidates && kind(d) ensures !Louder(d, ranked[k]) {
      var j :| 0 <= j < |ranked| && ranked[j] == d;
      RankedInOrder(candidates, k, j);
    }
  }

  lemma NoneOfKind(candidates: seq<VisionCandidate>, kind: VisionCandidate -> bool)
    requires forall i :: 0 <= i < |Ranked(candidates)| ==> !kind(Ranked(candidates)[i])
    ensures forall c :: c in candidates ==> !kind(c)
  {
    SortMembers(candidates, RanksBefore);
    forall c | c in candidates ensures !kind(c) {
      var i :| 0 <= i < |Ranked(candidates)| && Ranked(candidates)[i] == c;
    }
  }

  lemma FirstOfKind<T>(xs: seq<T>, kind: T -> bool) returns (k: nat)
    ensures k <= |xs| && (forall i :: 0 <= i < k ==> !kind(xs[i])) && (k < |xs| ==> kind(xs[k]))
  {
    k := 0;
    while k < |xs| && !kind(xs[k])
      invariant k <= |xs| && forall i :: 0 <= i < k ==> !kind(xs[i])
    {
      k := k + 1;
    }
  }

  // ---- what the freezer strategy starts from ----

  /** A candidate that was seen, with the product its class stands for, if that has a weight. */
  ghost predicate Represents(ctx: Context, x: Ident) {
    x.cand in ctx.candidates && LastOfClass(ctx.active, x.cand.classId, x.product) && x.product.unitWeight > 0.0
  }

  lemma LastOfClassIsUnique(active: seq<ActiveProduct>, cid: int, p: ActiveProduct)
    requires LastOfClass(active, cid, p)
    ensures ByClass(active, cid) == Some(p)
  {
    ByClassIsLast(active, cid);
    var k :| 0 <= k < |active| && active[k] == p && Stands(p, cid)
             && forall j :: k < j < |active| ==> !Stands(active[j], cid);
  }

  lemma {:induction false} IdentsOfExactly(active: seq<ActiveProduct>, ranked: seq<VisionCandidate>)
    requires forall i, j :: 0 <= i < j < |ranked| ==> !Louder(ranked[j], ranked[i])
    ensures var all := IdentsOf(active, ranked);
            && (forall x :: x in all <==> x.cand in ranked && ByClass(active, x.cand.classId) == Some(x.product)
                                          && x.product.unitWeight > 0.0)
            && forall i, j :: 0 <= i < j < |all| ==> !Louder(all[j].cand, all[i].cand)
  {
    if ranked != [] {
      IdentsOfExactly(active, ranked[1..]);
      assert ranked == [ranked[0]] + ranked[1..];
      assert forall c :: c in ranked[1..] ==> !Louder(c, ranked[0]);
    }
  }

  /** The identities are the seen candidates with what they stand for, in rank order, as far as the pool goes. */
  lemma IdentitiesDecide(cfg: FreezerConfig, ctx: Context)
    ensures var all, ids := AllIdents(ctx), Identities(cfg, ctx);
            && (forall x :: x in all <==> Represents(ctx, x))
            && (forall i, j :: 0 <= i < j < |all| ==> !Louder(all[j].cand, all[i].cand))
            && |ids| == Min(cfg.identityPool, |all|) && forall i :: 0 <= i < |ids| ==> ids[i] == all[i]
  {
    var ranked := Ranked(ctx.candidates);
    SortMembers(ctx.candidates, RanksBefore);
    forall i, j | 0 <= i < j < |ranked| ensures !Louder(ranked[j], ranked[i]) {
      RankedInOrder(ctx.candidates, i, j);
    }
    IdentsOfExactly(ctx.active, ranked);
    forall x ensures x in AllIdents(ctx) <==> Represents(ctx, x) {
      ByClassIsLast(ctx.active, x.cand.classId);
      if LastOfClass(ctx.active, x.cand.classId, x.product) {
        LastOfClassIsUnique(ctx.active, x.cand.classId, x.product);
      }
    }
  }

  /** The positions of the segments that took weight away. */
  ghost function TakenAt(segments: seq<WeightSegment>): set<nat> {
    set i: nat | i < |segments| && segments[i].deltaGrams < 0.0
  }

  lemma {:induction false} RemovalsCounted(segments: seq<WeightSegment>)
    ensures |RemovalsOf(segments)| == |TakenAt(segments)|
  {
    if segments != [] {
      var n := |segments| - 1;
      assert segments == segments[..n] + [segments[n]];
      FilterConcat(segments[..n], [segments[n]], TakesWeight);
      RemovalsCounted(segments[..n]);
      assert TakenAt(segments) == TakenAt(segments[..n]) + if segments[n].deltaGrams < 0.0 then {n} else {};
    }
  }

  /** The pull is the size of the change, and counts the segments that took weight away. */
  lemma PullDecides(ctx: Context)
    ensures var pull := PullOf(ctx);
            && pull.target >= 0.0 && (pull.target == ctx.deltaWeight || pull.target == -ctx.deltaWeight)
            && pull.removals == |TakenAt(ctx.segments)|
  {
    RemovalsCounted(ctx.segments);
  }

  // ---- vision only ----

  function IsSold(active: seq<ActiveProduct>): VisionCandidate -> bool {
    (c: VisionCandidate) => ByClass(active, c.classId).Some?
  }

  lemma {:induction false} FirstSoldAt(active: seq<ActiveProduct>, ranked: seq<VisionCandidate>, k: nat)
    requires k <= |ranked| && (forall i :: 0 <= i < k ==> ByClass(active, ranked[i].classId).None?)
    requires k < |ranked| ==> ByClass(active, ranked[k].classId).Some?
    ensures FirstSold(active, ranked) ==
            if k < |ranked| then Some(Ident(ByClass(active, ranked[k].classId).value, ranked[k])) else None
  {
    if k > 0 {
      FirstSoldAt(active, ranked[1..], k - 1);
    }
  }

  /** One unit of the product the best ranked candidate on sale stands for; nothing if none is on sale. */
  lemma VisionOnlyDecides(ctx: Context)
    ensures var r, sold := SolveVisionOnly(ctx), IsSold(ctx.active);
            if forall c :: c in ctx.candidates ==> !sold(c) then r == Nothing(NoVisionCandidates)
            else
              exists c :: BestRanked(ctx.candidates, sold, c) &&
                r == JudgmentResult(JudgmentStatus.Complete, [ProductCount(ByClass(ctx.active, c.classId).value, 1)],
                                    c.confidence * 0.7, [Reason.VisionOnly])
  {
    var ranked := Ranked(ctx.candidates);
    var k := FirstOfKind(ranked, IsSold(ctx.active));
    FirstSoldAt(ctx.active, ranked, k);
    if k < |ranked| {
      FirstIsBest(ctx.candidates, IsSold(ctx.active), k);
    } else {
      NoneOfKind(ctx.candidates, IsSold(ctx.active));
    }
  }

  // ---- one search per target, merged ----

  /** Units of a product in a list of combinations, and their scores. */
  function UnitsOf(cs: seq<Combination>, id: ProductId): nat {
    if cs == [] then 0 else Ledger.Billed(cs[0].products, id) + UnitsOf(cs[1..], id)
  }

  function ScoreOf(cs: seq<Combination>): real { if cs == [] then 0.0 else cs[0].matchScore + ScoreOf(cs[1..]) }

  /** The best combination of every target, in order. */
  ghost predicate BestOfEach(
      cfg: MatcherConfig, candidates: seq<VisionCandidate>, ctx: Context, targets: seq<real>, cs: seq<Combination>)
  {
    && |cs| == |targets|
    && forall k :: 0 <= k < |cs| ==>
         Best(cfg, candidates, targets[k], ctx.active, ctx.profile.toleranceGrams) == Some(cs[k])
  }

  ghost predicate SomeUnmatched(
      cfg: MatcherConfig, candidates: seq<VisionCandidate>, ctx: Context, targets: seq<real>)
  {
    exists k :: 0 <= k < |targets| &&
      Best(cfg, candidates, targets[k], ctx.active, ctx.profile.toleranceGrams) == None
  }

  function AddAllLines(lines: seq<ProductCount>, cs: seq<Combination>): seq<ProductCount>
    decreases |cs|
  {
    if cs == [] then lines else AddAllLines(AddLines(lines, cs[0].products), cs[1..])
  }

  lemma {:induction false} AddLineBills(lines: seq<ProductCount>, pc: ProductCount, id: ProductId)
    ensures Ledger.Billed(AddLine(lines, pc), id) ==
            Ledger.Billed(lines, id) + if pc.product.productId == id then pc.count else 0
  {
    if lines == [] {
      assert [pc][1..] == [];
    } else if lines[0].product.productId == pc.product.productId {
      var head := ProductCount(pc.product, lines[0].count + pc.count);
      assert ([head] + lines[1..])[1..] == lines[1..];
    } else {
      AddLineBills(lines[1..], pc, id);
      assert ([lines[0]] + AddLine(lines[1..], pc))[1..] == AddLine(lines[1..], pc);
    }
  }

  lemma {:induction false} AddLinesBill(lines: seq<ProductCount>, pcs: seq<ProductCount>, id: ProductId)
    ensures Ledger.Billed(AddLines(lines, pcs), id) == Ledger.Billed(lines, id) + Ledger.Billed(pcs, id)
    decreases |pcs|
  {
    if pcs != [] {
      AddLineBills(lines, pcs[0], id);
      AddLinesBill(AddLine(lines, pcs[0]), pcs[1..], id);
    }
  }

  lemma {:induction false} AddAllBill(lines: seq<ProductCount>, cs: seq<Combination>, id: ProductId)
    ensures Ledger.Billed(AddAllLines(lines, cs), id) == Ledger.Billed(lines, id) + UnitsOf(cs, id)
    decreases |cs|
  {
    if cs != [] {
      AddLinesBill(lines, cs[0].products, id);
      AddAllBill(AddLines(lines, cs[0].products), cs[1..], id);
    }
  }

  lemma MatchFirst(
      cfg: MatcherConfig, candidates: seq<VisionCandidate>, ctx: Context, targets: seq<real>, acc: Merged,
      b: Option<Combination>)
    requires targets != [] && b == Best(cfg, candidates, targets[0], ctx.active, ctx.profile.toleranceGrams)
    ensures MatchTargets(cfg, candidates, ctx.active, ctx.profile.toleranceGrams, targets, acc) ==
            if b.None? then None
            else MatchTargets(cfg, candidates, ctx.active, ctx.profile.toleranceGrams, targets[1..],
                              Merged(AddLines(acc.lines, b.value.products), acc.score + b.value.matchScore))
  {
  }

  /** Every target must have a combination of its own; what is merged is all of them, added up. */
  lemma {:induction false} TargetsDecide(
      cfg: MatcherConfig, candidates: seq<VisionCandidate>, ctx: Context, targets: seq<real>, acc: Merged)
    returns (cs: seq<Combination>)
    ensures match MatchTargets(cfg, candidates, ctx.active, ctx.profile.toleranceGrams, targets, acc)
            case None => SomeUnmatched(cfg, candidates, ctx, targets)
            case Some(m) =>
              && BestOfEach(cfg, candidates, ctx, targets, cs)
              && m == Merged(AddAllLines(acc.lines, cs), acc.score + ScoreOf(cs))
    decreases |targets|
  {
    cs := [];
    if targets != [] {
      var b := Best(cfg, candidates, targets[0], ctx.active, ctx.profile.toleranceGrams);
      MatchFirst(cfg, candidates, ctx, targets, acc, b);
      if b.Some? {
        var next := Merged(AddLines(acc.lines, b.value.products), acc.score + b.value.matchScore);
        var later := TargetsDecide(cfg, candidates, ctx, targets[1..], next);
        cs := [b.value] + later;
        MatchRest(cfg, candidates, ctx, targets, b.value, later);
        assert cs[1..] == later;
      }
    }
  }

  lemma MatchRest(
      cfg: MatcherConfig, candidates: seq<VisionCandidate>, ctx: Context, targets: seq<real>, b: Combination,
      later: seq<Combination>)
    requires targets != [] && Best(cfg, candidates, targets[0], ctx.active, ctx.profile.toleranceGrams) == Some(b)
    ensures BestOfEach(cfg, candidates, ctx, targets[1..], later) ==>
            BestOfEach(cfg, candidates, ctx, targets, [b] + later)
    ensures SomeUnmatched(cfg, candidates, ctx, targets[1..]) ==> SomeUnmatched(cfg, candidates, ctx, targets)
  {
    if SomeUnmatched(cfg, candidates, ctx, targets[1..]) {
      var k :| 0 <= k < |targets[1..]| &&
        Best(cfg, candidates, targets[1..][k], ctx.active, ctx.profile.toleranceGrams) == None;
      assert targets[k + 1] == targets[1..][k];
    }
  }

  lemma {:induction false} BilledOfInsert(pc: ProductCount, lines: seq<ProductCount>, id: ProductId)
    ensures Ledger.Billed(Insert(pc, lines, ById), id) ==
            Ledger.Billed(lines, id) + if pc.product.productId == id then pc.count else 0
  {
    if lines == [] || ById(pc, lines[0]) {
      assert ([pc] + lines)[1..] == lines;
    } else {
      BilledOfInsert(pc, lines[1..], id);
      assert ([lines[0]] + Insert(pc, lines[1..], ById))[1..] == Insert(pc, lines[1..], ById);
    }
  }

  lemma {:induction false} SortKeepsBilled(lines: seq<ProductCount>, id: ProductId)
    ensures Ledger.Billed(StableSort(lines, ById), id) == Ledger.Billed(lines, id)
  {
    if lines != [] {
      SortKeepsBilled(lines[1..], id);
      BilledOfInsert(lines[0], StableSort(lines[1..], ById), id);
    }
  }

  lemma MergedIsSum(m: Merged, n: nat, reason: Reason, id: ProductId)
    ensures var r := MergedResult(m, n, reason);
            && Ledger.Billed(r.products, id) == Ledger.Billed(m.lines, id)
            && (Available(r.products) <==> Available(m.lines)) && OrderedById(r.products)
  {
    SortKeepsBilled(m.lines, id);
    SortMembers(m.lines, ById);
    StableSortSorts(m.lines, ById);
    assert forall a, b :: ById(a, b) <==> a.product.productId <= b.product.productId;
  }

  predicate Available(lines: seq<ProductCount>) { forall pc :: pc in lines ==> pc.count <= pc.product.stockQty }

  predicate OrderedById(lines: seq<ProductCount>) {
    forall i, j :: 0 <= i < j < |lines| ==> lines[i].product.productId <= lines[j].product.productId
  }

  /** What merging combinations comes to: the sum of their units in order of product, the mean of their scores. */
  ghost predicate MergesTo(cs: seq<Combination>, reason: Reason, r: JudgmentResult)
    requires cs != []
  {
    && r.status == JudgmentStatus.Complete && r.reason == [reason]
    && (forall id :: Ledger.Billed(r.products, id) == UnitsOf(cs, id)) && OrderedById(r.products)
    && r.confidence == ScoreOf(cs) / |cs| as real
  }

  lemma MergedResultMerges(m: Merged, cs: seq<Combination>, reason: Reason)
    requires cs != [] && m.lines == AddAllLines([], cs) && m.score == ScoreOf(cs)
    ensures var r := MergedResult(m, |cs|, reason);
            MergesTo(cs, reason, r) && (Available(r.products) <==> Available(m.lines))
  {
    MergedIsSum(m, |cs|, reason, 0);
    forall id ensures Ledger.Billed(MergedResult(m, |cs|, reason).products, id) == UnitsOf(cs, id) {
      MergedUnits(m, cs, reason, id);
    }
  }

  lemma MergedUnits(m: Merged, cs: seq<Combination>, reason: Reason, id: ProductId)
    requires m.lines == AddAllLines([], cs)
    ensures Ledger.Billed(MergedResult(m, |cs|, reason).products, id) == UnitsOf(cs, id)
  {
    AddAllBill([], cs, id);
    MergedIsSum(m, |cs|, reason, id);
  }

  /** Every removal segment is matched by itself: the answer merges the best combinations, unless a segment
      has none or the merged counts exceed the stock. */
  lemma SegmentsDecide(cfg: MatcherConfig, ctx: Context) returns (cs: seq<Combination>)
    requires |RemovalsOf(ctx.segments)| >= 2
    ensures var targets := DeltasOf(RemovalsOf(ctx.segments));
            match SolveSegments(cfg, ctx)
            case Some(r) =>
              BestOfEach(cfg, ctx.candidates, ctx, targets, cs) && cs != [] && MergesTo(cs, SegmentWeightMatching, r)
              && Available(r.products)
            case None =>
              || SomeUnmatched(cfg, ctx.candidates, ctx, targets)
              || (BestOfEach(cfg, ctx.candidates, ctx, targets, cs) && !Available(AddAllLines([], cs)))
  {
    var targets := DeltasOf(RemovalsOf(ctx.segments));
    cs := TargetsDecide(cfg, ctx.candidates, ctx, targets, Merged([], 0.0));
    if |cs| == |targets| {
      MergedResultMerges(Merged(AddAllLines([], cs), 0.0 + ScoreOf(cs)), cs, SegmentWeightMatching);
    }
  }

  /** Stage targets likewise; without vision every product in stock stands in, and a single unit is no answer. */
  lemma StagesDecide(cfg: MatcherConfig, ctx: Context) returns (cs: seq<Combination>)
    requires |ctx.stageTargets| >= 2
    ensures var targets := Negated(ctx.stageTargets);
            var candidates := if ctx.candidates == [] then StandIns(ctx.active) else ctx.candidates;
            match SolveStages(cfg, ctx)
            case Some(r) =>
              BestOfEach(cfg, candidates, ctx, targets, cs) && cs != [] && MergesTo(cs, StageCountCombo, r)
              && SumCount(AddAllLines([], cs)) >= 2 && Available(r.products)
            case None =>
              || SomeUnmatched(cfg, candidates, ctx, targets)
              || (BestOfEach(cfg, candidates, ctx, targets, cs)
                  && (SumCount(AddAllLines([], cs)) < 2 || !Available(AddAllLines([], cs))))
  {
    var targets := Negated(ctx.stageTargets);
    var candidates := if ctx.candidates == [] then StandIns(ctx.active) else ctx.candidates;
    cs := TargetsDecide(cfg, candidates, ctx, targets, Merged([], 0.0));
    if |cs| == |targets| {
      MergedResultMerges(Merged(AddAllLines([], cs), 0.0 + ScoreOf(cs)), cs, StageCountCombo);
    }
  }

  // ---- weight alone ----

  /** So many of the product listed at position `i` explain the change within the tolerance. */
  predicate FitsAt(cfg: MatcherConfig, ctx: Context, active: seq<ActiveProduct>, i: nat, n: nat) {
    && i < |active| && active[i].unitWeight > 0.0 && 1 <= n <= active[i].stockQty && n <= cfg.maxItems
    && Abs(Abs(ctx.deltaWeight) - Times(n, active[i].unitWeight)) <= ctx.profile.toleranceGrams
  }

  ghost predicate TwoFit(cfg: MatcherConfig, ctx: Context, active: seq<ActiveProduct>) {
    exists i: nat, n: nat, j: nat, m: nat ::
      (i != j || n != m) && FitsAt(cfg, ctx, active, i, n) && FitsAt(cfg, ctx, active, j, m)
  }

  lemma {:induction false} CountMatchesExact(
      p: ActiveProduct, target: real, tol: real, from: nat, most: int, pc: ProductCount)
    ensures pc in CountMatches(p, target, tol, from, most) <==>
            pc.product == p && from <= pc.count <= most && Abs(target - Times(pc.count, p.unitWeight)) <= tol
    decreases Max(0, most + 1 - from)
  {
    if from <= most {
      CountMatchesExact(p, target, tol, from + 1, most, pc);
    }
  }

  ghost predicate NoRepeats<T(!new)>(xs: seq<T>) { forall i, j :: 0 <= i < j < |xs| ==> xs[i] != xs[j] }

  lemma {:induction false} CountMatchesOnce(p: ActiveProduct, target: real, tol: real, from: nat, most: int)
    ensures NoRepeats(CountMatches(p, target, tol, from, most))
    decreases Max(0, most + 1 - from)
  {
    if from <= most {
      CountMatchesOnce(p, target, tol, from + 1, most);
      CountMatchesExact(p, target, tol, from + 1, most, ProductCount(p, from));
    }
  }

  function MatchesIn(cfg: MatcherConfig, ctx: Context, active: seq<ActiveProduct>): seq<ProductCount> {
    WeightMatches(Weighed(active), Abs(ctx.deltaWeight), ctx.profile.toleranceGrams, cfg.maxItems)
  }

  /** The matches of the first product listed. */
  function MatchesOfFirst(cfg: MatcherConfig, ctx: Context, active: seq<ActiveProduct>): seq<ProductCount>
    requires active != []
  {
    if !HasWeight(active[0]) then []
    else CountMatches(active[0], Abs(ctx.deltaWeight), ctx.profile.toleranceGrams, 1,
                      Min(active[0].stockQty, cfg.maxItems))
  }

  lemma MatchesUnfold(cfg: MatcherConfig, ctx: Context, active: seq<ActiveProduct>)
    requires active != []
    ensures MatchesIn(cfg, ctx, active) == MatchesOfFirst(cfg, ctx, active) + MatchesIn(cfg, ctx, active[1..])
    ensures NoRepeats(MatchesOfFirst(cfg, ctx, active))
    ensures forall pc :: pc in MatchesOfFirst(cfg, ctx, active) <==>
                         pc.product == active[0] && FitsAt(cfg, ctx, active, 0, pc.count)
  {
    var p, rest := active[0], Weighed(active[1..]);
    if HasWeight(p) {
      assert ([p] + rest)[1..] == rest;
    }
    CountMatchesOnce(p, Abs(ctx.deltaWeight), ctx.profile.toleranceGrams, 1, Min(p.stockQty, cfg.maxItems));
    forall pc ensures pc in MatchesOfFirst(cfg, ctx, active) <==>
                      pc.product == p && FitsAt(cfg, ctx, active, 0, pc.count)
    {
      CountMatchesExact(p, Abs(ctx.deltaWeight), ctx.profile.toleranceGrams, 1, Min(p.stockQty, cfg.maxItems), pc);
    }
  }

  lemma FitsInRest(cfg: MatcherConfig, ctx: Context, active: seq<ActiveProduct>)
    requires active != []
    ensures forall i: nat, n: nat {:trigger FitsAt(cfg, ctx, active[1..], i, n)} ::
              FitsAt(cfg, ctx, active[1..], i, n) <==> FitsAt(cfg, ctx, active, i + 1, n)
  {
  }

  /** Every match is a product listed in a count that fits; every fitting count is a match. */
  lemma {:induction false} MatchesFit(cfg: MatcherConfig, ctx: Context, active: seq<ActiveProduct>)
    ensures forall pc :: pc in MatchesIn(cfg, ctx, active) ==>
              exists i: nat :: FitsAt(cfg, ctx, active, i, pc.count) && active[i] == pc.product
    ensures forall i: nat, n: nat :: FitsAt(cfg, ctx, active, i, n) ==>
              ProductCount(active[i], n) in MatchesIn(cfg, ctx, active)
  {
    if active != [] {
      MatchesUnfold(cfg, ctx, active);
      MatchesFit(cfg, ctx, active[1..]);
      FitsInRest(cfg, ctx, active);
      forall pc | pc in MatchesIn(cfg, ctx, active[1..])
        ensures exists i: nat :: FitsAt(cfg, ctx, active, i, pc.count) && active[i] == pc.product
      {
        var i: nat :| FitsAt(cfg, ctx, active[1..], i, pc.count) && active[1..][i] == pc.product;
        assert FitsAt(cfg, ctx, active, i + 1, pc.count) && active[i + 1] == pc.product;
      }
      forall i: nat, n: nat | FitsAt(cfg, ctx, active, i, n)
        ensures ProductCount(active[i], n) in MatchesIn(cfg, ctx, active)
      {
        if i > 0 {
          assert FitsAt(cfg, ctx, active[1..], i - 1, n);
        }
      }
    }
  }

  lemma {:induction false} SeveralMatchesFit(cfg: MatcherConfig, ctx: Context, active: seq<ActiveProduct>)
    requires |MatchesIn(cfg, ctx, active)| >= 2
    ensures TwoFit(cfg, ctx, active)
  {
    var first, rest := MatchesOfFirst(cfg, ctx, active), MatchesIn(cfg, ctx, active[1..]);
    MatchesUnfold(cfg, ctx, active);
    FitsInRest(cfg, ctx, active);
    if |first| >= 2 {
      assert first[0] in first && first[1] in first && first[0].count != first[1].count;
    } else if |first| == 1 {
      assert first[0] in first && rest[0] in rest;
      MatchesFit(cfg, ctx, active[1..]);
      var i: nat :| FitsAt(cfg, ctx, active[1..], i, rest[0].count);
      assert FitsAt(cfg, ctx, active, i + 1, rest[0].count);
    } else {
      SeveralMatchesFit(cfg, ctx, active[1..]);
      var i: nat, n: nat, j: nat, m: nat :|
        (i != j || n != m) && FitsAt(cfg, ctx, active[1..], i, n) && FitsAt(cfg, ctx, active[1..], j, m);
      assert FitsAt(cfg, ctx, active, i + 1, n) && FitsAt(cfg, ctx, active, j + 1, m);
    }
  }

  lemma {:induction false} TwoFitAreSeveral(
      cfg: MatcherConfig, ctx: Context, active: seq<ActiveProduct>, i: nat, n: nat, j: nat, m: nat)
    requires i < j || (i == j && n != m)
    requires FitsAt(cfg, ctx, active, i, n) && FitsAt(cfg, ctx, active, j, m)
    ensures |MatchesIn(cfg, ctx, active)| >= 2
    decreases |active|
  {
    var first, rest := MatchesOfFirst(cfg, ctx, active), MatchesIn(cfg, ctx, active[1..]);
    MatchesUnfold(cfg, ctx, active);
    MatchesFit(cfg, ctx, active[1..]);
    if i > 0 {
      assert FitsAt(cfg, ctx, active[1..], i - 1, n) && FitsAt(cfg, ctx, active[1..], j - 1, m);
      TwoFitAreSeveral(cfg, ctx, active[1..], i - 1, n, j - 1, m);
    } else {
      assert ProductCount(active[0], n) in first;
      if j > 0 {
        assert FitsAt(cfg, ctx, active[1..], j - 1, m);
        assert rest != [];
      } else {
        assert ProductCount(active[0], m) in first;
      }
    }
  }

  /** Without candidates, and where weight may name a product: the one product and count that explain the
      change; nothing when none does, and nothing when several do. */
  lemma NoCandidateDecides(cfg: MatcherConfig, ctx: Context)
    ensures var r := SolveNoCandidate(cfg, ctx);
            if !ctx.profile.weightIsDiscriminative then r == Nothing(LoadcellIdentitySuppressed)
            else if forall i: nat, n: nat :: !FitsAt(cfg, ctx, ctx.active, i, n) then
              r == Nothing(NoCandidatesForcedFinal)
            else if TwoFit(cfg, ctx, ctx.active) then r == Nothing(WeightOnlyAmbiguous)
            else
              exists i: nat, n: nat :: FitsAt(cfg, ctx, ctx.active, i, n)
                && r == JudgmentResult(JudgmentStatus.Complete, [ProductCount(ctx.active[i], n)], 0.3, [WeightOnly])
  {
    var matches := MatchesIn(cfg, ctx, ctx.active);
    MatchesFit(cfg, ctx, ctx.active);
    if |matches| >= 2 {
      SeveralMatchesFit(cfg, ctx, ctx.active);
    } else if TwoFit(cfg, ctx, ctx.active) {
      var i: nat, n: nat, j: nat, m: nat :|
        (i != j || n != m) && FitsAt(cfg, ctx, ctx.active, i, n) && FitsAt(cfg, ctx, ctx.active, j, m);
      if i <= j {
        TwoFitAreSeveral(cfg, ctx, ctx.active, i, n, j, m);
      } else {
        TwoFitAreSeveral(cfg, ctx, ctx.active, j, m, i, n);
      }
    } else if |matches| == 1 {
      assert matches[0] in matches;
    }
  }

  // ---- products on sale, one per class ----

  lemma {:induction false} PutExact(sold: seq<ActiveProduct>, p: ActiveProduct, x: ActiveProduct)
    requires OnePerClass(sold)
    ensures OnePerClass(PutByClass(sold, p))
    ensures x in PutByClass(sold, p) <==> x == p || (x in sold && x.classId != p.classId)
  {
    if sold != [] {
      assert sold == [sold[0]] + sold[1..];
      assert OnePerClass(sold[1..]);
      if sold[0].classId != p.classId {
        PutExact(sold[1..], p, x);
        forall y | y in PutByClass(sold[1..], p) ensures y.classId != sold[0].classId {
          PutExact(sold[1..], p, y);
        }
      }
    }
  }

  ghost predicate OnePerClass(sold: seq<ActiveProduct>) {
    forall i, j :: 0 <= i < j < |sold| ==> sold[i].classId != sold[j].classId
  }

  /** The dictionary of products on sale holds, for each class, exactly the last product in stock listed with it. */
  lemma {:induction false} SoldExact(active: seq<ActiveProduct>, x: ActiveProduct)
    ensures OnePerClass(Sold(active)) && (x in Sold(active) <==> LastOfClass(active, x.classId, x))
    decreases |active|
  {
    if active != [] {
      var n := |active| - 1;
      SoldExact(active[..n], x);
      LastOfSnoc(active, x);
      if active[n].stockQty > 0 && active[n].classId > 0 {
        PutExact(Sold(active[..n]), active[n], x);
      }
    }
  }

  lemma LastOfSnoc(active: seq<ActiveProduct>, x: ActiveProduct)
    requires active != []
    ensures var n := |active| - 1;
            LastOfClass(active, x.classId, x) <==>
            if Stands(active[n], x.classId) then x == active[n] else LastOfClass(active[..n], x.classId, x)
  {
    var n, cid := |active| - 1, x.classId;
    if LastOfClass(active, cid, x) {
      var k :| 0 <= k < |active| && active[k] == x && Stands(x, cid)
               && forall j :: k < j < |active| ==> !Stands(active[j], cid);
      if k < n {
        assert active[..n][k] == x;
      }
    }
    if !Stands(active[n], cid) && LastOfClass(active[..n], cid, x) {
      var k :| 0 <= k < n && active[..n][k] == x && Stands(x, cid)
               && forall j :: k < j < n ==> !Stands(active[..n][j], cid);
      assert active[k] == x;
      assert forall j :: k < j < |active| ==> !Stands(active[j], cid) by {
        assert forall j :: k < j < n ==> active[..n][j] == active[j];
      }
    }
  }

  // ---- two seen products of one weight ----

  predicate SingleMatch(ctx: Context, p: ActiveProduct) {
    ConfOf(ctx.candidates, p.classId).Some? && Abs(Abs(ctx.deltaWeight) - p.unitWeight) <= ctx.profile.toleranceGrams
  }

  /** Of the seen products on sale that one unit of explains the change, the two surest weigh the same within
      tolerance: the surer one is billed. Otherwise there is no collision to decide. */
  lemma CollisionDecides(ctx: Context) returns (ranked: seq<ActiveProduct>)
    ensures forall p :: p in ranked <==> LastOfClass(ctx.active, p.classId, p) && SingleMatch(ctx, p)
    ensures OnePerClass(ranked)
    ensures forall i, j :: 0 <= i < j < |ranked| ==> Conf(ctx.candidates, ranked[i]) >= Conf(ctx.candidates, ranked[j])
    ensures SolveCollision(ctx) ==
            if |ranked| >= 2 && Abs(ranked[0].unitWeight - ranked[1].unitWeight) <= ctx.profile.toleranceGrams
            then Some(JudgmentResult(JudgmentStatus.Complete, [ProductCount(ranked[0], 1)],
                                     Conf(ctx.candidates, ranked[0]), [SameWeightCollisionGuard]))
            else None
  {
    var byConf := (a: ActiveProduct, b: ActiveProduct) => Conf(ctx.candidates, a) >= Conf(ctx.candidates, b);
    var single := (p: ActiveProduct) =>
      ConfOf(ctx.candidates, p.classId).Some? && Abs(Abs(ctx.deltaWeight) - p.unitWeight) <= ctx.profile.toleranceGrams;
    ranked := StableSort(SingleMatches(ctx), byConf);
    SortMembers(SingleMatches(ctx), byConf);
    StableSortSorts(SingleMatches(ctx), byConf);
    FilterMembers(Sold(ctx.active), single);
    forall p ensures p in ranked <==> LastOfClass(ctx.active, p.classId, p) && SingleMatch(ctx, p) {
      SoldExact(ctx.active, p);
    }
    OnePerClassKept(ctx, single, byConf);
  }

  lemma OnePerClassKept(
      ctx: Context, single: ActiveProduct -> bool, byConf: (ActiveProduct, ActiveProduct) -> bool)
    ensures OnePerClass(StableSort(Filter(Sold(ctx.active), single), byConf))
  {
    if ctx.active == [] {
      assert Sold(ctx.active) == [];
    } else {
      SoldExact(ctx.active, ctx.active[0]);
    }
    FilterOnePerClass(Sold(ctx.active), single);
    SortOnePerClass(Filter(Sold(ctx.active), single), byConf);
  }

  lemma {:induction false} FilterOnePerClass(xs: seq<ActiveProduct>, p: ActiveProduct -> bool)
    requires OnePerClass(xs)
    ensures OnePerClass(Filter(xs, p))
  {
    if xs != [] {
      FilterOnePerClass(xs[1..], p);
      FilterMembers(xs[1..], p);
      assert forall y :: y in xs[1..] ==> y.classId != xs[0].classId;
    }
  }

  lemma {:induction false} SortOnePerClass(xs: seq<ActiveProduct>, le: (ActiveProduct, ActiveProduct) -> bool)
    requires OnePerClass(xs)
    ensures OnePerClass(StableSort(xs, le))
  {
    if xs != [] {
      SortOnePerClass(xs[1..], le);
      SortMembers(xs[1..], le);
      assert forall y :: y in xs[1..] ==> y.classId != xs[0].classId;
      InsertOnePerClass(xs[0], StableSort(xs[1..], le), le);
    }
  }

  lemma {:induction false} InsertOnePerClass(
      x: ActiveProduct, xs: seq<ActiveProduct>, le: (ActiveProduct, ActiveProduct) -> bool)
    requires OnePerClass(xs) && forall y :: y in xs ==> y.classId != x.classId
    ensures OnePerClass(Insert(x, xs, le))
  {
    if xs != [] && !le(x, xs[0]) {
      InsertOnePerClass(x, xs[1..], le);
      InsertMembers(x, xs[1..], le);
      assert forall y :: y in xs[1..] ==> y.classId != xs[0].classId;
    }
  }

  // ---- several units of one product ----

  /** A seen product on sale of which the nearest count, at least two and within stock, explains the change. */
  ghost predicate RepeatFits(ctx: Context, p: ActiveProduct, n: nat) {
    && LastOfClass(ctx.active, p.classId, p) && ConfOf(ctx.candidates, p.classId).Some? && p.unitWeight > 0.0
    && IsNearest(Abs(ctx.deltaWeight), p.unitWeight, n) && 2 <= n <= p.stockQty
       && RepeatOff(ctx, p, n) <= ctx.profile.toleranceGrams
  }

  function RepeatOff(ctx: Context, p: ActiveProduct, n: nat): real {
    Abs(Abs(ctx.deltaWeight) - Times(n, p.unitWeight))
  }

  lemma RepeatIsFit(ctx: Context, p: ActiveProduct, n: nat)
    requires LastOfClass(ctx.active, p.classId, p)
    ensures match RepeatOf(ctx, p)
            case None => !RepeatFits(ctx, p, n)
            case Some(r) =>
              && r == Repeat(p, r.count, RepeatOff(ctx, p, r.count)) && RepeatFits(ctx, p, r.count)
              && (RepeatFits(ctx, p, n) ==> n == r.count)
  {
    var target := Abs(ctx.deltaWeight);
    if p.unitWeight > 0.0 {
      RoundedIsNearest(target, p.unitWeight);
      QuotientIsPositive(target, p.unitWeight);
      if IsNearest(target, p.unitWeight, n) {
        NearestIsRounded(target, p.unitWeight, n);
      }
    }
  }

  lemma {:induction false} BestRepeatIsLeast(ctx: Context, sold: seq<ActiveProduct>)
    ensures match BestRepeat(ctx, sold)
            case None => forall p :: p in sold ==> RepeatOf(ctx, p).None?
            case Some(r) =>
              && r.product in sold && RepeatOf(ctx, r.product) == Some(r)
              && forall p :: p in sold && RepeatOf(ctx, p).Some? ==> r.error <= RepeatOf(ctx, p).value.error
  {
    if sold != [] {
      var n := |sold| - 1;
      assert sold == sold[..n] + [sold[n]];
      BestRepeatIsLeast(ctx, sold[..n]);
      if RepeatOf(ctx, sold[n]).Some? {
        assert RepeatOf(ctx, sold[n]).value.product == sold[n];
      }
    }
  }

  /** The repeat with the least error; none exactly when none fits. */
  lemma SameProductDecides(ctx: Context)
    ensures match SolveSameProduct(ctx)
            case None => forall p, n :: !RepeatFits(ctx, p, n)
            case Some(r) =>
              exists p, n ::
                && RepeatFits(ctx, p, n)
                && (forall q, m :: RepeatFits(ctx, q, m) ==> RepeatOff(ctx, p, n) <= RepeatOff(ctx, q, m))
                && r == JudgmentResult(JudgmentStatus.Complete, [ProductCount(p, n)], Conf(ctx.candidates, p),
                                       [Reason.SameProductCount])
  {
    var sold := Sold(ctx.active);
    BestRepeatIsLeast(ctx, sold);
    var best := BestRepeat(ctx, sold);
    forall q, m | RepeatFits(ctx, q, m)
      ensures best.Some? && best.value.error <= RepeatOff(ctx, q, m)
    {
      SoldExact(ctx.active, q);
      RepeatIsFit(ctx, q, m);
    }
    if best.Some? {
      SoldExact(ctx.active, best.value.product);
      RepeatIsFit(ctx, best.value.product, 0);
      assert RepeatFits(ctx, best.value.product, best.value.count);
    }
  }

  // ---- last resorts ----

  lemma {:induction false} NearestIsLeast(pool: seq<ActiveProduct>, target: real)
    requires pool != []
    ensures forall p :: p in pool ==> Abs(target - Nearest(pool, target).unitWeight) <= Abs(target - p.unitWeight)
  {
    var n := |pool| - 1;
    assert pool == pool[..n] + [pool[n]];
    if n > 0 {
      NearestIsLeast(pool[..n], target);
    }
  }

  predicate CloseSingle(ctx: Context, p: ActiveProduct) {
    p in ctx.active && p.stockQty > 0 && Abs(Abs(ctx.deltaWeight) - p.unitWeight) < 5.0
  }

  /** One unverified unit of the product in stock nearest in weight, if it is nearer than 5 grams. */
  lemma LoadcellOnlyDecides(ctx: Context)
    ensures match SolveLoadcellOnly(ctx)
            case None => forall p :: !CloseSingle(ctx, p)
            case Some(r) =>
              exists p ::
                CloseSingle(ctx, p) &&
                var off := Abs(Abs(ctx.deltaWeight) - p.unitWeight);
                && (forall q :: q in ctx.active && q.stockQty > 0 ==> off <= Abs(Abs(ctx.deltaWeight) - q.unitWeight))
                && r == JudgmentResult(Partial, [ProductCount(p, 1)], (1.0 - off / 5.0) * 0.7,
                                       [Reason.RelaxedLoadcellOnly])
  {
    var pool := InStockOnly(ctx.active);
    FilterMembers(ctx.active, (p: ActiveProduct) => p.stockQty > 0);
    if pool != [] {
      NearestInPool(pool, Abs(ctx.deltaWeight));
      NearestIsLeast(pool, Abs(ctx.deltaWeight));
      var p := Nearest(pool, Abs(ctx.deltaWeight));
      if SolveLoadcellOnly(ctx).Some? {
        assert CloseSingle(ctx, p);
      }
    }
  }

  /** A candidate that stands for a product on sale with a positive weight. */
  function IsIdentity(active: seq<ActiveProduct>): VisionCandidate -> bool {
    (c: VisionCandidate) => ByClass(active, c.classId).Some? && ByClass(active, c.classId).value.unitWeight > 0.0
  }

  lemma {:induction false} FirstIdentityAt(active: seq<ActiveProduct>, ranked: seq<VisionCandidate>, k: nat)
    requires k <= |ranked| && (forall i :: 0 <= i < k ==> !IsIdentity(active)(ranked[i]))
    requires k < |ranked| ==> IsIdentity(active)(ranked[k])
    ensures k == |ranked| ==> IdentsOf(active, ranked) == []
    ensures k < |ranked| ==> IdentsOf(active, ranked) != [] && IdentsOf(active, ranked)[0] ==
                             Ident(ByClass(active, ranked[k].classId).value, ranked[k])
  {
    if k > 0 {
      FirstIdentityAt(active, ranked[1..], k - 1);
    }
  }

  /** The best ranked identity keeps its name: counted if the nearest count explains the change, else one
      unverified unit, unless the evidence is too thin. */
  lemma IdentityPartialDecides(ctx: Context, minConf: real)
    ensures var r, identity := SolveIdentityPartial(ctx, minConf), IsIdentity(ctx.active);
            if forall c :: c in ctx.candidates ==> !identity(c) then r == None
            else
              exists c, n :: BestRanked(ctx.candidates, identity, c) &&
                var p := ByClass(ctx.active, c.classId).value;
                && IsNearestInStock(Abs(ctx.deltaWeight), p.unitWeight, p.stockQty, n)
                && r == if RepeatOff(ctx, p, n) <= ctx.profile.toleranceGrams
                        then Some(JudgmentResult(JudgmentStatus.Complete, [ProductCount(p, n)], c.confidence,
                                                 [VisionIdentityWeightValidated]))
                        else if c.confidence * 0.5 < minConf then None
                        else Some(JudgmentResult(Partial, [ProductCount(p, 1)], c.confidence * 0.5,
                                                 [Reason.VisionFirstIdentityPartial]))
  {
    var ranked := Ranked(ctx.candidates);
    var k := FirstOfKind(ranked, IsIdentity(ctx.active));
    FirstIdentityAt(ctx.active, ranked, k);
    if k < |ranked| {
      FirstIsBest(ctx.candidates, IsIdentity(ctx.active), k);
      ByClassIsActive(ctx.active, ranked[k].classId);
      FitIsNearest(Abs(ctx.deltaWeight), Ident(ByClass(ctx.active, ranked[k].classId).value, ranked[k]));
    } else {
      NoneOfKind(ctx.candidates, IsIdentity(ctx.active));
    }
  }

  function Anyone(): VisionCandidate -> bool { (c: VisionCandidate) => true }

  /** Between 0.05 and 0.65: a tenth, a quarter of what vision says, and 0.45 for meeting the weight. */
  predicate SingleConf(conf: real, seen: real, off: real, tol: real) {
    var score := if tol <= 0.0 || off > tol then 0.0 else 1.0 - off / tol;
    var raw := 0.45 * score + 0.25 * seen + 0.10;
    conf == if raw < 0.05 then 0.05 else if raw > 0.65 then 0.65 else raw
  }

  /** The outcome for the product of one candidate: its nearest count, within a widened tolerance. */
  ghost predicate DetectedAs(
      ctx: Context, factor: real, c: VisionCandidate, p: ActiveProduct, n: nat, r: Option<JudgmentResult>)
  {
    var tol := ctx.profile.toleranceGrams * factor;
    && IsNearestInStock(Abs(ctx.deltaWeight), p.unitWeight, p.stockQty, n)
    && if RepeatOff(ctx, p, n) > tol then r == None
       else
         && r.Some? && r.value.status.Complete? && r.value.products == [ProductCount(p, n)]
         && r.value.reason == [Reason.DetectedSingleItemFallback]
         && SingleConf(r.value.confidence, c.confidence, RepeatOff(ctx, p, n), tol)
  }

  lemma AtMostWhole(off: real, tol: real)
    requires 0.0 <= off <= tol && 0.0 < tol
    ensures 0.0 <= 1.0 - off / tol
  {
  }

  lemma DetectedFirst(ctx: Context, factor: real, p: ActiveProduct)
    requires Ranked(ctx.candidates) != [] && ByClass(ctx.active, Ranked(ctx.candidates)[0].classId) == Some(p)
    requires p.unitWeight > 0.0
    ensures DetectedAs(ctx, factor, Ranked(ctx.candidates)[0], p, FitCount(Abs(ctx.deltaWeight), p),
                       SolveDetectedSingle(ctx, factor))
  {
    var c := Ranked(ctx.candidates)[0];
    var tol := Scaled(ctx.profile.toleranceGrams, factor);
    ByClassIsActive(ctx.active, c.classId);
    FitIsNearest(Abs(ctx.deltaWeight), Ident(p, c));
    var off := Fit(Abs(ctx.deltaWeight), Ident(p, c)).residual;
    if off <= tol && 0.0 < tol {
      AtMostWhole(off, tol);
    }
  }

  /** The best ranked candidate of all decides, if it stands for a product with a weight. */
  lemma DetectedSingleDecides(ctx: Context, factor: real)
    requires ctx.candidates != []
    ensures exists c :: BestRanked(ctx.candidates, Anyone(), c) &&
              var p, r := ByClass(ctx.active, c.classId), SolveDetectedSingle(ctx, factor);
              if p.None? || p.value.unitWeight <= 0.0 then r == None
              else exists n :: DetectedAs(ctx, factor, c, p.value, n, r)
  {
    var ranked := Ranked(ctx.candidates);
    SortMembers(ctx.candidates, RanksBefore);
    assert ctx.candidates[0] in ranked;
    FirstIsBest(ctx.candidates, Anyone(), 0);
    var p := ByClass(ctx.active, ranked[0].classId);
    if p.Some? && p.value.unitWeight > 0.0 {
      DetectedFirst(ctx, factor, p.value);
    }
  }

  /** The heaviest removal observed: of any segment, or of the whole event. */
  lemma {:induction false} RemovalBoundIsMost(removals: seq<WeightSegment>, delta: real)
    ensures var bound := RemovalBound(removals, delta);
            && bound >= Abs(delta) && (forall s :: s in removals ==> bound >= Abs(s.deltaGrams))
            && (bound == Abs(delta) || exists s :: s in removals && bound == Abs(s.deltaGrams))
  {
    if removals != [] {
      assert removals == [removals[0]] + removals[1..];
      RemovalBoundIsMost(removals[1..], delta);
    }
  }

  /** A candidate for a product light enough to have been taken at all; a factor of zero lets every one pass. */
  function IsPossible(active: seq<ActiveProduct>, factor: real, ceiling: real): VisionCandidate -> bool {
    (c: VisionCandidate) =>
      ByClass(active, c.classId).Some? && (factor <= 0.0 || ByClass(active, c.classId).value.unitWeight <= ceiling)
  }

  lemma {:induction false} FirstPossibleAt(
      active: seq<ActiveProduct>, ranked: seq<VisionCandidate>, factor: real, ceiling: real, k: nat)
    requires k <= |ranked| && (forall i :: 0 <= i < k ==> !IsPossible(active, factor, ceiling)(ranked[i]))
    requires k < |ranked| ==> IsPossible(active, factor, ceiling)(ranked[k])
    ensures FirstPossible(active, ranked, factor, ceiling) ==
            if k < |ranked| then Some(Ident(ByClass(active, ranked[k].classId).value, ranked[k])) else None
  {
    if k > 0 {
      FirstPossibleAt(active, ranked[1..], factor, ceiling, k - 1);
    }
  }

  lemma RelaxedFirst(ctx: Context, minConf: real, factor: real, ceiling: real, k: nat)
    requires ceiling == RemovalBound(RemovalsOf(ctx.segments), ctx.deltaWeight) + ctx.profile.toleranceGrams * factor
    requires k <= |Ranked(ctx.candidates)|
    requires forall i :: 0 <= i < k ==> !IsPossible(ctx.active, factor, ceiling)(Ranked(ctx.candidates)[i])
    requires k < |Ranked(ctx.candidates)| ==> IsPossible(ctx.active, factor, ceiling)(Ranked(ctx.candidates)[k])
    ensures SolveRelaxedPartial(ctx, minConf, factor) ==
            if k == |Ranked(ctx.candidates)| then None
            else
              var c := Ranked(ctx.candidates)[k];
              if c.confidence * 0.5 < minConf then None
              else Some(JudgmentResult(Partial, [ProductCount(ByClass(ctx.active, c.classId).value, 1)],
                                       c.confidence * 0.5, [Reason.RelaxedPartial]))
  {
    assert ceiling == RemovalBound(RemovalsOf(ctx.segments), ctx.deltaWeight)
           + Scaled(ctx.profile.toleranceGrams, factor);
    FirstPossibleAt(ctx.active, Ranked(ctx.candidates), factor, ceiling, k);
  }

  /** One unverified unit of the best ranked product that can have been taken, unless the evidence is too thin. */
  lemma RelaxedPartialDecides(ctx: Context, minConf: real, factor: real)
    ensures var ceiling := RemovalBound(RemovalsOf(ctx.segments), ctx.deltaWeight)
            + ctx.profile.toleranceGrams * factor;
            var possible := IsPossible(ctx.active, factor, ceiling);
            var r := SolveRelaxedPartial(ctx, minConf, factor);
            if forall c :: c in ctx.candidates ==> !possible(c) then r == None
            else
              exists c :: BestRanked(ctx.candidates, possible, c) &&
                r == if c.confidence * 0.5 < minConf then None
                     else Some(JudgmentResult(Partial, [ProductCount(ByClass(ctx.active, c.classId).value, 1)],
                                              c.confidence * 0.5, [Reason.RelaxedPartial]))
  {
    var ceiling := RemovalBound(RemovalsOf(ctx.segments), ctx.deltaWeight) + ctx.profile.toleranceGrams * factor;
    var possible := IsPossible(ctx.active, factor, ceiling);
    var ranked := Ranked(ctx.candidates);
    var k := FirstOfKind(ranked, possible);
    RelaxedFirst(ctx, minConf, factor, ceiling, k);
    if k < |ranked| {
      FirstIsBest(ctx.candidates, possible, k);
      SortMembers(ctx.candidates, RanksBefore);
      assert ranked[k] in ranked;
    } else {
      NoneOfKind(ctx.candidates, possible);
    }
  }
}
