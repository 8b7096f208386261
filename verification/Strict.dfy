/** Weight-first combination search: a pruned recursion over the pool of in-stock, vision-seen
    products. `Search` lists what the recursion records; `StrictSearch` is the recursion itself. */
module Strict {
  import opened Types
  import opened Sorting

  datatype MatcherConfig = MatcherConfig(maxItems: nat, maxKinds: nat, countOccam: bool)

  datatype Found = Found(products: seq<ProductCount>, weight: real)
  datatype Combination = Combination(products: seq<ProductCount>, weightError: real, matchScore: real)

  /** What the recursion closes over. */
  datatype Goal = Goal(pool: seq<ActiveProduct>, target: real, tol: real, maxItems: nat, maxKinds: nat)

  // ---- the recursion, as the list of what it records ----

  function Recorded(g: Goal, current: seq<ProductCount>): seq<Found> {
    if current != [] && Abs(SumWeight(current) - g.target) <= g.tol then [Found(current, SumWeight(current))] else []
  }

  predicate Pruned(g: Goal, i: nat, current: seq<ProductCount>) {
    i >= |g.pool| || SumWeight(current) >= g.target + g.tol || SumCount(current) >= g.maxItems
  }

  /** Everything recorded from pool position `i` on, in order, repeats included. */
  function Search(g: Goal, i: nat, current: seq<ProductCount>): seq<Found>
    decreases |g.pool| - i, 1, 0
  {
    Recorded(g, current) +
    if Pruned(g, i, current) then []
    else Search(g, i + 1, current) + if |current| >= g.maxKinds then [] else Counts(g, i, current, 1)
  }

  /** The loop over counts `c`, `c + 1`, ... of product `pool[i]`. */
  function Counts(g: Goal, i: nat, current: seq<ProductCount>, c: nat): seq<Found>
    requires i < |g.pool|
    decreases |g.pool| - i, 0, Max(0, g.maxItems + 1 - c)
  {
    var next := current + [ProductCount(g.pool[i], c)];
    if CountStops(g, i, current, c) then [] else Search(g, i + 1, next) + Counts(g, i, current, c + 1)
  }

  predicate CountStops(g: Goal, i: nat, current: seq<ProductCount>, c: nat)
    requires i < |g.pool|
  {
    c > g.pool[i].stockQty || c > g.maxItems - SumCount(current)
    || SumWeight(current + [ProductCount(g.pool[i], c)]) > g.target + g.tol
  }

  lemma SearchSplits(g: Goal, i: nat, current: seq<ProductCount>, f: Found)
    ensures f in Search(g, i, current) <==>
            || f in Recorded(g, current)
            || (!Pruned(g, i, current)
                && (f in Search(g, i + 1, current) || (|current| < g.maxKinds && f in Counts(g, i, current, 1))))
  {
  }

  lemma CountsSplits(g: Goal, i: nat, current: seq<ProductCount>, c: nat, f: Found)
    requires i < |g.pool|
    ensures f in Counts(g, i, current, c) <==>
            !CountStops(g, i, current, c)
            && (f in Search(g, i + 1, current + [ProductCount(g.pool[i], c)]) || f in Counts(g, i, current, c + 1))
  {
  }

  /** A selection takes some pool products from position `i` on, in pool order, each with a count. */
  ghost predicate Selects(pool: seq<ActiveProduct>, i: nat, sel: seq<ProductCount>)
    decreases |pool| - i
  {
    sel == [] ||
    (i < |pool| &&
     (Selects(pool, i + 1, sel)
      || (sel[0].product == pool[i] && 1 <= sel[0].count <= pool[i].stockQty && Selects(pool, i + 1, sel[1..]))))
  }

  /** What the search is for: kinds and items bounded, weight within tolerance. */
  predicate Fits(g: Goal, sel: seq<ProductCount>) {
    sel != [] && |sel| <= g.maxKinds && SumCount(sel) <= g.maxItems && Abs(SumWeight(sel) - g.target) <= g.tol
  }

  lemma {:induction false} SumsOfConcat(a: seq<ProductCount>, b: seq<ProductCount>)
    ensures SumWeight(a + b) == SumWeight(a) + SumWeight(b)
    ensures SumCount(a + b) == SumCount(a) + SumCount(b)
  {
    if a == [] {
      assert a + b == b;
    } else {
      assert (a + b)[1..] == a[1..] + b;
      SumsOfConcat(a[1..], b);
    }
  }

  lemma SumsOfSnoc(a: seq<ProductCount>, pc: ProductCount)
    ensures SumWeight(a + [pc]) == SumWeight(a) + Times(pc.count, pc.product.unitWeight)
    ensures SumCount(a + [pc]) == SumCount(a) + pc.count
  {
    SumsOfConcat(a, [pc]);
    assert [pc][1..] == [];
  }

  // ---- soundness: what is recorded is a fitting selection ----

  ghost predicate Extends(g: Goal, i: nat, current: seq<ProductCount>, f: Found) {
    && Fits(g, f.products) && f.weight == SumWeight(f.products)
    && |current| <= |f.products| && f.products[..|current|] == current && Selects(g.pool, i, f.products[|current|..])
  }

  predicate InBounds(g: Goal, current: seq<ProductCount>) { SumCount(current) <= g.maxItems && |current| <= g.maxKinds }

  lemma {:induction false} SearchSound(g: Goal, i: nat, current: seq<ProductCount>, f: Found)
    requires InBounds(g, current) && f in Search(g, i, current)
    ensures Extends(g, i, current, f)
    decreases |g.pool| - i, 1, 0
  {
    SearchSplits(g, i, current, f);
    if f in Recorded(g, current) {
      assert f.products[..|current|] == current && f.products[|current|..] == [];
    } else if f in Search(g, i + 1, current) {
      SearchSound(g, i + 1, current, f);
    } else {
      CountsSound(g, i, current, 1, f);
    }
  }

  lemma NextInBounds(g: Goal, i: nat, current: seq<ProductCount>, c: nat)
    requires i < |g.pool| && |current| < g.maxKinds && !CountStops(g, i, current, c)
    ensures c <= g.pool[i].stockQty && InBounds(g, current + [ProductCount(g.pool[i], c)])
  {
    SumsOfSnoc(current, ProductCount(g.pool[i], c));
  }

  lemma {:induction false} CountsSound(g: Goal, i: nat, current: seq<ProductCount>, c: nat, f: Found)
    requires i < |g.pool| && |current| < g.maxKinds && c >= 1
    requires InBounds(g, current) && f in Counts(g, i, current, c)
    ensures Extends(g, i, current, f)
    decreases |g.pool| - i, 0, Max(0, g.maxItems + 1 - c)
  {
    var next := current + [ProductCount(g.pool[i], c)];
    CountsSplits(g, i, current, c, f);
    if f in Search(g, i + 1, next) {
      NextInBounds(g, i, current, c);
      SearchSound(g, i + 1, next, f);
      PickExtends(g, i, current, c, f);
    } else {
      CountsSound(g, i, current, c + 1, f);
    }
  }

  lemma PickExtends(g: Goal, i: nat, current: seq<ProductCount>, c: nat, f: Found)
    requires i < |g.pool| && 1 <= c <= g.pool[i].stockQty
             && Extends(g, i + 1, current + [ProductCount(g.pool[i], c)], f)
    ensures Extends(g, i, current, f)
  {
    var pc := ProductCount(g.pool[i], c);
    var tail := f.products[|current|..];
    assert f.products[..|current|] == f.products[..|current| + 1][..|current|] == current;
    assert tail[0] == f.products[..|current| + 1][|current|] == pc;
    assert tail[1..] == f.products[|current| + 1..];
  }

  // ---- completeness: pruning loses no fitting selection ----

  ghost predicate NonNegativeWeights(pool: seq<ActiveProduct>) {
    forall p :: p in pool ==> p.unitWeight >= 0.0
  }

  /** The whole selection weighs exactly what stops the search, and its last product adds nothing to that:
      the search has stopped before it gets there. */
  predicate Stranded(g: Goal, sel: seq<ProductCount>) {
    sel != [] && SumWeight(sel) == g.target + g.tol && sel[|sel| - 1].product.unitWeight == 0.0
  }

  lemma {:induction false} TimesNonNegative(n: nat, w: real)
    requires w >= 0.0
    ensures Times(n, w) >= 0.0 && (n > 0 ==> Times(n, w) >= w) && (w == 0.0 ==> Times(n, w) == 0.0)
  {
    if n > 0 {
      TimesNonNegative(n - 1, w);
    }
  }

  lemma {:induction false} TimesMonotone(m: nat, n: nat, w: real)
    requires w >= 0.0 && m <= n
    ensures Times(m, w) <= Times(n, w)
  {
    if m < n {
      TimesMonotone(m, n - 1, w);
    }
  }

  lemma {:induction false} SelectionWeighs(pool: seq<ActiveProduct>, i: nat, sel: seq<ProductCount>)
    requires NonNegativeWeights(pool) && Selects(pool, i, sel)
    ensures SumWeight(sel) >= 0.0 && (sel != [] ==> SumCount(sel) >= 1)
    ensures sel != [] && SumWeight(sel) == 0.0 ==> sel[|sel| - 1].product.unitWeight == 0.0
    decreases |pool| - i
  {
    if sel != [] {
      if Selects(pool, i + 1, sel) {
        SelectionWeighs(pool, i + 1, sel);
      } else {
        SelectionWeighs(pool, i + 1, sel[1..]);
        assert pool[i] in pool;
        TimesNonNegative(sel[0].count, pool[i].unitWeight);
      }
    }
  }

  /** What was recorded beyond `current` got there before its weight reached the limit. */
  lemma {:induction false} SearchNotStopped(g: Goal, i: nat, current: seq<ProductCount>, f: Found)
    requires f in Search(g, i, current)
    ensures f.products == current
            || (f.products != [] && SumWeight(f.products[..|f.products| - 1]) < g.target + g.tol)
    decreases |g.pool| - i, 1, 0
  {
    SearchSplits(g, i, current, f);
    if f in Recorded(g, current) {
    } else if f in Search(g, i + 1, current) {
      SearchNotStopped(g, i + 1, current, f);
    } else {
      CountsNotStopped(g, i, current, 1, f);
    }
  }

  lemma {:induction false} CountsNotStopped(g: Goal, i: nat, current: seq<ProductCount>, c: nat, f: Found)
    requires i < |g.pool| && !Pruned(g, i, current) && f in Counts(g, i, current, c)
    ensures f.products != [] && SumWeight(f.products[..|f.products| - 1]) < g.target + g.tol
    decreases |g.pool| - i, 0, Max(0, g.maxItems + 1 - c)
  {
    var next := current + [ProductCount(g.pool[i], c)];
    CountsSplits(g, i, current, c, f);
    if f in Search(g, i + 1, next) {
      SearchNotStopped(g, i + 1, next, f);
      assert next[..|next| - 1] == current;
    } else {
      CountsNotStopped(g, i, current, c + 1, f);
    }
  }

  lemma StrandedIsNotFound(g: Goal, f: Found)
    requires f in Search(g, 0, []) && f.products != []
    ensures !Stranded(g, f.products)
  {
    var n := |f.products| - 1;
    SearchNotStopped(g, 0, [], f);
    assert f.products == f.products[..n] + [f.products[n]];
    SumsOfSnoc(f.products[..n], f.products[n]);
    if f.products[n].product.unitWeight == 0.0 {
      TimesNonNegative(f.products[n].count, 0.0);
    }
  }

  /** Short of the limit, or with something left that weighs: the search goes on. */
  lemma GoesOn(g: Goal, i: nat, current: seq<ProductCount>, sel: seq<ProductCount>)
    requires NonNegativeWeights(g.pool) && Selects(g.pool, i, sel) && sel != []
    requires Fits(g, current + sel) && !Stranded(g, current + sel)
    ensures !Pruned(g, i, current)
  {
    SumsOfConcat(current, sel);
    SelectionWeighs(g.pool, i, sel);
    assert (current + sel)[|current + sel| - 1] == sel[|sel| - 1];
  }

  lemma {:induction false} SearchComplete(g: Goal, i: nat, current: seq<ProductCount>, sel: seq<ProductCount>, f: Found)
    requires NonNegativeWeights(g.pool) && Selects(g.pool, i, sel) && Fits(g, f.products) && !Stranded(g, f.products)
    requires f.products == current + sel && f.weight == SumWeight(f.products)
    ensures f in Search(g, i, current)
    decreases |g.pool| - i, 1, 0
  {
    SearchSplits(g, i, current, f);
    if sel == [] {
      assert current + sel == current;
      assert f in Recorded(g, current);
    } else {
      GoesOn(g, i, current, sel);
      if Selects(g.pool, i + 1, sel) {
        SearchComplete(g, i + 1, current, sel, f);
      } else {
        PartialCountFits(g, i, current, 1, sel);
        CountsComplete(g, i, current, 1, sel, f);
      }
    }
  }

  lemma NextPick(current: seq<ProductCount>, sel: seq<ProductCount>)
    requires sel != []
    ensures current + [ProductCount(sel[0].product, sel[0].count)] + sel[1..] == current + sel
  {
    assert sel == [sel[0]] + sel[1..];
  }

  lemma {:induction false} CountsComplete(
      g: Goal, i: nat, current: seq<ProductCount>, c: nat, sel: seq<ProductCount>, f: Found)
    requires NonNegativeWeights(g.pool) && Fits(g, f.products) && !Stranded(g, f.products)
    requires f.products == current + sel && f.weight == SumWeight(f.products)
    requires i < |g.pool| && sel != [] && sel[0].product == g.pool[i] && c <= sel[0].count <= g.pool[i].stockQty
    requires Selects(g.pool, i + 1, sel[1..]) && sel[0].count <= g.maxItems
    ensures f in Counts(g, i, current, c)
    decreases |g.pool| - i, 0, g.maxItems + 1 - c
  {
    PartialCountFits(g, i, current, c, sel);
    CountsSplits(g, i, current, c, f);
    if c == sel[0].count {
      NextPick(current, sel);
      SearchComplete(g, i + 1, current + [ProductCount(g.pool[i], c)], sel[1..], f);
    } else {
      CountsComplete(g, i, current, c + 1, sel, f);
    }
  }

  /** A partial count of the next product stays inside every bound the whole selection keeps. */
  lemma PartialCountFits(g: Goal, i: nat, current: seq<ProductCount>, c: nat, sel: seq<ProductCount>)
    requires NonNegativeWeights(g.pool) && Fits(g, current + sel)
    requires i < |g.pool| && sel != [] && sel[0].product == g.pool[i] && c <= sel[0].count <= g.pool[i].stockQty
    requires Selects(g.pool, i + 1, sel[1..])
    ensures !CountStops(g, i, current, c) && |current| < g.maxKinds && sel[0].count <= g.maxItems
  {
    SumsOfConcat(current, sel);
    SumsOfSnoc(current, ProductCount(g.pool[i], c));
    assert g.pool[i] in g.pool;
    SelectionWeighs(g.pool, i + 1, sel[1..]);
    TimesMonotone(c, sel[0].count, g.pool[i].unitWeight);
  }

  // ---- one entry per combination ----

  function Key(sel: seq<ProductCount>): multiset<(ProductId, nat)> {
    if sel == [] then multiset{} else multiset{(sel[0].product.productId, sel[0].count)} + Key(sel[1..])
  }

  predicate Recalls(seen: seq<Found>, f: Found) {
    exists k :: 0 <= k < |seen| && Key(seen[k].products) == Key(f.products)
  }

  /** `seen` after recording `found` in order: the first entry of each key stays. */
  function Merge(seen: seq<Found>, found: seq<Found>): seq<Found>
    decreases |found|
  {
    if found == [] then seen
    else Merge(if Recalls(seen, found[0]) then seen else seen + [found[0]], found[1..])
  }

  lemma {:induction false} MergeConcat(seen: seq<Found>, a: seq<Found>, b: seq<Found>)
    ensures Merge(seen, a + b) == Merge(Merge(seen, a), b)
    decreases |a|
  {
    if a == [] {
      assert a + b == b;
    } else {
      assert (a + b)[1..] == a[1..] + b;
      MergeConcat(if Recalls(seen, a[0]) then seen else seen + [a[0]], a[1..], b);
    }
  }

  lemma {:induction false} MergeMembers(seen: seq<Found>, found: seq<Found>)
    ensures seen <= Merge(seen, found)
    ensures forall f :: f in Merge(seen, found) ==> f in seen || f in found
    ensures forall f :: f in found ==> Recalls(Merge(seen, found), f)
    decreases |found|
  {
    if found != [] {
      var next := if Recalls(seen, found[0]) then seen else seen + [found[0]];
      MergeMembers(next, found[1..]);
      var r := Merge(seen, found);
      assert Recalls(next, found[0]) by {
        if !Recalls(seen, found[0]) {
          assert next[|seen|] == found[0];
        }
      }
      var k :| 0 <= k < |next| && Key(next[k].products) == Key(found[0].products);
      assert r[k] == next[k];
    }
  }

  ghost predicate DistinctIds(pool: seq<ActiveProduct>) {
    forall i, j :: 0 <= i < j < |pool| ==> pool[i].productId != pool[j].productId
  }

  lemma {:induction false} KeyMember(sel: seq<ProductCount>, id: ProductId, n: nat)
    ensures (id, n) in Key(sel) <==> exists k :: 0 <= k < |sel| && sel[k].product.productId == id && sel[k].count == n
  {
    if sel != [] {
      KeyMember(sel[1..], id, n);
      if (id, n) in Key(sel[1..]) {
        var k :| 0 <= k < |sel[1..]| && sel[1..][k].product.productId == id && sel[1..][k].count == n;
        assert sel[k + 1] == sel[1..][k];
      }
      if k :| 0 <= k < |sel| && sel[k].product.productId == id && sel[k].count == n {
        assert k == 0 || sel[1..][k - 1] == sel[k];
      }
    }
  }

  lemma {:induction false} SelectsFromPool(pool: seq<ActiveProduct>, i: nat, sel: seq<ProductCount>, k: nat)
    requires Selects(pool, i, sel) && k < |sel|
    ensures exists j :: i <= j < |pool| && pool[j] == sel[k].product
    ensures 1 <= sel[k].count <= sel[k].product.stockQty
    decreases |pool| - i
  {
    if Selects(pool, i + 1, sel) {
      SelectsFromPool(pool, i + 1, sel, k);
    } else if k > 0 {
      SelectsFromPool(pool, i + 1, sel[1..], k - 1);
    }
  }

  lemma SkipsId(pool: seq<ActiveProduct>, i: nat, sel: seq<ProductCount>, n: nat)
    requires DistinctIds(pool) && i < |pool| && Selects(pool, i + 1, sel)
    ensures (pool[i].productId, n) !in Key(sel)
  {
    KeyMember(sel, pool[i].productId, n);
    if (pool[i].productId, n) in Key(sel) {
      var k :| 0 <= k < |sel| && sel[k].product.productId == pool[i].productId;
      SelectsFromPool(pool, i + 1, sel, k);
    }
  }

  /** In a pool of distinct ids a selection is determined by its key. */
  lemma {:induction false} KeyDetermines(pool: seq<ActiveProduct>, i: nat, a: seq<ProductCount>, b: seq<ProductCount>)
    requires DistinctIds(pool) && Selects(pool, i, a) && Selects(pool, i, b) && Key(a) == Key(b)
    ensures a == b
    decreases |pool| - i
  {
    if i >= |pool| || (Selects(pool, i + 1, a) && Selects(pool, i + 1, b)) {
      if i < |pool| {
        KeyDetermines(pool, i + 1, a, b);
      }
    } else {
      var lead := if Selects(pool, i + 1, a) then b else a;
      var other := if Selects(pool, i + 1, a) then a else b;
      var x := (pool[i].productId, lead[0].count);
      assert x in Key(lead);
      if Selects(pool, i + 1, other) {
        SkipsId(pool, i, other, lead[0].count);
      } else {
        SkipsId(pool, i, lead[1..], other[0].count);
        SkipsId(pool, i, other[1..], lead[0].count);
        assert x in multiset{(pool[i].productId, other[0].count)} + Key(other[1..]);
        assert Key(lead[1..]) == Key(lead) - multiset{x} && Key(other[1..]) == Key(other) - multiset{x};
        KeyDetermines(pool, i + 1, lead[1..], other[1..]);
        assert lead == [lead[0]] + lead[1..] && other == [other[0]] + other[1..];
      }
    }
  }

  function AllFound(g: Goal): seq<Found> { Merge([], Search(g, 0, [])) }

  lemma FoundIsSelection(g: Goal, f: Found)
    requires f in AllFound(g)
    ensures Selects(g.pool, 0, f.products) && Fits(g, f.products) && f.weight == SumWeight(f.products)
    ensures !Stranded(g, f.products)
  {
    MergeMembers([], Search(g, 0, []));
    SearchSound(g, 0, [], f);
    StrandedIsNotFound(g, f);
    assert f.products[0..] == f.products;
  }

  lemma FittingIsFound(g: Goal, sel: seq<ProductCount>)
    requires NonNegativeWeights(g.pool) && DistinctIds(g.pool) && Selects(g.pool, 0, sel) && Fits(g, sel)
             && !Stranded(g, sel)
    ensures exists f :: f in AllFound(g) && f.products == sel && f.weight == SumWeight(sel)
  {
    var want := Found(sel, SumWeight(sel));
    assert [] + sel == sel;
    SearchComplete(g, 0, [], sel, want);
    MergeMembers([], Search(g, 0, []));
    var k :| 0 <= k < |AllFound(g)| && Key(AllFound(g)[k].products) == Key(sel);
    var f := AllFound(g)[k];
    FoundIsSelection(g, f);
    KeyDetermines(g.pool, 0, f.products, sel);
  }

  ghost predicate Fitting(g: Goal, sel: seq<ProductCount>) {
    Selects(g.pool, 0, sel) && Fits(g, sel) && !Stranded(g, sel)
  }

  /** Without occam the search returns exactly the fitting selections, pruning and de-duplication lose none
      and add none, but for a weightless product that comes after the limit was met exactly. */
  lemma SearchExact(g: Goal, sel: seq<ProductCount>)
    requires NonNegativeWeights(g.pool) && DistinctIds(g.pool)
    ensures (exists f :: f in AllFound(g) && f.products == sel && f.weight == SumWeight(sel))
            <==> Selects(g.pool, 0, sel) && Fits(g, sel) && !Stranded(g, sel)
  {
    if f :| f in AllFound(g) && f.products == sel && f.weight == SumWeight(sel) {
      FoundIsSelection(g, f);
    }
    if Fitting(g, sel) {
      FittingIsFound(g, sel);
    }
  }

  /** Positive weights are enough for completeness. */
  lemma PositiveIsComplete(g: Goal, sel: seq<ProductCount>)
    requires (forall p :: p in g.pool ==> p.unitWeight > 0.0) && DistinctIds(g.pool)
    ensures (exists f :: f in AllFound(g) && f.products == sel && f.weight == SumWeight(sel))
            <==> Selects(g.pool, 0, sel) && Fits(g, sel)
  {
    SearchExact(g, sel);
    if Selects(g.pool, 0, sel) && sel != [] {
      SelectsFromPool(g.pool, 0, sel, |sel| - 1);
    }
  }

  // ---- scoring, the count occam and the choice ----

  function ConfOf(candidates: seq<VisionCandidate>, cid: int): Option<real> {
    if candidates == [] then None
    else
      var last := candidates[|candidates| - 1];
      if last.classId == cid then Some(last.confidence) else ConfOf(candidates[..|candidates| - 1], cid)
  }

  function ConfSum(candidates: seq<VisionCandidate>, sel: seq<ProductCount>): real {
    if sel == [] then 0.0
    else
      var conf := ConfOf(candidates, sel[0].product.classId);
      (if conf.Some? then Times(sel[0].count, conf.value) else 0.0) + ConfSum(candidates, sel[1..])
  }

  function Score(candidates: seq<VisionCandidate>, sel: seq<ProductCount>, error: real, tol: real): real {
    var weightScore := if tol > 0.0 then RMax(0.0, 1.0 - error / tol) else 0.0;
    var total := SumCount(sel);
    var visionScore := if total > 0 then ConfSum(candidates, sel) / (total as real) else 0.0;
    var simplicity := RMax(0.0, 1.0 - ((|sel| - 1) as real) * 0.2);
    weightScore * 0.6 + visionScore * 0.3 + simplicity * 0.1
  }

  /** The mean confidence of the units of a selection; a class nobody saw counts nothing. */
  function MeanConf(candidates: seq<VisionCandidate>, sel: seq<ProductCount>): real
    requires SumCount(sel) > 0
  {
    ConfSum(candidates, sel) / SumCount(sel) as real
  }

  /** The sum behind it: what each line adds, its units at the confidence of its class. */
  lemma {:induction false} ConfSumAdds(candidates: seq<VisionCandidate>, sel: seq<ProductCount>, pc: ProductCount)
    ensures var conf := ConfOf(candidates, pc.product.classId);
            ConfSum(candidates, sel + [pc]) ==
              ConfSum(candidates, sel) + if conf.Some? then Times(pc.count, conf.value) else 0.0
  {
    if sel == [] {
      assert sel + [pc] == [pc] && [pc][1..] == [];
    } else {
      assert (sel + [pc])[1..] == sel[1..] + [pc];
      ConfSumAdds(candidates, sel[1..], pc);
    }
  }

  /** What the score trades against what: within the tolerance, 0.6 for the whole of it, 0.3 for full
      confidence, 0.02 for every kind of product. */
  lemma ScoreTrades(
      candidates: seq<VisionCandidate>, a: seq<ProductCount>, ea: real, b: seq<ProductCount>, eb: real, tol: real)
    requires tol > 0.0 && 0.0 <= ea <= tol && 0.0 <= eb <= tol
    requires 1 <= |a| <= 6 && 1 <= |b| <= 6 && SumCount(a) > 0 && SumCount(b) > 0
    ensures Score(candidates, a, ea, tol) - Score(candidates, b, eb, tol) ==
            0.6 * (eb / tol - ea / tol) + 0.3 * (MeanConf(candidates, a) - MeanConf(candidates, b))
            + 0.02 * (|b| - |a|) as real
  {
    QuotientAtMostOne(ea, tol);
    QuotientAtMostOne(eb, tol);
  }

  lemma QuotientAtMostOne(x: real, tol: real)
    requires tol > 0.0 && 0.0 <= x <= tol
    ensures 0.0 <= x / tol <= 1.0
  {
  }

  /** Other things equal, a smaller error, more confidence or fewer kinds scores strictly higher. */
  lemma ScorePrefers(
      candidates: seq<VisionCandidate>, a: seq<ProductCount>, ea: real, b: seq<ProductCount>, eb: real, tol: real)
    requires tol > 0.0 && 0.0 <= ea <= eb <= tol
    requires 1 <= |a| <= |b| <= 6 && SumCount(a) > 0 && SumCount(b) > 0
    requires MeanConf(candidates, a) >= MeanConf(candidates, b)
    ensures Score(candidates, a, ea, tol) >= Score(candidates, b, eb, tol)
    ensures ea < eb || |a| < |b| || MeanConf(candidates, a) > MeanConf(candidates, b) ==>
              Score(candidates, a, ea, tol) > Score(candidates, b, eb, tol)
  {
    ScoreTrades(candidates, a, ea, b, eb, tol);
    QuotientGrows(ea, eb, tol);
  }

  lemma QuotientGrows(x: real, y: real, tol: real)
    requires tol > 0.0 && x <= y
    ensures if x < y then x / tol < y / tol else x / tol == y / tol
  {
  }

  predicate IsSingle(c: Combination) { |c.products| == 1 && c.products[0].count == 1 }

  function BestSingle(cs: seq<Combination>): Option<real> {
    if cs == [] then None
    else
      var rest := BestSingle(cs[1..]);
      if !IsSingle(cs[0]) then rest
      else if rest.None? then Some(cs[0].weightError)
      else Some(RMin(cs[0].weightError, rest.value))
  }

  predicate Survives(best: real, c: Combination) {
    |c.products| != 1 || c.products[0].count == 1 || c.weightError < best
  }

  function OccamFilter(cs: seq<Combination>): seq<Combination> {
    match BestSingle(cs)
    case None => cs
    case Some(best) => Filter(cs, c => Survives(best, c))
  }

  lemma {:induction false} BestSingleIsLeast(cs: seq<Combination>)
    ensures match BestSingle(cs)
            case None => forall c :: c in cs ==> !IsSingle(c)
            case Some(best) =>
              (exists c :: c in cs && IsSingle(c) && c.weightError == best)
              && forall c :: c in cs && IsSingle(c) ==> best <= c.weightError
  {
    if cs != [] {
      BestSingleIsLeast(cs[1..]);
      assert cs == [cs[0]] + cs[1..];
    }
  }

  /** Occam drops exactly the repeated single products that some single unit explains at least as well. */
  lemma OccamExact(cs: seq<Combination>, c: Combination)
    ensures c in OccamFilter(cs) <==>
            c in cs && !(|c.products| == 1 && c.products[0].count != 1
                         && exists s :: s in cs && IsSingle(s) && s.weightError <= c.weightError)
  {
    BestSingleIsLeast(cs);
    if BestSingle(cs).Some? {
      FilterMembers(cs, x => Survives(BestSingle(cs).value, x));
    }
  }

  lemma OccamKeepsSome(cs: seq<Combination>)
    requires cs != []
    ensures OccamFilter(cs) != []
  {
    BestSingleIsLeast(cs);
    if BestSingle(cs).Some? {
      var s :| s in cs && IsSingle(s);
      OccamExact(cs, s);
    }
  }

  lemma {:induction false} FilterAll<T(!new)>(s: seq<T>, p: T -> bool)
    requires forall x :: x in s ==> p(x)
    ensures Filter(s, p) == s
  {
    if s != [] {
      FilterAll(s[1..], p);
      assert s == [s[0]] + s[1..];
    }
  }

  lemma OccamIdempotent(cs: seq<Combination>)
    ensures OccamFilter(OccamFilter(cs)) == OccamFilter(cs)
  {
    var once := OccamFilter(cs);
    BestSingleIsLeast(cs);
    BestSingleIsLeast(once);
    forall c ensures c in once ==> c in cs {
      OccamExact(cs, c);
    }
    if BestSingle(cs).Some? {
      var best := BestSingle(cs).value;
      var s :| s in cs && IsSingle(s) && s.weightError == best;
      OccamExact(cs, s);
      assert BestSingle(once) == Some(best);
      FilterMembers(cs, c => Survives(best, c));
      FilterAll(once, c => Survives(best, c));
    }
  }

  /** Highest score first, then fewer kinds, then smaller error. */
  predicate Preferred(a: Combination, b: Combination) {
    || a.matchScore > b.matchScore
    || (a.matchScore == b.matchScore
        && (|a.products| < |b.products| || (|a.products| == |b.products| && a.weightError <= b.weightError)))
  }

  function Heavier(a: ActiveProduct, b: ActiveProduct): bool { a.unitWeight >= b.unitWeight }

  function PoolFor(candidates: seq<VisionCandidate>, active: seq<ActiveProduct>): seq<ActiveProduct> {
    StableSort(Filter(active, (p: ActiveProduct) => p.stockQty > 0 && ConfOf(candidates, p.classId).Some?), Heavier)
  }

  function GoalFor(
      cfg: MatcherConfig, candidates: seq<VisionCandidate>, delta: real, active: seq<ActiveProduct>, tol: real): Goal
  {
    Goal(PoolFor(candidates, active), Abs(delta), tol, cfg.maxItems, cfg.maxKinds)
  }

  function Scored(candidates: seq<VisionCandidate>, g: Goal, found: seq<Found>): seq<Combination> {
    if found == [] then []
    else
      var error := Abs(found[0].weight - g.target);
      [Combination(found[0].products, error, Score(candidates, found[0].products, error, g.tol))]
      + Scored(candidates, g, found[1..])
  }

  function ValidCombinations(
      cfg: MatcherConfig, candidates: seq<VisionCandidate>, delta: real, active: seq<ActiveProduct>,
      tol: real): seq<Combination>
  {
    if Abs(delta) < tol then []
    else
      var g := GoalFor(cfg, candidates, delta, active, tol);
      var combos := Scored(candidates, g, AllFound(g));
      StableSort(if cfg.countOccam then OccamFilter(combos) else combos, Preferred)
  }

  function Best(
      cfg: MatcherConfig, candidates: seq<VisionCandidate>, delta: real, active: seq<ActiveProduct>,
      tol: real): Option<Combination>
  {
    var combos := ValidCombinations(cfg, candidates, delta, active, tol);
    if combos == [] then None else Some(combos[0])
  }

  lemma BestIsPreferred(
      cfg: MatcherConfig, candidates: seq<VisionCandidate>, delta: real, active: seq<ActiveProduct>, tol: real)
    ensures var combos := ValidCombinations(cfg, candidates, delta, active, tol);
            match Best(cfg, candidates, delta, active, tol)
            case None => combos == []
            case Some(b) =>
              b in combos && forall c :: c in combos ==>
                && c.matchScore <= b.matchScore
                && (c.matchScore == b.matchScore ==> |b.products| <= |c.products|)
                && (c.matchScore == b.matchScore && |c.products| == |b.products| ==> b.weightError <= c.weightError)
  {
    if Abs(delta) >= tol {
      var g := GoalFor(cfg, candidates, delta, active, tol);
      var raw := Scored(candidates, g, AllFound(g));
      StableSortSorts(if cfg.countOccam then OccamFilter(raw) else raw, Preferred);
    }
  }

  lemma {:induction false} ScoredFrom(candidates: seq<VisionCandidate>, g: Goal, found: seq<Found>, c: Combination)
    requires c in Scored(candidates, g, found)
    ensures exists f :: f in found && f.products == c.products && c.weightError == Abs(f.weight - g.target)
  {
    if c != Scored(candidates, g, found)[0] {
      ScoredFrom(candidates, g, found[1..], c);
    }
  }

  lemma {:induction false} ScoredByScore(candidates: seq<VisionCandidate>, g: Goal, found: seq<Found>, c: Combination)
    requires c in Scored(candidates, g, found)
    ensures c.matchScore == Score(candidates, c.products, c.weightError, g.tol)
  {
    if c != Scored(candidates, g, found)[0] {
      ScoredByScore(candidates, g, found[1..], c);
    }
  }

  /** Every combination listed carries its score. */
  lemma ListedByScore(
      cfg: MatcherConfig, candidates: seq<VisionCandidate>, delta: real, active: seq<ActiveProduct>, tol: real,
      c: Combination)
    requires c in ValidCombinations(cfg, candidates, delta, active, tol)
    ensures c.matchScore == Score(candidates, c.products, c.weightError, tol)
  {
    var g := GoalFor(cfg, candidates, delta, active, tol);
    ListedIsRaw(cfg, candidates, delta, active, tol, c);
    ScoredByScore(candidates, g, AllFound(g), c);
  }

  ghost predicate Seen(candidates: seq<VisionCandidate>, cid: int) { exists c :: c in candidates && c.classId == cid }

  /** The confidence of a class is that of the last candidate listed with it. */
  lemma {:induction false} ConfOfLast(candidates: seq<VisionCandidate>, k: nat)
    requires k < |candidates| && forall j :: k < j < |candidates| ==> candidates[j].classId != candidates[k].classId
    ensures ConfOf(candidates, candidates[k].classId) == Some(candidates[k].confidence)
  {
    var n := |candidates| - 1;
    if k < n {
      ConfOfLast(candidates[..n], k);
    }
  }

  lemma {:induction false} ConfOfSeen(candidates: seq<VisionCandidate>, cid: int)
    ensures ConfOf(candidates, cid).Some? <==> Seen(candidates, cid)
  {
    if candidates != [] {
      var n := |candidates| - 1;
      assert candidates == candidates[..n] + [candidates[n]];
      ConfOfSeen(candidates[..n], cid);
    }
  }

  /** A product may be billed `count` times: it is on sale and in stock that often. */
  predicate InStock(active: seq<ActiveProduct>, pc: ProductCount) {
    pc.product in active && 1 <= pc.count <= pc.product.stockQty
  }

  /** Every combination listed is a selection that fits, priced by its own error. */
  lemma ListedFits(
      cfg: MatcherConfig, candidates: seq<VisionCandidate>, delta: real, active: seq<ActiveProduct>, tol: real,
      c: Combination)
    requires c in ValidCombinations(cfg, candidates, delta, active, tol)
    ensures var g := GoalFor(cfg, candidates, delta, active, tol);
            Fitting(g, c.products) && c.weightError == Abs(SumWeight(c.products) - g.target)
  {
    var g := GoalFor(cfg, candidates, delta, active, tol);
    ListedIsRaw(cfg, candidates, delta, active, tol, c);
    RawIsFitting(candidates, g, c);
  }

  lemma ListedIsRaw(
      cfg: MatcherConfig, candidates: seq<VisionCandidate>, delta: real, active: seq<ActiveProduct>, tol: real,
      c: Combination)
    requires c in ValidCombinations(cfg, candidates, delta, active, tol)
    ensures var g := GoalFor(cfg, candidates, delta, active, tol); c in Scored(candidates, g, AllFound(g))
  {
    var g := GoalFor(cfg, candidates, delta, active, tol);
    var raw := Scored(candidates, g, AllFound(g));
    SortMembers(if cfg.countOccam then OccamFilter(raw) else raw, Preferred);
    OccamExact(raw, c);
  }

  lemma RawIsFitting(candidates: seq<VisionCandidate>, g: Goal, c: Combination)
    requires c in Scored(candidates, g, AllFound(g))
    ensures Fitting(g, c.products) && c.weightError == Abs(SumWeight(c.products) - g.target)
  {
    ScoredFrom(candidates, g, AllFound(g), c);
    var f :| f in AllFound(g) && f.products == c.products && c.weightError == Abs(f.weight - g.target);
    FoundIsSelection(g, f);
  }

  /** The chosen combination bills in-stock, vision-seen products and weighs within tolerance of the target. */
  lemma BestIsValid(
      cfg: MatcherConfig, candidates: seq<VisionCandidate>, delta: real, active: seq<ActiveProduct>, tol: real)
    ensures match Best(cfg, candidates, delta, active, tol)
            case None => true
            case Some(b) =>
              && b.products != [] && Abs(SumWeight(b.products) - Abs(delta)) <= tol
              && |b.products| <= cfg.maxKinds && SumCount(b.products) <= cfg.maxItems
              && forall pc :: pc in b.products ==> InStock(active, pc) && Seen(candidates, pc.product.classId)
  {
    var combos := ValidCombinations(cfg, candidates, delta, active, tol);
    if combos != [] {
      var b := combos[0];
      ListedFits(cfg, candidates, delta, active, tol, b);
      forall pc | pc in b.products ensures InStock(active, pc) && Seen(candidates, pc.product.classId) {
        var k :| 0 <= k < |b.products| && b.products[k] == pc;
        SelectsFromPool(PoolFor(candidates, active), 0, b.products, k);
        PoolMembers(candidates, active, pc.product);
      }
    }
  }

  lemma PoolMembers(candidates: seq<VisionCandidate>, active: seq<ActiveProduct>, p: ActiveProduct)
    ensures p in PoolFor(candidates, active) <==> p in active && p.stockQty > 0 && Seen(candidates, p.classId)
  {
    var keep := (p: ActiveProduct) => p.stockQty > 0 && ConfOf(candidates, p.classId).Some?;
    SortMembers(Filter(active, keep), Heavier);
    FilterMembers(active, keep);
    ConfOfSeen(candidates, p.classId);
  }

  // ---- the listed combinations, exactly ----

  lemma ConsDistinct(x: ActiveProduct, t: seq<ActiveProduct>)
    requires DistinctIds(t) && forall p :: p in t ==> p.productId != x.productId
    ensures DistinctIds([x] + t)
  {
    forall i, j | 0 <= i < j < |[x] + t| ensures ([x] + t)[i].productId != ([x] + t)[j].productId {
      assert ([x] + t)[j] == t[j - 1] && t[j - 1] in t;
    }
  }

  lemma HeadDiffers(s: seq<ActiveProduct>)
    requires DistinctIds(s) && s != []
    ensures DistinctIds(s[1..]) && forall p :: p in s[1..] ==> p.productId != s[0].productId
  {
    forall p | p in s[1..] ensures p.productId != s[0].productId {
      var k :| 0 <= k < |s[1..]| && s[1..][k] == p;
      assert s[k + 1] == p;
    }
  }

  lemma {:induction false} FilterDistinct(s: seq<ActiveProduct>, p: ActiveProduct -> bool)
    requires DistinctIds(s)
    ensures DistinctIds(Filter(s, p))
  {
    if s != [] {
      FilterDistinct(s[1..], p);
      FilterMembers(s[1..], p);
      HeadDiffers(s);
      if p(s[0]) {
        ConsDistinct(s[0], Filter(s[1..], p));
      }
    }
  }

  lemma {:induction false} InsertDistinct(x: ActiveProduct, s: seq<ActiveProduct>)
    requires DistinctIds(s) && forall p :: p in s ==> p.productId != x.productId
    ensures DistinctIds(Insert(x, s, Heavier))
  {
    if s != [] && !Heavier(x, s[0]) {
      InsertDistinct(x, s[1..]);
      InsertMembers(x, s[1..], Heavier);
      HeadDiffers(s);
      ConsDistinct(s[0], Insert(x, s[1..], Heavier));
    } else {
      ConsDistinct(x, s);
    }
  }

  lemma {:induction false} SortDistinct(s: seq<ActiveProduct>)
    requires DistinctIds(s)
    ensures DistinctIds(StableSort(s, Heavier))
  {
    if s != [] {
      SortDistinct(s[1..]);
      SortMembers(s[1..], Heavier);
      HeadDiffers(s);
      InsertDistinct(s[0], StableSort(s[1..], Heavier));
    }
  }

  lemma {:induction false} ScoredTo(candidates: seq<VisionCandidate>, g: Goal, found: seq<Found>, f: Found)
    requires f in found
    ensures exists c :: c in Scored(candidates, g, found)
                        && c.products == f.products && c.weightError == Abs(f.weight - g.target)
  {
    if f == found[0] {
      assert Scored(candidates, g, found)[0].products == f.products;
    } else {
      ScoredTo(candidates, g, found[1..], f);
      var c :| c in Scored(candidates, g, found[1..]) && c.products == f.products
        && c.weightError == Abs(f.weight - g.target);
      assert c in Scored(candidates, g, found);
    }
  }

  /** A repeated single product that one unit of something explains at least as well. */
  ghost predicate Undercut(g: Goal, sel: seq<ProductCount>) {
    && |sel| == 1 && sel[0].count != 1
    && exists p: ActiveProduct ::
         Fitting(g, [ProductCount(p, 1)])
           && Abs(SumWeight([ProductCount(p, 1)]) - g.target) <= Abs(SumWeight(sel) - g.target)
  }

  lemma {:induction false} RawExact(candidates: seq<VisionCandidate>, g: Goal, sel: seq<ProductCount>)
    requires NonNegativeWeights(g.pool) && DistinctIds(g.pool)
    ensures (exists c :: c in Scored(candidates, g, AllFound(g)) && c.products == sel
                         && c.weightError == Abs(SumWeight(sel) - g.target))
            <==> Fitting(g, sel)
    ensures forall c :: c in Scored(candidates, g, AllFound(g)) ==>
              Fitting(g, c.products) && c.weightError == Abs(SumWeight(c.products) - g.target)
  {
    forall c | c in Scored(candidates, g, AllFound(g))
      ensures Fitting(g, c.products) && c.weightError == Abs(SumWeight(c.products) - g.target)
    {
      RawIsFitting(candidates, g, c);
    }
    SearchExact(g, sel);
    if Fitting(g, sel) {
      var f :| f in AllFound(g) && f.products == sel && f.weight == SumWeight(sel);
      ScoredTo(candidates, g, AllFound(g), f);
    }
  }

  /** With distinct ids and no negative unit weight: exactly the fitting selections are listed, less,
      when occam is on, the undercut ones. */
  lemma ListedExactly(
      cfg: MatcherConfig, candidates: seq<VisionCandidate>, delta: real, active: seq<ActiveProduct>, tol: real,
      sel: seq<ProductCount>)
    requires DistinctIds(active) && NonNegativeWeights(active)
    ensures var g := GoalFor(cfg, candidates, delta, active, tol);
            (exists c :: c in ValidCombinations(cfg, candidates, delta, active, tol) && c.products == sel)
            <==> Abs(delta) >= tol && Fitting(g, sel) && !(cfg.countOccam && Undercut(g, sel))
  {
    var g := GoalFor(cfg, candidates, delta, active, tol);
    FilterDistinct(active, (p: ActiveProduct) => p.stockQty > 0 && ConfOf(candidates, p.classId).Some?);
    SortDistinct(Filter(active, (p: ActiveProduct) => p.stockQty > 0 && ConfOf(candidates, p.classId).Some?));
    forall p | p in g.pool ensures p.unitWeight >= 0.0 {
      PoolMembers(candidates, active, p);
    }
    var raw := Scored(candidates, g, AllFound(g));
    SortMembers(if cfg.countOccam then OccamFilter(raw) else raw, Preferred);
    RawExact(candidates, g, sel);
    UndercutIsDropped(candidates, g, sel);
    if Fitting(g, sel) {
      var c :| c in raw && c.products == sel && c.weightError == Abs(SumWeight(sel) - g.target);
      OccamExact(raw, c);
    }
    if c :| c in OccamFilter(raw) && c.products == sel {
      OccamExact(raw, c);
    }
  }

  lemma {:induction false} UndercutIsDropped(candidates: seq<VisionCandidate>, g: Goal, sel: seq<ProductCount>)
    requires NonNegativeWeights(g.pool) && DistinctIds(g.pool)
    ensures var raw := Scored(candidates, g, AllFound(g));
            Undercut(g, sel) <==>
            |sel| == 1 && sel[0].count != 1
            && exists s :: s in raw && IsSingle(s) && s.weightError <= Abs(SumWeight(sel) - g.target)
  {
    var raw := Scored(candidates, g, AllFound(g));
    RawExact(candidates, g, sel);
    if s :| s in raw && IsSingle(s) && s.weightError <= Abs(SumWeight(sel) - g.target) {
      assert s.products == [ProductCount(s.products[0].product, 1)];
    }
    if Undercut(g, sel) {
      var p :| Fitting(g, [ProductCount(p, 1)])
        && Abs(SumWeight([ProductCount(p, 1)]) - g.target) <= Abs(SumWeight(sel) - g.target);
      RawExact(candidates, g, [ProductCount(p, 1)]);
    }
  }

  /** A pair that fits and is not listed: with tolerance 5, one unit of 15 g meets the limit for a change of
      10 g exactly, so a weightless product that was seen as well can no longer join. */
  lemma WeightlessIsLost(cfg: MatcherConfig)
    requires cfg.maxItems >= 2 && cfg.maxKinds >= 2
    ensures exists active: seq<ActiveProduct>, candidates: seq<VisionCandidate>, sel: seq<ProductCount> ::
              var g := GoalFor(cfg, candidates, -10.0, active, 5.0);
              && DistinctIds(active) && Selects(g.pool, 0, sel) && Fits(g, sel)
              && forall c :: c in ValidCombinations(cfg, candidates, -10.0, active, 5.0) ==> c.products != sel
  {
    var a, b := ActiveProduct(1, 1, 15.0, 0, 1), ActiveProduct(2, 2, 0.0, 0, 1);
    var active, candidates := [a, b], [VisionCandidate(1, 1.0, 9, 1.0), VisionCandidate(2, 1.0, 9, 1.0)];
    var sel := [ProductCount(a, 1), ProductCount(b, 1)];
    var g := GoalFor(cfg, candidates, -10.0, active, 5.0);
    TwoProductPool(candidates, a, b);
    TwoProductPair(g, a, b, sel);
    ListedExactly(cfg, candidates, -10.0, active, 5.0, sel);
  }

  lemma PairIsSorted(a: ActiveProduct, b: ActiveProduct)
    requires Heavier(a, b)
    ensures StableSort([a, b], Heavier) == [a, b]
  {
    assert [a, b][1..] == [b] && [b][1..] == [];
    assert StableSort([b], Heavier) == Insert(b, [], Heavier) == [b];
    assert StableSort([a, b], Heavier) == Insert(a, [b], Heavier);
  }

  lemma TwoProductPool(candidates: seq<VisionCandidate>, a: ActiveProduct, b: ActiveProduct)
    requires a.stockQty > 0 && b.stockQty > 0 && Heavier(a, b)
    requires Seen(candidates, a.classId) && Seen(candidates, b.classId)
    ensures PoolFor(candidates, [a, b]) == [a, b]
  {
    ConfOfSeen(candidates, a.classId);
    ConfOfSeen(candidates, b.classId);
    FilterAll([a, b], (p: ActiveProduct) => p.stockQty > 0 && ConfOf(candidates, p.classId).Some?);
    PairIsSorted(a, b);
  }

  lemma TwoProductPair(g: Goal, a: ActiveProduct, b: ActiveProduct, sel: seq<ProductCount>)
    requires g.pool == [a, b] && g.target == 10.0 && g.tol == 5.0 && g.maxItems >= 2 && g.maxKinds >= 2
    requires a.unitWeight == 15.0 && b.unitWeight == 0.0 && a.stockQty >= 1 && b.stockQty >= 1
    requires sel == [ProductCount(a, 1), ProductCount(b, 1)]
    ensures Selects(g.pool, 0, sel) && Fits(g, sel) && Stranded(g, sel)
  {
    assert Times(1, 15.0) == 15.0 && Times(1, 0.0) == 0.0;
    assert sel[1..] == [ProductCount(b, 1)] && sel[1..][1..] == [];
    assert SumWeight(sel[1..]) == 0.0 && SumCount(sel[1..]) == 1;
    assert SumWeight(sel) == 15.0 && SumCount(sel) == 2;
    assert Selects(g.pool, 2, []) && Selects(g.pool, 1, sel[1..]);
  }

  // ---- the recursion over a shared dictionary ----

  lemma MergeSearch(g: Goal, seen: seq<Found>, i: nat, current: seq<ProductCount>)
    ensures var recorded := Merge(seen, Recorded(g, current));
            Merge(seen, Search(g, i, current)) ==
            if Pruned(g, i, current) then recorded
            else
              var skipped := Merge(recorded, Search(g, i + 1, current));
              if |current| >= g.maxKinds then skipped else Merge(skipped, Counts(g, i, current, 1))
  {
    var skip := Search(g, i + 1, current);
    var counts := if |current| >= g.maxKinds || i >= |g.pool| then [] else Counts(g, i, current, 1);
    var rest := if Pruned(g, i, current) then [] else skip + counts;
    assert Search(g, i, current) == Recorded(g, current) + rest;
    MergeConcat(seen, Recorded(g, current), rest);
    MergeConcat(Merge(seen, Recorded(g, current)), skip, counts);
  }

  class StrictSearch {
    const goal: Goal
    var seen: seq<Found>  // dictionary in insertion order, keyed by `Key`

    constructor (goal: Goal)
      ensures this.goal == goal && seen == []
    {
      this.goal := goal;
      seen := [];
    }

    method Record(current: seq<ProductCount>, weight: real)
      requires weight == SumWeight(current)
      modifies this
      ensures seen == Merge(old(seen), Recorded(goal, current))
    {
      if current != [] && Abs(weight - goal.target) <= goal.tol {
        var f := Found(current, weight);
        assert [f][1..] == [];
        if !Recalls(seen, f) {
          seen := seen + [f];
        }
      }
    }

    method Rec(i: nat, current: seq<ProductCount>, weight: real, items: nat, kinds: nat)
      requires weight == SumWeight(current) && items == SumCount(current) && kinds == |current|
      modifies this
      ensures seen == Merge(old(seen), Search(goal, i, current))
      decreases |goal.pool| - i
    {
      MergeSearch(goal, seen, i, current);
      Record(current, weight);
      if i >= |goal.pool| || weight >= goal.target + goal.tol || items >= goal.maxItems {
        return;
      }
      Rec(i + 1, current, weight, items, kinds);
      if kinds >= goal.maxKinds {
        return;
      }
      TryCounts(i, current, weight, items, kinds);
    }

    method TryCounts(i: nat, current: seq<ProductCount>, weight: real, items: nat, kinds: nat)
      requires i < |goal.pool|
      requires weight == SumWeight(current) && items == SumCount(current) < goal.maxItems && kinds == |current|
      modifies this
      ensures seen == Merge(old(seen), Counts(goal, i, current, 1))
      decreases |goal.pool| - i, 0
    {
      var p := goal.pool[i];
      var most := Min(p.stockQty, goal.maxItems - items);
      ghost var start := seen;
      var c := 1;
      while c <= most
        invariant c >= 1
        invariant Merge(seen, Counts(goal, i, current, c)) == Merge(start, Counts(goal, i, current, 1))
        decreases most - c
      {
        var w := weight + Times(c, p.unitWeight);
        SumsOfSnoc(current, ProductCount(p, c));
        if w > goal.target + goal.tol {
          break;
        }
        MergeConcat(seen, Search(goal, i + 1, current + [ProductCount(p, c)]), Counts(goal, i, current, c + 1));
        Rec(i + 1, current + [ProductCount(p, c)], w, items + c, kinds + 1);
        c := c + 1;
      }
      assert Counts(goal, i, current, c) == [];
    }
  }

  method FindValidCombinations(
      cfg: MatcherConfig, candidates: seq<VisionCandidate>, delta: real, active: seq<ActiveProduct>, tol: real)
    returns (combos: seq<Combination>)
    ensures combos == ValidCombinations(cfg, candidates, delta, active, tol)
  {
    if Abs(delta) < tol {
      return [];
    }
    var g := GoalFor(cfg, candidates, delta, active, tol);
    var search := new StrictSearch(g);
    search.Rec(0, [], 0.0, 0, 0);
    var found := search.seen;
    combos := [];
    for k := 0 to |found|
      invariant combos == Scored(candidates, g, found[..k])
    {
      var f := found[k];
      var error := Abs(f.weight - g.target);
      ScoredSnoc(candidates, g, found[..k], f);
      assert found[..k + 1] == found[..k] + [f];
      combos := combos + [Combination(f.products, error, Score(candidates, f.products, error, tol))];
    }
    assert found[..|found|] == found;
    if cfg.countOccam {
      combos := OccamFilter(combos);
    }
    combos := StableSort(combos, Preferred);
  }

  lemma {:induction false} ScoredSnoc(candidates: seq<VisionCandidate>, g: Goal, found: seq<Found>, f: Found)
    ensures var error := Abs(f.weight - g.target);
            Scored(candidates, g, found + [f]) ==
            Scored(candidates, g, found) + [Combination(f.products, error, Score(candidates, f.products, error, g.tol))]
  {
    if found == [] {
      assert [] + [f] == [f] && [f][1..] == [];
    } else {
      assert (found + [f])[1..] == found[1..] + [f];
      ScoredSnoc(candidates, g, found[1..], f);
    }
  }
}
