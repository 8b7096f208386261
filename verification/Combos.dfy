/** The freezer's multi-identity combination: the top identity plus the fewest others whose counts
    explain the weight. A backtracking enumeration, proved exact, and the choice over it. */
module Combos {
  import opened Types

  datatype Ident = Ident(product: ActiveProduct, cand: VisionCandidate)

  datatype AllocGoal = AllocGoal(target: real, gate: real, maxTotal: nat)

  datatype Combo = Combo(subset: seq<Ident>, alloc: seq<nat>, residual: real)

  // ---- counts for a fixed list of products ----

  function Total(counts: seq<nat>): nat {
    if counts == [] then 0 else Total(counts[..|counts| - 1]) + counts[|counts| - 1]
  }

  function AllocWeight(ps: seq<ActiveProduct>, counts: seq<nat>): real
    requires |counts| <= |ps|
  {
    if counts == [] then 0.0
    else
      var n := |counts| - 1;
      AllocWeight(ps, counts[..n]) + Times(counts[n], ps[n].unitWeight)
  }

  predicate Explains(g: AllocGoal, ps: seq<ActiveProduct>, counts: seq<nat>)
    requires |counts| <= |ps|
  {
    Abs(g.target - AllocWeight(ps, counts)) <= g.gate
  }

  /** All allocations that extend `counts`, in the order the backtracking yields them. */
  function Allocs(g: AllocGoal, ps: seq<ActiveProduct>, counts: seq<nat>): seq<seq<nat>>
    requires |counts| <= |ps|
    decreases |ps| - |counts|, 1, 0
  {
    if |counts| == |ps| then (if Explains(g, ps, counts) then [counts] else [])
    else AllocsFrom(g, ps, counts, 1)
  }

  predicate AllocStops(g: AllocGoal, ps: seq<ActiveProduct>, counts: seq<nat>, c: nat)
    requires |counts| < |ps|
  {
    || c > ps[|counts|].stockQty
    || AllocWeight(ps, counts + [c]) > g.target + g.gate
    || Total(counts + [c]) > g.maxTotal
  }

  function AllocsFrom(g: AllocGoal, ps: seq<ActiveProduct>, counts: seq<nat>, c: nat): seq<seq<nat>>
    requires |counts| < |ps|
    decreases |ps| - |counts|, 0, Max(0, ps[|counts|].stockQty + 1 - c)
  {
    if AllocStops(g, ps, counts, c) then [] else Allocs(g, ps, counts + [c]) + AllocsFrom(g, ps, counts, c + 1)
  }

  /** Every count within stock, the total within the item bound. */
  ghost predicate Bounded(g: AllocGoal, ps: seq<ActiveProduct>, counts: seq<nat>) {
    && |counts| <= |ps| && Total(counts) <= g.maxTotal
    && forall i :: 0 <= i < |counts| ==> 1 <= counts[i] <= ps[i].stockQty
  }

  ghost predicate ValidAlloc(g: AllocGoal, ps: seq<ActiveProduct>, a: seq<nat>) {
    |a| == |ps| && Bounded(g, ps, a) && Explains(g, ps, a)
  }

  lemma TotalSnoc(counts: seq<nat>, c: nat)
    ensures Total(counts + [c]) == Total(counts) + c
  {
    assert (counts + [c])[..|counts|] == counts;
  }

  lemma AllocWeightSnoc(ps: seq<ActiveProduct>, counts: seq<nat>, c: nat)
    requires |counts| < |ps|
    ensures AllocWeight(ps, counts + [c]) == AllocWeight(ps, counts) + Times(c, ps[|counts|].unitWeight)
  {
    assert (counts + [c])[..|counts|] == counts;
  }

  lemma {:induction false} AllocsSound(g: AllocGoal, ps: seq<ActiveProduct>, counts: seq<nat>, a: seq<nat>)
    requires Bounded(g, ps, counts) && a in Allocs(g, ps, counts)
    ensures ValidAlloc(g, ps, a) && counts <= a
    decreases |ps| - |counts|, 1, 0
  {
    if |counts| < |ps| {
      AllocsFromSound(g, ps, counts, 1, a);
    }
  }

  lemma {:induction false} AllocsFromSound(g: AllocGoal, ps: seq<ActiveProduct>, counts: seq<nat>, c: nat, a: seq<nat>)
    requires |counts| < |ps| && c >= 1 && Bounded(g, ps, counts) && a in AllocsFrom(g, ps, counts, c)
    ensures ValidAlloc(g, ps, a) && counts <= a
    decreases |ps| - |counts|, 0, Max(0, ps[|counts|].stockQty + 1 - c)
  {
    if a in Allocs(g, ps, counts + [c]) {
      AllocsSound(g, ps, counts + [c], a);
    } else {
      AllocsFromSound(g, ps, counts, c + 1, a);
    }
  }

  ghost predicate Positive(ps: seq<ActiveProduct>) { forall p :: p in ps ==> p.unitWeight > 0.0 }

  lemma {:induction false} TimesGrows(m: nat, n: nat, w: real)
    requires w > 0.0 && m <= n
    ensures 0.0 <= Times(m, w) <= Times(n, w)
  {
    if n > 0 {
      TimesGrows(if m == n then m - 1 else m, n - 1, w);
    }
  }

  /** With positive weights a prefix, even with a smaller last count, weighs and counts no more. */
  lemma {:induction false} PrefixIsLess(ps: seq<ActiveProduct>, a: seq<nat>, n: nat, c: nat)
    requires Positive(ps) && n < |a| <= |ps| && c <= a[n]
    ensures AllocWeight(ps, a[..n] + [c]) <= AllocWeight(ps, a)
    ensures Total(a[..n] + [c]) <= Total(a)
    decreases |a|
  {
    var m := |a| - 1;
    assert ps[m] in ps && ps[n] in ps;
    AllocWeightSnoc(ps, a[..n], c);
    TotalSnoc(a[..n], c);
    if n == m {
      TimesGrows(c, a[n], ps[n].unitWeight);
    } else {
      assert a[..m][..n] == a[..n];
      PrefixIsLess(ps, a[..m], n, c);
      TimesGrows(0, a[m], ps[m].unitWeight);
    }
  }

  lemma {:induction false} AllocsComplete(g: AllocGoal, ps: seq<ActiveProduct>, counts: seq<nat>, a: seq<nat>)
    requires Positive(ps) && ValidAlloc(g, ps, a) && counts <= a
    ensures a in Allocs(g, ps, counts)
    decreases |ps| - |counts|, 1, 0
  {
    if |counts| < |ps| {
      AllocsFromComplete(g, ps, counts, 1, a);
    } else {
      assert counts == a;
    }
  }

  lemma {:induction false} AllocsFromComplete(
      g: AllocGoal, ps: seq<ActiveProduct>, counts: seq<nat>, c: nat, a: seq<nat>)
    requires |counts| < |ps| && Positive(ps) && ValidAlloc(g, ps, a) && counts <= a && c <= a[|counts|]
    ensures a in AllocsFrom(g, ps, counts, c)
    decreases |ps| - |counts|, 0, Max(0, ps[|counts|].stockQty + 1 - c)
  {
    assert a[..|counts|] == counts;
    PrefixIsLess(ps, a, |counts|, c);
    assert !AllocStops(g, ps, counts, c);
    if c == a[|counts|] {
      assert counts + [c] <= a;
      AllocsComplete(g, ps, counts + [c], a);
    } else {
      AllocsFromComplete(g, ps, counts, c + 1, a);
    }
  }

  /** The pruned backtracking yields exactly the valid allocations. */
  lemma AllocsExact(g: AllocGoal, ps: seq<ActiveProduct>, a: seq<nat>)
    requires Positive(ps)
    ensures a in Allocs(g, ps, []) <==> ValidAlloc(g, ps, a)
  {
    if a in Allocs(g, ps, []) {
      AllocsSound(g, ps, [], a);
    }
    if ValidAlloc(g, ps, a) {
      AllocsComplete(g, ps, [], a);
    }
  }

  // ---- which identities ----

  ghost predicate IsSub(s: seq<Ident>, t: seq<Ident>) {
    t == [] || (s != [] && ((t[0] == s[0] && IsSub(s[1..], t[1..])) || IsSub(s[1..], t)))
  }

  function Prefixed(x: Ident, ts: seq<seq<Ident>>): seq<seq<Ident>> {
    if ts == [] then [] else [[x] + ts[0]] + Prefixed(x, ts[1..])
  }

  /** `itertools.combinations(s, k)`. */
  function Combinations(s: seq<Ident>, k: nat): seq<seq<Ident>>
    decreases |s|
  {
    if k == 0 then [[]]
    else if s == [] then []
    else Prefixed(s[0], Combinations(s[1..], k - 1)) + Combinations(s[1..], k)
  }

  lemma {:induction false} PrefixedMember(x: Ident, ts: seq<seq<Ident>>, t: seq<Ident>)
    ensures t in Prefixed(x, ts) <==> t != [] && t[0] == x && t[1..] in ts
  {
    if ts != [] {
      PrefixedMember(x, ts[1..], t);
      assert ts == [ts[0]] + ts[1..];
      assert ([x] + ts[0])[1..] == ts[0];
      assert t != [] && t[0] == x && t[1..] == ts[0] ==> t == [x] + ts[0];
    }
  }

  lemma {:induction false} CombinationsExact(s: seq<Ident>, k: nat, t: seq<Ident>)
    ensures t in Combinations(s, k) <==> IsSub(s, t) && |t| == k
    decreases |s|
  {
    if k > 0 && s != [] {
      PrefixedMember(s[0], Combinations(s[1..], k - 1), t);
      CombinationsExact(s[1..], k, t);
      if t != [] {
        CombinationsExact(s[1..], k - 1, t[1..]);
      }
    }
  }

  // ---- the combination chosen ----

  function Products(subset: seq<Ident>): (ps: seq<ActiveProduct>)
    ensures |ps| == |subset|
  {
    seq(|subset|, i requires 0 <= i < |subset| => subset[i].product)
  }

  function Votes(subset: seq<Ident>): int {
    if subset == [] then 0 else subset[0].cand.voteCount + Votes(subset[1..])
  }

  function ComboFor(g: AllocGoal, subset: seq<Ident>, a: seq<nat>): Combo
    requires |a| == |subset|
  {
    Combo(subset, a, Abs(g.target - AllocWeight(Products(subset), a)))
  }

  /** The combinations of one subset, in order. */
  function Of(g: AllocGoal, subset: seq<Ident>, allocs: seq<seq<nat>>): seq<Combo>
    requires forall a :: a in allocs ==> |a| == |subset|
  {
    if allocs == [] then []
    else [ComboFor(g, subset, allocs[0])] + Of(g, subset, allocs[1..])
  }

  function CombosOf(g: AllocGoal, subset: seq<Ident>): seq<Combo> {
    AllocLengths(g, Products(subset), []);
    Of(g, subset, Allocs(g, Products(subset), []))
  }

  lemma {:induction false} AllocLengths(g: AllocGoal, ps: seq<ActiveProduct>, counts: seq<nat>)
    requires |counts| <= |ps|
    ensures forall a :: a in Allocs(g, ps, counts) ==> |a| == |ps|
    decreases |ps| - |counts|, 1, 0
  {
    if |counts| < |ps| {
      AllocsFromLengths(g, ps, counts, 1);
    }
  }

  lemma {:induction false} AllocsFromLengths(g: AllocGoal, ps: seq<ActiveProduct>, counts: seq<nat>, c: nat)
    requires |counts| < |ps|
    ensures forall a :: a in AllocsFrom(g, ps, counts, c) ==> |a| == |ps|
    decreases |ps| - |counts|, 0, Max(0, ps[|counts|].stockQty + 1 - c)
  {
    if !AllocStops(g, ps, counts, c) {
      AllocLengths(g, ps, counts + [c]);
      AllocsFromLengths(g, ps, counts, c + 1);
    }
  }

  /** The top identity joined to each tail, all combinations in order. */
  function CombosOfTails(g: AllocGoal, top: Ident, tails: seq<seq<Ident>>): seq<Combo> {
    if tails == [] then [] else CombosOfTails(g, top, tails[..|tails| - 1]) + CombosOf(g, [top] + tails[|tails| - 1])
  }

  function CombosOfSize(g: AllocGoal, top: Ident, rest: seq<Ident>, k: nat): seq<Combo>
    requires k >= 1
  {
    CombosOfTails(g, top, Combinations(rest, k - 1))
  }

  /** Smaller residual, then more votes. */
  predicate Better(a: Combo, b: Combo) {
    a.residual < b.residual || (a.residual == b.residual && Votes(a.subset) > Votes(b.subset))
  }

  /** The first of the best. */
  function Least(cs: seq<Combo>): (c: Combo)
    requires cs != []
    ensures c in cs && forall x :: x in cs ==> !Better(x, c)
  {
    var n := |cs| - 1;
    if n == 0 then cs[0]
    else
      assert cs == cs[..n] + [cs[n]];
      var best := Least(cs[..n]);
      if Better(cs[n], best) then cs[n] else best
  }

  /** The first size, from `k` on, that has a combination decides. */
  function BestFrom(g: AllocGoal, top: Ident, rest: seq<Ident>, k: nat, most: int): Option<Combo>
    requires k >= 1
    decreases Max(0, most + 1 - k)
  {
    if k > most then None
    else
      var cs := CombosOfSize(g, top, rest, k);
      if cs != [] then Some(Least(cs)) else BestFrom(g, top, rest, k + 1, most)
  }

  function BestCombo(g: AllocGoal, top: Ident, rest: seq<Ident>, maxKinds: nat): Option<Combo> {
    BestFrom(g, top, rest, 2, Min(maxKinds, |rest| + 1))
  }

  /** Top included, tail drawn from the eligible rest, counts valid, residual the true one. */
  ghost predicate ValidCombo(g: AllocGoal, top: Ident, rest: seq<Ident>, maxKinds: nat, c: Combo) {
    && 2 <= |c.subset| <= maxKinds && c.subset[0] == top && IsSub(rest, c.subset[1..])
    && ValidAlloc(g, Products(c.subset), c.alloc)
    && c.residual == Abs(g.target - AllocWeight(Products(c.subset), c.alloc))
  }

  lemma {:induction false} OfMember(g: AllocGoal, subset: seq<Ident>, allocs: seq<seq<nat>>, c: Combo)
    requires forall a :: a in allocs ==> |a| == |subset|
    ensures c in Of(g, subset, allocs) <==>
            c.subset == subset && c.alloc in allocs
              && c.residual == Abs(g.target - AllocWeight(Products(subset), c.alloc))
  {
    if allocs != [] {
      assert allocs == [allocs[0]] + allocs[1..];
      OfMember(g, subset, allocs[1..], c);
    }
  }

  lemma {:induction false} TailsMember(g: AllocGoal, top: Ident, tails: seq<seq<Ident>>, c: Combo)
    ensures c in CombosOfTails(g, top, tails) <==>
            c.subset != [] && c.subset[0] == top && c.subset[1..] in tails && c in CombosOf(g, c.subset)
  {
    if tails != [] {
      var n := |tails| - 1;
      assert tails == tails[..n] + [tails[n]];
      TailsMember(g, top, tails[..n], c);
      var subset := [top] + tails[n];
      AllocLengths(g, Products(subset), []);
      OfMember(g, subset, Allocs(g, Products(subset), []), c);
      assert subset[1..] == tails[n];
      assert c.subset != [] && c.subset[0] == top && c.subset[1..] == tails[n] ==> c.subset == subset;
    }
  }

  ghost predicate PositiveIdents(ids: seq<Ident>) { forall x :: x in ids ==> x.product.unitWeight > 0.0 }

  lemma {:induction false} SubMembers(s: seq<Ident>, t: seq<Ident>)
    requires IsSub(s, t)
    ensures forall x :: x in t ==> x in s
    ensures |t| <= |s|
  {
    if t != [] {
      assert s == [s[0]] + s[1..];
      if t[0] == s[0] && IsSub(s[1..], t[1..]) {
        SubMembers(s[1..], t[1..]);
        assert t == [t[0]] + t[1..];
      } else {
        SubMembers(s[1..], t);
      }
    }
  }

  lemma SubsetPositive(top: Ident, rest: seq<Ident>, subset: seq<Ident>)
    requires top.product.unitWeight > 0.0 && PositiveIdents(rest)
    requires subset != [] && subset[0] == top && IsSub(rest, subset[1..])
    ensures Positive(Products(subset))
  {
    SubMembers(rest, subset[1..]);
    var ps := Products(subset);
    forall p | p in ps ensures p.unitWeight > 0.0 {
      var i :| 0 <= i < |ps| && ps[i] == p;
      assert i == 0 || subset[1..][i - 1] == subset[i];
    }
  }

  lemma SubsetExact(g: AllocGoal, c: Combo)
    requires Positive(Products(c.subset))
    ensures c in CombosOf(g, c.subset) <==>
            && ValidAlloc(g, Products(c.subset), c.alloc)
            && c.residual == Abs(g.target - AllocWeight(Products(c.subset), c.alloc))
  {
    var ps := Products(c.subset);
    AllocLengths(g, ps, []);
    OfMember(g, c.subset, Allocs(g, ps, []), c);
    AllocsExact(g, ps, c.alloc);
  }

  lemma SizeExact(g: AllocGoal, top: Ident, rest: seq<Ident>, maxKinds: nat, k: nat, c: Combo)
    requires top.product.unitWeight > 0.0 && PositiveIdents(rest) && 2 <= k <= maxKinds
    ensures c in CombosOfSize(g, top, rest, k) <==> ValidCombo(g, top, rest, maxKinds, c) && |c.subset| == k
  {
    TailsMember(g, top, Combinations(rest, k - 1), c);
    if c.subset != [] {
      CombinationsExact(rest, k - 1, c.subset[1..]);
      if c.subset[0] == top && IsSub(rest, c.subset[1..]) {
        SubsetPositive(top, rest, c.subset);
        SubsetExact(g, c);
      }
    }
  }

  lemma {:induction false} BestFromExact(
      g: AllocGoal, top: Ident, rest: seq<Ident>, maxKinds: nat, k: nat, most: int, c: Combo)
    requires top.product.unitWeight > 0.0 && PositiveIdents(rest) && 2 <= k && most <= maxKinds
    ensures match BestFrom(g, top, rest, k, most)
            case None => !(ValidCombo(g, top, rest, maxKinds, c) && k <= |c.subset| <= most)
            case Some(b) =>
              && ValidCombo(g, top, rest, maxKinds, b)
              && (ValidCombo(g, top, rest, maxKinds, c) && k <= |c.subset| <= most ==>
                    |b.subset| <= |c.subset| && (|b.subset| == |c.subset| ==> !Better(c, b)))
    decreases Max(0, most + 1 - k)
  {
    if k <= most {
      SizeExact(g, top, rest, maxKinds, k, c);
      var cs := CombosOfSize(g, top, rest, k);
      if cs != [] {
        SizeExact(g, top, rest, maxKinds, k, Least(cs));
      } else {
        BestFromExact(g, top, rest, maxKinds, k + 1, most, c);
      }
    }
  }

  /** A combination is found exactly when one is valid; it has the fewest kinds possible and, among
      those, the least (residual, -votes). */
  lemma BestComboExact(g: AllocGoal, top: Ident, rest: seq<Ident>, maxKinds: nat, c: Combo)
    requires top.product.unitWeight > 0.0 && PositiveIdents(rest)
    ensures match BestCombo(g, top, rest, maxKinds)
            case None => !ValidCombo(g, top, rest, maxKinds, c)
            case Some(b) =>
              && ValidCombo(g, top, rest, maxKinds, b)
              && (ValidCombo(g, top, rest, maxKinds, c) ==>
                    |b.subset| <= |c.subset| && (|b.subset| == |c.subset| ==> !Better(c, b)))
  {
    if ValidCombo(g, top, rest, maxKinds, c) {
      SubMembers(rest, c.subset[1..]);
    }
    BestFromExact(g, top, rest, maxKinds, 2, Min(maxKinds, |rest| + 1), c);
  }

  // ---- the loops that compute it ----

  /** The backtracking generator: one shared list of counts, pushed and popped along the search. */
  class AllocationSearch {
    const goal: AllocGoal
    const products: seq<ActiveProduct>
    var counts: seq<nat>
    var yielded: seq<seq<nat>>

    constructor (goal: AllocGoal, products: seq<ActiveProduct>)
      ensures this.goal == goal && this.products == products && counts == [] && yielded == []
    {
      this.goal, this.products, counts, yielded := goal, products, [], [];
    }

    method Rec(weight: real, items: nat)
      requires |counts| <= |products| && weight == AllocWeight(products, counts) && items == Total(counts)
      modifies this
      ensures counts == old(counts)
      ensures yielded == old(yielded) + Allocs(goal, products, counts)
      decreases |products| - |counts|
    {
      if |counts| == |products| {
        if Abs(goal.target - weight) <= goal.gate {
          yielded := yielded + [counts];
        }
        return;
      }
      ghost var was := counts;
      var p := products[|counts|];
      var c: nat := 1;
      while c <= p.stockQty
        invariant counts == was && c >= 1
        invariant yielded + AllocsFrom(goal, products, was, c) == old(yielded) + AllocsFrom(goal, products, was, 1)
      {
        var w := weight + Times(c, p.unitWeight);
        AllocWeightSnoc(products, counts, c);
        TotalSnoc(counts, c);
        if w > goal.target + goal.gate || items + c > goal.maxTotal {
          break;
        }
        ghost var before := yielded;
        counts := counts + [c];
        Rec(w, items + c);
        counts := counts[..|counts| - 1];
        assert before + AllocsFrom(goal, products, was, c) == yielded + AllocsFrom(goal, products, was, c + 1);
        c := c + 1;
      }
      assert yielded == yielded + AllocsFrom(goal, products, was, c);
    }
  }

  function Pick(cs: seq<Combo>): Option<Combo> { if cs == [] then None else Some(Least(cs)) }

  lemma {:induction false} OfAt(g: AllocGoal, subset: seq<Ident>, allocs: seq<seq<nat>>, j: nat)
    requires (forall a :: a in allocs ==> |a| == |subset|) && j < |allocs|
    ensures |Of(g, subset, allocs)| == |allocs|
    ensures Of(g, subset, allocs)[j] == ComboFor(g, subset, allocs[j])
  {
    OfLength(g, subset, allocs);
    if j > 0 {
      OfAt(g, subset, allocs[1..], j - 1);
    }
  }

  lemma {:induction false} OfLength(g: AllocGoal, subset: seq<Ident>, allocs: seq<seq<nat>>)
    requires forall a :: a in allocs ==> |a| == |subset|
    ensures |Of(g, subset, allocs)| == |allocs|
  {
    if allocs != [] {
      OfLength(g, subset, allocs[1..]);
    }
  }

  lemma PickNext(seen: seq<Combo>, all: seq<Combo>, j: nat)
    requires j < |all|
    ensures Pick(seen + all[..j + 1]) ==
            var r := Pick(seen + all[..j]); if r == None || Better(all[j], r.value) then Some(all[j]) else r
  {
    var tried := seen + all[..j];
    assert (tried + [all[j]])[..|tried|] == tried;
    assert seen + all[..j + 1] == (seen + all[..j]) + [all[j]];
  }

  method Consider(c: Combo, best: Option<Combo>) returns (r: Option<Combo>)
    ensures r == if best == None || Better(c, best.value) then Some(c) else best
  {
    r := best;
    if best == None || Better(c, best.value) {
      r := Some(c);
    }
  }

  /** Compares every allocation of one subset with the best so far. */
  method Scan(g: AllocGoal, subset: seq<Ident>, allocs: seq<seq<nat>>, ghost seen: seq<Combo>, best: Option<Combo>)
    returns (r: Option<Combo>)
    requires forall a :: a in allocs ==> |a| == |subset|
    requires best == Pick(seen)
    ensures r == Pick(seen + Of(g, subset, allocs))
  {
    ghost var all := Of(g, subset, allocs);
    OfLength(g, subset, allocs);
    r := best;
    var j := 0;
    assert seen + all[..0] == seen;
    while j < |allocs|
      invariant 0 <= j <= |allocs|
      invariant r == Pick(seen + all[..j])
    {
      OfAt(g, subset, allocs, j);
      PickNext(seen, all, j);
      r := Consider(ComboFor(g, subset, allocs[j]), r);
      j := j + 1;
    }
    assert all[..j] == all;
  }

  /** Tries one subset after another, its allocations enumerated by the search. */
  method BestOfTails(g: AllocGoal, top: Ident, tails: seq<seq<Ident>>) returns (best: Option<Combo>)
    ensures best == Pick(CombosOfTails(g, top, tails))
  {
    best := None;
    var i := 0;
    while i < |tails|
      invariant 0 <= i <= |tails|
      invariant best == Pick(CombosOfTails(g, top, tails[..i]))
    {
      var subset := [top] + tails[i];
      var search := new AllocationSearch(g, Products(subset));
      search.Rec(0.0, 0);
      var allocs := search.yielded;
      assert allocs == Allocs(g, Products(subset), []);
      AllocLengths(g, Products(subset), []);
      assert tails[..i + 1][..i] == tails[..i];
      best := Scan(g, subset, allocs, CombosOfTails(g, top, tails[..i]), best);
      i := i + 1;
    }
    assert tails[..i] == tails;
  }

  /** The loop over kinds and tails computes exactly the specified combination. */
  method FindBestCombo(g: AllocGoal, top: Ident, rest: seq<Ident>, maxKinds: nat) returns (r: Option<Combo>)
    ensures r == BestCombo(g, top, rest, maxKinds)
  {
    var most := Min(maxKinds, |rest| + 1);
    var k: nat := 2;
    while k <= most
      invariant k >= 2
      invariant BestFrom(g, top, rest, k, most) == BestCombo(g, top, rest, maxKinds)
    {
      var best := BestOfTails(g, top, Combinations(rest, k - 1));
      if best.Some? {
        return best;
      }
      k := k + 1;
    }
    return None;
  }
}
