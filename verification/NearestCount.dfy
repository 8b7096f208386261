/** Rounding a weight to a count: the count chosen is the nearest one, and of two equally near ones the even. */
module NearestCount {
  import opened Types
  import opened Levels

  /** `n` units come nearer to the target than `m`, or as near and `n` is even. */
  predicate Nearer(target: real, w: real, n: nat, m: nat) {
    var off, other := Abs(target - Times(n, w)), Abs(target - Times(m, w));
    off < other || (off == other && n % 2 == 0)
  }

  predicate Closer(x: real, n: nat, m: nat) {
    Abs(x - n as real) < Abs(x - m as real) || (Abs(x - n as real) == Abs(x - m as real) && n % 2 == 0)
  }

  lemma AbsScales(a: real, w: real)
    requires w > 0.0
    ensures Abs(a * w) == Abs(a) * w
  {
    if a < 0.0 {
      assert a * w < 0.0 && -(a * w) == (-a) * w;
    } else {
      assert a * w >= 0.0;
    }
  }

  lemma ProductGrows(a: real, b: real, w: real, p: real, q: real)
    requires w > 0.0 && a <= b && p == a * w && q == b * w
    ensures if a < b then p < q else p == q
  {
    assert q - p == (b - a) * w;
    if a < b {
      assert (b - a) * w > 0.0;
    }
  }

  lemma OffScales(target: real, w: real, n: nat, d: real)
    requires w > 0.0 && d == Abs(target / w - n as real)
    ensures Abs(target - Times(n, w)) == d * w
  {
    var x := target / w;
    TimesIsProduct(n, w);
    assert target == x * w;
    assert target - n as real * w == (x - n as real) * w;
    AbsScales(x - n as real, w);
  }

  lemma CloserIsNearer(target: real, w: real, n: nat, m: nat)
    requires w > 0.0 && Closer(target / w, n, m)
    ensures Nearer(target, w, n, m)
  {
    var x := target / w;
    var d, e := Abs(x - n as real), Abs(x - m as real);
    var off, other := Abs(target - Times(n, w)), Abs(target - Times(m, w));
    OffScales(target, w, n, d);
    OffScales(target, w, m, e);
    ProductGrows(d, e, w, off, other);
  }

  /** The nearest count of all. */
  ghost predicate IsNearest(target: real, w: real, n: nat) {
    forall m: nat :: m != n ==> Nearer(target, w, n, m)
  }

  /** The nearest count from one to the stock. */
  ghost predicate IsNearestInStock(target: real, w: real, stock: int, n: nat) {
    1 <= n <= stock && forall m: nat :: 1 <= m <= stock && m != n ==> Nearer(target, w, n, m)
  }

  /** The rounded quotient, not below zero, is the nearest count. */
  lemma RoundedIsNearest(target: real, w: real)
    requires w > 0.0
    ensures IsNearest(target, w, Max(0, Round(target / w)))
  {
    var n := Max(0, Round(target / w));
    forall m: nat | m != n ensures Nearer(target, w, n, m) {
      CloserIsNearer(target, w, n, m);
    }
  }

  /** Held to at least one and at most the stock, it is the nearest count in that range. */
  lemma ClampedIsNearest(target: real, w: real, stock: int)
    requires w > 0.0 && stock >= 1
    ensures IsNearestInStock(target, w, stock, Max(0, Min(Max(1, Round(target / w)), stock)))
  {
    var n := Max(0, Min(Max(1, Round(target / w)), stock));
    forall m: nat | 1 <= m <= stock && m != n ensures Nearer(target, w, n, m) {
      CloserIsNearer(target, w, n, m);
    }
  }

  /** Only one count is nearest. */
  lemma NearestIsRounded(target: real, w: real, n: nat)
    requires w > 0.0 && target >= 0.0 && IsNearest(target, w, n)
    ensures n == Round(target / w)
  {
    var m := Max(0, Round(target / w));
    QuotientIsPositive(target, w);
    RoundedIsNearest(target, w);
    if n != m {
      assert Nearer(target, w, n, m) && Nearer(target, w, m, n);
      SameOff(target, w, n, m);
      NoEvenTie(target / w, n, m);
    }
  }

  lemma SameOff(target: real, w: real, n: nat, m: nat)
    requires w > 0.0 && Abs(target - Times(n, w)) == Abs(target - Times(m, w))
    ensures Abs(target / w - n as real) == Abs(target / w - m as real)
  {
    var d, e := Abs(target / w - n as real), Abs(target / w - m as real);
    OffScales(target, w, n, d);
    OffScales(target, w, m, e);
    SameProduct(d, e, w, Abs(target - Times(n, w)));
  }

  lemma NoEvenTie(x: real, n: nat, m: nat)
    requires x >= 0.0 && m == Max(0, Round(x)) && n % 2 == 0 && m % 2 == 0
    requires Abs(x - n as real) == Abs(x - m as real)
    ensures n == m
  {
  }

  lemma QuotientIsPositive(target: real, w: real)
    requires w > 0.0 && target >= 0.0
    ensures target / w >= 0.0 && Round(target / w) >= 0
  {
  }

  lemma SameProduct(d: real, e: real, w: real, p: real)
    requires w > 0.0 && p == d * w && p == e * w
    ensures d == e
  {
    if d < e {
      ProductGrows(d, e, w, p, p);
    } else if e < d {
      ProductGrows(e, d, w, p, p);
    }
  }
}
