/** Baskets and the first three settlement layers as functions on values: an insertion-ordered
    dictionary of lines per zone, and the corrections each layer makes. */
module Ledger {
  import opened Types
  import opened Sorting

  // ---- one basket ----

  datatype Line = Line(product: ActiveProduct, count: nat)

  function IdAt(ls: seq<Line>, i: nat): ProductId
    requires i < |ls|
  {
    ls[i].product.productId
  }

  predicate Distinct(ls: seq<Line>) {
    forall i, j {:trigger IdAt(ls, i), IdAt(ls, j)} :: 0 <= i < j < |ls| ==> IdAt(ls, i) != IdAt(ls, j)
  }

  /** Position of a product id, or the length when it has no line. */
  function Position(ls: seq<Line>, id: ProductId): (i: nat)
    ensures i <= |ls|
    ensures i < |ls| ==> IdAt(ls, i) == id
    ensures forall k {:trigger IdAt(ls, k)} :: 0 <= k < i ==> IdAt(ls, k) != id
  {
    if ls == [] || ls[0].product.productId == id then 0
    else
      var k := Position(ls[1..], id);
      assert k < |ls| - 1 ==> IdAt(ls[1..], k) == IdAt(ls, k + 1);
      assert forall j {:trigger IdAt(ls, j)} :: 1 <= j < k + 1 ==> IdAt(ls, j) == IdAt(ls[1..], j - 1);
      k + 1
  }

  function Units(ls: seq<Line>, id: ProductId): nat {
    var i := Position(ls, id);
    if i < |ls| then ls[i].count else 0
  }

  function AddUnits(ls: seq<Line>, p: ActiveProduct, c: nat): seq<Line> {
    var i := Position(ls, p.productId);
    if i < |ls| then ls[i := Line(p, ls[i].count + c)] else ls + [Line(p, c)]
  }

  function Recount(ls: seq<Line>, i: nat, c: nat): seq<Line>
    requires i < |ls|
  {
    ls[i := Line(ls[i].product, c)]
  }

  function Weight(ls: seq<Line>): real {
    if ls == [] then 0.0 else Times(ls[0].count, ls[0].product.unitWeight) + Weight(ls[1..])
  }

  function TotalUnits(ls: seq<Line>): nat {
    if ls == [] then 0 else ls[0].count + TotalUnits(ls[1..])
  }

  lemma PositionUnique(ls: seq<Line>, id: ProductId, i: nat)
    requires Distinct(ls) && i < |ls| && IdAt(ls, i) == id
    ensures Position(ls, id) == i
  {
  }

  lemma SameIds(ls: seq<Line>, r: seq<Line>, id: ProductId)
    requires |r| == |ls| && forall k :: 0 <= k < |ls| ==> r[k].product.productId == ls[k].product.productId
    requires Distinct(ls)
    ensures Distinct(r) && Position(r, id) == Position(ls, id)
  {
    assert forall k {:trigger IdAt(r, k)} :: 0 <= k < |r| ==> IdAt(r, k) == IdAt(ls, k);
    var i := Position(ls, id);
    assert Position(r, id) < |r| ==> IdAt(r, Position(r, id)) == IdAt(ls, Position(r, id));
    if i < |ls| {
      assert IdAt(r, i) == id;
      PositionUnique(r, id, i);
    }
  }

  lemma AddUnitsCounts(ls: seq<Line>, p: ActiveProduct, c: nat, id: ProductId)
    requires Distinct(ls)
    ensures Distinct(AddUnits(ls, p, c))
    ensures Units(AddUnits(ls, p, c), id) == Units(ls, id) + if id == p.productId then c else 0
  {
    var r := AddUnits(ls, p, c);
    var n := Position(ls, p.productId);
    if n < |ls| {
      assert IdAt(ls, n) == p.productId;
      SameIds(ls, r, id);
      if id != p.productId && Position(ls, id) < |ls| {
        assert IdAt(ls, Position(ls, id)) == id;
      }
    } else {
      assert forall k {:trigger IdAt(r, k)} :: 0 <= k < |ls| ==> IdAt(r, k) == IdAt(ls, k);
      assert IdAt(r, |ls|) == p.productId;
      assert Position(r, id) < |ls| ==> IdAt(r, Position(r, id)) == IdAt(ls, Position(r, id));
      var i := if id == p.productId then |ls| else Position(ls, id);
      if i < |r| && IdAt(r, i) == id {
        PositionUnique(r, id, i);
      }
    }
  }

  lemma RecountCounts(ls: seq<Line>, i: nat, c: nat, id: ProductId)
    requires Distinct(ls) && i < |ls|
    ensures Distinct(Recount(ls, i, c))
    ensures Units(Recount(ls, i, c), id) == if id == ls[i].product.productId then c else Units(ls, id)
  {
    SameIds(ls, Recount(ls, i, c), id);
    assert IdAt(ls, i) == ls[i].product.productId;
    PositionUnique(ls, ls[i].product.productId, i);
    if Position(ls, id) < |ls| {
      assert IdAt(ls, Position(ls, id)) == id;
    }
  }

  lemma {:induction false} RecountTotal(ls: seq<Line>, i: nat, c: nat)
    requires i < |ls|
    ensures TotalUnits(Recount(ls, i, c)) == TotalUnits(ls) + c - ls[i].count
  {
    var r := Recount(ls, i, c);
    if i == 0 {
      assert r[1..] == ls[1..];
    } else {
      assert r[1..] == Recount(ls[1..], i - 1, c);
      RecountTotal(ls[1..], i - 1, c);
    }
  }

  lemma {:induction false} TakeOneWeighs(ls: seq<Line>, i: nat)
    requires i < |ls| && ls[i].count > 0
    ensures Weight(Recount(ls, i, ls[i].count - 1)) == Weight(ls) - ls[i].product.unitWeight
  {
    var r := Recount(ls, i, ls[i].count - 1);
    if i == 0 {
      assert r[1..] == ls[1..];
    } else {
      assert r[1..] == Recount(ls[1..], i - 1, ls[i].count - 1);
      TakeOneWeighs(ls[1..], i - 1);
    }
  }

  // ---- matching one returned weight against one basket ----

  datatype Match = NoMatch | One(i: nat) | Two(i: nat, j: nat)

  predicate FitsOne(ls: seq<Line>, grams: real, tol: real, i: nat) {
    i < |ls| && ls[i].count > 0 && Abs(grams - ls[i].product.unitWeight) <= tol
  }

  predicate FitsTwo(ls: seq<Line>, grams: real, tol: real, i: nat, j: nat) {
    && i <= j < |ls| && ls[i].count > 0 && ls[j].count > 0 && (i == j ==> ls[i].count >= 2)
    && Abs(grams - (ls[i].product.unitWeight + ls[j].product.unitWeight)) <= tol
  }

  /** The first single unit that fits, else the first pair in basket order, else nothing. */
  ghost predicate IsMatch(ls: seq<Line>, grams: real, tol: real, m: Match) {
    match m
    case One(i) => FitsOne(ls, grams, tol, i) && forall k: nat :: k < i ==> !FitsOne(ls, grams, tol, k)
    case Two(i, j) =>
      && FitsTwo(ls, grams, tol, i, j) && (forall k: nat :: !FitsOne(ls, grams, tol, k))
      && forall a: nat, b: nat :: a < i || (a == i && b < j) ==> !FitsTwo(ls, grams, tol, a, b)
    case NoMatch =>
      && (forall k: nat :: !FitsOne(ls, grams, tol, k)) && (forall a: nat, b: nat :: !FitsTwo(ls, grams, tol, a, b))
  }

  function FirstOne(ls: seq<Line>, grams: real, tol: real, i: nat): (k: nat)
    requires i <= |ls|
    ensures i <= k <= |ls| && (k < |ls| ==> FitsOne(ls, grams, tol, k))
    ensures forall x: nat :: i <= x < k ==> !FitsOne(ls, grams, tol, x)
    decreases |ls| - i
  {
    if i == |ls| || FitsOne(ls, grams, tol, i) then i else FirstOne(ls, grams, tol, i + 1)
  }

  function FirstTwo(ls: seq<Line>, grams: real, tol: real, i: nat, j: nat): (m: Match)
    requires i <= j <= |ls|
    ensures Takes(ls, m)
    decreases |ls| - i, |ls| - j
  {
    if i == |ls| then NoMatch
    else if j == |ls| then FirstTwo(ls, grams, tol, i + 1, i + 1)
    else if FitsTwo(ls, grams, tol, i, j) then Two(i, j)
    else FirstTwo(ls, grams, tol, i, j + 1)
  }

  lemma {:induction false} FirstTwoExact(ls: seq<Line>, grams: real, tol: real, i: nat, j: nat)
    requires i <= j <= |ls|
    ensures match FirstTwo(ls, grams, tol, i, j)
            case Two(a, b) =>
              FitsTwo(ls, grams, tol, a, b) &&
              forall x: nat, y: nat :: (i < x || (i == x && j <= y)) && (x < a || (x == a && y < b)) ==>
                !FitsTwo(ls, grams, tol, x, y)
            case NoMatch => forall x: nat, y: nat :: i < x || (i == x && j <= y) ==> !FitsTwo(ls, grams, tol, x, y)
            case One(_) => false
    decreases |ls| - i, |ls| - j
  {
    if i < |ls| {
      if j == |ls| {
        FirstTwoExact(ls, grams, tol, i + 1, i + 1);
      } else if !FitsTwo(ls, grams, tol, i, j) {
        FirstTwoExact(ls, grams, tol, i, j + 1);
      }
    }
  }

  function MatchFor(ls: seq<Line>, grams: real, tol: real): (m: Match)
    ensures Takes(ls, m)
  {
    var k := FirstOne(ls, grams, tol, 0);
    if k < |ls| then One(k) else FirstTwo(ls, grams, tol, 0, 0)
  }

  lemma MatchIsExact(ls: seq<Line>, grams: real, tol: real)
    ensures IsMatch(ls, grams, tol, MatchFor(ls, grams, tol))
  {
    FirstTwoExact(ls, grams, tol, 0, 0);
  }

  predicate Takes(ls: seq<Line>, m: Match) {
    match m
    case NoMatch => true
    case One(i) => i < |ls| && ls[i].count > 0
    case Two(i, j) => i <= j < |ls| && ls[i].count > 0 && ls[j].count > 0 && (i == j ==> ls[i].count >= 2)
  }

  function Take(ls: seq<Line>, m: Match): seq<Line>
    requires Takes(ls, m)
  {
    match m
    case NoMatch => ls
    case One(i) => Recount(ls, i, ls[i].count - 1)
    case Two(i, j) =>
      var once := Recount(ls, i, ls[i].count - 1);
      Recount(once, j, once[j].count - 1)
  }

  /** What taking the matched units out of the basket takes off its weight. */
  function TakenWeight(ls: seq<Line>, m: Match): real
    requires Takes(ls, m)
  {
    Weight(ls) - Weight(Take(ls, m))
  }

  lemma TakenWeighs(ls: seq<Line>, m: Match)
    requires Takes(ls, m)
    ensures TakenWeight(ls, m) == match m
              case NoMatch => 0.0
              case One(i) => ls[i].product.unitWeight
              case Two(i, j) => ls[i].product.unitWeight + ls[j].product.unitWeight
  {
    match m
    case NoMatch =>
    case One(i) => TakeOneWeighs(ls, i);
    case Two(i, j) =>
      TakeOneWeighs(ls, i);
      TakeOneWeighs(Recount(ls, i, ls[i].count - 1), j);
  }

  /** A match lightens the basket by the returned weight, up to the tolerance. Nothing is taken out only if no one
      and no two units of the basket would do so, and two only if no one would. */
  lemma MatchWeighs(ls: seq<Line>, grams: real, tol: real)
    ensures var m := MatchFor(ls, grams, tol);
            && (!m.NoMatch? ==> Abs(grams - TakenWeight(ls, m)) <= tol)
            && forall n: Match :: Takes(ls, n) && !n.NoMatch? && Abs(grams - TakenWeight(ls, n)) <= tol ==>
                 !m.NoMatch? && (n.One? ==> m.One?)
  {
    var m := MatchFor(ls, grams, tol);
    MatchIsExact(ls, grams, tol);
    TakenWeighs(ls, m);
    forall n: Match | Takes(ls, n) && !n.NoMatch? && Abs(grams - TakenWeight(ls, n)) <= tol
      ensures !m.NoMatch? && (n.One? ==> m.One?)
    {
      TakenWeighs(ls, n);
      if n.One? {
        assert FitsOne(ls, grams, tol, n.i);
      } else {
        assert FitsTwo(ls, grams, tol, n.i, n.j);
      }
    }
  }

  function TakenIds(ls: seq<Line>, m: Match): seq<ProductId>
    requires Takes(ls, m)
  {
    match m
    case NoMatch => []
    case One(i) => [ls[i].product.productId]
    case Two(i, j) => [ls[i].product.productId, ls[j].product.productId]
  }

  function Occurrences(ids: seq<ProductId>, id: ProductId): nat {
    if ids == [] then 0 else (if ids[0] == id then 1 else 0) + Occurrences(ids[1..], id)
  }

  lemma TakeOneCounts(ls: seq<Line>, i: nat, id: ProductId)
    requires Distinct(ls) && i < |ls| && ls[i].count > 0
    ensures var r := Recount(ls, i, ls[i].count - 1);
            && Distinct(r) && |r| == |ls| && (forall k :: 0 <= k < |ls| ==> r[k].product == ls[k].product)
            && Units(r, id) + (if ls[i].product.productId == id then 1 else 0) == Units(ls, id)
  {
    RecountCounts(ls, i, ls[i].count - 1, id);
    PositionUnique(ls, ls[i].product.productId, i);
  }

  lemma OccurrencesOfTwo(a: ProductId, b: ProductId, id: ProductId)
    ensures Occurrences([a], id) == if a == id then 1 else 0
    ensures Occurrences([a, b], id) == (if a == id then 1 else 0) + if b == id then 1 else 0
  {
    assert [a][1..] == [] && [a, b][1..] == [b] && [b][1..] == [];
  }

  lemma TakeTwoCounts(ls: seq<Line>, i: nat, j: nat, id: ProductId)
    requires Distinct(ls) && Takes(ls, Two(i, j))
    ensures Distinct(Take(ls, Two(i, j)))
    ensures Units(Take(ls, Two(i, j)), id) + Occurrences(TakenIds(ls, Two(i, j)), id) == Units(ls, id)
  {
    var once := Recount(ls, i, ls[i].count - 1);
    TakeOneCounts(ls, i, id);
    TakeOneCounts(once, j, id);
    OccurrencesOfTwo(ls[i].product.productId, ls[j].product.productId, id);
  }

  lemma TakeCounts(ls: seq<Line>, m: Match, id: ProductId)
    requires Distinct(ls) && Takes(ls, m)
    ensures Distinct(Take(ls, m))
    ensures Units(Take(ls, m), id) + Occurrences(TakenIds(ls, m), id) == Units(ls, id)
  {
    match m
    case NoMatch =>
    case One(i) =>
      TakeOneCounts(ls, i, id);
      OccurrencesOfTwo(ls[i].product.productId, 0, id);
    case Two(i, j) =>
      TakeTwoCounts(ls, i, j, id);
  }

  // ---- the books: a basket per zone, the returns still open, and every correction made ----

  datatype Row = Row(zone: int, lines: seq<Line>)
  datatype Return = Return(zone: int, grams: real)

  datatype Correction =
    | SameZoneMatch(zone: int, grams: real, ids: seq<ProductId>)
    | NetDelta(zone: int, id: ProductId, explained: Option<real>)
    | CrossZone(zone: int, grams: real, from: int, id: ProductId)
    | Unmatched(zone: int, grams: real)

  datatype Books = Books(table: seq<Row>, unmatched: seq<Return>, trail: seq<Correction>)

  const EMPTY := Books([], [], [])

  function RowOf(table: seq<Row>, zone: int): (k: nat)
    ensures k <= |table|
    ensures k < |table| ==> table[k].zone == zone
    ensures forall i :: 0 <= i < k ==> table[i].zone != zone
  {
    if table == [] || table[0].zone == zone then 0 else RowOf(table[1..], zone) + 1
  }

  predicate ZonesDistinct(table: seq<Row>) { forall i, j :: 0 <= i < j < |table| ==> table[i].zone != table[j].zone }

  predicate GoodTable(table: seq<Row>) {
    ZonesDistinct(table) && forall r :: r in table ==> Distinct(r.lines)
  }

  function Held(table: seq<Row>, zone: int, id: ProductId): nat {
    var k := RowOf(table, zone);
    if k < |table| then Units(table[k].lines, id) else 0
  }

  function Opened(table: seq<Row>, zone: int): (t: seq<Row>)
    ensures RowOf(t, zone) < |t|
  {
    if RowOf(table, zone) < |table| then table
    else
      assert (table + [Row(zone, [])])[|table|].zone == zone;
      table + [Row(zone, [])]
  }

  function Replaced(table: seq<Row>, k: nat, lines: seq<Line>): seq<Row>
    requires k < |table|
  {
    table[k := Row(table[k].zone, lines)]
  }

  lemma RowUnique(table: seq<Row>, zone: int, k: nat)
    requires ZonesDistinct(table) && k < |table| && table[k].zone == zone
    ensures RowOf(table, zone) == k
  {
  }

  lemma ReplacedHolds(table: seq<Row>, k: nat, lines: seq<Line>, zone: int, id: ProductId)
    requires GoodTable(table) && k < |table| && Distinct(lines)
    ensures GoodTable(Replaced(table, k, lines))
    ensures Held(Replaced(table, k, lines), zone, id) ==
            if zone == table[k].zone then Units(lines, id) else Held(table, zone, id)
    ensures Held(table, table[k].zone, id) == Units(table[k].lines, id)
  {
    var t := Replaced(table, k, lines);
    RowUnique(table, table[k].zone, k);
    RowUnique(t, table[k].zone, k);
    var i := RowOf(table, zone);
    if i < |table| {
      RowUnique(t, zone, i);
    }
    forall r | r in t ensures Distinct(r.lines) {
      assert r == Row(table[k].zone, lines) || r in table;
    }
  }

  lemma OpenedHolds(table: seq<Row>, zone: int, other: int, id: ProductId)
    requires GoodTable(table)
    ensures var t := Opened(table, zone);
            GoodTable(t) && RowOf(t, zone) < |t| && Held(t, other, id) == Held(table, other, id)
  {
    var t := Opened(table, zone);
    if t != table {
      RowUnique(t, zone, |table|);
      var i := RowOf(table, other);
      if i < |table| {
        RowUnique(t, other, i);
      } else if other != zone {
        assert RowOf(t, other) == |t|;
      }
    }
  }

  // ---- what was judged, what was removed, what came back ----

  function Billed(pcs: seq<ProductCount>, id: ProductId): nat {
    if pcs == [] then 0 else (if pcs[0].product.productId == id then pcs[0].count else 0) + Billed(pcs[1..], id)
  }

  /** Units of `id` judged taken from `zone`. */
  function Judged(events: seq<TriggerEvent>, zone: int, id: ProductId): nat {
    if events == [] then 0
    else (if events[0].zone == zone && events[0].deltaWeight < 0.0 then Billed(events[0].judgment.products, id) else 0)
         + Judged(events[1..], zone, id)
  }

  function RemovedBy(c: Correction, zone: int, id: ProductId): nat {
    match c
    case SameZoneMatch(z, _, ids) => if z == zone then Occurrences(ids, id) else 0
    case NetDelta(z, i, _) => if z == zone && i == id then 1 else 0
    case CrossZone(_, _, from, i) => if from == zone && i == id then 1 else 0
    case Unmatched(_, _) => 0
  }

  function Removed(trail: seq<Correction>, zone: int, id: ProductId): nat {
    if trail == [] then 0 else Removed(trail[..|trail| - 1], zone, id) + RemovedBy(trail[|trail| - 1], zone, id)
  }

  /** How often the return `x` happened. */
  function Happened(events: seq<TriggerEvent>, x: Return): nat {
    if events == [] then 0
    else
      var first := events[0];
      (if first.deltaWeight > 0.0 && Return(first.zone, first.deltaWeight) == x then 1 else 0)
      + Happened(events[1..], x)
  }

  function Open(unmatched: seq<Return>, x: Return): nat {
    if unmatched == [] then 0 else (if unmatched[0] == x then 1 else 0) + Open(unmatched[1..], x)
  }

  function AnsweredBy(c: Correction): Option<Return> {
    match c
    case SameZoneMatch(z, grams, _) => Some(Return(z, grams))
    case NetDelta(z, _, explained) => if explained.Some? then Some(Return(z, explained.value)) else None
    case CrossZone(z, grams, _, _) => Some(Return(z, grams))
    case Unmatched(z, grams) => Some(Return(z, grams))
  }

  /** How often the corrections answered the return `x`. */
  function Answered(trail: seq<Correction>, x: Return): nat {
    if trail == [] then 0
    else Answered(trail[..|trail| - 1], x) + if AnsweredBy(trail[|trail| - 1]) == Some(x) then 1 else 0
  }

  /** Every judged unit is still held or was removed once, and every return is still open or answered once. */
  ghost predicate Balanced(b: Books, events: seq<TriggerEvent>) {
    && GoodTable(b.table)
    && (forall zone, id :: Judged(events, zone, id) == Held(b.table, zone, id) + Removed(b.trail, zone, id))
    && (forall x :: Happened(events, x) == Open(b.unmatched, x) + Answered(b.trail, x))
  }

  // ---- layer 1: judged removals fill the basket, a return empties it by weight ----

  function AddAll(ls: seq<Line>, pcs: seq<ProductCount>): seq<Line>
    decreases |pcs|
  {
    if pcs == [] then ls else AddAll(AddUnits(ls, pcs[0].product, pcs[0].count), pcs[1..])
  }

  function SameZoneStep(b: Books, e: TriggerEvent, tol: real): Books
  {
    var table := Opened(b.table, e.zone);
    var k := RowOf(table, e.zone);
    var lines := table[k].lines;
    if e.deltaWeight < 0.0 then b.(table := Replaced(table, k, AddAll(lines, e.judgment.products)))
    else if e.deltaWeight > 0.0 then
      var m := MatchFor(lines, e.deltaWeight, tol);
      if m.NoMatch? then b.(table := table, unmatched := b.unmatched + [Return(e.zone, e.deltaWeight)])
      else b.(table := Replaced(table, k, Take(lines, m)),
              trail := b.trail + [SameZoneMatch(e.zone, e.deltaWeight, TakenIds(lines, m))])
    else b.(table := table)
  }

  function Tolerance(profiles: map<int, SensorProfile>, fallback: SensorProfile, zone: int): real {
    ProfileOf(profiles, zone, fallback).toleranceGrams
  }

  /** The books after the first `n` events, in the order given. */
  function SameZone(
      events: seq<TriggerEvent>, n: nat, profiles: map<int, SensorProfile>, fallback: SensorProfile): Books
    requires n <= |events|
  {
    if n == 0 then EMPTY
    else SameZoneStep(SameZone(events, n - 1, profiles, fallback), events[n - 1],
                      Tolerance(profiles, fallback, events[n - 1].zone))
  }

  lemma {:induction false} AddAllCounts(ls: seq<Line>, pcs: seq<ProductCount>, id: ProductId)
    requires Distinct(ls)
    ensures Distinct(AddAll(ls, pcs))
    ensures Units(AddAll(ls, pcs), id) == Units(ls, id) + Billed(pcs, id)
    decreases |pcs|
  {
    if pcs != [] {
      AddUnitsCounts(ls, pcs[0].product, pcs[0].count, id);
      AddAllCounts(AddUnits(ls, pcs[0].product, pcs[0].count), pcs[1..], id);
    }
  }

  lemma {:induction false} JudgedSnoc(events: seq<TriggerEvent>, e: TriggerEvent, zone: int, id: ProductId)
    ensures Judged(events + [e], zone, id) ==
            Judged(events, zone, id)
              + if e.zone == zone && e.deltaWeight < 0.0 then Billed(e.judgment.products, id) else 0
  {
    if events == [] {
      assert [e][1..] == [];
      assert events + [e] == [e];
    } else {
      assert (events + [e])[1..] == events[1..] + [e];
      JudgedSnoc(events[1..], e, zone, id);
    }
  }

  lemma {:induction false} HappenedSnoc(events: seq<TriggerEvent>, e: TriggerEvent, x: Return)
    ensures Happened(events + [e], x) ==
            Happened(events, x) + if e.deltaWeight > 0.0 && Return(e.zone, e.deltaWeight) == x then 1 else 0
  {
    if events == [] {
      assert [e][1..] == [];
      assert events + [e] == [e];
    } else {
      assert (events + [e])[1..] == events[1..] + [e];
      HappenedSnoc(events[1..], e, x);
    }
  }

  lemma {:induction false} OpenConcat(a: seq<Return>, b: seq<Return>, x: Return)
    ensures Open(a + b, x) == Open(a, x) + Open(b, x)
  {
    if a == [] {
      assert a + b == b;
    } else {
      assert (a + b)[1..] == a[1..] + b;
      OpenConcat(a[1..], b, x);
    }
  }

  lemma OpenSplit(unmatched: seq<Return>, u: nat, x: Return)
    requires u < |unmatched|
    ensures Open(unmatched, x) == Open(unmatched[..u] + unmatched[u + 1..], x) + if unmatched[u] == x then 1 else 0
  {
    assert unmatched == unmatched[..u] + ([unmatched[u]] + unmatched[u + 1..]);
    OpenConcat(unmatched[..u], [unmatched[u]] + unmatched[u + 1..], x);
    OpenConcat([unmatched[u]], unmatched[u + 1..], x);
    OpenConcat(unmatched[..u], unmatched[u + 1..], x);
    assert [unmatched[u]][1..] == [];
  }

  lemma TrailSnoc(trail: seq<Correction>, c: Correction, zone: int, id: ProductId)
    ensures Removed(trail + [c], zone, id) == Removed(trail, zone, id) + RemovedBy(c, zone, id)
  {
    assert (trail + [c])[..|trail + [c]| - 1] == trail;
  }

  lemma AnsweredSnoc(trail: seq<Correction>, c: Correction, x: Return)
    ensures Answered(trail + [c], x) == Answered(trail, x) + if AnsweredBy(c) == Some(x) then 1 else 0
  {
    assert (trail + [c])[..|trail + [c]| - 1] == trail;
  }

  lemma SameZoneHolds(b: Books, e: TriggerEvent, tol: real, zone: int, id: ProductId)
    requires GoodTable(b.table)
    ensures var r := SameZoneStep(b, e, tol);
            && GoodTable(r.table)
            && Held(r.table, zone, id) + Removed(r.trail, zone, id) ==
               Held(b.table, zone, id) + Removed(b.trail, zone, id)
                 + if e.zone == zone && e.deltaWeight < 0.0 then Billed(e.judgment.products, id) else 0
  {
    var table := Opened(b.table, e.zone);
    var k := RowOf(table, e.zone);
    var lines := table[k].lines;
    OpenedHolds(b.table, e.zone, zone, id);
    assert table[k] in table;
    if e.deltaWeight < 0.0 {
      AddAllCounts(lines, e.judgment.products, id);
      ReplacedHolds(table, k, AddAll(lines, e.judgment.products), zone, id);
    } else if e.deltaWeight > 0.0 {
      var m := MatchFor(lines, e.deltaWeight, tol);
      TakeCounts(lines, m, id);
      ReplacedHolds(table, k, Take(lines, m), zone, id);
      TrailSnoc(b.trail, SameZoneMatch(e.zone, e.deltaWeight, TakenIds(lines, m)), zone, id);
    }
  }

  lemma SameZoneAnswers(b: Books, e: TriggerEvent, tol: real, x: Return)
    ensures var r := SameZoneStep(b, e, tol);
            Open(r.unmatched, x) + Answered(r.trail, x) == Open(b.unmatched, x) + Answered(b.trail, x)
              + if e.deltaWeight > 0.0 && Return(e.zone, e.deltaWeight) == x then 1 else 0
  {
    var table := Opened(b.table, e.zone);
    var lines := table[RowOf(table, e.zone)].lines;
    if e.deltaWeight > 0.0 {
      var m := MatchFor(lines, e.deltaWeight, tol);
      AnsweredSnoc(b.trail, SameZoneMatch(e.zone, e.deltaWeight, TakenIds(lines, m)), x);
      OpenConcat(b.unmatched, [Return(e.zone, e.deltaWeight)], x);
      assert [Return(e.zone, e.deltaWeight)][1..] == [];
    }
  }

  lemma SameZoneStepBalanced(
      b: Books, events: seq<TriggerEvent>, e: TriggerEvent, tol: real, r: Books, all: seq<TriggerEvent>)
    requires Balanced(b, events) && r == SameZoneStep(b, e, tol) && all == events + [e]
    ensures Balanced(r, all)
  {
    SameZoneHolds(b, e, tol, 0, 0);
    forall zone, id ensures Judged(events + [e], zone, id) == Held(r.table, zone, id) + Removed(r.trail, zone, id) {
      assert Judged(events, zone, id) == Held(b.table, zone, id) + Removed(b.trail, zone, id);
      SameZoneHolds(b, e, tol, zone, id);
      JudgedSnoc(events, e, zone, id);
    }
    forall x ensures Happened(events + [e], x) == Open(r.unmatched, x) + Answered(r.trail, x) {
      assert Happened(events, x) == Open(b.unmatched, x) + Answered(b.trail, x);
      HappenedSnoc(events, e, x);
      SameZoneAnswers(b, e, tol, x);
    }
  }

  lemma NothingBalanced(events: seq<TriggerEvent>, profiles: map<int, SensorProfile>, fallback: SensorProfile)
    ensures Balanced(SameZone(events, 0, profiles, fallback), events[..0])
  {
    assert events[..0] == [];
  }

  lemma BalancedNext(
      events: seq<TriggerEvent>, n: nat, profiles: map<int, SensorProfile>, fallback: SensorProfile)
    requires n < |events| && Balanced(SameZone(events, n, profiles, fallback), events[..n])
    ensures Balanced(SameZone(events, n + 1, profiles, fallback), events[..n + 1])
  {
    var e := events[n];
    SameZoneStepBalanced(SameZone(events, n, profiles, fallback), events[..n], e, Tolerance(profiles, fallback, e.zone),
                         SameZone(events, n + 1, profiles, fallback), events[..n + 1]);
  }

  lemma {:induction false} SameZoneBalanced(
      events: seq<TriggerEvent>, n: nat, profiles: map<int, SensorProfile>, fallback: SensorProfile)
    requires n <= |events|
    ensures Balanced(SameZone(events, n, profiles, fallback), events[..n])
  {
    if n == 0 {
      NothingBalanced(events, profiles, fallback);
    } else {
      SameZoneBalanced(events, n - 1, profiles, fallback);
      BalancedNext(events, n - 1, profiles, fallback);
    }
  }

  // ---- layer 2: a basket heavier than the session's net removal gives units back ----

  function NetOf(events: seq<TriggerEvent>, zone: int): real {
    if events == [] then 0.0
    else (if events[0].zone == zone then events[0].deltaWeight else 0.0) + NetOf(events[1..], zone)
  }

  /** The weight that should be left in a zone's basket. */
  function Floor(events: seq<TriggerEvent>, zone: int): real { RMax(0.0, -NetOf(events, zone)) }

  predicate Candidate(ls: seq<Line>, excess: real, tol: real, i: nat) {
    i < |ls| && ls[i].count > 0 && ls[i].product.unitWeight <= excess + tol
  }

  /** The first candidate closest in weight to the excess, or the length when there is none. */
  function Closest(ls: seq<Line>, excess: real, tol: real, i: nat): (c: nat)
    requires i <= |ls|
    ensures i <= c <= |ls| && (c < |ls| ==> Candidate(ls, excess, tol, c))
    decreases |ls| - i
  {
    if i == |ls| then i
    else
      var rest := Closest(ls, excess, tol, i + 1);
      if Candidate(ls, excess, tol, i) && (rest == |ls| || Off(ls, excess, i) <= Off(ls, excess, rest)) then i else rest
  }

  function Off(ls: seq<Line>, excess: real, i: nat): real
    requires i < |ls|
  {
    Abs(ls[i].product.unitWeight - excess)
  }

  lemma {:induction false} ClosestIsBest(ls: seq<Line>, excess: real, tol: real, i: nat)
    requires i <= |ls|
    ensures var c := Closest(ls, excess, tol, i);
            forall k: nat :: i <= k && Candidate(ls, excess, tol, k) ==>
              c < |ls| && Off(ls, excess, c) <= Off(ls, excess, k)
                && (k < c ==> Off(ls, excess, c) < Off(ls, excess, k))
    decreases |ls| - i
  {
    if i < |ls| {
      ClosestIsBest(ls, excess, tol, i + 1);
    }
  }

  /** The first open return of the zone that a unit of this weight explains, or the length. */
  function Explained(unmatched: seq<Return>, zone: int, grams: real, tol: real): (k: nat)
    ensures k <= |unmatched|
    ensures k < |unmatched| ==> unmatched[k].zone == zone && Abs(unmatched[k].grams - grams) <= tol
  {
    if unmatched == [] || (unmatched[0].zone == zone && Abs(unmatched[0].grams - grams) <= tol) then 0
    else Explained(unmatched[1..], zone, grams, tol) + 1
  }

  function Less(ls: seq<Line>, c: nat): seq<Line>
    requires c < |ls| && ls[c].count > 0
  {
    Recount(ls, c, ls[c].count - 1)
  }

  lemma LessShrinks(ls: seq<Line>, c: nat)
    requires c < |ls| && ls[c].count > 0
    ensures TotalUnits(Less(ls, c)) == TotalUnits(ls) - 1
  {
    RecountTotal(ls, c, ls[c].count - 1);
  }

  /** A sequence of lines that each can give a unit back, in turn. */
  predicate Allowed(ls: seq<Line>, picks: seq<nat>)
    decreases |picks|
  {
    picks != [] ==> picks[0] < |ls| && ls[picks[0]].count > 0 && Allowed(Less(ls, picks[0]), picks[1..])
  }

  function After(ls: seq<Line>, picks: seq<nat>): seq<Line>
    requires Allowed(ls, picks)
    decreases |picks|
  {
    if picks == [] then ls else After(Less(ls, picks[0]), picks[1..])
  }

  /** The units the correction loop gives back: while the excess is above tolerance, the closest candidate. */
  function Picks(ls: seq<Line>, excess: real, tol: real): (picks: seq<nat>)
    ensures Allowed(ls, picks)
    decreases TotalUnits(ls)
  {
    if excess <= tol then []
    else
      var c := Closest(ls, excess, tol, 0);
      if c == |ls| then []
      else
        LessShrinks(ls, c);
        [c] + Picks(Less(ls, c), excess - ls[c].product.unitWeight, tol)
  }

  ghost predicate NothingToGive(ls: seq<Line>, excess: real, tol: real) {
    forall i: nat :: !Candidate(ls, excess, tol, i)
  }

  lemma {:induction false} PicksStop(ls: seq<Line>, excess: real, tol: real, floor: real)
    requires excess == Weight(ls) - floor
    ensures var picks := Picks(ls, excess, tol);
            var left := Weight(After(ls, picks)) - floor;
            && (left <= tol || Closest(After(ls, picks), left, tol, 0) == |After(ls, picks)|)
            && (picks == [] || left >= -tol)
            && |picks| == TotalUnits(ls) - TotalUnits(After(ls, picks))
    decreases TotalUnits(ls)
  {
    var c := Closest(ls, excess, tol, 0);
    if excess > tol && c < |ls| {
      LessShrinks(ls, c);
      TakeOneWeighs(ls, c);
      var rest := Picks(Less(ls, c), excess - ls[c].product.unitWeight, tol);
      assert Picks(ls, excess, tol) == [c] + rest && ([c] + rest)[1..] == rest;
      assert After(ls, [c] + rest) == After(Less(ls, c), rest);
      PicksStop(Less(ls, c), excess - ls[c].product.unitWeight, tol, floor);
    }
  }

  /** Where the correction loop stops: the excess it tracked is the true one, and it stopped for a
      reason; a basket it changed is no lighter than its floor, within tolerance; each pick is one unit. */
  lemma PicksExact(ls: seq<Line>, tol: real, floor: real)
    ensures var picks := Picks(ls, Weight(ls) - floor, tol);
            var left := Weight(After(ls, picks)) - floor;
            && (left <= tol || NothingToGive(After(ls, picks), left, tol))
            && (picks == [] || left >= -tol)
            && |picks| == TotalUnits(ls) - TotalUnits(After(ls, picks))
  {
    PicksStop(ls, Weight(ls) - floor, tol, floor);
    var after := After(ls, Picks(ls, Weight(ls) - floor, tol));
    ClosestIsBest(after, Weight(after) - floor, tol, 0);
  }

  /** One zone's correction: its lines, the returns still open and the corrections made. */
  datatype Shed = Shed(lines: seq<Line>, unmatched: seq<Return>, notes: seq<Correction>)

  /** A unit given back also explains the first open return of its zone and weight. */
  function GiveBack(s: Shed, zone: int, c: nat, tol: real): Shed
    requires c < |s.lines| && s.lines[c].count > 0
  {
    var p := s.lines[c].product;
    var u := Explained(s.unmatched, zone, p.unitWeight, tol);
    if u < |s.unmatched|
    then Shed(Less(s.lines, c), s.unmatched[..u] + s.unmatched[u + 1..],
              s.notes + [NetDelta(zone, p.productId, Some(s.unmatched[u].grams))])
    else Shed(Less(s.lines, c), s.unmatched, s.notes + [NetDelta(zone, p.productId, None)])
  }

  function GiveAllBack(s: Shed, zone: int, picks: seq<nat>, tol: real): (r: Shed)
    requires Allowed(s.lines, picks)
    ensures r.lines == After(s.lines, picks)
    decreases |picks|
  {
    if picks == [] then s else GiveAllBack(GiveBack(s, zone, picks[0], tol), zone, picks[1..], tol)
  }

  /** What layer 2 still makes of a zone. */
  ghost function Rest(s: Shed, zone: int, excess: real, tol: real): Shed {
    GiveAllBack(s, zone, Picks(s.lines, excess, tol), tol)
  }

  lemma PicksDone(s: Shed, zone: int, excess: real, tol: real)
    requires excess <= tol || Closest(s.lines, excess, tol, 0) == |s.lines|
    ensures Rest(s, zone, excess, tol) == s
  {
  }

  lemma PicksUnfold(s: Shed, zone: int, excess: real, tol: real, c: nat)
    requires excess > tol && c == Closest(s.lines, excess, tol, 0) < |s.lines|
    ensures Rest(s, zone, excess, tol) ==
            Rest(GiveBack(s, zone, c, tol), zone, excess - s.lines[c].product.unitWeight, tol)
  {
    var rest := Picks(Less(s.lines, c), excess - s.lines[c].product.unitWeight, tol);
    assert Picks(s.lines, excess, tol) == [c] + rest && ([c] + rest)[1..] == rest;
  }

  lemma {:induction false} GiveAllBackCounts(s: Shed, zone: int, picks: seq<nat>, tol: real, other: int, id: ProductId)
    requires Distinct(s.lines) && Allowed(s.lines, picks)
    ensures var r := GiveAllBack(s, zone, picks, tol);
            && Distinct(r.lines)
            && (if other == zone then Units(r.lines, id) else 0) + Removed(r.notes, other, id)
               == (if other == zone then Units(s.lines, id) else 0) + Removed(s.notes, other, id)
    decreases |picks|
  {
    if picks != [] {
      var next := GiveBack(s, zone, picks[0], tol);
      TakeOneCounts(s.lines, picks[0], id);
      TrailSnoc(s.notes, next.notes[|s.notes|], other, id);
      GiveAllBackCounts(next, zone, picks[1..], tol, other, id);
    }
  }

  lemma GiveBackAnswers(s: Shed, zone: int, c: nat, tol: real, x: Return)
    requires c < |s.lines| && s.lines[c].count > 0
    ensures var next := GiveBack(s, zone, c, tol);
            Open(next.unmatched, x) + Answered(next.notes, x) == Open(s.unmatched, x) + Answered(s.notes, x)
  {
    var next := GiveBack(s, zone, c, tol);
    var u := Explained(s.unmatched, zone, s.lines[c].product.unitWeight, tol);
    AnsweredSnoc(s.notes, next.notes[|s.notes|], x);
    if u < |s.unmatched| {
      OpenSplit(s.unmatched, u, x);
    }
  }

  lemma {:induction false} GiveAllBackAnswers(s: Shed, zone: int, picks: seq<nat>, tol: real, x: Return)
    requires Allowed(s.lines, picks)
    ensures var r := GiveAllBack(s, zone, picks, tol);
            Open(r.unmatched, x) + Answered(r.notes, x) == Open(s.unmatched, x) + Answered(s.notes, x)
    decreases |picks|
  {
    if picks != [] {
      GiveBackAnswers(s, zone, picks[0], tol, x);
      GiveAllBackAnswers(GiveBack(s, zone, picks[0], tol), zone, picks[1..], tol, x);
    }
  }

  /** The units row `k` gives back. */
  function RowPicks(row: Row, events: seq<TriggerEvent>, tol: real): (picks: seq<nat>)
    ensures Allowed(row.lines, picks)
  {
    Picks(row.lines, Weight(row.lines) - Floor(events, row.zone), tol)
  }

  /** Correct the zone in row `k`. */
  function NetStep(
      b: Books, k: nat, events: seq<TriggerEvent>, profiles: map<int, SensorProfile>, fallback: SensorProfile): Books
    requires k < |b.table|
  {
    var row := b.table[k];
    var tol := Tolerance(profiles, fallback, row.zone);
    var s := GiveAllBack(Shed(row.lines, b.unmatched, b.trail), row.zone, RowPicks(row, events, tol), tol);
    Books(Replaced(b.table, k, s.lines), s.unmatched, s.notes)
  }

  /** The books after the first `n` zones were corrected. */
  function NetPass(
      b: Books, n: nat, events: seq<TriggerEvent>, profiles: map<int, SensorProfile>,
      fallback: SensorProfile): (r: Books)
    requires n <= |b.table|
    ensures |r.table| == |b.table|
  {
    if n == 0 then b else NetStep(NetPass(b, n - 1, events, profiles, fallback), n - 1, events, profiles, fallback)
  }

  lemma NetStepHolds(
      b: Books, k: nat, events: seq<TriggerEvent>, profiles: map<int, SensorProfile>, fallback: SensorProfile,
      zone: int, id: ProductId)
    requires k < |b.table| && GoodTable(b.table)
    ensures var r := NetStep(b, k, events, profiles, fallback);
            && GoodTable(r.table)
            && Held(r.table, zone, id) + Removed(r.trail, zone, id) ==
               Held(b.table, zone, id) + Removed(b.trail, zone, id)
  {
    var row := b.table[k];
    assert row in b.table;
    var tol := Tolerance(profiles, fallback, row.zone);
    var picks := RowPicks(row, events, tol);
    GiveAllBackCounts(Shed(row.lines, b.unmatched, b.trail), row.zone, picks, tol, zone, id);
    ReplacedHolds(b.table, k, After(row.lines, picks), zone, id);
  }

  lemma NetStepAnswers(
      b: Books, k: nat, events: seq<TriggerEvent>, profiles: map<int, SensorProfile>, fallback: SensorProfile,
      x: Return)
    requires k < |b.table|
    ensures var r := NetStep(b, k, events, profiles, fallback);
            Open(r.unmatched, x) + Answered(r.trail, x) == Open(b.unmatched, x) + Answered(b.trail, x)
  {
    var row := b.table[k];
    var tol := Tolerance(profiles, fallback, row.zone);
    GiveAllBackAnswers(Shed(row.lines, b.unmatched, b.trail), row.zone, RowPicks(row, events, tol), tol, x);
  }

  lemma NetStepBalanced(
      b: Books, k: nat, judged: seq<TriggerEvent>, events: seq<TriggerEvent>,
      profiles: map<int, SensorProfile>, fallback: SensorProfile)
    requires k < |b.table| && Balanced(b, judged)
    ensures Balanced(NetStep(b, k, events, profiles, fallback), judged)
  {
    var r := NetStep(b, k, events, profiles, fallback);
    NetStepHolds(b, k, events, profiles, fallback, 0, 0);
    forall zone, id ensures Judged(judged, zone, id) == Held(r.table, zone, id) + Removed(r.trail, zone, id) {
      assert Judged(judged, zone, id) == Held(b.table, zone, id) + Removed(b.trail, zone, id);
      NetStepHolds(b, k, events, profiles, fallback, zone, id);
    }
    forall x ensures Happened(judged, x) == Open(r.unmatched, x) + Answered(r.trail, x) {
      assert Happened(judged, x) == Open(b.unmatched, x) + Answered(b.trail, x);
      NetStepAnswers(b, k, events, profiles, fallback, x);
    }
  }

  lemma {:induction false} NetPassBalanced(
      b: Books, n: nat, judged: seq<TriggerEvent>, events: seq<TriggerEvent>,
      profiles: map<int, SensorProfile>, fallback: SensorProfile)
    requires n <= |b.table| && Balanced(b, judged)
    ensures Balanced(NetPass(b, n, events, profiles, fallback), judged)
  {
    if n > 0 {
      NetPassBalanced(b, n - 1, judged, events, profiles, fallback);
      NetStepBalanced(NetPass(b, n - 1, events, profiles, fallback), n - 1, judged, events, profiles, fallback);
    }
  }

  /** What layer 2 leaves of a zone that had lines `before`. */
  ghost predicate Corrected(before: seq<Line>, after: seq<Line>, floor: real, tol: real) {
    var left := Weight(after) - floor;
    && (left <= tol || NothingToGive(after, left, tol))
    && (after == before || left >= -tol)
  }

  ghost predicate CorrectedRow(
      before: Row, after: Row, events: seq<TriggerEvent>, profiles: map<int, SensorProfile>, fallback: SensorProfile) {
    && after.zone == before.zone
    && Corrected(before.lines, after.lines, Floor(events, before.zone), Tolerance(profiles, fallback, before.zone))
  }

  lemma PicksCorrect(ls: seq<Line>, tol: real, floor: real)
    ensures Corrected(ls, After(ls, Picks(ls, Weight(ls) - floor, tol)), floor, tol)
  {
    PicksExact(ls, tol, floor);
  }

  lemma NetStepGives(
      b: Books, k: nat, events: seq<TriggerEvent>, profiles: map<int, SensorProfile>, fallback: SensorProfile)
    requires k < |b.table|
    ensures var row := b.table[k];
            var picks := RowPicks(row, events, Tolerance(profiles, fallback, row.zone));
            NetStep(b, k, events, profiles, fallback).table[k] == Row(row.zone, After(row.lines, picks))
  {
  }

  lemma NetStepCorrects(
      b: Books, k: nat, events: seq<TriggerEvent>, profiles: map<int, SensorProfile>, fallback: SensorProfile)
    requires k < |b.table|
    ensures CorrectedRow(b.table[k], NetStep(b, k, events, profiles, fallback).table[k], events, profiles, fallback)
  {
    var row := b.table[k];
    NetStepGives(b, k, events, profiles, fallback);
    PicksCorrect(row.lines, Tolerance(profiles, fallback, row.zone), Floor(events, row.zone));
  }

  lemma NetStepElsewhere(
      b: Books, k: nat, events: seq<TriggerEvent>, profiles: map<int, SensorProfile>, fallback: SensorProfile, i: nat)
    requires k < |b.table| && i < |b.table| && i != k
    ensures NetStep(b, k, events, profiles, fallback).table[i] == b.table[i]
  {
  }

  lemma {:induction false} NetPassUntouched(
      b: Books, n: nat, events: seq<TriggerEvent>, profiles: map<int, SensorProfile>, fallback: SensorProfile, k: nat)
    requires n <= k < |b.table|
    ensures NetPass(b, n, events, profiles, fallback).table[k] == b.table[k]
  {
    if n > 0 {
      NetPassUntouched(b, n - 1, events, profiles, fallback, k);
    }
  }

  /** After layer 2 every zone is within tolerance of its floor or has nothing light enough left to give
      back, and a zone it changed is not below its floor by more than the tolerance. */
  lemma {:induction false} NetPassExact(
      b: Books, n: nat, events: seq<TriggerEvent>, profiles: map<int, SensorProfile>, fallback: SensorProfile, k: nat,
      r: Books)
    requires k < n <= |b.table| && r == NetPass(b, n, events, profiles, fallback)
    ensures CorrectedRow(b.table[k], r.table[k], events, profiles, fallback)
  {
    var prev := NetPass(b, n - 1, events, profiles, fallback);
    if k == n - 1 {
      NetPassUntouched(b, n - 1, events, profiles, fallback, k);
      NetStepCorrects(prev, k, events, profiles, fallback);
      assert CorrectedRow(prev.table[k], r.table[k], events, profiles, fallback);
    } else {
      NetStepElsewhere(prev, n - 1, events, profiles, fallback, k);
      assert r.table[k] == prev.table[k];
      NetPassExact(b, n - 1, events, profiles, fallback, k, prev);
    }
  }

  // ---- layer 3: a return still open may belong to another zone ----

  predicate Holds(row: Row, zone: int, grams: real, profiles: map<int, SensorProfile>, fallback: SensorProfile) {
    row.zone != zone && FirstOne(row.lines, grams, Tolerance(profiles, fallback, row.zone), 0) < |row.lines|
  }

  /** The first other zone holding a unit of that weight, or the length. */
  function Holder(
      table: seq<Row>, zone: int, grams: real, profiles: map<int, SensorProfile>, fallback: SensorProfile): (k: nat)
    ensures k <= |table| && (k < |table| ==> Holds(table[k], zone, grams, profiles, fallback))
  {
    if table == [] || Holds(table[0], zone, grams, profiles, fallback) then 0
    else Holder(table[1..], zone, grams, profiles, fallback) + 1
  }

  lemma {:induction false} HolderIsFirst(
      table: seq<Row>, zone: int, grams: real, profiles: map<int, SensorProfile>, fallback: SensorProfile, i: nat)
    requires i < Holder(table, zone, grams, profiles, fallback)
    ensures !Holds(table[i], zone, grams, profiles, fallback)
  {
    if i > 0 {
      HolderIsFirst(table[1..], zone, grams, profiles, fallback, i - 1);
    }
  }

  function TakeFromHolder(b: Books, k: nat, i: nat): Books
    requires b.unmatched != [] && k < |b.table| && i < |b.table[k].lines| && b.table[k].lines[i].count > 0
  {
    var Row(other, lines) := b.table[k];
    Books(Replaced(b.table, k, Less(lines, i)), b.unmatched[1..],
          b.trail + [CrossZone(b.unmatched[0].zone, b.unmatched[0].grams, other, lines[i].product.productId)])
  }

  /** Settle the oldest open return: take one unit from its holder, or report it. */
  function CrossStep(b: Books, profiles: map<int, SensorProfile>, fallback: SensorProfile): Books
    requires b.unmatched != []
  {
    var Return(zone, grams) := b.unmatched[0];
    var k := Holder(b.table, zone, grams, profiles, fallback);
    if k == |b.table| then Books(b.table, b.unmatched[1..], b.trail + [Unmatched(zone, grams)])
    else TakeFromHolder(b, k, FirstOne(b.table[k].lines, grams, Tolerance(profiles, fallback, b.table[k].zone), 0))
  }

  function CrossPass(b: Books, profiles: map<int, SensorProfile>, fallback: SensorProfile): Books
    decreases |b.unmatched|
  {
    if b.unmatched == [] then b else CrossPass(CrossStep(b, profiles, fallback), profiles, fallback)
  }

  lemma TakeFromHolderHolds(b: Books, k: nat, i: nat, zone: int, id: ProductId)
    requires b.unmatched != [] && GoodTable(b.table)
    requires k < |b.table| && i < |b.table[k].lines| && b.table[k].lines[i].count > 0
    ensures var r := TakeFromHolder(b, k, i);
            && GoodTable(r.table)
            && Held(r.table, zone, id) + Removed(r.trail, zone, id) ==
               Held(b.table, zone, id) + Removed(b.trail, zone, id)
  {
    var Row(other, lines) := b.table[k];
    assert b.table[k] in b.table;
    TrailSnoc(b.trail, CrossZone(b.unmatched[0].zone, b.unmatched[0].grams, other, lines[i].product.productId), zone,
              id);
    TakeOneCounts(lines, i, id);
    ReplacedHolds(b.table, k, Less(lines, i), zone, id);
  }

  lemma CrossStepHolds(
      b: Books, profiles: map<int, SensorProfile>, fallback: SensorProfile, zone: int, id: ProductId)
    requires b.unmatched != [] && GoodTable(b.table)
    ensures var r := CrossStep(b, profiles, fallback);
            && GoodTable(r.table)
            && Held(r.table, zone, id) + Removed(r.trail, zone, id) ==
               Held(b.table, zone, id) + Removed(b.trail, zone, id)
  {
    var Return(origin, grams) := b.unmatched[0];
    var k := Holder(b.table, origin, grams, profiles, fallback);
    if k < |b.table| {
      TakeFromHolderHolds(b, k, FirstOne(b.table[k].lines, grams, Tolerance(profiles, fallback, b.table[k].zone), 0),
                          zone, id);
    } else {
      TrailSnoc(b.trail, Unmatched(origin, grams), zone, id);
    }
  }

  lemma CrossStepBalanced(
      b: Books, events: seq<TriggerEvent>, profiles: map<int, SensorProfile>, fallback: SensorProfile)
    requires b.unmatched != [] && Balanced(b, events)
    ensures Balanced(CrossStep(b, profiles, fallback), events)
  {
    var r := CrossStep(b, profiles, fallback);
    CrossStepHolds(b, profiles, fallback, 0, 0);
    forall zone, id ensures Judged(events, zone, id) == Held(r.table, zone, id) + Removed(r.trail, zone, id) {
      assert Judged(events, zone, id) == Held(b.table, zone, id) + Removed(b.trail, zone, id);
      CrossStepHolds(b, profiles, fallback, zone, id);
    }
    forall x ensures Happened(events, x) == Open(r.unmatched, x) + Answered(r.trail, x) {
      assert Happened(events, x) == Open(b.unmatched, x) + Answered(b.trail, x);
    }
  }

  lemma {:induction false} CrossPassBalanced(
      b: Books, events: seq<TriggerEvent>, profiles: map<int, SensorProfile>, fallback: SensorProfile)
    requires Balanced(b, events)
    ensures Balanced(CrossPass(b, profiles, fallback), events) && CrossPass(b, profiles, fallback).unmatched == []
    decreases |b.unmatched|
  {
    if b.unmatched != [] {
      CrossStepBalanced(b, events, profiles, fallback);
      CrossPassBalanced(CrossStep(b, profiles, fallback), events, profiles, fallback);
    }
  }

  // ---- the three layers together ----

  predicate Earlier(a: TriggerEvent, b: TriggerEvent) { a.ts <= b.ts }

  function Layers(events: seq<TriggerEvent>, profiles: map<int, SensorProfile>, fallback: SensorProfile): Books
  {
    var sorted := StableSort(events, Earlier);
    var first := SameZone(sorted, |sorted|, profiles, fallback);
    CrossPass(NetPass(first, |first.table|, events, profiles, fallback), profiles, fallback)
  }

  lemma {:induction false} InsertKeepsTotals(
      e: TriggerEvent, events: seq<TriggerEvent>, zone: int, id: ProductId, x: Return)
    ensures Judged(Insert(e, events, Earlier), zone, id) == Judged([e] + events, zone, id)
    ensures Happened(Insert(e, events, Earlier), x) == Happened([e] + events, x)
  {
    assert ([e] + events)[1..] == events;
    if events != [] && !Earlier(e, events[0]) {
      InsertKeepsTotals(e, events[1..], zone, id, x);
      assert ([e] + events[1..])[1..] == events[1..];
      assert ([events[0]] + Insert(e, events[1..], Earlier))[1..] == Insert(e, events[1..], Earlier);
    }
  }

  lemma {:induction false} SortKeepsTotals(events: seq<TriggerEvent>, zone: int, id: ProductId, x: Return)
    ensures Judged(StableSort(events, Earlier), zone, id) == Judged(events, zone, id)
    ensures Happened(StableSort(events, Earlier), x) == Happened(events, x)
  {
    if events != [] {
      SortKeepsTotals(events[1..], zone, id, x);
      InsertKeepsTotals(events[0], StableSort(events[1..], Earlier), zone, id, x);
      assert ([events[0]] + StableSort(events[1..], Earlier))[1..] == StableSort(events[1..], Earlier);
    }
  }

  lemma LayersBalanced(
      events: seq<TriggerEvent>, profiles: map<int, SensorProfile>, fallback: SensorProfile)
    ensures Balanced(Layers(events, profiles, fallback), StableSort(events, Earlier))
    ensures Layers(events, profiles, fallback).unmatched == []
  {
    var sorted := StableSort(events, Earlier);
    var first := SameZone(sorted, |sorted|, profiles, fallback);
    SameZoneBalanced(sorted, |sorted|, profiles, fallback);
    assert sorted[..|sorted|] == sorted;
    NetPassBalanced(first, |first.table|, sorted, events, profiles, fallback);
    CrossPassBalanced(NetPass(first, |first.table|, events, profiles, fallback), sorted, profiles, fallback);
  }

  /** Conservation: for every zone and product, units judged from removals = units still in the basket +
      units removed by layers 1-3; and every positive-delta event is answered exactly once. */
  lemma LayersConserve(
      events: seq<TriggerEvent>, profiles: map<int, SensorProfile>, fallback: SensorProfile, zone: int, id: ProductId,
      x: Return)
    ensures var b := Layers(events, profiles, fallback);
            && GoodTable(b.table)
            && Judged(events, zone, id) == Held(b.table, zone, id) + Removed(b.trail, zone, id)
            && Happened(events, x) == Answered(b.trail, x)
  {
    LayersBalanced(events, profiles, fallback);
    SortKeepsTotals(events, zone, id, x);
    var b := Layers(events, profiles, fallback);
    var sorted := StableSort(events, Earlier);
    assert Judged(sorted, zone, id) == Held(b.table, zone, id) + Removed(b.trail, zone, id);
    assert Happened(sorted, x) == Open(b.unmatched, x) + Answered(b.trail, x);
  }

  // ---- which zones have a basket ----

  ghost predicate SameZones(a: seq<Row>, b: seq<Row>) {
    |a| == |b| && forall k :: 0 <= k < |a| ==> a[k].zone == b[k].zone
  }

  ghost predicate HasZone(events: seq<TriggerEvent>, zone: int) { exists e :: e in events && e.zone == zone }

  lemma StepOpens(b: Books, e: TriggerEvent, tol: real)
    ensures SameZones(SameZoneStep(b, e, tol).table, Opened(b.table, e.zone))
  {
  }

  lemma RowZone(a: seq<Row>, b: seq<Row>, r: Row)
    requires SameZones(a, b) && r in a
    ensures exists x :: x in b && x.zone == r.zone
  {
    var k :| 0 <= k < |a| && a[k] == r;
    assert b[k] in b;
  }

  lemma {:induction false} SameZoneOpens(
      events: seq<TriggerEvent>, n: nat, profiles: map<int, SensorProfile>, fallback: SensorProfile)
    requires n <= |events|
    ensures forall r :: r in SameZone(events, n, profiles, fallback).table ==> HasZone(events, r.zone)
  {
    if n > 0 {
      SameZoneOpens(events, n - 1, profiles, fallback);
      var b, e := SameZone(events, n - 1, profiles, fallback), events[n - 1];
      var tol := Tolerance(profiles, fallback, e.zone);
      StepOpens(b, e, tol);
      assert e in events && HasZone(events, e.zone);
      forall r | r in SameZoneStep(b, e, tol).table ensures HasZone(events, r.zone) {
        RowZone(SameZoneStep(b, e, tol).table, Opened(b.table, e.zone), r);
      }
    }
  }

  lemma {:induction false} NetPassKeepsZones(
      b: Books, n: nat, events: seq<TriggerEvent>, profiles: map<int, SensorProfile>, fallback: SensorProfile)
    requires n <= |b.table|
    ensures SameZones(NetPass(b, n, events, profiles, fallback).table, b.table)
  {
    if n > 0 {
      NetPassKeepsZones(b, n - 1, events, profiles, fallback);
    }
  }

  lemma {:induction false} CrossPassKeepsZones(b: Books, profiles: map<int, SensorProfile>, fallback: SensorProfile)
    ensures SameZones(CrossPass(b, profiles, fallback).table, b.table)
    decreases |b.unmatched|
  {
    if b.unmatched != [] {
      CrossPassKeepsZones(CrossStep(b, profiles, fallback), profiles, fallback);
    }
  }

  /** Every basket belongs to a zone that had an event. */
  lemma LayersOpenEventZones(
      events: seq<TriggerEvent>, profiles: map<int, SensorProfile>, fallback: SensorProfile)
    ensures forall r :: r in Layers(events, profiles, fallback).table ==> HasZone(events, r.zone)
  {
    var sorted := StableSort(events, Earlier);
    var first := SameZone(sorted, |sorted|, profiles, fallback);
    var second := NetPass(first, |first.table|, events, profiles, fallback);
    SortMembers(events, Earlier);
    SameZoneOpens(sorted, |sorted|, profiles, fallback);
    NetPassKeepsZones(first, |first.table|, events, profiles, fallback);
    CrossPassKeepsZones(second, profiles, fallback);
    forall r | r in CrossPass(second, profiles, fallback).table ensures HasZone(events, r.zone) {
      RowZone(CrossPass(second, profiles, fallback).table, first.table, r);
      assert HasZone(sorted, r.zone);
    }
  }
}
