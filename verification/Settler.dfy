/** The settlement passes in place: `Basket` objects, one per zone, changed by layers 1 to 3,
    each proved to compute what `Ledger` specifies. */
module Settler {
  import opened Types
  import opened Sorting
  import opened Ledger

  class Basket {
    var lines: seq<Line>  // dictionary in insertion order: a product and its count

    constructor ()
      ensures lines == []
    {
      lines := [];
    }

    method Add(product: ActiveProduct, count: nat)
      modifies this
      ensures lines == AddUnits(old(lines), product, count)
    {
      var i := Position(lines, product.productId);
      if i < |lines| {
        lines := lines[i := Line(product, lines[i].count + count)];
      } else {
        lines := lines + [Line(product, count)];
      }
    }

    /** Never below zero. */
    method RemoveOne(id: ProductId) returns (ok: bool)
      modifies this
      ensures ok <==> Units(old(lines), id) > 0
      ensures lines == if ok then Less(old(lines), Position(old(lines), id)) else old(lines)
    {
      var i := Position(lines, id);
      if i == |lines| || lines[i].count <= 0 {
        return false;
      }
      lines := lines[i := Line(lines[i].product, lines[i].count - 1)];
      return true;
    }

    method SetCount(id: ProductId, count: nat)
      requires Position(lines, id) < |lines|
      modifies this
      ensures lines == Recount(old(lines), Position(old(lines), id), count)
    {
      var i := Position(lines, id);
      lines := lines[i := Line(lines[i].product, count)];
    }
  }

  lemma IsMatchUnique(ls: seq<Line>, grams: real, tol: real, m: Match)
    requires IsMatch(ls, grams, tol, m)
    ensures m == MatchFor(ls, grams, tol)
  {
    MatchIsExact(ls, grams, tol);
  }

  method TakePair(b: Basket, i: nat, j: nat) returns (ok: bool)
    requires Distinct(b.lines) && Takes(b.lines, Two(i, j))
    modifies b
    ensures ok && b.lines == Take(old(b.lines), Two(i, j))
  {
    var ls := b.lines;
    PositionUnique(ls, ls[i].product.productId, i);
    TakeOneCounts(ls, i, 0);
    ok := b.RemoveOne(ls[i].product.productId);
    PositionUnique(b.lines, ls[j].product.productId, j);
    var second := b.RemoveOne(ls[j].product.productId);
    ok := ok && second;
  }

  /** Take one unit of the returned weight, else two, else nothing. */
  method MatchReturn(b: Basket, grams: real, tol: real) returns (ok: bool, ghost m: Match)
    requires Distinct(b.lines)
    modifies b
    ensures IsMatch(old(b.lines), grams, tol, m)
    ensures b.lines == Take(old(b.lines), m)
    ensures ok <==> !m.NoMatch?
  {
    var ls := b.lines;
    for i := 0 to |ls|
      invariant b.lines == ls
      invariant forall k: nat :: k < i ==> !FitsOne(ls, grams, tol, k)
    {
      if ls[i].count > 0 && Abs(grams - ls[i].product.unitWeight) <= tol {
        PositionUnique(ls, ls[i].product.productId, i);
        ok := b.RemoveOne(ls[i].product.productId);
        return ok, One(i);
      }
    }
    for i := 0 to |ls|
      invariant b.lines == ls
      invariant forall x: nat, y: nat :: x < i ==> !FitsTwo(ls, grams, tol, x, y)
    {
      for j := i to |ls|
        invariant b.lines == ls
        invariant forall x: nat, y: nat :: x < i || (x == i && y < j) ==> !FitsTwo(ls, grams, tol, x, y)
      {
        if ls[i].count > 0 && ls[j].count > 0 && (i != j || ls[i].count >= 2)
           && Abs(grams - (ls[i].product.unitWeight + ls[j].product.unitWeight)) <= tol {
          m := Two(i, j);
          ok := TakePair(b, i, j);
          return;
        }
      }
    }
    return false, NoMatch;
  }

  // ---- the baskets dictionary ----

  datatype Slot = Slot(zone: int, basket: Basket)

  ghost predicate Separate(slots: seq<Slot>) {
    forall i, j :: 0 <= i < j < |slots| ==> slots[i].basket != slots[j].basket
  }

  ghost function Baskets(slots: seq<Slot>): set<Basket> { set s | s in slots :: s.basket }

  ghost function View(slots: seq<Slot>): seq<Row>
    reads Baskets(slots)
  {
    seq(|slots|, i requires 0 <= i < |slots| reads Baskets(slots) => Row(slots[i].zone, slots[i].basket.lines))
  }

  ghost predicate AllDistinct(slots: seq<Slot>)
    reads Baskets(slots)
  {
    forall s :: s in slots ==> Distinct(s.basket.lines)
  }

  function SlotOf(slots: seq<Slot>, zone: int): (k: nat)
    ensures k <= |slots| && (k < |slots| ==> slots[k].zone == zone)
    ensures forall i :: 0 <= i < k ==> slots[i].zone != zone
  {
    if slots == [] || slots[0].zone == zone then 0 else SlotOf(slots[1..], zone) + 1
  }

  lemma SlotIsRow(slots: seq<Slot>, table: seq<Row>, zone: int)
    requires |table| == |slots| && forall i :: 0 <= i < |slots| ==> table[i].zone == slots[i].zone
    ensures SlotOf(slots, zone) == RowOf(table, zone)
  {
  }

  method AddSlot(slots: seq<Slot>, zone: int) returns (more: seq<Slot>)
    requires Separate(slots)
    ensures Separate(more) && fresh(Baskets(more) - Baskets(slots))
    ensures |more| == |slots| + 1 && more[|slots|].zone == zone
    ensures View(more) == View(slots) + [Row(zone, [])]
  {
    var b := new Basket();
    more := slots + [Slot(zone, b)];
  }

  lemma OpenedRow(table: seq<Row>, zone: int, k: nat)
    requires GoodTable(table) && k == RowOf(table, zone)
    ensures var t := Opened(table, zone);
            GoodTable(t) && k < |t| && RowOf(t, zone) == k && Distinct(t[k].lines)
  {
    var t := Opened(table, zone);
    OpenedHolds(table, zone, 0, 0);
    RowUnique(t, zone, k);
    assert t[k] in t;
  }

  /** `baskets[zone]` of a defaultdict. */
  method Ensure(slots: seq<Slot>, zone: int) returns (more: seq<Slot>, k: nat)
    requires Separate(slots) && GoodTable(View(slots))
    ensures Separate(more) && fresh(Baskets(more) - Baskets(slots)) && k < |more| && more[k].zone == zone
    ensures View(more) == Opened(View(slots), zone) && GoodTable(View(more)) && RowOf(View(more), zone) == k
    ensures Distinct(more[k].basket.lines)
  {
    more := slots;
    SlotIsRow(slots, View(slots), zone);
    k := SlotOf(slots, zone);
    if k == |slots| {
      more := AddSlot(slots, zone);
    }
    OpenedRow(View(slots), zone, k);
    assert View(more)[k] == Row(zone, more[k].basket.lines);
  }

  method TakeEvent(slots: seq<Slot>, e: TriggerEvent, tol: real, unmatched: seq<Return>, ghost trail: seq<Correction>)
    returns (more: seq<Slot>, open: seq<Return>, ghost newTrail: seq<Correction>)
    requires Separate(slots) && GoodTable(View(slots))
    modifies Baskets(slots)
    ensures Separate(more) && fresh(Baskets(more) - Baskets(slots))
    ensures Books(View(more), open, newTrail) == SameZoneStep(Books(old(View(slots)), unmatched, trail), e, tol)
  {
    ghost var books := Books(View(slots), unmatched, trail);
    var k;
    more, k := Ensure(slots, e.zone);
    OpenedTwice(books, e, tol);
    open, newTrail := ApplyEvent(more, k, e, tol, unmatched, trail);
  }

  lemma SameZoneNext(
      events: seq<TriggerEvent>, n: nat, profiles: map<int, SensorProfile>, fallback: SensorProfile, b: Books)
    requires n < |events| && b == SameZone(events, n, profiles, fallback)
    ensures GoodTable(b.table)
    ensures SameZone(events, n + 1, profiles, fallback)
            == SameZoneStep(b, events[n], Tolerance(profiles, fallback, events[n].zone))
  {
    SameZoneGood(events, n, profiles, fallback);
  }

  method TakeNext(
      slots: seq<Slot>, sorted: seq<TriggerEvent>, n: nat, profiles: map<int, SensorProfile>, fallback: SensorProfile,
      unmatched: seq<Return>, ghost trail: seq<Correction>)
    returns (more: seq<Slot>, open: seq<Return>, ghost newTrail: seq<Correction>)
    requires n < |sorted| && Separate(slots)
    requires Books(View(slots), unmatched, trail) == SameZone(sorted, n, profiles, fallback)
    modifies Baskets(slots)
    ensures Separate(more) && fresh(Baskets(more) - Baskets(slots))
    ensures Books(View(more), open, newTrail) == SameZone(sorted, n + 1, profiles, fallback)
  {
    var e := sorted[n];
    SameZoneNext(sorted, n, profiles, fallback, Books(View(slots), unmatched, trail));
    more, open, newTrail := TakeEvent(slots, e, Tolerance(profiles, fallback, e.zone), unmatched, trail);
  }

  lemma NothingTaken(events: seq<TriggerEvent>, profiles: map<int, SensorProfile>, fallback: SensorProfile)
    ensures SameZone(events, 0, profiles, fallback) == Books([], [], [])
  {
  }

  method TakeEvents(sorted: seq<TriggerEvent>, profiles: map<int, SensorProfile>, fallback: SensorProfile)
    returns (slots: seq<Slot>, unmatched: seq<Return>, ghost trail: seq<Correction>)
    ensures Separate(slots) && fresh(Baskets(slots))
    ensures Books(View(slots), unmatched, trail) == SameZone(sorted, |sorted|, profiles, fallback)
  {
    slots, unmatched, trail := [], [], [];
    NothingTaken(sorted, profiles, fallback);
    for n := 0 to |sorted|
      invariant Separate(slots) && fresh(Baskets(slots))
      invariant Books(View(slots), unmatched, trail) == SameZone(sorted, n, profiles, fallback)
    {
      slots, unmatched, trail := TakeNext(slots, sorted, n, profiles, fallback, unmatched, trail);
    }
  }

  /** Layer 1. */
  method PassSameZone(events: seq<TriggerEvent>, profiles: map<int, SensorProfile>, fallback: SensorProfile)
    returns (slots: seq<Slot>, unmatched: seq<Return>, ghost trail: seq<Correction>)
    ensures Separate(slots) && fresh(Baskets(slots))
    ensures AllDistinct(slots)
    ensures Books(View(slots), unmatched, trail) ==
            SameZone(StableSort(events, Earlier), |StableSort(events, Earlier)|, profiles, fallback)
  {
    var sorted := StableSort(events, Earlier);
    slots, unmatched, trail := TakeEvents(sorted, profiles, fallback);
    SameZoneGood(sorted, |sorted|, profiles, fallback);
    GoodViewDistinct(slots);
  }

  lemma SameZoneGood(
      events: seq<TriggerEvent>, n: nat, profiles: map<int, SensorProfile>, fallback: SensorProfile)
    requires n <= |events|
    ensures GoodTable(SameZone(events, n, profiles, fallback).table)
  {
    SameZoneBalanced(events, n, profiles, fallback);
  }

  lemma GoodViewDistinct(slots: seq<Slot>)
    requires GoodTable(View(slots))
    ensures AllDistinct(slots)
  {
    forall s | s in slots ensures Distinct(s.basket.lines) {
      var i :| 0 <= i < |slots| && slots[i] == s;
      assert View(slots)[i] == Row(s.zone, s.basket.lines) && View(slots)[i] in View(slots);
    }
  }

  lemma OpenedTwice(b: Books, e: TriggerEvent, tol: real)
    ensures SameZoneStep(b.(table := Opened(b.table, e.zone)), e, tol) == SameZoneStep(b, e, tol)
  {
  }

  /** One event against its zone's basket. */
  method ApplyEvent(
      slots: seq<Slot>, k: nat, e: TriggerEvent, tol: real, unmatched: seq<Return>, ghost trail: seq<Correction>)
    returns (open: seq<Return>, ghost newTrail: seq<Correction>)
    requires Separate(slots) && k < |slots| && slots[k].zone == e.zone && Distinct(slots[k].basket.lines)
    requires RowOf(View(slots), e.zone) == k
    modifies slots[k].basket
    ensures Books(View(slots), open, newTrail) == SameZoneStep(Books(old(View(slots)), unmatched, trail), e, tol)
  {
    open, newTrail := unmatched, trail;
    var b := slots[k].basket;
    ghost var before := View(slots);
    assert Opened(before, e.zone) == before;
    if e.deltaWeight < 0.0 {
      var pcs := e.judgment.products;
      for i := 0 to |pcs|
        invariant AddAll(b.lines, pcs[i..]) == AddAll(old(b.lines), pcs)
      {
        assert pcs[i..][1..] == pcs[i + 1..];
        b.Add(pcs[i].product, pcs[i].count);
      }
      assert pcs[|pcs|..] == [];
      assert View(slots) == Replaced(before, k, AddAll(old(b.lines), pcs));
    } else if e.deltaWeight > 0.0 {
      var ok, m := MatchReturn(b, e.deltaWeight, tol);
      IsMatchUnique(old(b.lines), e.deltaWeight, tol, m);
      if ok {
        newTrail := trail + [SameZoneMatch(e.zone, e.deltaWeight, TakenIds(old(b.lines), m))];
      } else {
        open := unmatched + [Return(e.zone, e.deltaWeight)];
      }
      assert View(slots) == Replaced(before, k, Take(old(b.lines), m));
    }
  }

  /** `min` over the candidates of layer 2: the first one closest to the excess. */
  method FindClosest(ls: seq<Line>, excess: real, tol: real) returns (c: nat)
    ensures c == Closest(ls, excess, tol, 0)
  {
    c := |ls|;
    var i := |ls|;
    while i > 0
      invariant 0 <= i <= |ls| && c == Closest(ls, excess, tol, i)
    {
      i := i - 1;
      if Candidate(ls, excess, tol, i) && (c == |ls| || Off(ls, excess, i) <= Off(ls, excess, c)) {
        c := i;
      }
    }
  }

  /** Give back one unit of line `c`, report it, and drop the open return it explains. */
  method CorrectOne(
      b: Basket, zone: int, c: nat, tol: real, unmatched: seq<Return>, notes: seq<Correction>,
      ghost trail: seq<Correction>)
    returns (open: seq<Return>, reported: seq<Correction>)
    requires Distinct(b.lines) && c < |b.lines| && b.lines[c].count > 0
    modifies b
    ensures Distinct(b.lines)
    ensures Shed(b.lines, open, trail + reported) ==
            GiveBack(Shed(old(b.lines), unmatched, trail + notes), zone, c, tol)
  {
    open := unmatched;
    var p := b.lines[c].product;
    PositionUnique(b.lines, p.productId, c);
    TakeOneCounts(b.lines, c, 0);
    var _ := b.RemoveOne(p.productId);
    var u := Explained(open, zone, p.unitWeight, tol);
    reported := notes + [NetDelta(zone, p.productId, if u < |open| then Some(open[u].grams) else None)];
    if u < |open| {
      open := open[..u] + open[u + 1..];
    }
    assert trail + reported == (trail + notes) + [reported[|notes|]];
  }

  /** One turn of the correction loop; `done` when nothing light enough is left. */
  method CorrectTurn(
      b: Basket, zone: int, excess: real, tol: real, unmatched: seq<Return>, notes: seq<Correction>,
      ghost trail: seq<Correction>)
    returns (done: bool, left: real, open: seq<Return>, reported: seq<Correction>)
    requires Distinct(b.lines) && excess > tol
    modifies b
    ensures Distinct(b.lines)
    ensures Rest(Shed(b.lines, open, trail + reported), zone, left, tol) ==
            Rest(Shed(old(b.lines), unmatched, trail + notes), zone, excess, tol)
    ensures if done then Rest(Shed(b.lines, open, trail + reported), zone, left, tol) ==
            Shed(b.lines, open, trail + reported)
            else TotalUnits(b.lines) < TotalUnits(old(b.lines))
  {
    var c := FindClosest(b.lines, excess, tol);
    done, left, open, reported := c == |b.lines|, excess, unmatched, notes;
    if done {
      PicksDone(Shed(b.lines, open, trail + reported), zone, excess, tol);
    } else {
      left := excess - b.lines[c].product.unitWeight;
      PicksUnfold(Shed(b.lines, open, trail + reported), zone, excess, tol, c);
      LessShrinks(b.lines, c);
      open, reported := CorrectOne(b, zone, c, tol, open, reported, trail);
    }
  }

  /** Layer 2 on one zone; `notes` are the corrections reported so far. */
  method CorrectZone(
      b: Basket, zone: int, start: real, tol: real, unmatched: seq<Return>, notes: seq<Correction>,
      ghost trail: seq<Correction>)
    returns (open: seq<Return>, reported: seq<Correction>)
    requires Distinct(b.lines)
    modifies b
    ensures Distinct(b.lines)
    ensures Shed(b.lines, open, trail + reported) ==
            Rest(Shed(old(b.lines), unmatched, trail + notes), zone, start, tol)
  {
    open, reported := unmatched, notes;
    var excess, done := start, false;
    ghost var goal := Rest(Shed(b.lines, open, trail + reported), zone, excess, tol);
    while !done && excess > tol
      invariant Distinct(b.lines)
      invariant Rest(Shed(b.lines, open, trail + reported), zone, excess, tol) == goal
      invariant done ==> goal == Shed(b.lines, open, trail + reported)
      decreases if done then 0 else 1, TotalUnits(b.lines)
    {
      done, excess, open, reported := CorrectTurn(b, zone, excess, tol, open, reported, trail);
    }
    if !done {
      PicksDone(Shed(b.lines, open, trail + reported), zone, excess, tol);
    }
  }

  /** Layer 2. */
  method PassNetDelta(
      slots: seq<Slot>, events: seq<TriggerEvent>, profiles: map<int, SensorProfile>, fallback: SensorProfile,
      unmatched: seq<Return>, notes: seq<Correction>, ghost trail: seq<Correction>)
    returns (open: seq<Return>, reported: seq<Correction>)
    requires Separate(slots) && AllDistinct(slots)
    modifies Baskets(slots)
    ensures AllDistinct(slots)
    ensures Books(View(slots), open, trail + reported) ==
            NetPass(Books(old(View(slots)), unmatched, trail + notes), |slots|, events, profiles, fallback)
  {
    open, reported := unmatched, notes;
    ghost var start := Books(View(slots), unmatched, trail + notes);
    for k := 0 to |slots|
      invariant AllDistinct(slots)
      invariant Books(View(slots), open, trail + reported) == NetPass(start, k, events, profiles, fallback)
    {
      open, reported := CorrectSlot(slots, k, events, profiles, fallback, open, reported, trail);
    }
  }

  method CorrectSlot(
      slots: seq<Slot>, k: nat, events: seq<TriggerEvent>, profiles: map<int, SensorProfile>, fallback: SensorProfile,
      unmatched: seq<Return>, notes: seq<Correction>, ghost trail: seq<Correction>)
    returns (open: seq<Return>, reported: seq<Correction>)
    requires Separate(slots) && AllDistinct(slots) && k < |slots|
    modifies slots[k].basket
    ensures AllDistinct(slots)
    ensures Books(View(slots), open, trail + reported) ==
            NetStep(Books(old(View(slots)), unmatched, trail + notes), k, events, profiles, fallback)
  {
    ghost var before := View(slots);
    var zone, b := slots[k].zone, slots[k].basket;
    var tol := Tolerance(profiles, fallback, zone);
    var excess := Weight(b.lines) - RMax(0.0, -NetOf(events, zone));
    open, reported := CorrectZone(b, zone, excess, tol, unmatched, notes, trail);
    NetStepIs(Books(before, unmatched, trail + notes), k, events, profiles, fallback,
              Shed(b.lines, open, trail + reported));
    assert View(slots) == Replaced(before, k, b.lines);
  }

  lemma NetStepIs(
      b: Books, k: nat, events: seq<TriggerEvent>, profiles: map<int, SensorProfile>, fallback: SensorProfile, s: Shed)
    requires k < |b.table|
    requires var Row(zone, lines) := b.table[k];
             s == Rest(Shed(lines, b.unmatched, b.trail), zone, Weight(lines) - RMax(0.0, -NetOf(events, zone)),
                       Tolerance(profiles, fallback, zone))
    ensures NetStep(b, k, events, profiles, fallback) == Books(Replaced(b.table, k, s.lines), s.unmatched, s.notes)
  {
  }

  /** Layer 3. */
  method PassCrossZone(
      slots: seq<Slot>, profiles: map<int, SensorProfile>, fallback: SensorProfile,
      unmatched: seq<Return>, notes: seq<Correction>, ghost trail: seq<Correction>)
    returns (reported: seq<Correction>)
    requires Separate(slots) && AllDistinct(slots)
    modifies Baskets(slots)
    ensures AllDistinct(slots)
    ensures Books(View(slots), [], trail + reported) ==
            CrossPass(Books(old(View(slots)), unmatched, trail + notes), profiles, fallback)
  {
    reported := notes;
    ghost var goal := CrossPass(Books(View(slots), unmatched, trail + notes), profiles, fallback);
    for n := 0 to |unmatched|
      invariant AllDistinct(slots)
      invariant CrossPass(Books(View(slots), unmatched[n..], trail + reported), profiles, fallback) == goal
    {
      ghost var books := Books(View(slots), unmatched[n..], trail + reported);
      var note := SettleReturn(slots, profiles, fallback, unmatched[n], books);
      assert books.unmatched[1..] == unmatched[n + 1..];
      assert trail + (reported + [note]) == books.trail + [note];
      reported := reported + [note];
    }
  }

  /** One open return: the first other zone holding such a unit gives it up, else it is reported. */
  /** Takes the unit at line `i` of the holder's basket. */
  method TakeFromSlot(
      slots: seq<Slot>, k: nat, i: nat, profiles: map<int, SensorProfile>, fallback: SensorProfile, r: Return,
      ghost books: Books)
    returns (note: Correction)
    requires Separate(slots) && AllDistinct(slots) && k < |slots|
    requires books.table == View(slots) && books.unmatched != [] && books.unmatched[0] == r
    requires Holder(books.table, r.zone, r.grams, profiles, fallback) == k
    requires i == FirstOne(slots[k].basket.lines, r.grams, Tolerance(profiles, fallback, slots[k].zone), 0)
    requires i < |slots[k].basket.lines|
    modifies Baskets(slots)
    ensures AllDistinct(slots)
    ensures Books(View(slots), books.unmatched[1..], books.trail + [note]) == CrossStep(books, profiles, fallback)
  {
    var zone, b := slots[k].zone, slots[k].basket;
    var p := b.lines[i].product;
    PositionUnique(b.lines, p.productId, i);
    TakeOneCounts(b.lines, i, 0);
    var _ := b.RemoveOne(p.productId);
    assert View(slots) == Replaced(books.table, k, Less(books.table[k].lines, i));
    note := CrossZone(r.zone, r.grams, zone, p.productId);
  }

  method SettleReturn(
      slots: seq<Slot>, profiles: map<int, SensorProfile>, fallback: SensorProfile, r: Return, ghost books: Books)
    returns (note: Correction)
    requires Separate(slots) && AllDistinct(slots)
    requires books.table == View(slots) && books.unmatched != [] && books.unmatched[0] == r
    modifies Baskets(slots)
    ensures AllDistinct(slots)
    ensures Books(View(slots), books.unmatched[1..], books.trail + [note]) == CrossStep(books, profiles, fallback)
  {
    for k := 0 to |slots|
      invariant View(slots) == books.table && AllDistinct(slots)
      invariant forall i :: 0 <= i < k ==> !Holds(books.table[i], r.zone, r.grams, profiles, fallback)
    {
      var zone, b := slots[k].zone, slots[k].basket;
      var tol := Tolerance(profiles, fallback, zone);
      if zone != r.zone {
        var i := FirstOne(b.lines, r.grams, tol, 0);
        if i < |b.lines| {
          HolderIs(books.table, r.zone, r.grams, profiles, fallback, k);
          note := TakeFromSlot(slots, k, i, profiles, fallback, r, books);
          return;
        }
      }
    }
    HolderIs(books.table, r.zone, r.grams, profiles, fallback, |slots|);
    return Unmatched(r.zone, r.grams);
  }

  lemma {:induction false} HolderIs(
      table: seq<Row>, zone: int, grams: real, profiles: map<int, SensorProfile>, fallback: SensorProfile, k: nat)
    requires k <= |table| && (k < |table| ==> Holds(table[k], zone, grams, profiles, fallback))
    requires forall i :: 0 <= i < k ==> !Holds(table[i], zone, grams, profiles, fallback)
    ensures Holder(table, zone, grams, profiles, fallback) == k
  {
    if k > 0 {
      assert !Holds(table[0], zone, grams, profiles, fallback);
      forall i | 0 <= i < k - 1 ensures !Holds(table[1..][i], zone, grams, profiles, fallback) {
        assert table[1..][i] == table[i + 1];
      }
      HolderIs(table[1..], zone, grams, profiles, fallback, k - 1);
    }
  }

  /** Layers 1 to 3, in order: the baskets that remain and every correction reported. */
  method SettleLayers(events: seq<TriggerEvent>, profiles: map<int, SensorProfile>, fallback: SensorProfile)
    returns (slots: seq<Slot>, notes: seq<Correction>, ghost trail: seq<Correction>)
    ensures Separate(slots) && fresh(Baskets(slots)) && AllDistinct(slots)
    ensures Books(View(slots), [], trail + notes) == Layers(events, profiles, fallback)
  {
    var unmatched;
    slots, unmatched, trail := PassSameZone(events, profiles, fallback);
    assert trail + [] == trail;
    unmatched, notes := PassNetDelta(slots, events, profiles, fallback, unmatched, [], trail);
    notes := PassCrossZone(slots, profiles, fallback, unmatched, notes, trail);
  }
}
