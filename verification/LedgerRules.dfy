/** The rules of settlement layers 1 to 3, stated without the greedy functions that follow them, and
    what follows from them for a whole session. */
module LedgerRules {
  import opened Types
  import opened Sorting
  import opened Ledger

  // ---- what one correction may change ----

  /** One unit of line `i` is gone; nothing else. */
  predicate TakesOne(before: seq<Line>, after: seq<Line>, i: nat) {
    && |after| == |before| && i < |before| && before[i].count > 0
    && after[i].product == before[i].product && after[i].count == before[i].count - 1
    && forall k :: 0 <= k < |before| && k != i ==> after[k] == before[k]
  }

  ghost predicate TakesMatch(before: seq<Line>, after: seq<Line>, m: Match) {
    match m
    case NoMatch => after == before
    case One(i) => TakesOne(before, after, i)
    case Two(i, j) => exists mid :: TakesOne(before, mid, i) && TakesOne(mid, after, j)
  }

  /** Only row `k` differs, and only in its lines. */
  predicate OnlyRow(before: seq<Row>, after: seq<Row>, k: nat) {
    && |after| == |before| && k < |before| && after[k].zone == before[k].zone
    && forall i :: 0 <= i < |before| && i != k ==> after[i] == before[i]
  }

  lemma LessTakesOne(ls: seq<Line>, c: nat)
    requires c < |ls| && ls[c].count > 0
    ensures TakesOne(ls, Less(ls, c), c)
  {
  }

  // ---- layer 1 ----

  function LinesOf(table: seq<Row>, zone: int): seq<Line> {
    var k := RowOf(table, zone);
    if k < |table| then table[k].lines else []
  }

  ghost predicate HasRow(table: seq<Row>, zone: int) { exists r :: r in table && r.zone == zone }

  /** A return takes the first unit of its weight that the basket of its zone holds, else the first pair;
      it stays open exactly when there is neither. */
  ghost predicate ReturnRule(b: Books, e: TriggerEvent, tol: real, r: Books) {
    var before, after := LinesOf(b.table, e.zone), LinesOf(r.table, e.zone);
    exists m ::
      && IsMatch(before, e.deltaWeight, tol, m) && TakesMatch(before, after, m)
      && r.unmatched == b.unmatched + (if m.NoMatch? then [Return(e.zone, e.deltaWeight)] else [])
      && match m
         case NoMatch => r.trail == b.trail
         case One(i) => r.trail == b.trail + [SameZoneMatch(e.zone, e.deltaWeight, [IdAt(before, i)])]
         case Two(i, j) =>
           r.trail == b.trail + [SameZoneMatch(e.zone, e.deltaWeight, [IdAt(before, i), IdAt(before, j)])]
  }

  ghost predicate RemovalRule(b: Books, e: TriggerEvent, r: Books) {
    && (forall id :: Units(LinesOf(r.table, e.zone), id) ==
                     Units(LinesOf(b.table, e.zone), id) + Billed(e.judgment.products, id))
    && r.unmatched == b.unmatched && r.trail == b.trail
  }

  ghost predicate FirstRule(b: Books, e: TriggerEvent, tol: real, r: Books) {
    && HasRow(r.table, e.zone) && GoodTable(r.table)
    && (forall z :: z != e.zone ==> LinesOf(r.table, z) == LinesOf(b.table, z))
    && if e.deltaWeight < 0.0 then RemovalRule(b, e, r)
       else if e.deltaWeight > 0.0 then ReturnRule(b, e, tol, r)
       else LinesOf(r.table, e.zone) == LinesOf(b.table, e.zone) && r.unmatched == b.unmatched && r.trail == b.trail
  }

  lemma TakeTakesMatch(ls: seq<Line>, m: Match)
    requires Takes(ls, m)
    ensures TakesMatch(ls, Take(ls, m), m)
  {
    if m.Two? {
      var mid := Recount(ls, m.i, ls[m.i].count - 1);
      assert TakesOne(ls, mid, m.i) && TakesOne(mid, Take(ls, m), m.j);
    }
  }

  lemma OpenedLines(table: seq<Row>, zone: int, other: int)
    requires GoodTable(table)
    ensures var t := Opened(table, zone);
            && GoodTable(t) && RowOf(t, zone) < |t| && LinesOf(t, other) == LinesOf(table, other)
            && t[RowOf(t, zone)].lines == LinesOf(table, zone)
  {
    var t := Opened(table, zone);
    OpenedHolds(table, zone, 0, 0);
    if t != table {
      RowUnique(t, zone, |table|);
      var i := RowOf(table, other);
      if i < |table| {
        RowUnique(t, other, i);
      } else if other != zone {
        assert RowOf(t, other) == |t|;
      }
    }
  }

  lemma ReplacedLines(table: seq<Row>, k: nat, lines: seq<Line>, other: int)
    requires GoodTable(table) && k < |table| && Distinct(lines)
    ensures var t := Replaced(table, k, lines);
            GoodTable(t) && LinesOf(t, other) == if other == table[k].zone then lines else LinesOf(table, other)
  {
    var t := Replaced(table, k, lines);
    ReplacedHolds(table, k, lines, other, 0);
    RowUnique(t, table[k].zone, k);
    var i := RowOf(table, other);
    if i < |table| {
      RowUnique(t, other, i);
    }
  }

  lemma RowIsThere(table: seq<Row>, zone: int)
    requires RowOf(table, zone) < |table|
    ensures HasRow(table, zone)
  {
    assert table[RowOf(table, zone)] in table;
  }

  lemma ReturnFollowsRule(b: Books, e: TriggerEvent, tol: real)
    requires GoodTable(b.table) && e.deltaWeight > 0.0
    ensures FirstRule(b, e, tol, SameZoneStep(b, e, tol))
  {
    var r := SameZoneStep(b, e, tol);
    var table := Opened(b.table, e.zone);
    var k := RowOf(table, e.zone);
    var before := table[k].lines;
    var m := MatchFor(before, e.deltaWeight, tol);
    OpenedLines(b.table, e.zone, e.zone);
    assert table[k] in table;
    MatchIsExact(before, e.deltaWeight, tol);
    TakeTakesMatch(before, m);
    TakeCounts(before, m, 0);
    forall z ensures LinesOf(r.table, z) == if z == e.zone then Take(before, m) else LinesOf(b.table, z) {
      OpenedLines(b.table, e.zone, z);
      ReplacedLines(table, k, Take(before, m), z);
    }
    ReplacedLines(table, k, Take(before, m), e.zone);
    assert RowOf(r.table, e.zone) < |r.table| by {
      RowUnique(r.table, e.zone, k);
    }
    RowIsThere(r.table, e.zone);
    assert b.unmatched + [] == b.unmatched;
  }

  lemma RemovalFollowsRule(b: Books, e: TriggerEvent, tol: real)
    requires GoodTable(b.table) && e.deltaWeight <= 0.0
    ensures FirstRule(b, e, tol, SameZoneStep(b, e, tol))
  {
    var r := SameZoneStep(b, e, tol);
    var table := Opened(b.table, e.zone);
    var k := RowOf(table, e.zone);
    var before := table[k].lines;
    OpenedLines(b.table, e.zone, e.zone);
    assert table[k] in table;
    var after := if e.deltaWeight < 0.0 then AddAll(before, e.judgment.products) else before;
    AddAllCounts(before, e.judgment.products, 0);
    assert r.table == Replaced(table, k, after);
    forall z ensures LinesOf(r.table, z) == if z == e.zone then after else LinesOf(b.table, z) {
      OpenedLines(b.table, e.zone, z);
      ReplacedLines(table, k, after, z);
    }
    ReplacedLines(table, k, after, e.zone);
    RowUnique(r.table, e.zone, k);
    RowIsThere(r.table, e.zone);
    forall id ensures e.deltaWeight < 0.0 ==> Units(after, id) == Units(before, id) + Billed(e.judgment.products, id) {
      AddAllCounts(before, e.judgment.products, id);
    }
  }

  // ---- layer 2 ----

  /** The first open return of the zone that a unit of this weight explains is closed; none is when none does. */
  ghost predicate ClosesFirst(
      open: seq<Return>, zone: int, grams: real, tol: real, explained: Option<real>, left: seq<Return>) {
    match explained
    case None => left == open && forall r :: r in open ==> !Explains(r, zone, grams, tol)
    case Some(g) =>
      exists u: nat ::
        && u < |open| && open[u] == Return(zone, g) && Explains(open[u], zone, grams, tol)
        && (forall k :: 0 <= k < u ==> !Explains(open[k], zone, grams, tol))
        && left == open[..u] + open[u + 1..]
  }

  predicate Explains(r: Return, zone: int, grams: real, tol: real) { r.zone == zone && Abs(r.grams - grams) <= tol }

  /** The basket is too heavy: of the units light enough it gives back the first one nearest to the excess. */
  ghost predicate Gives(s: Shed, zone: int, floor: real, tol: real, next: Shed) {
    var excess := Weight(s.lines) - floor;
    && excess > tol
    && exists c: nat, explained ::
         && Candidate(s.lines, excess, tol, c) && TakesOne(s.lines, next.lines, c)
         && (forall k: nat :: Candidate(s.lines, excess, tol, k) ==>
               Off(s.lines, excess, c) <= Off(s.lines, excess, k)
               && (k < c ==> Off(s.lines, excess, c) < Off(s.lines, excess, k)))
         && ClosesFirst(s.unmatched, zone, s.lines[c].product.unitWeight, tol, explained, next.unmatched)
         && next.notes == s.notes + [NetDelta(zone, IdAt(s.lines, c), explained)]
  }

  /** Nothing more to give back. */
  ghost predicate AtRest(s: Shed, floor: real, tol: real) {
    Weight(s.lines) - floor <= tol || NothingToGive(s.lines, Weight(s.lines) - floor, tol)
  }

  /** One unit after the other, from `s` to `r`, until nothing more is to be given back. */
  ghost predicate GivesAlong(states: seq<Shed>, zone: int, floor: real, tol: real, s: Shed, r: Shed) {
    && states != [] && states[0] == s && states[|states| - 1] == r && AtRest(r, floor, tol)
    && forall i :: 0 <= i < |states| - 1 ==> Gives(states[i], zone, floor, tol, states[i + 1])
  }

  lemma {:induction false} ExplainedIsFirst(open: seq<Return>, zone: int, grams: real, tol: real)
    ensures var u := Explained(open, zone, grams, tol);
            forall k :: 0 <= k < u ==> !Explains(open[k], zone, grams, tol)
  {
    if open != [] && !Explains(open[0], zone, grams, tol) {
      ExplainedIsFirst(open[1..], zone, grams, tol);
    }
  }

  lemma GiveBackGives(s: Shed, zone: int, floor: real, tol: real)
    requires var excess := Weight(s.lines) - floor;
             excess > tol && Closest(s.lines, excess, tol, 0) < |s.lines|
    ensures Gives(s, zone, floor, tol, GiveBack(s, zone, Closest(s.lines, Weight(s.lines) - floor, tol, 0), tol))
  {
    var excess := Weight(s.lines) - floor;
    var c := Closest(s.lines, excess, tol, 0);
    var grams := s.lines[c].product.unitWeight;
    var u := Explained(s.unmatched, zone, grams, tol);
    ClosestIsBest(s.lines, excess, tol, 0);
    LessTakesOne(s.lines, c);
    ExplainedIsFirst(s.unmatched, zone, grams, tol);
    var next := GiveBack(s, zone, c, tol);
    var explained := if u < |s.unmatched| then Some(s.unmatched[u].grams) else None;
    assert ClosesFirst(s.unmatched, zone, grams, tol, explained, next.unmatched);
    assert next.notes == s.notes + [NetDelta(zone, IdAt(s.lines, c), explained)];
  }

  lemma GivesOnce(s: Shed, zone: int, floor: real, tol: real, next: Shed, states: seq<Shed>, r: Shed)
    requires Gives(s, zone, floor, tol, next) && GivesAlong(states, zone, floor, tol, next, r)
    ensures GivesAlong([s] + states, zone, floor, tol, s, r)
  {
    var all := [s] + states;
    forall i | 0 <= i < |all| - 1 ensures Gives(all[i], zone, floor, tol, all[i + 1]) {
      if i > 0 {
        assert all[i] == states[i - 1] && all[i + 1] == states[i];
      }
    }
  }

  lemma NothingGiven(s: Shed, zone: int, floor: real, tol: real, excess: real)
    requires excess == Weight(s.lines) - floor && (excess <= tol || Closest(s.lines, excess, tol, 0) == |s.lines|)
    ensures GivesAlong([s], zone, floor, tol, s, Rest(s, zone, excess, tol))
  {
    ClosestIsBest(s.lines, excess, tol, 0);
    PicksDone(s, zone, excess, tol);
  }

  lemma RestGoesOn(s: Shed, zone: int, floor: real, tol: real, excess: real) returns (next: Shed, left: real)
    requires excess == Weight(s.lines) - floor && excess > tol && Closest(s.lines, excess, tol, 0) < |s.lines|
    ensures Gives(s, zone, floor, tol, next) && left == Weight(next.lines) - floor
    ensures TotalUnits(next.lines) < TotalUnits(s.lines)
    ensures Rest(next, zone, left, tol) == Rest(s, zone, excess, tol)
  {
    var c := Closest(s.lines, excess, tol, 0);
    next, left := GiveBack(s, zone, c, tol), excess - s.lines[c].product.unitWeight;
    LessShrinks(s.lines, c);
    TakeOneWeighs(s.lines, c);
    GiveBackGives(s, zone, floor, tol);
    PicksUnfold(s, zone, excess, tol, c);
  }

  /** The correction loop follows the rule from start to rest. */
  lemma {:induction false} RestGives(s: Shed, zone: int, floor: real, tol: real, excess: real, goal: Shed)
    returns (states: seq<Shed>)
    requires excess == Weight(s.lines) - floor && goal == Rest(s, zone, excess, tol)
    ensures GivesAlong(states, zone, floor, tol, s, goal)
    decreases TotalUnits(s.lines)
  {
    if excess <= tol || Closest(s.lines, excess, tol, 0) == |s.lines| {
      NothingGiven(s, zone, floor, tol, excess);
      states := [s];
    } else {
      var next, left := RestGoesOn(s, zone, floor, tol, excess);
      var later := RestGives(next, zone, floor, tol, left, goal);
      GivesOnce(s, zone, floor, tol, next, later, goal);
      states := [s] + later;
    }
  }

  ghost predicate SecondRule(
      b: Books, k: nat, events: seq<TriggerEvent>, profiles: map<int, SensorProfile>, fallback: SensorProfile, r: Books)
  {
    && OnlyRow(b.table, r.table, k)
    && var zone := b.table[k].zone;
       exists states ::
         GivesAlong(states, zone, Floor(events, zone), Tolerance(profiles, fallback, zone),
                    Shed(b.table[k].lines, b.unmatched, b.trail), Shed(r.table[k].lines, r.unmatched, r.trail))
  }

  lemma NetStepFollowsRule(
      b: Books, k: nat, events: seq<TriggerEvent>, profiles: map<int, SensorProfile>, fallback: SensorProfile)
    requires k < |b.table|
    ensures SecondRule(b, k, events, profiles, fallback, NetStep(b, k, events, profiles, fallback))
  {
    var row, r := b.table[k], NetStep(b, k, events, profiles, fallback);
    var s := Shed(row.lines, b.unmatched, b.trail);
    var floor := Floor(events, row.zone);
    var states := RestGives(s, row.zone, floor, Tolerance(profiles, fallback, row.zone), Weight(row.lines) - floor,
                            Shed(r.table[k].lines, r.unmatched, r.trail));
  }

  // ---- layer 3 ----

  predicate Offers(
      table: seq<Row>, r: Return, profiles: map<int, SensorProfile>, fallback: SensorProfile, k: nat, i: nat) {
    && k < |table| && table[k].zone != r.zone
    && FitsOne(table[k].lines, r.grams, Tolerance(profiles, fallback, table[k].zone), i)
  }

  /** The oldest open return takes the first unit of its weight from the first other zone that has one, and
      is reported exactly when none has. */
  ghost predicate ThirdRule(b: Books, profiles: map<int, SensorProfile>, fallback: SensorProfile, r: Books) {
    b.unmatched != [] && r.unmatched == b.unmatched[1..] &&
    var x := b.unmatched[0];
    if exists k: nat, i: nat :: Offers(b.table, x, profiles, fallback, k, i) then
      exists k: nat, i: nat ::
        && Offers(b.table, x, profiles, fallback, k, i)
        && (forall a: nat, c: nat :: a < k || (a == k && c < i) ==> !Offers(b.table, x, profiles, fallback, a, c))
        && OnlyRow(b.table, r.table, k) && TakesOne(b.table[k].lines, r.table[k].lines, i)
        && r.trail == b.trail + [CrossZone(x.zone, x.grams, b.table[k].zone, IdAt(b.table[k].lines, i))]
    else r.table == b.table && r.trail == b.trail + [Unmatched(x.zone, x.grams)]
  }

  lemma HolderOffers(table: seq<Row>, x: Return, profiles: map<int, SensorProfile>, fallback: SensorProfile)
    ensures var k := Holder(table, x.zone, x.grams, profiles, fallback);
            && (forall a: nat, c: nat :: a < k ==> !Offers(table, x, profiles, fallback, a, c))
            && (k < |table| ==>
                  var i := FirstOne(table[k].lines, x.grams, Tolerance(profiles, fallback, table[k].zone), 0);
                  && Offers(table, x, profiles, fallback, k, i)
                  && forall c: nat :: c < i ==> !Offers(table, x, profiles, fallback, k, c))
  {
    var k := Holder(table, x.zone, x.grams, profiles, fallback);
    forall a: nat, c: nat | a < k ensures !Offers(table, x, profiles, fallback, a, c) {
      HolderIsFirst(table, x.zone, x.grams, profiles, fallback, a);
    }
  }

  lemma CrossStepFollowsRule(b: Books, profiles: map<int, SensorProfile>, fallback: SensorProfile)
    requires b.unmatched != []
    ensures ThirdRule(b, profiles, fallback, CrossStep(b, profiles, fallback))
  {
    var x := b.unmatched[0];
    var k := Holder(b.table, x.zone, x.grams, profiles, fallback);
    HolderOffers(b.table, x, profiles, fallback);
    if k < |b.table| {
      var i := FirstOne(b.table[k].lines, x.grams, Tolerance(profiles, fallback, b.table[k].zone), 0);
      LessTakesOne(b.table[k].lines, i);
    } else {
      assert forall a: nat, c: nat :: !Offers(b.table, x, profiles, fallback, a, c);
    }
  }

  // ---- the three layers ----

  ghost predicate FirstAlong(
      sorted: seq<TriggerEvent>, profiles: map<int, SensorProfile>, fallback: SensorProfile, states: seq<Books>)
  {
    && |states| == |sorted| + 1 && states[0] == EMPTY
    && forall i :: 0 <= i < |sorted| ==>
         FirstRule(states[i], sorted[i], Tolerance(profiles, fallback, sorted[i].zone), states[i + 1])
  }

  ghost predicate SecondAlong(
      events: seq<TriggerEvent>, profiles: map<int, SensorProfile>, fallback: SensorProfile, states: seq<Books>)
  {
    && states != [] && |states| == |states[0].table| + 1
    && (forall k :: 0 <= k < |states| ==> |states[k].table| == |states[0].table|)
    && forall k :: 0 <= k < |states| - 1 ==> SecondRule(states[k], k, events, profiles, fallback, states[k + 1])
  }

  ghost predicate ThirdAlong(profiles: map<int, SensorProfile>, fallback: SensorProfile, states: seq<Books>) {
    && states != [] && states[|states| - 1].unmatched == []
    && forall i :: 0 <= i < |states| - 1 ==> ThirdRule(states[i], profiles, fallback, states[i + 1])
  }

  /** The events in order of time, each answered by the first rule; then every zone corrected by the second;
      then every return still open settled by the third. */
  ghost predicate Follows(
      events: seq<TriggerEvent>, profiles: map<int, SensorProfile>, fallback: SensorProfile, sorted: seq<TriggerEvent>,
      first: seq<Books>, second: seq<Books>, third: seq<Books>)
  {
    && multiset(sorted) == multiset(events) && SortedBy(sorted, Earlier)
    && FirstAlong(sorted, profiles, fallback, first)
    && SecondAlong(events, profiles, fallback, second) && second[0] == first[|first| - 1]
    && ThirdAlong(profiles, fallback, third) && third[0] == second[|second| - 1]
  }

  lemma {:induction false} FirstFollows(
      sorted: seq<TriggerEvent>, n: nat, profiles: map<int, SensorProfile>, fallback: SensorProfile)
    requires n <= |sorted|
    ensures GoodTable(SameZone(sorted, n, profiles, fallback).table)
    ensures n < |sorted| ==>
              FirstRule(SameZone(sorted, n, profiles, fallback), sorted[n],
                        Tolerance(profiles, fallback, sorted[n].zone), SameZone(sorted, n + 1, profiles, fallback))
  {
    if n > 0 {
      FirstFollows(sorted, n - 1, profiles, fallback);
    }
    if n < |sorted| {
      var b, tol := SameZone(sorted, n, profiles, fallback), Tolerance(profiles, fallback, sorted[n].zone);
      if sorted[n].deltaWeight > 0.0 {
        ReturnFollowsRule(b, sorted[n], tol);
      } else {
        RemovalFollowsRule(b, sorted[n], tol);
      }
    }
  }

  lemma {:induction false} ThirdFollows(b: Books, profiles: map<int, SensorProfile>, fallback: SensorProfile)
    returns (states: seq<Books>)
    ensures ThirdAlong(profiles, fallback, states) && states[0] == b
    ensures states[|states| - 1] == CrossPass(b, profiles, fallback)
    decreases |b.unmatched|
  {
    states := [b];
    if b.unmatched != [] {
      var next := CrossStep(b, profiles, fallback);
      CrossStepFollowsRule(b, profiles, fallback);
      var later := ThirdFollows(next, profiles, fallback);
      states := [b] + later;
      forall i | 0 <= i < |states| - 1 ensures ThirdRule(states[i], profiles, fallback, states[i + 1]) {
        assert i > 0 ==> states[i] == later[i - 1] && states[i + 1] == later[i];
      }
    }
  }

  /** What the layers compute is what the rules prescribe. */
  lemma LayersFollowRules(events: seq<TriggerEvent>, profiles: map<int, SensorProfile>, fallback: SensorProfile)
    returns (sorted: seq<TriggerEvent>, first: seq<Books>, second: seq<Books>, third: seq<Books>)
    ensures Follows(events, profiles, fallback, sorted, first, second, third)
    ensures third[|third| - 1] == Layers(events, profiles, fallback)
  {
    sorted := StableSort(events, Earlier);
    SortPermutes(events, Earlier);
    StableSortSorts(events, Earlier);
    first := FirstStates(sorted, profiles, fallback);
    second := SecondFollows(first[|sorted|], events, profiles, fallback);
    third := ThirdFollows(second[|second| - 1], profiles, fallback);
  }

  lemma FirstStates(sorted: seq<TriggerEvent>, profiles: map<int, SensorProfile>, fallback: SensorProfile)
    returns (states: seq<Books>)
    ensures FirstAlong(sorted, profiles, fallback, states)
    ensures states[|sorted|] == SameZone(sorted, |sorted|, profiles, fallback)
  {
    var n := |sorted|;
    states := seq(n + 1, i requires 0 <= i <= n => SameZone(sorted, i, profiles, fallback));
    forall i | 0 <= i < n
      ensures FirstRule(states[i], sorted[i], Tolerance(profiles, fallback, sorted[i].zone), states[i + 1])
    {
      NextFollows(sorted, i, profiles, fallback, states[i], states[i + 1]);
    }
  }

  lemma NextFollows(
      sorted: seq<TriggerEvent>, i: nat, profiles: map<int, SensorProfile>, fallback: SensorProfile, b: Books, r: Books)
    requires i < |sorted|
    requires b == SameZone(sorted, i, profiles, fallback) && r == SameZone(sorted, i + 1, profiles, fallback)
    ensures FirstRule(b, sorted[i], Tolerance(profiles, fallback, sorted[i].zone), r)
  {
    FirstFollows(sorted, i, profiles, fallback);
  }

  lemma SecondFollows(
      b: Books, events: seq<TriggerEvent>, profiles: map<int, SensorProfile>, fallback: SensorProfile)
    returns (states: seq<Books>)
    ensures SecondAlong(events, profiles, fallback, states) && states[0] == b
    ensures states[|states| - 1] == NetPass(b, |b.table|, events, profiles, fallback)
  {
    var n := |b.table|;
    states := seq(n + 1, k requires 0 <= k <= n => NetPass(b, k, events, profiles, fallback));
    forall k | 0 <= k < n ensures SecondRule(states[k], k, events, profiles, fallback, states[k + 1]) {
      NetStepFollowsRule(states[k], k, events, profiles, fallback);
    }
  }

  // ---- what the rules come to: returns are settled once, by the right layer ----

  predicate SameGoods(a: seq<Line>, b: seq<Line>) {
    |a| == |b| && forall i :: 0 <= i < |a| ==> a[i].product == b[i].product
  }

  /** Layer 2 gave back a unit that would explain the return, and it explained no return. */
  ghost predicate CouldExplain(
      table: seq<Row>, trail: seq<Correction>, r: Return, profiles: map<int, SensorProfile>, fallback: SensorProfile)
  {
    exists k, i :: 0 <= k < |table| && 0 <= i < |table[k].lines| && Missed(table[k], i, trail, r, profiles, fallback)
  }

  ghost predicate Missed(
      row: Row, i: int, trail: seq<Correction>, r: Return, profiles: map<int, SensorProfile>, fallback: SensorProfile)
    requires 0 <= i < |row.lines|
  {
    && NetDelta(row.zone, IdAt(row.lines, i), None) in trail
    && Explains(r, row.zone, row.lines[i].product.unitWeight, Tolerance(profiles, fallback, row.zone))
  }

  /** The return went on to layer 3. */
  ghost predicate Late(trail: seq<Correction>, r: Return) {
    Unmatched(r.zone, r.grams) in trail || exists from, id :: CrossZone(r.zone, r.grams, from, id) in trail
  }

  ghost predicate LateIsUnexplained(b: Books, profiles: map<int, SensorProfile>, fallback: SensorProfile) {
    forall r :: r in b.unmatched || Late(b.trail, r) ==> !CouldExplain(b.table, b.trail, r, profiles, fallback)
  }

  /** What no zone could take back, none holds. */
  ghost predicate UnmatchedIsNowhere(b: Books, profiles: map<int, SensorProfile>, fallback: SensorProfile) {
    forall r: Return, k: nat, i: nat :: Unmatched(r.zone, r.grams) in b.trail ==>
      !Offers(b.table, r, profiles, fallback, k, i)
  }

  ghost predicate ShedFree(s: Shed, zone: int, tol: real) {
    forall i, r :: 0 <= i < |s.lines| && r in s.unmatched && NetDelta(zone, IdAt(s.lines, i), None) in s.notes ==>
      !Explains(r, zone, s.lines[i].product.unitWeight, tol)
  }

  /** Corrections of zone `zone` were added; returns were only closed. */
  ghost predicate Shrinks(s: Shed, r: Shed, zone: int) {
    && SameGoods(s.lines, r.lines) && (forall x :: x in r.unmatched ==> x in s.unmatched)
    && (forall c :: c in s.notes ==> c in r.notes)
    && forall c :: c in r.notes ==> c in s.notes || (c.NetDelta? && c.zone == zone)
  }

  lemma ClosingShrinks(open: seq<Return>, zone: int, grams: real, tol: real, explained: Option<real>, left: seq<Return>)
    requires ClosesFirst(open, zone, grams, tol, explained, left)
    ensures forall x :: x in left ==> x in open
    ensures |left| == |open| - if explained.Some? then 1 else 0
  {
  }

  lemma GivesShrinks(s: Shed, zone: int, floor: real, tol: real, next: Shed)
    requires Gives(s, zone, floor, tol, next) && Distinct(s.lines) && ShedFree(s, zone, tol)
    ensures Distinct(next.lines) && ShedFree(next, zone, tol) && Shrinks(s, next, zone)
  {
    var excess := Weight(s.lines) - floor;
    var c: nat, explained :|
      && Candidate(s.lines, excess, tol, c) && TakesOne(s.lines, next.lines, c)
      && ClosesFirst(s.unmatched, zone, s.lines[c].product.unitWeight, tol, explained, next.unmatched)
      && next.notes == s.notes + [NetDelta(zone, IdAt(s.lines, c), explained)];
    ClosingShrinks(s.unmatched, zone, s.lines[c].product.unitWeight, tol, explained, next.unmatched);
    SameIds(s.lines, next.lines, 0);
    forall i, r | 0 <= i < |next.lines| && r in next.unmatched
      && NetDelta(zone, IdAt(next.lines, i), None) in next.notes
      ensures !Explains(r, zone, next.lines[i].product.unitWeight, tol)
    {
      assert IdAt(next.lines, i) == IdAt(s.lines, i) && r in s.unmatched;
      if NetDelta(zone, IdAt(s.lines, i), None) !in s.notes {
        assert IdAt(s.lines, i) == IdAt(s.lines, c);
        assert i == c;
      }
    }
  }

  lemma {:induction false} AlongShrinks(
      states: seq<Shed>, zone: int, floor: real, tol: real, s: Shed, r: Shed)
    requires GivesAlong(states, zone, floor, tol, s, r) && Distinct(s.lines) && ShedFree(s, zone, tol)
    ensures Distinct(r.lines) && ShedFree(r, zone, tol) && Shrinks(s, r, zone)
    decreases |states|
  {
    if |states| > 1 {
      var next := states[1];
      assert Gives(states[0], zone, floor, tol, next);
      GivesShrinks(s, zone, floor, tol, next);
      AlongShrinks(states[1..], zone, floor, tol, next, r);
    }
  }

  ghost predicate NothingLate(b: Books) { forall c :: c in b.trail ==> !c.CrossZone? && !c.Unmatched? }

  lemma SecondKeeps(
      b: Books, k: nat, events: seq<TriggerEvent>, profiles: map<int, SensorProfile>, fallback: SensorProfile, r: Books)
    requires k < |b.table| && SecondRule(b, k, events, profiles, fallback, r)
    requires GoodTable(b.table) && NothingLate(b) && LateIsUnexplained(b, profiles, fallback)
    ensures GoodTable(r.table) && NothingLate(r) && LateIsUnexplained(r, profiles, fallback)
  {
    var zone := b.table[k].zone;
    var floor, tol := Floor(events, zone), Tolerance(profiles, fallback, zone);
    var s, t := Shed(b.table[k].lines, b.unmatched, b.trail), Shed(r.table[k].lines, r.unmatched, r.trail);
    var states :| GivesAlong(states, zone, floor, tol, s, t);
    assert b.table[k] in b.table;
    StartsFree(b, k, profiles, fallback);
    AlongShrinks(states, zone, floor, tol, s, t);
    assert r.table == Replaced(b.table, k, t.lines);
    ReplacedHolds(b.table, k, t.lines, 0, 0);
    forall x | x in r.unmatched ensures !CouldExplain(r.table, r.trail, x, profiles, fallback) {
      StaysUnexplained(b, k, s, t, r, x, profiles, fallback);
    }
    assert forall x :: !Late(r.trail, x);
  }

  lemma StartsFree(b: Books, k: nat, profiles: map<int, SensorProfile>, fallback: SensorProfile)
    requires k < |b.table| && LateIsUnexplained(b, profiles, fallback)
    ensures ShedFree(Shed(b.table[k].lines, b.unmatched, b.trail), b.table[k].zone,
                     Tolerance(profiles, fallback, b.table[k].zone))
  {
    var row := b.table[k];
    forall i, r | 0 <= i < |row.lines| && r in b.unmatched && NetDelta(row.zone, IdAt(row.lines, i), None) in b.trail
      ensures !Explains(r, row.zone, row.lines[i].product.unitWeight, Tolerance(profiles, fallback, row.zone))
    {
      assert !CouldExplain(b.table, b.trail, r, profiles, fallback);
      assert !Missed(row, i, b.trail, r, profiles, fallback);
    }
  }

  lemma StaysUnexplained(
      b: Books, k: nat, s: Shed, t: Shed, r: Books, x: Return, profiles: map<int, SensorProfile>,
      fallback: SensorProfile)
    requires k < |b.table| && LateIsUnexplained(b, profiles, fallback) && ZonesDistinct(b.table)
    requires s.notes == b.trail && s.unmatched == b.unmatched && t.notes == r.trail && t.unmatched == r.unmatched
    requires r.table == Replaced(b.table, k, t.lines) && Shrinks(s, t, b.table[k].zone)
    requires ShedFree(t, b.table[k].zone, Tolerance(profiles, fallback, b.table[k].zone))
    requires x in r.unmatched
    ensures !CouldExplain(r.table, r.trail, x, profiles, fallback)
  {
    forall j, i | 0 <= j < |r.table| && 0 <= i < |r.table[j].lines|
      ensures !Missed(r.table[j], i, r.trail, x, profiles, fallback)
    {
      if j != k {
        assert r.table[j] == b.table[j] && b.table[j].zone != b.table[k].zone;
        assert !CouldExplain(b.table, b.trail, x, profiles, fallback);
        assert !Missed(b.table[j], i, b.trail, x, profiles, fallback);
      }
    }
  }

  /** Rows with the same zones and goods, and a trail with the same corrections of layer 2. */
  lemma SameCouldExplain(
      b: Books, r: Books, x: Return, profiles: map<int, SensorProfile>, fallback: SensorProfile)
    requires |r.table| == |b.table|
    requires forall k :: 0 <= k < |b.table| ==>
               r.table[k].zone == b.table[k].zone && SameGoods(r.table[k].lines, b.table[k].lines)
    requires forall c: Correction :: c.NetDelta? ==> (c in r.trail <==> c in b.trail)
    ensures CouldExplain(r.table, r.trail, x, profiles, fallback) ==>
            CouldExplain(b.table, b.trail, x, profiles, fallback)
  {
    if k, i :| 0 <= k < |r.table| && 0 <= i < |r.table[k].lines|
               && Missed(r.table[k], i, r.trail, x, profiles, fallback) {
      assert Missed(b.table[k], i, b.trail, x, profiles, fallback);
    }
  }

  /** Goods stay, counts never rise, and the trail grows by one correction of layer 3 for the oldest return. */
  lemma ThirdChanges(b: Books, profiles: map<int, SensorProfile>, fallback: SensorProfile, r: Books)
    returns (late: Correction)
    requires ThirdRule(b, profiles, fallback, r)
    ensures r.trail == b.trail + [late] && Late([late], b.unmatched[0])
    ensures late.Unmatched? || late.CrossZone?
    ensures late.zone == b.unmatched[0].zone && late.grams == b.unmatched[0].grams
    ensures late.Unmatched? ==> forall k: nat, i: nat :: !Offers(b.table, b.unmatched[0], profiles, fallback, k, i)
    ensures |r.table| == |b.table|
    ensures forall k :: 0 <= k < |b.table| ==>
              r.table[k].zone == b.table[k].zone && SameGoods(r.table[k].lines, b.table[k].lines)
    ensures forall k, i :: 0 <= k < |b.table| && 0 <= i < |b.table[k].lines| ==>
              r.table[k].lines[i].count <= b.table[k].lines[i].count
  {
    late := r.trail[|b.trail|];
    assert late in [late];
  }

  lemma ThirdKeeps(b: Books, profiles: map<int, SensorProfile>, fallback: SensorProfile, r: Books)
    requires ThirdRule(b, profiles, fallback, r)
    requires LateIsUnexplained(b, profiles, fallback) && UnmatchedIsNowhere(b, profiles, fallback)
    ensures LateIsUnexplained(r, profiles, fallback) && UnmatchedIsNowhere(r, profiles, fallback)
  {
    var x := b.unmatched[0];
    var late := ThirdChanges(b, profiles, fallback, r);
    forall y | y in r.unmatched || Late(r.trail, y) ensures !CouldExplain(r.table, r.trail, y, profiles, fallback) {
      assert y in b.unmatched || Late(b.trail, y);
      SameCouldExplain(b, r, y, profiles, fallback);
    }
    forall y: Return, k: nat, i: nat | Unmatched(y.zone, y.grams) in r.trail
      ensures !Offers(r.table, y, profiles, fallback, k, i) {
      assert !Offers(b.table, y, profiles, fallback, k, i);
    }
  }

  lemma {:induction false} FirstKeeps(
      sorted: seq<TriggerEvent>, profiles: map<int, SensorProfile>, fallback: SensorProfile, states: seq<Books>, n: nat)
    requires FirstAlong(sorted, profiles, fallback, states) && n < |states|
    ensures GoodTable(states[n].table) && forall c :: c in states[n].trail ==> c.SameZoneMatch?
  {
    if n > 0 {
      FirstKeeps(sorted, profiles, fallback, states, n - 1);
      assert FirstRule(states[n - 1], sorted[n - 1], Tolerance(profiles, fallback, sorted[n - 1].zone), states[n]);
    }
  }

  lemma {:induction false} SecondAlongKeeps(
      events: seq<TriggerEvent>, profiles: map<int, SensorProfile>, fallback: SensorProfile, states: seq<Books>, n: nat)
    requires SecondAlong(events, profiles, fallback, states) && n < |states|
    requires GoodTable(states[0].table) && forall c :: c in states[0].trail ==> c.SameZoneMatch?
    ensures GoodTable(states[n].table) && NothingLate(states[n]) && LateIsUnexplained(states[n], profiles, fallback)
  {
    if n > 0 {
      SecondAlongKeeps(events, profiles, fallback, states, n - 1);
      assert SecondRule(states[n - 1], n - 1, events, profiles, fallback, states[n]);
      SecondKeeps(states[n - 1], n - 1, events, profiles, fallback, states[n]);
    }
  }

  lemma {:induction false} ThirdAlongKeeps(
      profiles: map<int, SensorProfile>, fallback: SensorProfile, states: seq<Books>, n: nat)
    requires ThirdAlong(profiles, fallback, states) && n < |states|
    requires LateIsUnexplained(states[0], profiles, fallback) && UnmatchedIsNowhere(states[0], profiles, fallback)
    ensures LateIsUnexplained(states[n], profiles, fallback) && UnmatchedIsNowhere(states[n], profiles, fallback)
  {
    if n > 0 {
      ThirdAlongKeeps(profiles, fallback, states, n - 1);
      assert ThirdRule(states[n - 1], profiles, fallback, states[n]);
      ThirdKeeps(states[n - 1], profiles, fallback, states[n]);
    }
  }

  /** In every session layer 3 settles only returns that no correction of layer 2 could have explained, and
      it reports one as unmatched only if no other zone is left with a unit of its weight. */
  lemma ReturnsSettledOnce(events: seq<TriggerEvent>, profiles: map<int, SensorProfile>, fallback: SensorProfile)
    ensures var b := Layers(events, profiles, fallback);
            && (forall r :: Late(b.trail, r) ==> !CouldExplain(b.table, b.trail, r, profiles, fallback))
            && (forall r: Return, k: nat, i: nat :: Unmatched(r.zone, r.grams) in b.trail ==>
                  !Offers(b.table, r, profiles, fallback, k, i))
  {
    var sorted, first, second, third := LayersFollowRules(events, profiles, fallback);
    FirstKeeps(sorted, profiles, fallback, first, |first| - 1);
    SecondAlongKeeps(events, profiles, fallback, second, |second| - 1);
    ThirdAlongKeeps(profiles, fallback, third, |third| - 1);
    assert LateIsUnexplained(third[|third| - 1], profiles, fallback);
  }
}
