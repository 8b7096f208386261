/** The two-product answer to an aliased single count: among all pairs of seen products whose counts
    explain the net change, the best supported one. */
module VisionCombo {
  import opened Types
  import opened Sorting
  import opened Freezer
  import opened Ghosts

  const VOTE_FLOOR: int := 3
  const MAX_UNITS: nat := 6

  // ---- votes of one zone ----

  datatype Tally = Tally(classId: int, votes: int, conf: real)

  /** Keeps the most votes and the best confidence of a class; new classes are appended. */
  function PutTally(ts: seq<Tally>, c: VisionCandidate): seq<Tally> {
    if ts == [] then [Tally(c.classId, c.voteCount, RMax(0.0, c.confidence))]
    else if ts[0].classId == c.classId
    then [Tally(c.classId, Max(ts[0].votes, c.voteCount), RMax(ts[0].conf, c.confidence))] + ts[1..]
    else [ts[0]] + PutTally(ts[1..], c)
  }

  predicate Counts(c: VisionCandidate) { c.classId > 0 && c.voteCount >= VOTE_FLOOR }

  function TallyAll(ts: seq<Tally>, cs: seq<VisionCandidate>): seq<Tally> {
    if cs == [] then ts
    else
      var rest := TallyAll(ts, cs[..|cs| - 1]);
      var c := cs[|cs| - 1];
      if Counts(c) then PutTally(rest, c) else rest
  }

  predicate RemovalIn(e: TriggerEvent, zone: int) { e.zone == zone && e.deltaWeight < 0.0 && e.status.EventOk? }

  function Tallies(events: seq<TriggerEvent>, zone: int): seq<Tally> {
    if events == [] then []
    else
      var rest := Tallies(events[..|events| - 1], zone);
      var e := events[|events| - 1];
      if RemovalIn(e, zone) then TallyAll(rest, e.visionCandidates) else rest
  }

  function VotesFor(ts: seq<Tally>, cid: int): Option<int> {
    if ts == [] then None else if ts[0].classId == cid then Some(ts[0].votes) else VotesFor(ts[1..], cid)
  }

  // ---- which classes qualify ----

  datatype ComboPolicy = ComboPolicy(unitSlack: real, minVoteRatio: real, minConf: real, overrideMaxConf: real)

  predicate BilledIn(backed: map<int, set<int>>, cid: int, zone: int) { cid in backed && zone in backed[cid] }

  function MostVotes(ts: seq<Tally>): int {
    if ts == [] then 0 else Max(ts[0].votes, MostVotes(ts[1..]))
  }

  /** The first class with the most (votes, confidence). */
  function TopOf(ts: seq<Tally>): Option<Tally> {
    if ts == [] then None
    else
      var n := |ts| - 1;
      var top := TopOf(ts[..n]);
      if top.None? || ts[n].votes > top.value.votes || (ts[n].votes == top.value.votes && ts[n].conf > top.value.conf)
      then Some(ts[n])
      else top
  }

  /** Not a ghost, and not explained by another zone alone. */
  function SessionAllows(zone: int, ghosts: set<int>, backed: map<int, set<int>>): Tally -> bool {
    (t: Tally) => t.classId !in ghosts && (t.classId in backed && backed[t.classId] != {} ==> zone in backed[t.classId])
  }

  /** Most votes among the classes the zone's complete judgements billed. */
  function BilledVotes(ts: seq<Tally>, zone: int, backed: map<int, set<int>>): Option<int> {
    var billed := Filter(ts, (t: Tally) => BilledIn(backed, t.classId, zone));
    if billed == [] then None else Some(MostVotes(billed))
  }

  /** Not a class the judgement saw with at least the votes of what it billed, and still did not bill. */
  function JudgementAllows(
      zone: int, backed: map<int, set<int>>, billedVotes: Option<int>, rawTop: Option<Tally>): Tally -> bool {
    (t: Tally) =>
      BilledIn(backed, t.classId, zone)
      || match billedVotes
         case Some(v) => t.votes < v
         case None => rawTop.None? || rawTop.value.classId != t.classId
  }

  function EvidenceAllows(policy: ComboPolicy, top: int): Tally -> bool {
    (t: Tally) => !((t.votes as real) < policy.minVoteRatio * top as real && t.conf < policy.minConf)
  }

  function Qualified(
      policy: ComboPolicy, raw: seq<Tally>, zone: int, ghosts: set<int>, backed: map<int, set<int>>): seq<Tally> {
    var ts := Filter(raw, SessionAllows(zone, ghosts, backed));
    var judged :=
      if exists cid :: cid in backed && zone in backed[cid]
      then Filter(ts, JudgementAllows(zone, backed, BilledVotes(ts, zone, backed), TopOf(raw)))
      else ts;
    Filter(judged, EvidenceAllows(policy, MostVotes(judged)))
  }

  function PairPool(active: seq<ActiveProduct>, ts: seq<Tally>): seq<ActiveProduct> {
    Filter(active, (p: ActiveProduct) => VotesFor(ts, p.classId).Some? && p.unitWeight > 0.0 && p.stockQty > 0)
  }

  // ---- pairs ----

  datatype Quest = Quest(
    pool: seq<ActiveProduct>, ts: seq<Tally>, target: real, gate: real, slack: real, billedClass: int, billedCount: nat)

  datatype Pick = Pick(i: nat, j: nat, na: nat, nb: nat)

  function PickWeight(q: Quest, x: Pick): real
    requires x.i < |q.pool| && x.j < |q.pool|
  {
    Times(x.na, q.pool[x.i].unitWeight) + Times(x.nb, q.pool[x.j].unitWeight)
  }

  function CountLimit(q: Quest, i: nat): int
    requires i < |q.pool|
  {
    Min(q.pool[i].stockQty, MAX_UNITS)
  }

  /** Two classes, each in a feasible count, together within the gate for their number. */
  predicate EligiblePick(q: Quest, x: Pick) {
    && x.i < x.j < |q.pool| && q.pool[x.i].classId != q.pool[x.j].classId
    && 1 <= x.na <= CountLimit(q, x.i) && 1 <= x.nb <= CountLimit(q, x.j)
    && Abs(q.target - PickWeight(q, x)) <= GateFor(q.gate, q.slack, x.na + x.nb)
  }

  datatype Score = Score(votes: int, deviation: int, residual: real, total: nat)

  function Gap(a: nat, b: nat): nat { if a < b then b - a else a - b }

  function BilledOf(q: Quest, cid: int): nat { if cid == q.billedClass then q.billedCount else 0 }

  function OrZero(v: Option<int>): int { if v.Some? then v.value else 0 }

  function ScoreOf(q: Quest, x: Pick): Score
    requires x.i < |q.pool| && x.j < |q.pool|
  {
    var a, b := q.pool[x.i].classId, q.pool[x.j].classId;
    var unseen := if q.billedClass != a && q.billedClass != b then q.billedCount else 0;
    Score(OrZero(VotesFor(q.ts, a)) + OrZero(VotesFor(q.ts, b)),
          Gap(x.na, BilledOf(q, a)) + Gap(x.nb, BilledOf(q, b)) + unseen,
          Abs(q.target - PickWeight(q, x)),
          x.na + x.nb)
  }

  /** More votes, then closer to what was billed, then a smaller residual, then fewer units. */
  predicate Higher(a: Score, b: Score) {
    || a.votes > b.votes
    || (a.votes == b.votes && (a.deviation < b.deviation
        || (a.deviation == b.deviation && (a.residual < b.residual
            || (a.residual == b.residual && a.total < b.total)))))
  }

  /** The order in which picks are tried. */
  predicate Earlier(a: Pick, b: Pick) {
    || a.i < b.i
    || (a.i == b.i && (a.j < b.j || (a.j == b.j && (a.na < b.na || (a.na == b.na && a.nb < b.nb)))))
  }

  /** `b` scores no lower than `x`, and is the earlier one if they tie. */
  predicate Outranks(q: Quest, b: Pick, x: Pick)
    requires EligiblePick(q, b) && EligiblePick(q, x)
  {
    Higher(ScoreOf(q, b), ScoreOf(q, x)) || (ScoreOf(q, b) == ScoreOf(q, x) && Earlier(b, x))
  }

  /** Nothing in `seen` that qualifies scores higher; something is chosen if anything qualifies. */
  ghost predicate Tops(q: Quest, seen: iset<Pick>, best: Option<Pick>) {
    match best
    case None => forall x :: x in seen ==> !EligiblePick(q, x)
    case Some(b) =>
      && b in seen && EligiblePick(q, b)
      && forall x :: x in seen && EligiblePick(q, x) ==> x == b || Outranks(q, b, x)
  }

  ghost predicate IsBestPick(q: Quest, best: Option<Pick>) {
    match best
    case None => forall x :: !EligiblePick(q, x)
    case Some(b) => EligiblePick(q, b) && forall x :: EligiblePick(q, x) ==> x == b || Outranks(q, b, x)
  }

  lemma HigherThrough(a: Score, b: Score, c: Score)
    requires Higher(a, b) && (b == c || Higher(b, c))
    ensures Higher(a, c)
  {
  }

  lemma HigherTotal(a: Score, b: Score)
    ensures Higher(a, b) || a == b || Higher(b, a)
  {
  }

  method Weigh(q: Quest, x: Pick, best: Option<Pick>, ghost seen: iset<Pick>) returns (r: Option<Pick>)
    requires Tops(q, seen, best) && forall y :: y in seen ==> Earlier(y, x)
    ensures Tops(q, seen + iset{x}, r)
  {
    if !EligiblePick(q, x) {
      return best;
    }
    if best.None? {
      return Some(x);
    }
    if Higher(ScoreOf(q, x), ScoreOf(q, best.value)) {
      forall y | y in seen && EligiblePick(q, y) ensures Outranks(q, x, y) {
        HigherThrough(ScoreOf(q, x), ScoreOf(q, best.value), ScoreOf(q, y));
      }
      return Some(x);
    }
    HigherTotal(ScoreOf(q, x), ScoreOf(q, best.value));
    return best;
  }

  method WeighCounts(q: Quest, i: nat, j: nat, na: nat, best: Option<Pick>, ghost seen: iset<Pick>)
    returns (r: Option<Pick>, ghost more: iset<Pick>)
    requires i < j < |q.pool| && Tops(q, seen, best)
    requires forall y :: y in seen ==> y.i < i || (y.i == i && (y.j < j || (y.j == j && y.na < na)))
    ensures Tops(q, more, r) && seen <= more
    ensures forall y :: y in more ==> y.i < i || (y.i == i && (y.j < j || (y.j == j && y.na <= na)))
    ensures forall x: Pick :: x.i == i && x.j == j && x.na == na && EligiblePick(q, x) ==> x in more
  {
    r, more := best, seen;
    var nb: nat := 1;
    while nb <= CountLimit(q, j)
      invariant 1 <= nb
      invariant Tops(q, more, r) && seen <= more
      invariant forall y :: y in more ==> Earlier(y, Pick(i, j, na, nb))
      invariant forall x: Pick :: x.i == i && x.j == j && x.na == na && x.nb < nb && EligiblePick(q, x) ==> x in more
    {
      r := Weigh(q, Pick(i, j, na, nb), r, more);
      more := more + iset{Pick(i, j, na, nb)};
      nb := nb + 1;
    }
  }

  method WeighPair(q: Quest, i: nat, j: nat, best: Option<Pick>, ghost seen: iset<Pick>)
    returns (r: Option<Pick>, ghost more: iset<Pick>)
    requires i < j < |q.pool| && Tops(q, seen, best)
    requires forall y :: y in seen ==> y.i < i || (y.i == i && y.j < j)
    ensures Tops(q, more, r) && seen <= more
    ensures forall y :: y in more ==> y.i < i || (y.i == i && y.j <= j)
    ensures forall x: Pick :: x.i == i && x.j == j && EligiblePick(q, x) ==> x in more
  {
    r, more := best, seen;
    if q.pool[i].classId == q.pool[j].classId {
      return;
    }
    var na: nat := 1;
    while na <= CountLimit(q, i)
      invariant 1 <= na
      invariant Tops(q, more, r) && seen <= more
      invariant forall y :: y in more ==> y.i < i || (y.i == i && (y.j < j || (y.j == j && y.na < na)))
      invariant forall x: Pick :: x.i == i && x.j == j && x.na < na && EligiblePick(q, x) ==> x in more
    {
      r, more := WeighCounts(q, i, j, na, r, more);
      na := na + 1;
    }
  }

  method WeighRow(q: Quest, i: nat, best: Option<Pick>, ghost seen: iset<Pick>)
    returns (r: Option<Pick>, ghost more: iset<Pick>)
    requires i < |q.pool| && Tops(q, seen, best)
    requires forall y :: y in seen ==> y.i < i
    ensures Tops(q, more, r) && seen <= more
    ensures forall y :: y in more ==> y.i <= i
    ensures forall x: Pick :: x.i == i && EligiblePick(q, x) ==> x in more
  {
    r, more := best, seen;
    for j := i + 1 to |q.pool|
      invariant Tops(q, more, r) && seen <= more
      invariant forall y :: y in more ==> y.i < i || (y.i == i && y.j < j)
      invariant forall x: Pick :: x.i == i && x.j < j && EligiblePick(q, x) ==> x in more
    {
      r, more := WeighPair(q, i, j, r, more);
    }
  }

  /** The search over every pair and every count: score-maximal among all eligible picks and the first of
      the best, none only if none is eligible. */
  method BestPick(q: Quest) returns (r: Option<Pick>)
    ensures IsBestPick(q, r)
  {
    r := None;
    ghost var seen: iset<Pick> := iset{};
    for i := 0 to |q.pool|
      invariant Tops(q, seen, r) && forall y :: y in seen ==> y.i < i
      invariant forall x: Pick :: x.i < i && EligiblePick(q, x) ==> x in seen
    {
      r, seen := WeighRow(q, i, r, seen);
    }
  }

  // ---- the combination for a zone ----

  datatype Pair = Pair(a: ActiveProduct, na: nat, b: ActiveProduct, nb: nat)

  function PairOf(q: Quest, x: Pick): Pair
    requires x.i < |q.pool| && x.j < |q.pool|
  {
    Pair(q.pool[x.i], x.na, q.pool[x.j], x.nb)
  }

  /** What is asked of the zone. */
  datatype Ask = Ask(zone: int, target: real, gate: real, billedClass: int, billedCount: nat)

  function QuestFor(policy: ComboPolicy, active: seq<ActiveProduct>, ts: seq<Tally>, ask: Ask): Quest {
    Quest(PairPool(active, ts), ts, ask.target, ask.gate, policy.unitSlack, ask.billedClass, ask.billedCount)
  }

  /** No answer without a product list, without two qualified classes or without an eligible pair;
      else the pair of a score-maximal pick. */
  ghost predicate IsAnswer(
      policy: ComboPolicy, products: Option<seq<ActiveProduct>>, events: seq<TriggerEvent>, ghosts: set<int>,
      backed: map<int, set<int>>, ask: Ask, answer: Option<Pair>)
  {
    if products.None? then answer == None
    else
      var ts := Qualified(policy, Tallies(events, ask.zone), ask.zone, ghosts, backed);
      if |ts| < 2 then answer == None
      else
        var q := QuestFor(policy, products.value, ts, ask);
        if answer.None? then IsBestPick(q, None)
        else exists b :: IsBestPick(q, Some(b)) && b.i < b.j < |q.pool| && answer.value == PairOf(q, b)
  }

  method Answer(
      policy: ComboPolicy, products: Option<seq<ActiveProduct>>, events: seq<TriggerEvent>, ghosts: set<int>,
      backed: map<int, set<int>>, ask: Ask)
    returns (answer: Option<Pair>)
    ensures IsAnswer(policy, products, events, ghosts, backed, ask, answer)
  {
    if products.None? {
      return None;
    }
    var ts := Qualified(policy, Tallies(events, ask.zone), ask.zone, ghosts, backed);
    if |ts| < 2 {
      return None;
    }
    var q := QuestFor(policy, products.value, ts, ask);
    var best := BestPick(q);
    if best.None? {
      return None;
    }
    return Some(PairOf(q, best.value));
  }

  // ---- what an answer means ----

  /** Some removal of the zone gave the class at least the floor of votes. */
  ghost predicate SeenIn(events: seq<TriggerEvent>, zone: int, cid: int) {
    cid > 0 && exists e :: e in events && RemovalIn(e, zone) && VotedFor(e.visionCandidates, cid, VOTE_FLOOR)
  }

  lemma {:induction false} PutTallyMembers(ts: seq<Tally>, c: VisionCandidate, t: Tally)
    requires t in PutTally(ts, c)
    ensures t.classId == c.classId || t in ts
  {
    if ts != [] && ts[0].classId != c.classId && t in PutTally(ts[1..], c) {
      PutTallyMembers(ts[1..], c, t);
    }
  }

  lemma {:induction false} TallyAllMembers(ts: seq<Tally>, cs: seq<VisionCandidate>, t: Tally)
    requires t in TallyAll(ts, cs)
    ensures (exists u :: u in ts && u.classId == t.classId) || (t.classId > 0 && VotedFor(cs, t.classId, VOTE_FLOOR))
  {
    if cs != [] {
      var n := |cs| - 1;
      assert cs == cs[..n] + [cs[n]];
      var rest := TallyAll(ts, cs[..n]);
      if Counts(cs[n]) {
        PutTallyMembers(rest, cs[n], t);
      }
      if t in rest {
        TallyAllMembers(ts, cs[..n], t);
      }
    }
  }

  lemma TalliesMembers(events: seq<TriggerEvent>, zone: int, cid: int)
    requires exists t :: t in Tallies(events, zone) && t.classId == cid
    ensures SeenIn(events, zone, cid)
  {
    var n := |events| - 1;
    var t :| t in Tallies(events, zone) && t.classId == cid;
    assert events == events[..n] + [events[n]];
    if RemovalIn(events[n], zone) {
      TallyAllMembers(Tallies(events[..n], zone), events[n].visionCandidates, t);
    }
    if exists u :: u in Tallies(events[..n], zone) && u.classId == cid {
      TalliesMembers(events[..n], zone, cid);
    }
  }

  lemma {:induction false} VotesForMember(ts: seq<Tally>, cid: int)
    requires VotesFor(ts, cid).Some?
    ensures exists t :: t in ts && t.classId == cid
  {
    if ts[0].classId == cid {
      assert ts[0] in ts;
    } else {
      VotesForMember(ts[1..], cid);
    }
  }

  lemma QualifiedMembers(
      policy: ComboPolicy, raw: seq<Tally>, zone: int, ghosts: set<int>, backed: map<int, set<int>>, t: Tally)
    requires t in Qualified(policy, raw, zone, ghosts, backed)
    ensures t in raw && t.classId !in ghosts
  {
    var ts := Filter(raw, SessionAllows(zone, ghosts, backed));
    FilterMembers(raw, SessionAllows(zone, ghosts, backed));
    FilterMembers(ts, JudgementAllows(zone, backed, BilledVotes(ts, zone, backed), TopOf(raw)));
    var judged :=
      if exists cid :: cid in backed && zone in backed[cid]
      then Filter(ts, JudgementAllows(zone, backed, BilledVotes(ts, zone, backed), TopOf(raw)))
      else ts;
    FilterMembers(judged, EvidenceAllows(policy, MostVotes(judged)));
  }

  /** Both products of an answer are on sale, of different classes seen in the zone that are no ghosts,
      in counts within stock, and together they weigh the target within the gate for their number. */
  lemma AnswerIsSound(
      policy: ComboPolicy, active: seq<ActiveProduct>, events: seq<TriggerEvent>, ghosts: set<int>,
      backed: map<int, set<int>>, ask: Ask, pair: Pair)
    requires IsAnswer(policy, Some(active), events, ghosts, backed, ask, Some(pair))
    ensures pair.a in active && pair.b in active && pair.a.classId != pair.b.classId
    ensures SeenIn(events, ask.zone, pair.a.classId) && SeenIn(events, ask.zone, pair.b.classId)
    ensures pair.a.classId !in ghosts && pair.b.classId !in ghosts
    ensures 1 <= pair.na <= pair.a.stockQty && 1 <= pair.nb <= pair.b.stockQty
    ensures Abs(ask.target - (Times(pair.na, pair.a.unitWeight) + Times(pair.nb, pair.b.unitWeight)))
            <= GateFor(ask.gate, policy.unitSlack, pair.na + pair.nb)
  {
    var ts := Qualified(policy, Tallies(events, ask.zone), ask.zone, ghosts, backed);
    var q := QuestFor(policy, active, ts, ask);
    var b :| IsBestPick(q, Some(b)) && b.i < b.j < |q.pool| && pair == PairOf(q, b);
    PoolIsSeen(policy, active, events, ghosts, backed, ask.zone, pair.a);
    PoolIsSeen(policy, active, events, ghosts, backed, ask.zone, pair.b);
  }

  lemma PoolIsSeen(
      policy: ComboPolicy, active: seq<ActiveProduct>, events: seq<TriggerEvent>, ghosts: set<int>,
      backed: map<int, set<int>>, zone: int, p: ActiveProduct)
    requires p in PairPool(active, Qualified(policy, Tallies(events, zone), zone, ghosts, backed))
    ensures p in active && SeenIn(events, zone, p.classId) && p.classId !in ghosts
  {
    var raw := Tallies(events, zone);
    var ts := Qualified(policy, raw, zone, ghosts, backed);
    FilterMembers(active, (p: ActiveProduct) => VotesFor(ts, p.classId).Some? && p.unitWeight > 0.0 && p.stockQty > 0);
    VotesForMember(ts, p.classId);
    var t :| t in ts && t.classId == p.classId;
    QualifiedMembers(policy, raw, zone, ghosts, backed, t);
    TalliesMembers(events, zone, p.classId);
  }
}
