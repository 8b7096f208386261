/** Which classes take part in the two-product answer and when there is one, told from the events alone. */
module ComboDecides {
  import opened Types
  import opened Sorting
  import opened Freezer
  import opened VisionCombo

  // ---- the tallies are the best figures of every class that was seen ----

  predicate Distinct(ts: seq<Tally>) { forall i, j :: 0 <= i < j < |ts| ==> ts[i].classId != ts[j].classId }

  function FindTally(ts: seq<Tally>, cid: int): Option<Tally> {
    if ts == [] then None else if ts[0].classId == cid then Some(ts[0]) else FindTally(ts[1..], cid)
  }

  lemma {:induction false} FindIsMember(ts: seq<Tally>, cid: int)
    requires Distinct(ts)
    ensures FindTally(ts, cid).None? <==> forall t :: t in ts ==> t.classId != cid
    ensures forall t :: t in ts && t.classId == cid ==> FindTally(ts, cid) == Some(t)
    ensures FindTally(ts, cid).Some? ==> FindTally(ts, cid).value in ts && FindTally(ts, cid).value.classId == cid
    ensures VotesFor(ts, cid) == if FindTally(ts, cid).Some? then Some(FindTally(ts, cid).value.votes) else None
  {
    if ts != [] {
      FindIsMember(ts[1..], cid);
      assert ts == [ts[0]] + ts[1..];
    }
  }

  /** The candidate merged into what was known of its class. */
  function Merged(known: Option<Tally>, c: VisionCandidate): Tally {
    match known
    case None => Tally(c.classId, c.voteCount, RMax(0.0, c.confidence))
    case Some(t) => Tally(c.classId, Max(t.votes, c.voteCount), RMax(t.conf, c.confidence))
  }

  lemma {:induction false} PutTallyFinds(ts: seq<Tally>, c: VisionCandidate)
    requires Distinct(ts)
    ensures Distinct(PutTally(ts, c))
    ensures forall cid :: FindTally(PutTally(ts, c), cid)
                       == if cid == c.classId then Some(Merged(FindTally(ts, cid), c)) else FindTally(ts, cid)
  {
    if ts != [] && ts[0].classId != c.classId {
      PutTallyFinds(ts[1..], c);
      var rest := PutTally(ts[1..], c);
      FindIsMember(rest, ts[0].classId);
      FindIsMember(ts[1..], ts[0].classId);
      assert forall t :: t in rest ==> t.classId != ts[0].classId;
    }
  }

  /** The figures of a class over a collection of candidates: its most votes and, above zero, its best
      confidence. */
  ghost predicate Best(cs: iset<VisionCandidate>, cid: int, t: Tally) {
    && t.classId == cid
    && (exists c :: c in cs && c.classId == cid && c.voteCount == t.votes)
    && (t.conf == 0.0 || exists c :: c in cs && c.classId == cid && c.confidence == t.conf)
    && t.conf >= 0.0
    && forall c :: c in cs && c.classId == cid ==> c.voteCount <= t.votes && c.confidence <= t.conf
  }

  ghost predicate Reports(ts: seq<Tally>, cs: iset<VisionCandidate>, cid: int) {
    match FindTally(ts, cid)
    case None => forall c :: c in cs ==> c.classId != cid
    case Some(t) => Best(cs, cid, t)
  }

  ghost predicate ReportsAll(ts: seq<Tally>, cs: iset<VisionCandidate>) {
    Distinct(ts) && forall cid :: Reports(ts, cs, cid)
  }

  lemma PutTallyReports(ts: seq<Tally>, cs: iset<VisionCandidate>, c: VisionCandidate)
    requires ReportsAll(ts, cs)
    ensures ReportsAll(PutTally(ts, c), cs + iset{c})
  {
    PutTallyFinds(ts, c);
    forall cid ensures Reports(PutTally(ts, c), cs + iset{c}, cid) {
      assert Reports(ts, cs, cid);
      if cid == c.classId {
        MergedIsBest(FindTally(ts, cid), cs, c);
      } else if FindTally(ts, cid).Some? {
        OthersKeepBest(cs, c, cid, FindTally(ts, cid).value);
      }
    }
  }

  lemma MergedIsBest(known: Option<Tally>, cs: iset<VisionCandidate>, c: VisionCandidate)
    requires known.None? ==> forall x :: x in cs ==> x.classId != c.classId
    requires known.Some? ==> Best(cs, c.classId, known.value)
    ensures Best(cs + iset{c}, c.classId, Merged(known, c))
  {
    var more, t := cs + iset{c}, Merged(known, c);
    assert c in more;
    if known.Some? {
      var v :| v in cs && v.classId == c.classId && v.voteCount == known.value.votes;
      assert v in more;
      if known.value.conf != 0.0 {
        var w :| w in cs && w.classId == c.classId && w.confidence == known.value.conf;
        assert w in more;
      }
    }
  }

  lemma OthersKeepBest(cs: iset<VisionCandidate>, c: VisionCandidate, cid: int, t: Tally)
    requires cid != c.classId && Best(cs, cid, t)
    ensures Best(cs + iset{c}, cid, t)
  {
    var v :| v in cs && v.classId == cid && v.voteCount == t.votes;
    assert v in cs + iset{c};
    if t.conf != 0.0 {
      var w :| w in cs && w.classId == cid && w.confidence == t.conf;
      assert w in cs + iset{c};
    }
  }

  ghost function Counted(cs: seq<VisionCandidate>): iset<VisionCandidate> { iset c | c in cs && Counts(c) }

  lemma {:induction false} TallyAllReports(ts: seq<Tally>, seen: iset<VisionCandidate>, cs: seq<VisionCandidate>)
    requires ReportsAll(ts, seen)
    ensures ReportsAll(TallyAll(ts, cs), seen + Counted(cs))
  {
    if cs == [] {
      assert seen + Counted(cs) == seen;
    } else {
      var n := |cs| - 1;
      TallyAllReports(ts, seen, cs[..n]);
      assert cs == cs[..n] + [cs[n]];
      if Counts(cs[n]) {
        PutTallyReports(TallyAll(ts, cs[..n]), seen + Counted(cs[..n]), cs[n]);
        assert seen + Counted(cs[..n]) + iset{cs[n]} == seen + Counted(cs);
      } else {
        assert Counted(cs[..n]) == Counted(cs);
      }
    }
  }

  /** Some removal of the zone saw the candidate with enough votes. */
  ghost predicate Voted(events: seq<TriggerEvent>, zone: int, c: VisionCandidate) {
    && c.classId > 0 && c.voteCount >= 3
    && exists e ::
         e in events && e.zone == zone && e.status.EventOk? && e.deltaWeight < 0.0 && c in e.visionCandidates
  }

  ghost function AllVoted(events: seq<TriggerEvent>, zone: int): iset<VisionCandidate> {
    iset c | Voted(events, zone, c)
  }

  lemma VotedSnoc(events: seq<TriggerEvent>, zone: int)
    requires events != []
    ensures var n := |events| - 1;
            AllVoted(events, zone) == AllVoted(events[..n], zone)
              + if RemovalIn(events[n], zone) then Counted(events[n].visionCandidates) else iset{}
  {
    var n := |events| - 1;
    assert events == events[..n] + [events[n]];
    forall c ensures Voted(events, zone, c)
        <==> (Voted(events[..n], zone, c)
              || (RemovalIn(events[n], zone) && Counts(c) && c in events[n].visionCandidates))
    {
      assert events[n] in events;
    }
  }

  /** Each class that some removal of the zone saw with enough votes is listed once, with its most votes and best
      confidence; no other class is. */
  lemma {:induction false} TalliesAreBest(events: seq<TriggerEvent>, zone: int)
    ensures ReportsAll(Tallies(events, zone), AllVoted(events, zone))
  {
    if events != [] {
      var n := |events| - 1;
      TalliesAreBest(events[..n], zone);
      VotedSnoc(events, zone);
      if RemovalIn(events[n], zone) {
        TallyAllReports(Tallies(events[..n], zone), AllVoted(events[..n], zone), events[n].visionCandidates);
      } else {
        assert AllVoted(events, zone) == AllVoted(events[..n], zone);
      }
    }
  }

  // ---- which of them qualify ----

  datatype Scene = Scene(raw: seq<Tally>, zone: int, ghosts: set<int>, backed: map<int, set<int>>)

  /** Billed by a complete judgement somewhere, and never in this zone. */
  predicate BilledElsewhere(s: Scene, cid: int) {
    cid in s.backed && s.backed[cid] != {} && s.zone !in s.backed[cid]
  }

  predicate InPlay(s: Scene, t: Tally) { t in s.raw && t.classId !in s.ghosts && !BilledElsewhere(s, t.classId) }

  /** More votes, or as many and at least the confidence. */
  predicate AtLeast(a: Tally, b: Tally) { a.votes > b.votes || (a.votes == b.votes && a.conf >= b.conf) }

  /** The first of the tallies with the most votes and then the best confidence. */
  ghost predicate IsTopAt(ts: seq<Tally>, k: int, t: Tally) {
    && 0 <= k < |ts| && t == ts[k]
    && (forall j :: 0 <= j < |ts| ==> AtLeast(t, ts[j]))
    && forall j :: 0 <= j < k ==> !AtLeast(ts[j], t)
  }

  ghost predicate IsTop(ts: seq<Tally>, t: Tally) { exists k :: IsTopAt(ts, k, t) }

  ghost predicate ZoneBills(s: Scene) { exists cid :: BilledIn(s.backed, cid, s.zone) }

  /** The zone's judgement billed something, and passed over a class with at least those votes; when nothing it
      billed is in play, only the class most voted for counts as passed over. */
  ghost predicate PassedOver(s: Scene, t: Tally) {
    && ZoneBills(s) && !BilledIn(s.backed, t.classId, s.zone)
    && if exists u :: InPlay(s, u) && BilledIn(s.backed, u.classId, s.zone)
       then forall u :: InPlay(s, u) && BilledIn(s.backed, u.classId, s.zone) ==> t.votes >= u.votes
       else exists u :: IsTop(s.raw, u) && u.classId == t.classId
  }

  ghost predicate Judged(s: Scene, t: Tally) { InPlay(s, t) && !PassedOver(s, t) }

  ghost predicate MostJudged(s: Scene, u: Tally) { Judged(s, u) && forall v :: Judged(s, v) ==> v.votes <= u.votes }

  predicate FaintBeside(policy: ComboPolicy, t: Tally, votes: int) {
    (t.votes as real) < policy.minVoteRatio * votes as real
  }

  /** Few votes beside the most voted for of those left, and little confidence. */
  ghost predicate Faint(policy: ComboPolicy, s: Scene, t: Tally) {
    t.conf < policy.minConf && exists u :: MostJudged(s, u) && FaintBeside(policy, t, u.votes)
  }

  lemma {:induction false} FilterDistinct(ts: seq<Tally>, keep: Tally -> bool)
    requires Distinct(ts)
    ensures Distinct(Filter(ts, keep))
  {
    if ts != [] {
      FilterDistinct(ts[1..], keep);
      FilterMembers(ts[1..], keep);
      assert forall t :: t in ts[1..] ==> t.classId != ts[0].classId;
    }
  }

  lemma {:induction false} MostVotesIsMost(ts: seq<Tally>)
    requires ts != [] && forall t :: t in ts ==> t.votes >= 0
    ensures exists t :: t in ts && t.votes == MostVotes(ts)
    ensures forall t :: t in ts ==> t.votes <= MostVotes(ts)
  {
    assert ts == [ts[0]] + ts[1..];
    if |ts| > 1 {
      MostVotesIsMost(ts[1..]);
      var t :| t in ts[1..] && t.votes == MostVotes(ts[1..]);
      assert t in ts && ts[0] in ts;
    } else {
      assert ts[0] in ts && MostVotes(ts[1..]) == 0;
    }
  }

  lemma TopSnoc(ts: seq<Tally>, k: int, t: Tally, next: Tally)
    requires IsTopAt(ts, k, t)
    ensures if AtLeast(t, next) then IsTopAt(ts + [next], k, t) else IsTopAt(ts + [next], |ts|, next)
  {
  }

  lemma {:induction false} TopIsTop(ts: seq<Tally>)
    ensures if ts == [] then TopOf(ts).None? else TopOf(ts).Some? && IsTop(ts, TopOf(ts).value)
  {
    if |ts| == 1 {
      assert IsTopAt(ts, 0, ts[0]);
    } else if ts != [] {
      var n := |ts| - 1;
      TopIsTop(ts[..n]);
      var top := TopOf(ts[..n]).value;
      var k :| IsTopAt(ts[..n], k, top);
      TopSnoc(ts[..n], k, top, ts[n]);
      assert ts == ts[..n] + [ts[n]];
    }
  }

  lemma TopIsOnly(ts: seq<Tally>, t: Tally, u: Tally)
    requires IsTop(ts, t) && IsTop(ts, u)
    ensures t == u
  {
  }

  function Stage(s: Scene): seq<Tally> { Filter(s.raw, SessionAllows(s.zone, s.ghosts, s.backed)) }

  lemma StageExactly(s: Scene, t: Tally)
    ensures t in Stage(s) <==> InPlay(s, t)
  {
    FilterMembers(s.raw, SessionAllows(s.zone, s.ghosts, s.backed));
  }

  lemma AllowedExactly(s: Scene, t: Tally)
    requires InPlay(s, t) && (forall u :: u in s.raw ==> u.votes >= 0) && ZoneBills(s)
    ensures JudgementAllows(s.zone, s.backed, BilledVotes(Stage(s), s.zone, s.backed), TopOf(s.raw))(t)
       <==> !PassedOver(s, t)
  {
    var bills := (u: Tally) => BilledIn(s.backed, u.classId, s.zone);
    var billed := Filter(Stage(s), bills);
    FilterMembers(Stage(s), bills);
    forall u ensures u in billed <==> InPlay(s, u) && BilledIn(s.backed, u.classId, s.zone) { StageExactly(s, u); }
    if billed == [] {
      TopIsTop(s.raw);
      var top := TopOf(s.raw).value;
      forall u | IsTop(s.raw, u) ensures u == top { TopIsOnly(s.raw, u, top); }
    } else {
      MostVotesIsMost(billed);
    }
  }

  function JudgementOf(s: Scene): Tally -> bool {
    JudgementAllows(s.zone, s.backed, BilledVotes(Stage(s), s.zone, s.backed), TopOf(s.raw))
  }

  function JudgedList(s: Scene): seq<Tally> {
    if exists cid :: cid in s.backed && s.zone in s.backed[cid] then Filter(Stage(s), JudgementOf(s)) else Stage(s)
  }

  lemma JudgedExactly(s: Scene, t: Tally)
    requires forall u :: u in s.raw ==> u.votes >= 0
    ensures t in JudgedList(s) <==> Judged(s, t)
  {
    StageExactly(s, t);
    if ZoneBills(s) {
      var cid :| BilledIn(s.backed, cid, s.zone);
      assert JudgedList(s) == Filter(Stage(s), JudgementOf(s));
      FilterMembers(Stage(s), JudgementOf(s));
      if InPlay(s, t) {
        AllowedExactly(s, t);
      }
    } else {
      assert forall cid :: cid in s.backed ==> !BilledIn(s.backed, cid, s.zone);
      assert JudgedList(s) == Stage(s);
    }
  }

  lemma MostOfJudged(s: Scene) returns (most: Tally)
    requires (forall u :: u in s.raw ==> u.votes >= 0) && exists t :: Judged(s, t)
    ensures MostJudged(s, most) && most.votes == MostVotes(JudgedList(s))
  {
    var judged := JudgedList(s);
    forall u ensures u in judged <==> Judged(s, u) { JudgedExactly(s, u); }
    forall u | u in judged ensures u.votes >= 0 { assert Judged(s, u); }
    MostVotesIsMost(judged);
    most :| most in judged && most.votes == MostVotes(judged);
    forall v | Judged(s, v) ensures v.votes <= most.votes { assert v in judged; }
  }

  lemma EvidenceMeans(policy: ComboPolicy, top: int, t: Tally)
    ensures EvidenceAllows(policy, top)(t) <==> !(t.conf < policy.minConf && FaintBeside(policy, t, top))
  {
  }

  lemma FaintExactly(policy: ComboPolicy, s: Scene, t: Tally)
    requires (forall u :: u in s.raw ==> u.votes >= 0) && Judged(s, t)
    ensures EvidenceAllows(policy, MostVotes(JudgedList(s)))(t) <==> !Faint(policy, s, t)
  {
    var most := MostOfJudged(s);
    var m := MostVotes(JudgedList(s));
    EvidenceMeans(policy, m, t);
    if Faint(policy, s, t) {
      var u :| MostJudged(s, u) && FaintBeside(policy, t, u.votes);
      assert u.votes == most.votes;
    } else {
      assert !(t.conf < policy.minConf && FaintBeside(policy, t, most.votes));
    }
  }

  /** A class takes part exactly when it is no ghost and not billed elsewhere only, the zone's judgement did not
      pass it over, and it is not faint beside the others that are left. */
  lemma QualifiedExactly(policy: ComboPolicy, s: Scene, t: Tally)
    requires forall u :: u in s.raw ==> u.votes >= 0
    ensures t in Qualified(policy, s.raw, s.zone, s.ghosts, s.backed) <==> Judged(s, t) && !Faint(policy, s, t)
  {
    var keep := EvidenceAllows(policy, MostVotes(JudgedList(s)));
    assert Qualified(policy, s.raw, s.zone, s.ghosts, s.backed) == Filter(JudgedList(s), keep);
    FilterMembers(JudgedList(s), keep);
    JudgedExactly(s, t);
    if Judged(s, t) {
      FaintExactly(policy, s, t);
    }
  }

  // ---- the answer ----

  /** The classes the zone's removals support. */
  function Supported(
      policy: ComboPolicy, events: seq<TriggerEvent>, zone: int, ghosts: set<int>, backed: map<int, set<int>>):
    seq<Tally>
  {
    Qualified(policy, Tallies(events, zone), zone, ghosts, backed)
  }

  /** A class is supported exactly when some removal saw it with enough votes, at its best figures, and neither the
      session nor the zone's judgement nor the evidence rules it out. */
  lemma SupportedExactly(
      policy: ComboPolicy, events: seq<TriggerEvent>, zone: int, ghosts: set<int>, backed: map<int, set<int>>,
      t: Tally)
    ensures var s := Scene(Tallies(events, zone), zone, ghosts, backed);
            && (t in s.raw <==> Best(AllVoted(events, zone), t.classId, t))
            && (t in Supported(policy, events, zone, ghosts, backed) <==> Judged(s, t) && !Faint(policy, s, t))
  {
    var s := Scene(Tallies(events, zone), zone, ghosts, backed);
    var voted := AllVoted(events, zone);
    TalliesAreBest(events, zone);
    forall u ensures u in s.raw <==> Best(voted, u.classId, u) {
      FindIsMember(s.raw, u.classId);
      assert Reports(s.raw, voted, u.classId);
    }
    QualifiedExactly(policy, s, t);
  }

  /** Two products of supported classes in counts that stock and the limit of six permit and that weigh the target
      within the gate for their number. */
  ghost predicate Explains(
      policy: ComboPolicy, active: seq<ActiveProduct>, ts: seq<Tally>, ask: Ask, x: Pair)
  {
    && x.a in active && x.b in active && x.a.classId != x.b.classId
    && FindTally(ts, x.a.classId).Some? && FindTally(ts, x.b.classId).Some?
    && x.a.unitWeight > 0.0 && x.b.unitWeight > 0.0
    && 1 <= x.na <= x.a.stockQty && x.na <= 6 && 1 <= x.nb <= x.b.stockQty && x.nb <= 6
    && Abs(ask.target - (Times(x.na, x.a.unitWeight) + Times(x.nb, x.b.unitWeight)))
       <= GateFor(ask.gate, policy.unitSlack, x.na + x.nb)
  }

  function VotesOf(ts: seq<Tally>, cid: int): int {
    var t := FindTally(ts, cid);
    if t.Some? then t.value.votes else 0
  }

  /** How far the pair is from what was billed: the counts it adds and those it takes away. */
  function Departure(ask: Ask, x: Pair): nat {
    var a := if x.a.classId == ask.billedClass then ask.billedCount else 0;
    var b := if x.b.classId == ask.billedClass then ask.billedCount else 0;
    Gap(x.na, a) + Gap(x.nb, b)
    + if x.a.classId != ask.billedClass && x.b.classId != ask.billedClass then ask.billedCount else 0
  }

  function Residual(ask: Ask, x: Pair): real {
    Abs(ask.target - (Times(x.na, x.a.unitWeight) + Times(x.nb, x.b.unitWeight)))
  }

  /** `x` has at least the votes of `y`; among equals it departs no further, weighs no worse and has no more
      units, in this order. */
  predicate NoWorse(ts: seq<Tally>, ask: Ask, x: Pair, y: Pair) {
    var vx := VotesOf(ts, x.a.classId) + VotesOf(ts, x.b.classId);
    var vy := VotesOf(ts, y.a.classId) + VotesOf(ts, y.b.classId);
    || vx > vy
    || (vx == vy && (Departure(ask, x) < Departure(ask, y)
        || (Departure(ask, x) == Departure(ask, y) && (Residual(ask, x) < Residual(ask, y)
            || (Residual(ask, x) == Residual(ask, y) && x.na + x.nb <= y.na + y.nb)))))
  }

  predicate InPool(ts: seq<Tally>, p: ActiveProduct) {
    FindTally(ts, p.classId).Some? && p.unitWeight > 0.0 && p.stockQty > 0
  }

  lemma PoolExactly(active: seq<ActiveProduct>, ts: seq<Tally>, p: ActiveProduct)
    requires Distinct(ts)
    ensures p in PairPool(active, ts) <==> p in active && InPool(ts, p)
  {
    FilterMembers(active, (p: ActiveProduct) => VotesFor(ts, p.classId).Some? && p.unitWeight > 0.0 && p.stockQty > 0);
    FindIsMember(ts, p.classId);
  }

  function Swapped(x: Pair): Pair { Pair(x.b, x.nb, x.a, x.na) }

  lemma PickExplains(policy: ComboPolicy, active: seq<ActiveProduct>, ts: seq<Tally>, ask: Ask, x: Pick)
    requires Distinct(ts) && EligiblePick(QuestFor(policy, active, ts, ask), x)
    ensures Explains(policy, active, ts, ask, PairOf(QuestFor(policy, active, ts, ask), x))
  {
    var q := QuestFor(policy, active, ts, ask);
    PoolExactly(active, ts, q.pool[x.i]);
    PoolExactly(active, ts, q.pool[x.j]);
  }

  /** Every explaining pair is tried, in one order or the other. */
  lemma ExplainingIsPicked(policy: ComboPolicy, active: seq<ActiveProduct>, ts: seq<Tally>, ask: Ask, y: Pair)
    returns (x: Pick)
    requires Distinct(ts) && Explains(policy, active, ts, ask, y)
    ensures var q := QuestFor(policy, active, ts, ask);
            EligiblePick(q, x) && (PairOf(q, x) == y || PairOf(q, x) == Swapped(y))
  {
    var q := QuestFor(policy, active, ts, ask);
    PoolExactly(active, ts, y.a);
    PoolExactly(active, ts, y.b);
    var i :| 0 <= i < |q.pool| && q.pool[i] == y.a;
    var j :| 0 <= j < |q.pool| && q.pool[j] == y.b;
    x := if i < j then Pick(i, j, y.na, y.nb) else Pick(j, i, y.nb, y.na);
  }

  lemma ScoreIsRaw(policy: ComboPolicy, active: seq<ActiveProduct>, ts: seq<Tally>, ask: Ask, x: Pick)
    requires Distinct(ts) && EligiblePick(QuestFor(policy, active, ts, ask), x)
    ensures var q := QuestFor(policy, active, ts, ask);
            var y := PairOf(q, x);
            ScoreOf(q, x) == Score(VotesOf(ts, y.a.classId) + VotesOf(ts, y.b.classId), Departure(ask, y),
                                   Residual(ask, y), y.na + y.nb)
  {
    var q := QuestFor(policy, active, ts, ask);
    FindIsMember(ts, q.pool[x.i].classId);
    FindIsMember(ts, q.pool[x.j].classId);
  }

  lemma SwapsAlike(ts: seq<Tally>, ask: Ask, x: Pair, y: Pair)
    requires x.a.classId != x.b.classId && NoWorse(ts, ask, y, x)
    ensures NoWorse(ts, ask, y, Swapped(x))
  {
  }

  lemma {:induction false} TwoClasses(ts: seq<Tally>, a: int, b: int)
    requires Distinct(ts) && a != b && FindTally(ts, a).Some? && FindTally(ts, b).Some?
    ensures |ts| >= 2
  {
    FindIsMember(ts, a);
    FindIsMember(ts, b);
  }

  lemma SupportedDistinct(
      policy: ComboPolicy, events: seq<TriggerEvent>, zone: int, ghosts: set<int>, backed: map<int, set<int>>)
    ensures Distinct(Supported(policy, events, zone, ghosts, backed))
  {
    TalliesAreBest(events, zone);
    var s := Scene(Tallies(events, zone), zone, ghosts, backed);
    FilterDistinct(s.raw, SessionAllows(zone, ghosts, backed));
    FilterDistinct(Stage(s), JudgementOf(s));
    FilterDistinct(JudgedList(s), EvidenceAllows(policy, MostVotes(JudgedList(s))));
  }

  /** There is an answer exactly when two products of supported classes explain the target; it explains the target
      itself and is no worse than any other pair that does. */
  lemma AnswerDecides(
      policy: ComboPolicy, active: seq<ActiveProduct>, events: seq<TriggerEvent>, ghosts: set<int>,
      backed: map<int, set<int>>, ask: Ask, answer: Option<Pair>)
    requires IsAnswer(policy, Some(active), events, ghosts, backed, ask, answer)
    ensures var ts := Supported(policy, events, ask.zone, ghosts, backed);
            && (answer.Some? <==> exists y :: Explains(policy, active, ts, ask, y))
            && (answer.Some? ==>
                  && Explains(policy, active, ts, ask, answer.value)
                  && forall y :: Explains(policy, active, ts, ask, y) ==> NoWorse(ts, ask, answer.value, y))
  {
    var ts := Supported(policy, events, ask.zone, ghosts, backed);
    var q := QuestFor(policy, active, ts, ask);
    SupportedDistinct(policy, events, ask.zone, ghosts, backed);
    if answer.Some? {
      var b :| IsBestPick(q, Some(b)) && b.i < b.j < |q.pool| && answer.value == PairOf(q, b);
      PickExplains(policy, active, ts, ask, b);
      forall y | Explains(policy, active, ts, ask, y) ensures NoWorse(ts, ask, answer.value, y) {
        BestIsNoWorse(policy, active, ts, ask, b, y);
      }
    } else {
      forall y | Explains(policy, active, ts, ask, y) ensures false {
        TwoClasses(ts, y.a.classId, y.b.classId);
        var x := ExplainingIsPicked(policy, active, ts, ask, y);
      }
    }
  }

  lemma BestIsNoWorse(
      policy: ComboPolicy, active: seq<ActiveProduct>, ts: seq<Tally>, ask: Ask, b: Pick, y: Pair)
    requires Distinct(ts) && IsBestPick(QuestFor(policy, active, ts, ask), Some(b))
    requires Explains(policy, active, ts, ask, y)
    ensures NoWorse(ts, ask, PairOf(QuestFor(policy, active, ts, ask), b), y)
  {
    var q := QuestFor(policy, active, ts, ask);
    var x := ExplainingIsPicked(policy, active, ts, ask, y);
    ScoreIsRaw(policy, active, ts, ask, b);
    ScoreIsRaw(policy, active, ts, ask, x);
    assert x == b || Outranks(q, b, x);
    assert NoWorse(ts, ask, PairOf(q, b), PairOf(q, x));
    if PairOf(q, x) != y {
      SwapsAlike(ts, ask, PairOf(q, x), PairOf(q, b));
      assert Swapped(PairOf(q, x)) == y;
    }
  }
}
