/** What a poll decides, as a fact about the run so far: which arrivals, judgements, sensor reports and
    closes of the open session it still waits for, how long, and when it gives up. */
module ProtocolPolls {
  import opened Types
  import opened Protocol
  import opened ProtocolRuns
  import opened ProtocolTheorems

  // ---- what happened to a session ----

  datatype Happening =
    | Arrived(zone: int, seqNo: Option<int>, at: real)
    | Judged(zone: int, at: real)
    | Steadied(zone: int, stable: bool, at: real)
    | Closed(watermark: map<int, int>, expected: map<int, int>, at: real)

  /** What an action adds to the history of the session open in `s`. */
  ghost function Added(s: State, a: Action): seq<Happening> {
    match a
    case Submit(zone, seqNo, now) => [Arrived(zone, seqNo, now)]
    case Complete(i, _, now) => if i < |s.inflight| then [Judged(s.inflight[i].zone, now)] else []
    case LoadcellStable(zone, stable, now) => [Steadied(zone, stable, now)]
    case Close(watermark, expected, now) => if s.gate.door.Active? then [Closed(watermark, expected, now)] else []
    case _ => []
  }

  /** The history of the session that is open after a run, oldest first. */
  ghost function History(cfg: Config, actions: seq<Action>): seq<Happening> {
    if actions == [] then []
    else
      var n := |actions| - 1;
      var s, a := Reached(cfg, actions[..n]), actions[n];
      if a.now < s.clock then History(cfg, actions[..n])
      else if a.Open? && OpensNewSession(s) then []
      else History(cfg, actions[..n]) + Added(s, a)
  }

  function Arrivals(h: seq<Happening>, zone: int): nat {
    if h == [] then 0
    else
      var x := h[|h| - 1];
      Arrivals(h[..|h| - 1], zone) + if x.Arrived? && x.zone == zone then 1 else 0
  }

  function Judgements(h: seq<Happening>, zone: int): nat {
    if h == [] then 0
    else
      var x := h[|h| - 1];
      Judgements(h[..|h| - 1], zone) + if x.Judged? && x.zone == zone then 1 else 0
  }

  /** What the zone's load cell said last; stable if it said nothing. */
  function Stable(h: seq<Happening>, zone: int): bool {
    if h == [] then true
    else
      var x := h[|h| - 1];
      if x.Steadied? && x.zone == zone then x.stable else Stable(h[..|h| - 1], zone)
  }

  function LastClose(h: seq<Happening>): (c: Option<Happening>)
    ensures c.Some? ==> c.value.Closed? && c.value in h
  {
    if h == [] then None
    else if h[|h| - 1].Closed? then Some(h[|h| - 1])
    else LastClose(h[..|h| - 1])
  }

  /** The last watermark, and the last expected counts, that a CLOSE supplied. */
  function Watermark(h: seq<Happening>): map<int, int> {
    if h == [] then map[]
    else
      var x := h[|h| - 1];
      if x.Closed? && x.watermark != map[] then x.watermark else Watermark(h[..|h| - 1])
  }

  function Expected(h: seq<Happening>): map<int, int> {
    if h == [] then map[]
    else
      var x := h[|h| - 1];
      if x.Closed? && x.expected != map[] then x.expected else Expected(h[..|h| - 1])
  }

  // ---- the gateway remembers exactly this ----

  predicate SeqOf(x: Happening, zone: int, n: int) { x.Arrived? && x.zone == zone && x.seqNo == Some(n) }

  ghost predicate TopSeq(h: seq<Happening>, zone: int, top: int) {
    && top >= -1 && (forall x, n :: x in h && SeqOf(x, zone, n) ==> n <= top)
    && (top == -1 || exists x :: x in h && SeqOf(x, zone, top))
  }

  ghost predicate Counted(h: seq<Happening>, b: Barrier) {
    && (forall z :: At(b.enqueued, z, 0) == Arrivals(h, z) && At(b.processed, z, 0) == Judgements(h, z))
    && (forall z :: z in b.unstable <==> !Stable(h, z))
    && (forall z :: TopSeq(h, z, At(b.lastSeq, z, -1)))
    && b.watermark == Watermark(h) && b.expected == Expected(h)
  }

  /** The time of the latest arrival, if there is one. */
  ghost predicate Latest(h: seq<Happening>, at: Option<real>) {
    match at
    case None => forall x :: x in h ==> !x.Arrived?
    case Some(t) => (exists x :: x in h && x.Arrived? && x.at == t) && forall x :: x in h && x.Arrived? ==> x.at <= t
  }

  /** The time of the latest judgement; one of an earlier session came before all of this history. */
  ghost predicate LatestJudged(h: seq<Happening>, at: Option<real>) {
    match at
    case None => forall x :: x in h ==> !x.Judged?
    case Some(t) =>
      || ((exists x :: x in h && x.Judged? && x.at == t) && forall x :: x in h && x.Judged? ==> x.at <= t)
      || forall x :: x in h ==> !x.Judged? && t <= x.at
  }

  ghost predicate Stamped(h: seq<Happening>, g: Gateway, clock: real) {
    && (forall x :: x in h ==> x.at <= clock) && (g.progressTs.Some? ==> g.progressTs.value <= clock)
    && Latest(h, g.lastEnqueueTs) && LatestJudged(h, g.progressTs)
    && match LastClose(h)
       case None => g.closeTs == None
       case Some(c) =>
         && g.closeTs == Some(c.at)
         && (g.watermarkSet <==> c.watermark != map[] || c.expected != map[])
  }

  ghost predicate Remembers(h: seq<Happening>, s: State) { Counted(h, s.gate.barrier) && Stamped(h, s.gate, s.clock) }

  lemma CountedSnoc(h: seq<Happening>, x: Happening)
    ensures (h + [x])[..|h + [x]| - 1] == h && (h + [x])[|h + [x]| - 1] == x
    ensures forall y :: y in h + [x] <==> y in h || y == x
  {
  }

  lemma ArrivalRemembered(h: seq<Happening>, s: State, zone: int, seqNo: Option<int>, now: real)
    requires Remembers(h, s) && now >= s.clock
    ensures Remembers(h + [Arrived(zone, seqNo, now)], SubmitStep(s.(clock := now), zone, seqNo, now))
  {
    var x := Arrived(zone, seqNo, now);
    var more, t := h + [x], SubmitStep(s.(clock := now), zone, seqNo, now);
    CountedSnoc(h, x);
    forall z ensures TopSeq(more, z, At(t.gate.barrier.lastSeq, z, -1)) {
      ArrivalTop(h, x, z, At(s.gate.barrier.lastSeq, z, -1));
    }
    LatestArrived(h, x);
    LatestJudgedKept(h, x, s.gate.progressTs);
  }

  lemma LatestArrived(h: seq<Happening>, x: Happening)
    requires x.Arrived? && forall y :: y in h ==> y.at <= x.at
    ensures Latest(h + [x], Some(x.at))
  {
    assert x in h + [x];
  }

  lemma ArrivalTop(h: seq<Happening>, x: Happening, z: int, top: int)
    requires TopSeq(h, z, top)
    ensures TopSeq(h + [x], z, if x.Arrived? && x.zone == z && x.seqNo.Some? then Max(top, x.seqNo.value) else top)
  {
    assert x in h + [x];
    if top != -1 {
      var y :| y in h && SeqOf(y, z, top);
      assert y in h + [x];
    }
    if x.Arrived? && x.zone == z && x.seqNo.Some? {
      assert SeqOf(x, z, x.seqNo.value);
    }
  }

  lemma JudgementRemembered(h: seq<Happening>, s: State, i: nat, failed: bool, now: real)
    requires Remembers(h, s) && now >= s.clock && i < |s.inflight|
    ensures Remembers(h + [Judged(s.inflight[i].zone, now)], CompleteStep(s.(clock := now), i, failed, now))
  {
    var x := Judged(s.inflight[i].zone, now);
    CountedSnoc(h, x);
    TopSeqKept(h, x, s.gate.barrier);
    LatestKept(h, x, s.gate.lastEnqueueTs);
    assert x in h + [x];
  }

  lemma TopSeqKept(h: seq<Happening>, x: Happening, b: Barrier)
    requires Counted(h, b) && !x.Arrived?
    ensures forall z :: TopSeq(h + [x], z, At(b.lastSeq, z, -1))
  {
    forall z ensures TopSeq(h + [x], z, At(b.lastSeq, z, -1)) {
      ArrivalTop(h, x, z, At(b.lastSeq, z, -1));
    }
  }

  lemma LatestKept(h: seq<Happening>, x: Happening, at: Option<real>)
    requires Latest(h, at) && !x.Arrived?
    ensures Latest(h + [x], at)
  {
    if at.Some? {
      var y :| y in h && y.Arrived? && y.at == at.value;
      assert y in h + [x];
    }
  }

  lemma LatestJudgedKept(h: seq<Happening>, x: Happening, at: Option<real>)
    requires LatestJudged(h, at) && !x.Judged? && (at.Some? ==> at.value <= x.at)
    ensures LatestJudged(h + [x], at)
  {
    if at.Some? && exists y :: y in h && y.Judged? && y.at == at.value {
      var y :| y in h && y.Judged? && y.at == at.value;
      assert y in h + [x];
    }
  }

  lemma SteadyRemembered(h: seq<Happening>, s: State, zone: int, stable: bool, now: real)
    requires Remembers(h, s) && now >= s.clock
    ensures Remembers(h + [Steadied(zone, stable, now)], LoadcellStep(s.(clock := now), zone, stable))
  {
    var x := Steadied(zone, stable, now);
    CountedSnoc(h, x);
    TopSeqKept(h, x, s.gate.barrier);
    LatestKept(h, x, s.gate.lastEnqueueTs);
    LatestJudgedKept(h, x, s.gate.progressTs);
  }

  lemma CloseRemembered(h: seq<Happening>, s: State, watermark: map<int, int>, expected: map<int, int>, now: real)
    requires Remembers(h, s) && now >= s.clock
    ensures Remembers(h + [Closed(watermark, expected, now)], ArmClose(s.(clock := now), watermark, expected, now))
  {
    var x := Closed(watermark, expected, now);
    CountedSnoc(h, x);
    TopSeqKept(h, x, s.gate.barrier);
    LatestKept(h, x, s.gate.lastEnqueueTs);
    LatestJudgedKept(h, x, s.gate.progressTs);
  }

  /** A step that leaves the gateway's barrier and time stamps alone. */
  lemma SameMarks(h: seq<Happening>, s: State, t: State)
    requires Remembers(h, s) && t.clock >= s.clock
    requires t.gate == s.gate.(door := t.gate.door)
    ensures Remembers(h, t)
  {
  }

  lemma PollKeepsMarks(cfg: Config, s: State, now: real)
    requires WellGated(s)
    ensures var t := PollStep(cfg, s, now).0; t.gate == s.gate.(door := t.gate.door) && t.clock == s.clock
  {
    PollCases(cfg, s, now);
  }

  lemma CloseStepRemembered(
      cfg: Config, h: seq<Happening>, s: State, watermark: map<int, int>, expected: map<int, int>, at: real)
    requires Inv(s) && Remembers(h, s) && at >= s.clock
    ensures var a := Close(watermark, expected, at); Remembers(h + Added(s, a), Step(cfg, s, a))
  {
    var a, now := Close(watermark, expected, at), s.(clock := at);
    if s.gate.door.Active? {
      var armed := ArmClose(now, watermark, expected, at);
      CloseRemembered(h, s, watermark, expected, at);
      PollKeepsMarks(cfg, armed, at);
      SameMarks(h + Added(s, a), armed, Step(cfg, s, a));
    } else {
      assert h + [] == h;
      PollKeepsMarks(cfg, now, at);
      SameMarks(h, s, Step(cfg, s, a));
    }
  }

  lemma QuietStepRemembered(cfg: Config, h: seq<Happening>, s: State, a: Action)
    requires Inv(s) && Remembers(h, s) && a.now >= s.clock && !(a.Open? && OpensNewSession(s))
    requires a.Pop? || a.Open? || a.Poll? || (a.Complete? && a.job >= |s.inflight|)
    ensures Remembers(h + Added(s, a), Step(cfg, s, a))
  {
    assert h + [] == h;
    if a.Poll? {
      PollKeepsMarks(cfg, s.(clock := a.now), a.now);
    }
    SameMarks(h, s, Step(cfg, s, a));
  }

  lemma StepRemembered(cfg: Config, h: seq<Happening>, s: State, a: Action)
    requires Inv(s) && Remembers(h, s) && a.now >= s.clock && !(a.Open? && OpensNewSession(s))
    ensures Remembers(h + Added(s, a), Step(cfg, s, a))
  {
    match a
    case Submit(zone, seqNo, at) => ArrivalRemembered(h, s, zone, seqNo, at);
    case Complete(i, failed, at) =>
      if i < |s.inflight| {
        JudgementRemembered(h, s, i, failed, at);
      } else {
        QuietStepRemembered(cfg, h, s, a);
      }
    case LoadcellStable(zone, stable, at) => SteadyRemembered(h, s, zone, stable, at);
    case Close(watermark, expected, at) => CloseStepRemembered(cfg, h, s, watermark, expected, at);
    case _ => QuietStepRemembered(cfg, h, s, a);
  }

  /** After any run the barrier and the time stamps of the gateway are what its session's history says. */
  lemma {:induction false} GatewayRemembers(cfg: Config, actions: seq<Action>)
    ensures Remembers(History(cfg, actions), Reached(cfg, actions))
    decreases |actions|
  {
    if actions == [] {
      StartRemembers(cfg);
    } else {
      var n := |actions| - 1;
      var s, a := Reached(cfg, actions[..n]), actions[n];
      StartInv();
      GatewayRemembers(cfg, actions[..n]);
      RunConcat(cfg, START, actions[..n], [a]);
      assert actions[..n] + [a] == actions;
      RunOne(cfg, s, a);
      if a.now >= s.clock {
        if a.Open? && OpensNewSession(s) {
          OpenForgets(cfg, s, a.issuedAt, a.now);
        } else {
          StepRemembered(cfg, History(cfg, actions[..n]), s, a);
        }
      }
    }
  }

  lemma StartRemembers(cfg: Config)
    ensures Remembers([], Reached(cfg, []))
  {
  }

  lemma OpenForgets(cfg: Config, s: State, issuedAt: int, now: real)
    requires Inv(s) && OpensNewSession(s) && now >= s.clock
             && (s.gate.progressTs.Some? ==> s.gate.progressTs.value <= s.clock)
    ensures Remembers([], Step(cfg, s, Open(issuedAt, now)))
  {
    NextIdIsFresh(s, issuedAt);
  }

  // ---- what a poll decides ----

  /** Something the close still waits for: a trigger whose judgement is out, an unsettled load cell, a
      sequence number below the watermark, or fewer arrivals than announced. */
  ghost predicate Unjudged(h: seq<Happening>) { exists z :: Arrivals(h, z) > Judgements(h, z) }

  ghost predicate Unannounced(h: seq<Happening>) {
    || (exists z :: !Stable(h, z))
    || (exists z :: z in Watermark(h) && -1 < Watermark(h)[z] && Behind(h, z, Watermark(h)[z]))
    || (exists z :: z in Expected(h) && Arrivals(h, z) < Expected(h)[z])
  }

  ghost predicate Behind(h: seq<Happening>, zone: int, watermark: int) {
    forall x, n :: x in h && SeqOf(x, zone, n) ==> n < watermark
  }

  /** While a judgement is out, neither timeout may have run since the close or any judgement; otherwise
      only the close timeout counts, from the close. */
  ghost predicate GivesUp(cfg: Config, h: seq<Happening>, close: Happening, now: real) {
    if Unjudged(h) then
      && Overdue(cfg, now - close.at)
      && forall x :: x in h && x.Judged? ==> Overdue(cfg, now - x.at)
    else now - close.at >= cfg.closeTimeout
  }

  predicate Overdue(cfg: Config, waited: real) { waited >= cfg.closeTimeout && waited >= cfg.workerStallTimeout }

  /** A close that announced nothing waits a grace for late arrivals, after itself and after each of them. */
  ghost predicate Graced(cfg: Config, h: seq<Happening>, close: Happening, now: real)
    requires close.Closed?
  {
    && close.watermark == map[] && close.expected == map[] && cfg.closeGrace > 0.0
    && (now - close.at < cfg.closeGrace || exists x :: x in h && x.Arrived? && now - x.at < cfg.closeGrace)
  }

  lemma BusyIsUnjudged(h: seq<Happening>, b: Barrier)
    requires Counted(h, b)
    ensures InFlight(b) <==> Unjudged(h)
  {
    if z :| Arrivals(h, z) > Judgements(h, z) {
      assert Gap(b, z) > 0;
      assert IsPending(b, QueuePending(z, Gap(b, z)));
    }
    if z, gap :| IsPending(b, QueuePending(z, gap)) {
      assert Arrivals(h, z) > Judgements(h, z);
    }
  }

  lemma PendingIsWaitedFor(h: seq<Happening>, b: Barrier, p: Pending)
    requires Counted(h, b) && IsPending(b, p)
    ensures Unjudged(h) || Unannounced(h)
  {
    match p
    case QueuePending(z, _) => BusyIsUnjudged(h, b);
    case LoadcellUnstable(z) => assert !Stable(h, z);
    case SeqGap(z, last, wm) =>
      assert TopSeq(h, z, last);
      assert z in Watermark(h) && Behind(h, z, Watermark(h)[z]);
    case AwaitingTriggers(z, _, _) => assert z in Expected(h) && Arrivals(h, z) < Expected(h)[z];
  }

  lemma WaitedForIsPending(h: seq<Happening>, b: Barrier)
    requires Counted(h, b) && (Unjudged(h) || Unannounced(h))
    ensures !Satisfied(b)
  {
    BusyIsUnjudged(h, b);
    if z :| !Stable(h, z) {
      assert IsPending(b, LoadcellUnstable(z));
    } else if z :| z in Watermark(h) && -1 < Watermark(h)[z] && Behind(h, z, Watermark(h)[z]) {
      var last := At(b.lastSeq, z, -1);
      assert TopSeq(h, z, last);
      assert IsPending(b, SeqGap(z, last, Watermark(h)[z]));
    } else if z :| z in Expected(h) && Arrivals(h, z) < Expected(h)[z] {
      assert IsPending(b, AwaitingTriggers(z, Arrivals(h, z), Expected(h)[z]));
    }
  }

  lemma SatisfiedIsNothingWaitedFor(h: seq<Happening>, b: Barrier)
    requires Counted(h, b)
    ensures Satisfied(b) <==> !Unjudged(h) && !Unannounced(h)
  {
    if Unjudged(h) || Unannounced(h) {
      WaitedForIsPending(h, b);
    } else {
      forall p | IsPending(b, p) ensures false {
        PendingIsWaitedFor(h, b, p);
      }
    }
  }

  lemma TimedOutIsGivenUp(cfg: Config, h: seq<Happening>, g: Gateway, clock: real, now: real)
    requires Counted(h, g.barrier) && Stamped(h, g, clock) && LastClose(h).Some?
    ensures g.closeTs.Some? && (TimedOut(cfg, g, now) <==> GivesUp(cfg, h, LastClose(h).value, now))
  {
    BusyIsUnjudged(h, g.barrier);
  }

  lemma InGraceIsGraced(cfg: Config, h: seq<Happening>, g: Gateway, clock: real, now: real)
    requires Stamped(h, g, clock) && LastClose(h).Some?
    ensures g.closeTs.Some? && (InGrace(cfg, g, now) <==> Graced(cfg, h, LastClose(h).value, now))
  {
  }

  /** A poll of a pending close, after any run, in terms of the session's history: it waits, gives up
      without a settlement, or settles, each exactly when it should. */
  lemma PollDecides(cfg: Config, actions: seq<Action>, now: real)
    requires Reached(cfg, actions).gate.door.PendingClose?
    ensures var s, h := Reached(cfg, actions), History(cfg, actions);
            var (t, r) := PollStep(cfg, s, now);
            var waitedFor := Unjudged(h) || Unannounced(h);
            LastClose(h).Some? &&
            var close := LastClose(h).value;
            var settlement := SettlementFor(cfg, s, s.gate.session.value);
            if waitedFor && GivesUp(cfg, h, close, now) then
              r == Response(DoorError, None) && t.gate.door.DoorError? && t.settled == s.settled
            else if waitedFor || Graced(cfg, h, close, now) then r == Response(PendingClose, None) && t == s
            else
              && r == Response(if settlement.blocked then DoorError else Finalized, Some(settlement))
              && t.gate.door == (if settlement.blocked then DoorError else Idle)
              && t.settled == s.settled[s.gate.session.value := settlement]
  {
    var s, h := Reached(cfg, actions), History(cfg, actions);
    GatewayRemembers(cfg, actions);
    assert WellGated(s);
    SatisfiedIsNothingWaitedFor(h, s.gate.barrier);
    TimedOutIsGivenUp(cfg, h, s.gate, s.clock, now);
    InGraceIsGraced(cfg, h, s.gate, s.clock, now);
    assert s.gate.session.value in s.settled ==>
           s.settled == s.settled[s.gate.session.value := s.settled[s.gate.session.value]];
  }
}
