/** The promises a caller of the service can rely on, over all runs. */
module ProtocolTheorems {
  import opened Types
  import opened Protocol
  import opened ProtocolRuns

  // ---- a trigger left over at OPEN can make the next session settle too early ----

  lemma {:induction false} RunConcat(cfg: Config, s: State, first: seq<Action>, second: seq<Action>)
    requires Inv(s)
    ensures Run(cfg, s, first + second) == Run(cfg, Run(cfg, s, first), second)
    decreases |first|
  {
    if first == [] {
      assert first + second == second;
    } else {
      assert (first + second)[1..] == first[1..] + second;
      StepKeepsInv(cfg, s, first[0]);
      RunConcat(cfg, Step(cfg, s, first[0]), first[1..], second);
    }
  }

  lemma RunOne(cfg: Config, s: State, a: Action)
    requires Inv(s)
    ensures Run(cfg, s, [a]) == Step(cfg, s, a)
  {
    StepKeepsInv(cfg, s, a);
    assert [a][1..] == [];
    assert Run(cfg, Step(cfg, s, a), []) == Step(cfg, s, a);
  }

  /** Right after OPEN: the session is new to every record. */
  ghost predicate JustOpened(s: State, sid: SessionId) {
    && Inv(s) && s.gate.door.Active? && s.gate.session == Some(sid) && s.gate.barrier == FRESH_BARRIER
    && s.base == Outstanding(s) && sid !in s.log.events && sid !in s.log.closed && sid !in s.settled
    && (forall job :: job in s.submitted ==> job.session != sid)
    && s.gate.lastEnqueueTs.None?
  }

  lemma NewSessionJustOpened(cfg: Config, s: State, issuedAt: int)
    requires Inv(s) && OpensNewSession(s)
    ensures JustOpened(NewSession(cfg, s, issuedAt), Ses(s.sessionCounter + 1, issuedAt))
    ensures SafeFor(NewSession(cfg, s, issuedAt), Ses(s.sessionCounter + 1, issuedAt)) <==> Outstanding(s) == []
  {
    OpenKeeps(cfg, s, issuedAt);
    OpenGap(cfg, s, issuedAt);
    RememberKeeps(cfg, s.recent, Ses(s.sessionCounter + 1, issuedAt));
    var t := NewSession(cfg, s, issuedAt);
    assert t.hooks == s.hooks && Outstanding(t) == Outstanding(s);
  }

  /** A pop when nothing is in flight yet, so that the first leftover trigger can complete. */
  ghost function Started(s: State): State {
    if s.inflight == [] then PopStep(s) else s
  }

  /** One new trigger, then a leftover one of its zone completes: the barrier is satisfied. */
  ghost function Overtaken(s: State): State
    requires Outstanding(s) != []
  {
    var zone := Outstanding(s)[if s.inflight == [] then 0 else |s.queue|].zone;
    CompleteStep(Started(SubmitStep(s, zone, None, s.clock)), 0, false, s.clock)
  }

  lemma OvertakenSatisfied(s: State, sid: SessionId)
    requires JustOpened(s, sid) && Outstanding(s) != []
    ensures var t := Overtaken(s);
            && Satisfied(t.gate.barrier) && t.gate.door.Active? && t.gate.session == Some(sid)
            && EventsFor(t.log, sid) == [] && sid !in t.settled
            && t.submitted == s.submitted + [Job(sid, t.submitted[|s.submitted|].zone, s.triggerCounter + 1)]
            && t.gate.lastEnqueueTs == Some(s.clock) && t.clock == s.clock
  {
    var zone := Outstanding(s)[if s.inflight == [] then 0 else |s.queue|].zone;
    var u := SubmitStep(s, zone, None, s.clock);
    var v := Started(u);
    assert v.inflight != [] && v.inflight[0].zone == zone;
    assert v.inflight[0] in s.submitted;
    var t := CompleteStep(v, 0, false, s.clock);
    assert t.gate.barrier.enqueued == map[zone := 1] && t.gate.barrier.processed == map[zone := 1];
    assert Gap(t.gate.barrier, zone) == 0;
  }

  ghost function OvertakingRun(s: State): seq<Action>
    requires Outstanding(s) != []
  {
    var zone := Outstanding(s)[if s.inflight == [] then 0 else |s.queue|].zone;
    [Submit(zone, None, s.clock)] + (if s.inflight == [] then [Pop(s.clock)] else [])
      + [Action.Complete(0, false, s.clock)]
  }

  lemma OvertakingRunReaches(cfg: Config, s: State)
    requires Inv(s) && Outstanding(s) != []
    ensures Run(cfg, s, OvertakingRun(s)) == Overtaken(s)
  {
    var zone := Outstanding(s)[if s.inflight == [] then 0 else |s.queue|].zone;
    var u := Step(cfg, s, Submit(zone, None, s.clock));
    StepKeepsInv(cfg, s, Submit(zone, None, s.clock));
    RunOne(cfg, s, Submit(zone, None, s.clock));
    assert u == SubmitStep(s, zone, None, s.clock);
    var middle: seq<Action> := if s.inflight == [] then [Pop(s.clock)] else [];
    if s.inflight == [] {
      RunOne(cfg, u, Pop(s.clock));
    }
    var v := Run(cfg, u, middle);
    assert v == Started(u);
    RunOne(cfg, v, Action.Complete(0, false, s.clock));
    RunConcat(cfg, s, [Submit(zone, None, s.clock)], middle);
    RunConcat(cfg, s, [Submit(zone, None, s.clock)] + middle, [Action.Complete(0, false, s.clock)]);
  }

  /** A CLOSE without a watermark settles at once when grace is off, else at the poll one grace later. */
  ghost function ClosingRun(cfg: Config, now: real): seq<Action> {
    var close := Close(map[], map[], now);
    if cfg.closeGrace > 0.0 then [close] + [Poll(now + cfg.closeGrace)] else [close]
  }

  /** An open session with a satisfied barrier and nothing logged yet. */
  ghost predicate ReadyToClose(s: State, sid: SessionId) {
    && Inv(s) && Satisfied(s.gate.barrier) && s.gate.door.Active? && s.gate.session == Some(sid)
    && EventsFor(s.log, sid) == [] && sid !in s.settled && s.gate.lastEnqueueTs == Some(s.clock)
  }

  /** The session was finalised without any trigger. */
  ghost predicate FinalizedEmpty(s: State, sid: SessionId, submitted: seq<Job>) {
    Hook(sid, Finalized, Some(Settlement(sid, [], false)), |submitted|) in s.hooks && s.submitted == submitted
  }

  /** Past its grace, an armed close with a satisfied barrier finalises. */
  lemma PollSettles(cfg: Config, s: State, now: real, sid: SessionId)
    requires WellGated(s) && s.gate.door.PendingClose? && s.gate.session == Some(sid) && Satisfied(s.gate.barrier)
    requires !InGrace(cfg, s.gate, now) && EventsFor(s.log, sid) == [] && sid !in s.settled
    ensures FinalizedEmpty(PollStep(cfg, s, now).0, sid, s.submitted)
  {
    var h := Hook(sid, Finalized, Some(Settlement(sid, [], false)), |s.submitted|);
    assert PollStep(cfg, s, now).0.hooks == s.hooks + [h];
  }

  /** The CLOSE step settles when grace is off and only arms the close when it is on. */
  lemma EmptyClose(cfg: Config, s: State, sid: SessionId)
    requires ReadyToClose(s, sid)
    ensures var closed := Step(cfg, s, Close(map[], map[], s.clock));
            if cfg.closeGrace > 0.0 then closed == ArmClose(s, map[], map[], s.clock)
              else FinalizedEmpty(closed, sid, s.submitted)
  {
    var armed := ArmClose(s, map[], map[], s.clock);
    assert s.(clock := s.clock) == s && armed.gate.barrier == s.gate.barrier;
    if cfg.closeGrace <= 0.0 {
      PollSettles(cfg, armed, s.clock, sid);
    }
  }

  lemma RunTwo(cfg: Config, s: State, a: Action, b: Action)
    requires Inv(s)
    ensures Inv(Step(cfg, s, a)) && Run(cfg, s, [a] + [b]) == Step(cfg, Step(cfg, s, a), b)
  {
    StepKeepsInv(cfg, s, a);
    RunOne(cfg, s, a);
    RunOne(cfg, Step(cfg, s, a), b);
    RunConcat(cfg, s, [a], [b]);
  }

  /** The poll one grace later settles. */
  lemma EmptyPoll(cfg: Config, s: State, sid: SessionId, armed: State)
    requires ReadyToClose(s, sid) && cfg.closeGrace > 0.0 && armed == ArmClose(s, map[], map[], s.clock)
    ensures WellGated(armed) && FinalizedEmpty(Step(cfg, armed, Poll(s.clock + cfg.closeGrace)), sid, s.submitted)
  {
    var now := s.clock + cfg.closeGrace;
    assert armed.gate.barrier == s.gate.barrier;
    PollSettles(cfg, armed.(clock := now), now, sid);
  }

  lemma SettlesAfterGrace(cfg: Config, s: State, sid: SessionId)
    requires ReadyToClose(s, sid) && cfg.closeGrace > 0.0
    ensures FinalizedEmpty(Run(cfg, s, [Close(map[], map[], s.clock)] + [Poll(s.clock + cfg.closeGrace)]), sid,
                           s.submitted)
  {
    EmptyClose(cfg, s, sid);
    EmptyPoll(cfg, s, sid, Step(cfg, s, Close(map[], map[], s.clock)));
    RunTwo(cfg, s, Close(map[], map[], s.clock), Poll(s.clock + cfg.closeGrace));
  }

  lemma SettlesAtOnce(cfg: Config, s: State, sid: SessionId)
    requires ReadyToClose(s, sid) && cfg.closeGrace <= 0.0
    ensures FinalizedEmpty(Run(cfg, s, [Close(map[], map[], s.clock)]), sid, s.submitted)
  {
    EmptyClose(cfg, s, sid);
    RunOne(cfg, s, Close(map[], map[], s.clock));
  }

  lemma ClosingRunSettles(cfg: Config, s: State, sid: SessionId)
    requires ReadyToClose(s, sid)
    ensures FinalizedEmpty(Run(cfg, s, ClosingRun(cfg, s.clock)), sid, s.submitted)
  {
    if cfg.closeGrace > 0.0 {
      SettlesAfterGrace(cfg, s, sid);
    } else {
      SettlesAtOnce(cfg, s, sid);
    }
  }

  lemma LeftoverLosesTrigger(cfg: Config, s: State, sid: SessionId)
    requires JustOpened(s, sid) && Outstanding(s) != []
    ensures LosesTrigger(Run(cfg, s, OvertakingRun(s) + ClosingRun(cfg, s.clock)), sid)
  {
    OvertakingRunReaches(cfg, s);
    OvertakenSatisfied(s, sid);
    var t := Overtaken(s);
    ClosingRunSettles(cfg, t, sid);
    RunConcat(cfg, s, OvertakingRun(s), ClosingRun(cfg, s.clock));
    EmptySettlementLoses(Run(cfg, t, ClosingRun(cfg, s.clock)), sid, t.submitted, |s.submitted|);
  }

  lemma EmptySettlementLoses(s: State, sid: SessionId, submitted: seq<Job>, k: nat)
    requires FinalizedEmpty(s, sid, submitted) && k < |submitted| && submitted[k].session == sid
    ensures LosesTrigger(s, sid)
  {
    var h := Hook(sid, Finalized, Some(Settlement(sid, [], false)), |submitted|);
    assert !LoggedIn([], submitted[k]);
    assert !Covers(s.submitted, h);
  }

  /** A trigger before the first OPEN is enough: from the start a run leads to a session that is finalised
      without its own trigger. */
  lemma LossIsReachable(cfg: Config) returns (actions: seq<Action>, sid: SessionId)
    ensures LosesTrigger(Reached(cfg, actions), sid)
  {
    var submit, open := Submit(1, None, 0.0), Open(0, 0.0);
    StartInv();
    RunOne(cfg, START, submit);
    var s := Reached(cfg, [submit]);
    assert s == SubmitStep(START, 1, None, 0.0);
    sid := Ses(1, 0);
    RunOne(cfg, s, open);
    var t := Run(cfg, s, [open]);
    assert t == NewSession(cfg, s, 0);
    NewSessionJustOpened(cfg, s, 0);
    assert Outstanding(t) == Outstanding(s);
    var tail := OvertakingRun(t) + ClosingRun(cfg, t.clock);
    LeftoverLosesTrigger(cfg, t, sid);
    RunConcat(cfg, START, [submit], [open]);
    RunConcat(cfg, START, [submit] + [open], tail);
    actions := [submit] + [open] + tail;
  }

  /** No run from `s` settles session `sid` without one of its triggers. */
  ghost predicate NeverLoses(cfg: Config, s: State, sid: SessionId)
    requires Inv(s)
  {
    forall actions :: !LosesTrigger(Run(cfg, s, actions), sid)
  }

  lemma DrainedNeverLoses(cfg: Config, s: State, sid: SessionId)
    requires Inv(s) && SafeFor(s, sid)
    ensures NeverLoses(cfg, s, sid)
  {
    forall actions ensures !LosesTrigger(Run(cfg, s, actions), sid) {
      RunKeepsSafe(cfg, s, actions, sid);
    }
  }

  lemma NewSessionInv(cfg: Config, s: State, issuedAt: int)
    requires Inv(s) && OpensNewSession(s)
    ensures Inv(NewSession(cfg, s, issuedAt))
  {
    OpenKeeps(cfg, s, issuedAt);
    OpenGap(cfg, s, issuedAt);
  }

  /** A session is safe from early settlement exactly when it opens with nothing queued or in flight. */
  lemma NothingLostIffNothingOutstanding(cfg: Config, s: State, issuedAt: int)
    requires Inv(s) && OpensNewSession(s)
    ensures Inv(NewSession(cfg, s, issuedAt))
    ensures NeverLoses(cfg, NewSession(cfg, s, issuedAt), Ses(s.sessionCounter + 1, issuedAt)) <==>
            s.queue == [] && s.inflight == []
  {
    var t := NewSession(cfg, s, issuedAt);
    var sid := Ses(s.sessionCounter + 1, issuedAt);
    NewSessionInv(cfg, s, issuedAt);
    NewSessionJustOpened(cfg, s, issuedAt);
    if Outstanding(s) == [] {
      DrainedNeverLoses(cfg, t, sid);
    } else {
      assert Outstanding(t) == Outstanding(s);
      LeftoverLosesTrigger(cfg, t, sid);
    }
  }

  // ---- one finalisation per session, and it stays ----

  /** Ids are fresh: no record of any kind mentions the next one. */
  lemma NextIdIsFresh(s: State, issuedAt: int)
    requires Inv(s)
    ensures var sid := Ses(s.sessionCounter + 1, issuedAt);
            && sid !in s.recent && sid !in s.log.events && sid !in s.log.closed && sid !in s.settled
            && (forall job :: job in s.submitted ==> job.session != sid)
            && (forall h :: h in s.hooks ==> h.session != sid)
  {
  }

  /** A FINALIZED response is one `on_finalize` call with the same settlement... */
  lemma FinalizedResponseIsHook(cfg: Config, s: State, now: real)
    requires Inv(s)
    ensures var (t, r) := PollStep(cfg, s, now);
            && (r.door.Finalized? <==>
                  t.hooks == s.hooks + [Hook(CurrentSession(s.gate), Finalized, r.settlement, |s.submitted|)])
            && (t.hooks == s.hooks || (|t.hooks| == |s.hooks| + 1 && t.hooks[..|s.hooks|] == s.hooks))
  {
    var (t, r) := PollStep(cfg, s, now);
    if t.hooks == s.hooks + [Hook(CurrentSession(s.gate), Finalized, r.settlement, |s.submitted|)] {
      assert t.hooks[|s.hooks|].door == Finalized;
    }
  }

  /** ... and in no run do two `on_finalize` calls name the same session. */
  lemma OneHookPerSession(cfg: Config, actions: seq<Action>, i: nat, j: nat)
    requires i < j < |Reached(cfg, actions).hooks|
    ensures Reached(cfg, actions).hooks[i].session != Reached(cfg, actions).hooks[j].session
  {
    assert FinalInv(Reached(cfg, actions));
  }

  lemma OldSessionsStayForgotten(cfg: Config, s: State, a: Action, sid: SessionId)
    requires Inv(s) && Issued(s, sid) && sid.Ses? && sid in Step(cfg, s, a).recent
    ensures sid in s.recent
  {
    if a.now >= s.clock && a.Open? && OpensNewSession(s) {
      RememberKeeps(cfg, s.recent, Ses(s.sessionCounter + 1, a.issuedAt));
    }
  }

  lemma StepKeepsSettlement(cfg: Config, s: State, a: Action, sid: SessionId)
    requires Inv(s) && sid in s.settled && sid in Step(cfg, s, a).recent
    ensures sid in Step(cfg, s, a).settled && Step(cfg, s, a).settled[sid] == s.settled[sid]
  {
    if a.now >= s.clock {
      var t := s.(clock := a.now);
      match a
      case Open(issuedAt, _) =>
        var keep := set x | x in OpenStep(cfg, t, issuedAt).recent;
        assert OpensNewSession(t) ==> OpenStep(cfg, t, issuedAt).settled == PruneSettled(t.settled, keep);
      case Close(watermark, expected, now) =>
        PollCases(cfg, if t.gate.door.Active? then ArmClose(t, watermark, expected, now) else t, now);
      case Poll(now) => PollCases(cfg, t, now);
      case _ =>
    }
  }

  /** Once settled, a session keeps its settlement for as long as it is remembered: every later
      `settle` answers with it and every later trigger of it is rejected. */
  lemma {:induction false} SettlementIsFinal(cfg: Config, s: State, actions: seq<Action>, sid: SessionId)
    requires Inv(s) && sid in s.settled && sid in Run(cfg, s, actions).recent
    ensures sid in s.recent
    ensures var t := Run(cfg, s, actions);
            && sid in t.settled && SettlementFor(cfg, t, sid) == s.settled[sid] && Settle(cfg, t, sid) == t
            && forall job: Job, failed: bool :: job.session == sid ==>
                 Append(t.log, EventOf(job, failed)) == t.log.(rejected := t.log.rejected + [EventOf(job, failed)])
    decreases |actions|
  {
    assert sid in s.recent;
    if actions != [] {
      var t := Step(cfg, s, actions[0]);
      StepKeepsInv(cfg, s, actions[0]);
      RunRemembers(cfg, t, actions[1..], sid);
      StepKeepsSettlement(cfg, s, actions[0], sid);
      SettlementIsFinal(cfg, t, actions[1..], sid);
    }
  }

  lemma StepIssues(cfg: Config, s: State, a: Action, sid: SessionId)
    requires Inv(s) && Issued(s, sid)
    ensures Issued(Step(cfg, s, a), sid)
  {
    if a.now >= s.clock {
      var t := s.(clock := a.now);
      match a
      case Close(watermark, expected, now) =>
        PollCases(cfg, if t.gate.door.Active? then ArmClose(t, watermark, expected, now) else t, now);
      case Poll(now) => PollCases(cfg, t, now);
      case _ =>
    }
  }

  lemma {:induction false} RunRemembers(cfg: Config, s: State, actions: seq<Action>, sid: SessionId)
    requires Inv(s) && Issued(s, sid) && sid.Ses? && sid in Run(cfg, s, actions).recent
    ensures sid in s.recent
    decreases |actions|
  {
    if actions != [] {
      StepKeepsInv(cfg, s, actions[0]);
      StepIssues(cfg, s, actions[0], sid);
      RunRemembers(cfg, Step(cfg, s, actions[0]), actions[1..], sid);
      OldSessionsStayForgotten(cfg, s, actions[0], sid);
    }
  }

  // ---- which sessions are remembered ----

  /** The last `keep` of the ids counted 1 to `issued`, in order. */
  ghost predicate LastIssued(recent: seq<SessionId>, issued: nat, keep: nat) {
    && |recent| == Min(keep, issued)
    && forall k :: 0 <= k < |recent| ==> recent[k].Ses? && recent[k].counter == issued - |recent| + 1 + k
  }

  ghost predicate RecentInv(cfg: Config, s: State) {
    && LastIssued(s.recent, s.sessionCounter, cfg.Keep())
    && (forall h :: h in s.hooks && h.session.Ses? && h.session.counter > s.sessionCounter - cfg.Keep() ==>
          h.session in s.recent)
  }

  lemma RememberTheNext(
      cfg: Config, recent: seq<SessionId>, issued: nat, sid: SessionId, x: SessionId)
    requires LastIssued(recent, issued, cfg.Keep()) && sid.Ses? && sid.counter == issued + 1
    ensures LastIssued(Remember(cfg, recent, sid), issued + 1, cfg.Keep())
    ensures x in recent && x.counter > issued + 1 - cfg.Keep() ==> x in Remember(cfg, recent, sid)
  {
    var r := Remember(cfg, recent, sid);
    var drop := |recent| + 1 - |r|;
    assert forall k :: 0 <= k < |r| ==> r[k] == (recent + [sid])[k + drop];
    if x in recent && x.counter > issued + 1 - cfg.Keep() {
      var k :| 0 <= k < |recent| && recent[k] == x;
      assert r[k - drop] == x;
    }
  }

  lemma NewSessionKeepsRecent(cfg: Config, s: State, issuedAt: int)
    requires RecentInv(cfg, s)
    ensures RecentInv(cfg, NewSession(cfg, s, issuedAt))
  {
    var t := NewSession(cfg, s, issuedAt);
    var sid := Ses(s.sessionCounter + 1, issuedAt);
    assert t.recent == Remember(cfg, s.recent, sid) && t.hooks == s.hooks && t.sessionCounter == s.sessionCounter + 1;
    RememberTheNext(cfg, s.recent, s.sessionCounter, sid, sid);
    forall h | h in t.hooks && h.session.Ses? && h.session.counter > t.sessionCounter - cfg.Keep()
      ensures h.session in t.recent
    {
      RememberTheNext(cfg, s.recent, s.sessionCounter, sid, h.session);
    }
  }

  lemma FinishKeepsRecent(
      cfg: Config, s: State, t: State, door: DoorState, report: DoorState, settlement: Option<Settlement>)
    requires SessionInv(s) && RecentInv(cfg, s) && s.gate.session.Some?
    requires t.gate.session == s.gate.session && t.recent == s.recent && t.hooks == s.hooks
             && t.sessionCounter == s.sessionCounter
    ensures RecentInv(cfg, Finish(t, door, report, settlement))
  {
  }

  lemma PollKeepsRecent(cfg: Config, s: State, now: real)
    requires SessionInv(s) && RecentInv(cfg, s)
    ensures RecentInv(cfg, PollStep(cfg, s, now).0)
  {
    PollCases(cfg, s, now);
    var sid := CurrentSession(s.gate);
    if s.gate.door.PendingClose? {
      FinishKeepsRecent(cfg, s, Settle(cfg, s, sid), DoorError, DoorError, Some(SettlementFor(cfg, s, sid)));
      FinishKeepsRecent(cfg, s, Settle(cfg, s, sid), Idle, Finalized, Some(SettlementFor(cfg, s, sid)));
      FinishKeepsRecent(cfg, s, s, DoorError, DoorError, None);
    }
  }

  lemma RecentFrame(cfg: Config, s: State, t: State)
    requires RecentInv(cfg, s) && t.recent == s.recent && t.hooks == s.hooks && t.sessionCounter == s.sessionCounter
    ensures RecentInv(cfg, t)
  {
  }

  lemma ApplyKeepsRecent(cfg: Config, s: State, a: Action)
    requires Inv(s) && RecentInv(cfg, s)
    ensures RecentInv(cfg, Apply(cfg, s, a))
  {
    match a
    case Open(issuedAt, _) =>
      if OpensNewSession(s) {
        NewSessionKeepsRecent(cfg, s, issuedAt);
      } else {
        RecentFrame(cfg, s, OpenStep(cfg, s, issuedAt));
      }
    case Close(watermark, expected, now) =>
      if s.gate.door.Active? {
        RecentFrame(cfg, s, ArmClose(s, watermark, expected, now));
        ArmKeepsInv(s, watermark, expected, now);
        PollKeepsRecent(cfg, ArmClose(s, watermark, expected, now), now);
      } else {
        PollKeepsRecent(cfg, s, now);
      }
    case Poll(now) => PollKeepsRecent(cfg, s, now);
    case _ => RecentFrame(cfg, s, Apply(cfg, s, a));
  }

  lemma {:induction false} RememberedAreTheLastIssued(cfg: Config, s: State, actions: seq<Action>)
    requires Inv(s) && RecentInv(cfg, s)
    ensures RecentInv(cfg, Run(cfg, s, actions))
    decreases |actions|
  {
    if actions != [] {
      var a := actions[0];
      StepKeepsInv(cfg, s, a);
      if a.now >= s.clock {
        TickKeepsInv(s, a.now);
        RecentFrame(cfg, s, s.(clock := a.now));
        ApplyKeepsRecent(cfg, s.(clock := a.now), a);
      }
      RememberedAreTheLastIssued(cfg, Step(cfg, s, a), actions[1..]);
    }
  }

  /** A session settled among the last `Keep()` issued rejects every further trigger, in every run. */
  lemma LateTriggersRejected(cfg: Config, actions: seq<Action>, h: Hook, job: Job, failed: bool)
    requires var s := Reached(cfg, actions);
             && h in s.hooks && h.settlement.Some? && h.session.counter > s.sessionCounter - cfg.Keep()
             && job.session == h.session
    ensures var s := Reached(cfg, actions);
            && SettlementFor(cfg, s, h.session) == h.settlement.value
            && EventsFor(Append(s.log, EventOf(job, failed)), h.session) == EventsFor(s.log, h.session)
            && Append(s.log, EventOf(job, failed)).rejected == s.log.rejected + [EventOf(job, failed)]
  {
    RememberedAreTheLastIssued(cfg, START, actions);
  }

  /** No trigger of a remembered session disappears: it is queued, in flight, logged or rejected, and only
      sessions marked closed have any rejected. */
  lemma TriggersAreTraced(cfg: Config, actions: seq<Action>, job: Job)
    requires var s := Reached(cfg, actions); job in s.submitted && job.session in s.recent
    ensures var s := Reached(cfg, actions);
            && (job in s.queue || job in s.inflight || LoggedIn(EventsFor(s.log, job.session), job)
                || RejectedIn(s.log, job))
            && (RejectedIn(s.log, job) ==> job.session in s.log.closed)
  {
    assert TrackInv(Reached(cfg, actions));
    assert Traced(Reached(cfg, actions), job);
  }

  // ---- rejected exactly when settled ----

  /** An `on_finalize` call named the session and carried a settlement. */
  ghost predicate SettledByHook(s: State, sid: SessionId) {
    exists h :: h in s.hooks && h.session == sid && h.settlement.Some?
  }

  ghost predicate ClosedByHook(s: State) { forall sid :: sid in s.settled ==> SettledByHook(s, sid) }

  lemma MoreHooks(s: State, t: State, sid: SessionId)
    requires SettledByHook(s, sid) && forall h :: h in s.hooks ==> h in t.hooks
    ensures SettledByHook(t, sid)
  {
  }

  lemma PollKeepsClosed(cfg: Config, s: State, now: real)
    requires SessionInv(s) && ClosedByHook(s)
    ensures ClosedByHook(PollStep(cfg, s, now).0)
  {
    PollCases(cfg, s, now);
    var t := PollStep(cfg, s, now).0;
    forall sid | sid in t.settled ensures SettledByHook(t, sid) {
      if sid in s.settled {
        MoreHooks(s, t, sid);
      } else {
        assert t.hooks[|s.hooks|].session == sid;
      }
    }
  }

  lemma ApplyKeepsClosed(cfg: Config, s: State, a: Action)
    requires Inv(s) && ClosedByHook(s)
    ensures ClosedByHook(Apply(cfg, s, a))
  {
    match a
    case Open(issuedAt, _) =>
      var t := OpenStep(cfg, s, issuedAt);
      assert t.hooks == s.hooks && forall sid :: sid in t.settled ==> sid in s.settled;
      forall sid | sid in t.settled ensures SettledByHook(t, sid) {
        MoreHooks(s, t, sid);
      }
    case Close(watermark, expected, now) =>
      if s.gate.door.Active? {
        var armed := ArmClose(s, watermark, expected, now);
        ArmKeepsInv(s, watermark, expected, now);
        ClosedFrame(s, armed);
        PollKeepsClosed(cfg, armed, now);
      } else {
        PollKeepsClosed(cfg, s, now);
      }
    case Poll(now) => PollKeepsClosed(cfg, s, now);
    case _ => ClosedFrame(s, Apply(cfg, s, a));
  }

  lemma ClosedFrame(s: State, t: State)
    requires ClosedByHook(s) && t.hooks == s.hooks && t.settled == s.settled
    ensures ClosedByHook(t)
  {
    forall sid | sid in t.settled ensures SettledByHook(t, sid) {
      MoreHooks(s, t, sid);
    }
  }

  lemma {:induction false} RunKeepsClosed(cfg: Config, s: State, actions: seq<Action>)
    requires Inv(s) && ClosedByHook(s)
    ensures ClosedByHook(Run(cfg, s, actions))
    decreases |actions|
  {
    if actions != [] {
      var a := actions[0];
      StepKeepsInv(cfg, s, a);
      if a.now >= s.clock {
        TickKeepsInv(s, a.now);
        ClosedFrame(s, s.(clock := a.now));
        ApplyKeepsClosed(cfg, s.(clock := a.now), a);
      }
      RunKeepsClosed(cfg, Step(cfg, s, a), actions[1..]);
    }
  }

  /** In every run a trigger is rejected exactly when a settlement of its session was reported and the
      session is still remembered; any other trigger is logged. A session that ended in a barrier timeout
      reported none. */
  lemma RejectedIffSettled(cfg: Config, actions: seq<Action>, job: Job, failed: bool)
    ensures var s, e := Reached(cfg, actions), EventOf(job, failed);
            var t := Append(s.log, e);
            var ended := job.session in s.recent && SettledByHook(s, job.session);
            && (ended <==> job.session in s.log.closed)
            && t.rejected == (if ended then s.log.rejected + [e] else s.log.rejected)
            && EventsFor(t, job.session) == EventsFor(s.log, job.session) + if ended then [] else [e]
  {
    var s := Reached(cfg, actions);
    StartInv();
    RunKeepsClosed(cfg, START, actions);
    assert FinalInv(s);
  }

  /** Of the sessions that ended and are remembered, those rejecting triggers are exactly those settled. */
  lemma TimedOutIsNotClosed(cfg: Config, actions: seq<Action>, h: Hook)
    requires h in Reached(cfg, actions).hooks && h.session in Reached(cfg, actions).recent
    ensures h.session in Reached(cfg, actions).log.closed <==> h.settlement.Some?
  {
    assert FinalInv(Reached(cfg, actions));
  }

  // ---- a session that timed out still takes triggers ----

  /** CLOSE announces a trigger that never comes in time; it comes after the timeout. */
  ghost function LateRun(cfg: Config): seq<Action> {
    var now := RMax(0.0, cfg.closeTimeout);
    [Open(0, 0.0)] + [Close(map[], map[1 := 1], 0.0)] + [Poll(now)]
    + [Submit(1, None, now)] + [Pop(now)] + [Action.Complete(0, false, now)]
  }

  ghost predicate OpenedAtStart(s: State) {
    && Inv(s) && s.gate.door.Active? && s.gate.session == Some(Ses(1, 0)) && s.gate.barrier == FRESH_BARRIER
    && s.hooks == [] && s.submitted == [] && s.queue == [] && s.inflight == [] && s.triggerCounter == 0
    && s.log == Log(map[], {}, []) && s.clock == 0.0
  }

  ghost predicate TimedOutAtStart(cfg: Config, s: State) {
    && s.hooks == [Hook(Ses(1, 0), DoorError, None, 0)] && s.gate.door.DoorError? && s.gate.session == Some(Ses(1, 0))
    && s.queue == [] && s.inflight == [] && s.triggerCounter == 0 && s.log == Log(map[], {}, [])
    && s.clock == RMax(0.0, cfg.closeTimeout)
  }

  lemma OpensAtStart(cfg: Config)
    ensures OpenedAtStart(Reached(cfg, [Open(0, 0.0)]))
  {
    StartInv();
    RunOne(cfg, START, Open(0, 0.0));
    var s := Step(cfg, START, Open(0, 0.0));
    assert s == NewSession(cfg, START, 0);
    assert s.log.events == map[] && s.log.closed == {};
  }

  /** The close waits for the announced trigger, or times out at once if it may not wait at all. */
  ghost function Awaiting(cfg: Config, s: State): State {
    var armed := ArmClose(s, map[], map[1 := 1], 0.0);
    if cfg.closeTimeout > 0.0 then armed else Finish(armed, DoorError, DoorError, None)
  }

  lemma AnnouncedIsPending(s: State)
    requires s.gate.barrier == FRESH_BARRIER
    ensures var b := ArmClose(s, map[], map[1 := 1], 0.0).gate.barrier; !Satisfied(b) && !InFlight(b)
  {
    var b := ArmClose(s, map[], map[1 := 1], 0.0).gate.barrier;
    assert IsPending(b, AwaitingTriggers(1, 0, 1));
  }

  lemma AwaitingClose(cfg: Config, s: State)
    requires OpenedAtStart(s)
    ensures Step(cfg, s, Close(map[], map[1 := 1], 0.0)) == Awaiting(cfg, s)
  {
    assert s.(clock := 0.0) == s;
    AnnouncedIsPending(s);
  }

  lemma AwaitingPoll(cfg: Config, s: State)
    requires OpenedAtStart(s)
    ensures var closed := Awaiting(cfg, s);
            WellGated(closed) && TimedOutAtStart(cfg, Step(cfg, closed, Poll(RMax(0.0, cfg.closeTimeout))))
  {
    AnnouncedIsPending(s);
  }

  lemma AnnouncedTimesOut(cfg: Config)
    ensures TimedOutAtStart(cfg,
            Reached(cfg, [Open(0, 0.0)] + [Close(map[], map[1 := 1], 0.0)] + [Poll(RMax(0.0, cfg.closeTimeout))]))
  {
    var open, close, poll := Open(0, 0.0), Close(map[], map[1 := 1], 0.0), Poll(RMax(0.0, cfg.closeTimeout));
    var s := Reached(cfg, [open]);
    OpensAtStart(cfg);
    AwaitingClose(cfg, s);
    AwaitingPoll(cfg, s);
    RunTwo(cfg, s, close, poll);
    StartInv();
    RunConcat(cfg, START, [open], [close] + [poll]);
    assert [open] + ([close] + [poll]) == [open] + [close] + [poll];
  }

  /** After the timeout the session has ended, and its trigger is logged all the same. */
  lemma LateTriggerIsLogged(cfg: Config)
    ensures var s := Reached(cfg, LateRun(cfg));
            && s.hooks == [Hook(Ses(1, 0), DoorError, None, 0)] && s.log.rejected == []
            && EventsFor(s.log, Ses(1, 0)) == [LoggedEvent(Ses(1, 0), 1, 1, false)]
  {
    var now := RMax(0.0, cfg.closeTimeout);
    var head := [Open(0, 0.0)] + [Close(map[], map[1 := 1], 0.0)] + [Poll(now)];
    AnnouncedTimesOut(cfg);
    StartInv();
    var s := Reached(cfg, head);
    RunOne(cfg, s, Submit(1, None, now));
    var u := Run(cfg, s, [Submit(1, None, now)]);
    RunOne(cfg, u, Pop(now));
    var v := Run(cfg, u, [Pop(now)]);
    RunOne(cfg, v, Action.Complete(0, false, now));
    RunConcat(cfg, START, head, [Submit(1, None, now)]);
    RunConcat(cfg, START, head + [Submit(1, None, now)], [Pop(now)]);
    RunConcat(cfg, START, head + [Submit(1, None, now)] + [Pop(now)], [Action.Complete(0, false, now)]);
    assert v.inflight == [Job(Ses(1, 0), 1, 1)];
  }

  // ---- a close is decided in bounded time ----

  /** Polled late enough after the close, the last arrival and the last completion, a close is no longer pending. */
  lemma CloseIsDecided(cfg: Config, s: State, now: real)
    requires Inv(s) && s.gate.door.PendingClose?
    requires now - s.gate.closeTs.value >= RMax(cfg.StallTimeout(), cfg.closeGrace)
    requires s.gate.lastEnqueueTs.Some? ==> now - s.gate.lastEnqueueTs.value >= RMax(cfg.StallTimeout(), cfg.closeGrace)
    requires s.gate.progressTs.Some? ==> now - s.gate.progressTs.value >= RMax(cfg.StallTimeout(), cfg.closeGrace)
    ensures var (t, r) := PollStep(cfg, s, now);
            && !t.gate.door.PendingClose? && |t.hooks| == |s.hooks| + 1
            && (r.door.Finalized? ==>
                Satisfied(s.gate.barrier) && !Blocked(cfg, EventsFor(s.log, s.gate.session.value)))
            && (Satisfied(s.gate.barrier) ==> r.settlement == Some(
                  Settlement(s.gate.session.value, EventsFor(s.log, s.gate.session.value),
                             Blocked(cfg, EventsFor(s.log, s.gate.session.value)))))
  {
    assert FinalInv(s);
  }
}
