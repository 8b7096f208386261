/** What every run of the close protocol keeps, and what follows for a session:
    nothing lost when it opened with nothing outstanding, and exactly then. */
module ProtocolRuns {
  import opened Types
  import opened Protocol

  function CountZone(jobs: seq<Job>, zone: int): nat {
    if jobs == [] then 0 else (if jobs[0].zone == zone then 1 else 0) + CountZone(jobs[1..], zone)
  }

  lemma {:induction false} CountZoneConcat(a: seq<Job>, b: seq<Job>, zone: int)
    ensures CountZone(a + b, zone) == CountZone(a, zone) + CountZone(b, zone)
  {
    if a == [] {
      assert a + b == b;
    } else {
      assert (a + b)[1..] == a[1..] + b;
      CountZoneConcat(a[1..], b, zone);
    }
  }

  lemma CountZoneSplit(a: seq<Job>, i: nat, zone: int)
    requires i < |a|
    ensures CountZone(a, zone) == CountZone(a[..i] + a[i + 1..], zone) + if a[i].zone == zone then 1 else 0
  {
    assert a == a[..i] + ([a[i]] + a[i + 1..]);
    CountZoneConcat(a[..i], [a[i]] + a[i + 1..], zone);
    CountZoneConcat([a[i]], a[i + 1..], zone);
    CountZoneConcat(a[..i], a[i + 1..], zone);
  }

  lemma {:induction false} CountZoneMember(jobs: seq<Job>, job: Job)
    requires job in jobs
    ensures CountZone(jobs, job.zone) > 0
  {
    if jobs[0] != job {
      CountZoneMember(jobs[1..], job);
    }
  }

  // ---- the barrier's gap, with the offset it was born with ----

  ghost predicate GapInv(s: State) {
    forall z :: Gap(s.gate.barrier, z) == CountZone(Outstanding(s), z) - CountZone(s.base, z)
  }

  /** Steps that touch neither jobs nor counters keep the gap. */
  lemma GapFrame(s: State, t: State)
    requires GapInv(s) && t.queue == s.queue && t.inflight == s.inflight && t.base == s.base
    requires t.gate.barrier.enqueued == s.gate.barrier.enqueued && t.gate.barrier.processed == s.gate.barrier.processed
    ensures GapInv(t)
  {
    forall z ensures Gap(t.gate.barrier, z) == CountZone(Outstanding(t), z) - CountZone(t.base, z) {
      assert Gap(s.gate.barrier, z) == CountZone(Outstanding(s), z) - CountZone(s.base, z);
    }
  }

  lemma SubmitGap(s: State, zone: int, seqNo: Option<int>, now: real)
    requires GapInv(s)
    ensures GapInv(SubmitStep(s, zone, seqNo, now))
  {
    var t := SubmitStep(s, zone, seqNo, now);
    forall z ensures Gap(t.gate.barrier, z) == CountZone(Outstanding(t), z) - CountZone(t.base, z) {
      var job := t.queue[|s.queue|];
      CountZoneConcat(s.queue, s.inflight, z);
      CountZoneConcat(s.queue, [job], z);
      CountZoneConcat(t.queue, t.inflight, z);
      assert Gap(s.gate.barrier, z) == CountZone(Outstanding(s), z) - CountZone(s.base, z);
    }
  }

  lemma PopGap(s: State)
    requires GapInv(s)
    ensures GapInv(PopStep(s))
  {
    var t := PopStep(s);
    if s.queue != [] {
      forall z ensures CountZone(Outstanding(t), z) == CountZone(Outstanding(s), z) {
        CountZoneConcat(s.queue, s.inflight, z);
        CountZoneConcat(t.queue, t.inflight, z);
        CountZoneConcat(s.inflight, [s.queue[0]], z);
      }
      forall z ensures Gap(t.gate.barrier, z) == CountZone(Outstanding(t), z) - CountZone(t.base, z) {
        assert Gap(s.gate.barrier, z) == CountZone(Outstanding(s), z) - CountZone(s.base, z);
      }
    }
  }

  lemma CompleteGap(s: State, i: nat, failed: bool, now: real)
    requires GapInv(s)
    ensures GapInv(CompleteStep(s, i, failed, now))
  {
    var t := CompleteStep(s, i, failed, now);
    if i < |s.inflight| {
      forall z ensures Gap(t.gate.barrier, z) == CountZone(Outstanding(t), z) - CountZone(t.base, z) {
        CountZoneSplit(s.inflight, i, z);
        CountZoneConcat(s.queue, s.inflight, z);
        CountZoneConcat(t.queue, t.inflight, z);
        assert Gap(s.gate.barrier, z) == CountZone(Outstanding(s), z) - CountZone(s.base, z);
      }
    }
  }

  lemma OpenGap(cfg: Config, s: State, issuedAt: int)
    requires GapInv(s)
    ensures GapInv(OpenStep(cfg, s, issuedAt))
  {
    var t := OpenStep(cfg, s, issuedAt);
    if t.gate.barrier == s.gate.barrier && t.base == s.base {
      GapFrame(s, t);
    } else {
      assert t.gate.barrier == FRESH_BARRIER && t.base == Outstanding(t);
    }
  }

  lemma PollGap(cfg: Config, s: State, now: real)
    requires WellGated(s) && GapInv(s)
    ensures GapInv(PollStep(cfg, s, now).0)
  {
    GapFrame(s, PollStep(cfg, s, now).0);
  }

  lemma CloseGap(cfg: Config, s: State, watermark: map<int, int>, expected: map<int, int>, now: real)
    requires WellGated(s) && GapInv(s)
    ensures GapInv(CloseStep(cfg, s, watermark, expected, now).0)
  {
    var armed := ArmClose(s, watermark, expected, now);
    GapFrame(s, armed);
    if s.gate.door.Active? {
      PollGap(cfg, armed, now);
    } else {
      PollGap(cfg, s, now);
    }
  }

  lemma StepKeepsGap(cfg: Config, s: State, a: Action)
    requires WellGated(s) && GapInv(s)
    ensures GapInv(Step(cfg, s, a))
  {
    if a.now >= s.clock {
      var t := s.(clock := a.now);
      GapFrame(s, t);
      match a
      case Submit(zone, seqNo, now) => SubmitGap(t, zone, seqNo, now);
      case Pop(_) => PopGap(t);
      case Complete(i, failed, now) => CompleteGap(t, i, failed, now);
      case LoadcellStable(zone, stable, _) => GapFrame(t, LoadcellStep(t, zone, stable));
      case Open(issuedAt, _) => OpenGap(cfg, t, issuedAt);
      case Close(watermark, expected, now) => CloseGap(cfg, t, watermark, expected, now);
      case Poll(now) => PollGap(cfg, t, now);
    }
  }

  // ---- sessions ----

  /** Ids issued so far; the next OPEN issues one outside this set. */
  predicate Issued(s: State, sid: SessionId) { sid.NoSession? || sid.counter <= s.sessionCounter }

  ghost predicate SessionInv(s: State) {
    && WellGated(s) && !s.gate.door.Finalized?
    && (s.gate.session.None? <==> s.sessionCounter == 0)
    && (s.gate.session.None? ==> s.recent == [])
    && (s.gate.session.Some? ==>
          && s.gate.session.value.Ses? && s.gate.session.value.counter == s.sessionCounter
          && s.recent != [] && s.recent[|s.recent| - 1] == s.gate.session.value)
    && (forall sid :: sid in s.recent ==> sid.Ses? && Issued(s, sid))
    && (forall job :: job in s.submitted ==> Issued(s, job.session))
    && (forall job :: job in s.queue || job in s.inflight ==> job in s.submitted)
    && (forall sid :: sid in s.log.events ==> Issued(s, sid))
  }

  ghost predicate FinalInv(s: State) {
    && s.log.closed == s.settled.Keys
    && (forall sid :: sid in s.settled ==> sid in s.recent)
    && (forall h :: h in s.hooks ==> h.session.Ses? && Issued(s, h.session) && h.at <= |s.submitted|)
    && (forall i, j :: 0 <= i < j < |s.hooks| ==> s.hooks[i].session != s.hooks[j].session)
    && (forall h :: h in s.hooks && h.settlement.Some? && h.session in s.recent ==>
          h.session in s.settled && s.settled[h.session] == h.settlement.value)
    && (forall h :: h in s.hooks && h.settlement.None? ==> h.session !in s.settled)
    && (s.gate.door.Active? || s.gate.door.PendingClose? ==>
          && CurrentSession(s.gate) !in s.settled
          && forall h :: h in s.hooks ==> h.session != CurrentSession(s.gate))
  }

  ghost predicate LoggedIn(events: seq<LoggedEvent>, job: Job) {
    exists failed :: EventOf(job, failed) in events
  }

  ghost predicate RejectedIn(log: Log, job: Job) { exists failed :: EventOf(job, failed) in log.rejected }

  ghost predicate Traced(s: State, job: Job) {
    job in s.queue || job in s.inflight || LoggedIn(EventsFor(s.log, job.session), job) || RejectedIn(s.log, job)
  }

  /** While its session is remembered, a submitted trigger is queued, in flight, logged or rejected; and
      only closed sessions have their triggers rejected. */
  ghost predicate TrackInv(s: State) {
    && (forall job :: job in s.submitted && job.session in s.recent ==> Traced(s, job))
    && (forall e :: e in s.log.rejected ==>
        Issued(s, e.session) && (e.session in s.recent ==> e.session in s.log.closed))
  }

  ghost predicate Inv(s: State) { GapInv(s) && SessionInv(s) && FinalInv(s) && TrackInv(s) }

  lemma StartInv()
    ensures Inv(START)
  {
  }

  lemma SubmitKeeps(s: State, zone: int, seqNo: Option<int>, now: real)
    requires SessionInv(s) && FinalInv(s) && TrackInv(s)
    ensures var t := SubmitStep(s, zone, seqNo, now); SessionInv(t) && FinalInv(t) && TrackInv(t)
  {
  }

  lemma PopKeeps(s: State)
    requires SessionInv(s) && FinalInv(s) && TrackInv(s)
    ensures var t := PopStep(s); SessionInv(t) && FinalInv(t) && TrackInv(t)
  {
    if s.queue != [] {
      assert s.queue == [s.queue[0]] + s.queue[1..];
    }
  }

  lemma AppendKeepsLogged(log: Log, e: LoggedEvent, job: Job)
    ensures LoggedIn(EventsFor(log, job.session), job) ==> LoggedIn(EventsFor(Append(log, e), job.session), job)
    ensures RejectedIn(log, job) ==> RejectedIn(Append(log, e), job)
  {
    if LoggedIn(EventsFor(log, job.session), job) {
      var failed :| EventOf(job, failed) in EventsFor(log, job.session);
      assert EventOf(job, failed) in EventsFor(Append(log, e), job.session);
    }
    if RejectedIn(log, job) {
      var failed :| EventOf(job, failed) in log.rejected;
      assert EventOf(job, failed) in Append(log, e).rejected;
    }
  }

  lemma CompleteKeepsTracks(s: State, i: nat, failed: bool, now: real)
    requires SessionInv(s) && TrackInv(s)
    ensures TrackInv(CompleteStep(s, i, failed, now))
  {
    var t := CompleteStep(s, i, failed, now);
    if i < |s.inflight| {
      var done := s.inflight[i];
      var e := EventOf(done, failed);
      assert s.inflight == s.inflight[..i] + [done] + s.inflight[i + 1..];
      forall job | job in t.submitted && job.session in t.recent ensures Traced(t, job) {
        assert Traced(s, job);
        if job == done {
          assert e in EventsFor(t.log, job.session) || e in t.log.rejected;
        } else {
          AppendKeepsLogged(s.log, e, job);
        }
      }
    }
  }

  lemma CompleteKeeps(s: State, i: nat, failed: bool, now: real)
    requires SessionInv(s) && FinalInv(s) && TrackInv(s)
    ensures var t := CompleteStep(s, i, failed, now); SessionInv(t) && FinalInv(t) && TrackInv(t)
  {
    CompleteKeepsTracks(s, i, failed, now);
    if i < |s.inflight| {
      assert s.inflight == s.inflight[..i] + [s.inflight[i]] + s.inflight[i + 1..];
    }
  }

  lemma RememberKeeps(cfg: Config, recent: seq<SessionId>, sid: SessionId)
    ensures var r := Remember(cfg, recent, sid);
            r != [] && r[|r| - 1] == sid && forall x :: x in r ==> x == sid || x in recent
  {
  }

  lemma NewSessionKeepsSessions(cfg: Config, s: State, issuedAt: int)
    requires SessionInv(s)
    ensures SessionInv(NewSession(cfg, s, issuedAt))
  {
    var sid := Ses(s.sessionCounter + 1, issuedAt);
    RememberKeeps(cfg, s.recent, sid);
    var t := NewSession(cfg, s, issuedAt);
    assert t.gate.session == Some(sid) && t.recent == Remember(cfg, s.recent, sid);
    assert t.queue == s.queue && t.inflight == s.inflight && t.submitted == s.submitted;
    assert t.log.events.Keys <= s.log.events.Keys;
  }

  lemma NewSessionKeepsFinals(cfg: Config, s: State, issuedAt: int)
    requires SessionInv(s) && FinalInv(s)
    ensures FinalInv(NewSession(cfg, s, issuedAt))
  {
    var sid := Ses(s.sessionCounter + 1, issuedAt);
    RememberKeeps(cfg, s.recent, sid);
    var t := NewSession(cfg, s, issuedAt);
    assert t.gate.session == Some(sid) && t.recent == Remember(cfg, s.recent, sid);
    assert t.hooks == s.hooks && t.submitted == s.submitted
           && t.settled == PruneSettled(s.settled, set x | x in t.recent);
  }

  lemma PruneKeepsTraced(s: State, t: State, keep: set<SessionId>, job: Job)
    requires Traced(s, job) && job.session in keep
    requires t.queue == s.queue && t.inflight == s.inflight && t.log == PruneLog(s.log, keep)
    ensures Traced(t, job)
  {
    assert EventsFor(t.log, job.session) == EventsFor(s.log, job.session);
  }

  lemma NewSessionKeepsTracks(cfg: Config, s: State, issuedAt: int)
    requires SessionInv(s) && TrackInv(s)
    ensures TrackInv(NewSession(cfg, s, issuedAt))
  {
    var sid := Ses(s.sessionCounter + 1, issuedAt);
    RememberKeeps(cfg, s.recent, sid);
    var t := NewSession(cfg, s, issuedAt);
    assert t.recent == Remember(cfg, s.recent, sid) && t.submitted == s.submitted
           && t.sessionCounter == s.sessionCounter + 1;
    assert t.queue == s.queue && t.inflight == s.inflight;
    var keep := set x | x in t.recent;
    assert t.log == PruneLog(s.log, keep);
    forall job | job in t.submitted && job.session in t.recent ensures Traced(t, job) {
      assert job in s.submitted && Issued(s, job.session);
      PruneKeepsTraced(s, t, keep, job);
    }
    forall e | e in t.log.rejected
      ensures Issued(t, e.session) && (e.session in t.recent ==> e.session in t.log.closed) {
      assert e in s.log.rejected;
    }
  }

  lemma OpenKeeps(cfg: Config, s: State, issuedAt: int)
    requires SessionInv(s) && FinalInv(s) && TrackInv(s)
    ensures var t := OpenStep(cfg, s, issuedAt); SessionInv(t) && FinalInv(t) && TrackInv(t)
  {
    if OpensNewSession(s) {
      NewSessionKeepsSessions(cfg, s, issuedAt);
      NewSessionKeepsFinals(cfg, s, issuedAt);
      NewSessionKeepsTracks(cfg, s, issuedAt);
    }
  }

  lemma SettleKeeps(cfg: Config, s: State, door: DoorState, report: DoorState)
    requires SessionInv(s) && FinalInv(s) && TrackInv(s) && s.gate.door.PendingClose?
    requires door.Idle? || door.DoorError?
    ensures var sid := CurrentSession(s.gate);
            var t := Finish(Settle(cfg, s, sid), door, report, Some(SettlementFor(cfg, s, sid)));
            SessionInv(t) && FinalInv(t) && TrackInv(t)
  {
  }

  lemma TimeoutKeeps(s: State)
    requires SessionInv(s) && FinalInv(s) && TrackInv(s) && s.gate.door.PendingClose?
    ensures var t := Finish(s, DoorError, DoorError, None); SessionInv(t) && FinalInv(t) && TrackInv(t)
  {
  }

  /** A poll waits, settles or times out. */
  lemma PollCases(cfg: Config, s: State, now: real)
    requires WellGated(s)
    ensures var t := PollStep(cfg, s, now).0;
            var sid := CurrentSession(s.gate);
            var settlement := Some(SettlementFor(cfg, s, sid));
            || t == s
            || (s.gate.door.PendingClose? && Satisfied(s.gate.barrier)
                && (t == Finish(Settle(cfg, s, sid), DoorError, DoorError, settlement)
                    || t == Finish(Settle(cfg, s, sid), Idle, Finalized, settlement)))
            || (s.gate.door.PendingClose? && t == Finish(s, DoorError, DoorError, None))
  {
  }

  lemma PollKeeps(cfg: Config, s: State, now: real)
    requires SessionInv(s) && FinalInv(s) && TrackInv(s)
    ensures var t := PollStep(cfg, s, now).0; SessionInv(t) && FinalInv(t) && TrackInv(t)
  {
    PollCases(cfg, s, now);
    if PollStep(cfg, s, now).0 != s {
      SettleKeeps(cfg, s, DoorError, DoorError);
      SettleKeeps(cfg, s, Idle, Finalized);
      TimeoutKeeps(s);
    }
  }

  lemma CloseKeeps(
      cfg: Config, s: State, watermark: map<int, int>, expected: map<int, int>, now: real)
    requires SessionInv(s) && FinalInv(s) && TrackInv(s)
    ensures var t := CloseStep(cfg, s, watermark, expected, now).0; SessionInv(t) && FinalInv(t) && TrackInv(t)
  {
    if s.gate.door.Active? {
      PollKeeps(cfg, ArmClose(s, watermark, expected, now), now);
    } else {
      PollKeeps(cfg, s, now);
    }
  }

  lemma LoadcellKeeps(s: State, zone: int, stable: bool)
    requires SessionInv(s) && FinalInv(s) && TrackInv(s)
    ensures var t := LoadcellStep(s, zone, stable); SessionInv(t) && FinalInv(t) && TrackInv(t)
  {
  }

  lemma ClockKeeps(s: State, now: real)
    requires SessionInv(s) && FinalInv(s) && TrackInv(s)
    ensures var t := s.(clock := now); SessionInv(t) && FinalInv(t) && TrackInv(t)
  {
  }

  lemma ApplyKeeps(cfg: Config, s: State, a: Action)
    requires SessionInv(s) && FinalInv(s) && TrackInv(s)
    ensures var t := Apply(cfg, s, a); SessionInv(t) && FinalInv(t) && TrackInv(t)
  {
    match a
    case Submit(zone, seqNo, now) => SubmitKeeps(s, zone, seqNo, now);
    case Pop(_) => PopKeeps(s);
    case Complete(i, failed, now) => CompleteKeeps(s, i, failed, now);
    case LoadcellStable(zone, stable, _) => LoadcellKeeps(s, zone, stable);
    case Open(issuedAt, _) => OpenKeeps(cfg, s, issuedAt);
    case Close(watermark, expected, now) => CloseKeeps(cfg, s, watermark, expected, now);
    case Poll(now) => PollKeeps(cfg, s, now);
  }

  lemma StepKeepsInv(cfg: Config, s: State, a: Action)
    requires Inv(s)
    ensures Inv(Step(cfg, s, a))
  {
    StepKeepsGap(cfg, s, a);
    if a.now >= s.clock {
      ClockKeeps(s, a.now);
      ApplyKeeps(cfg, s.(clock := a.now), a);
    }
  }

  /** The state after a run; `Reached` starts it at the beginning. */
  ghost function Run(cfg: Config, s: State, actions: seq<Action>): (t: State)
    requires Inv(s)
    ensures Inv(t)
    decreases |actions|
  {
    if actions == [] then s
    else
      StepKeepsInv(cfg, s, actions[0]);
      Run(cfg, Step(cfg, s, actions[0]), actions[1..])
  }

  /** The reachable states. */
  ghost function Reached(cfg: Config, actions: seq<Action>): (s: State)
    ensures Inv(s)
  {
    StartInv();
    Run(cfg, START, actions)
  }

  /** enqueued - processed counts the triggers outstanding now beyond those outstanding at the barrier's birth. */
  lemma GapCountsOutstanding(cfg: Config, actions: seq<Action>, zone: int)
    ensures var s := Reached(cfg, actions);
            Gap(s.gate.barrier, zone) ==
              CountZone(s.queue, zone) + CountZone(s.inflight, zone) - CountZone(s.base, zone)
  {
    var s := Reached(cfg, actions);
    CountZoneConcat(s.queue, s.inflight, zone);
    assert GapInv(s);
  }

  // ---- nothing lost, exactly when nothing was outstanding at OPEN ----

  /** Every trigger submitted to the hook's session before it ran is in the settlement it carries. */
  ghost predicate Covers(submitted: seq<Job>, h: Hook)
    requires h.settlement.Some?
  {
    forall k :: 0 <= k < |submitted| && k < h.at && submitted[k].session == h.session ==>
      LoggedIn(h.settlement.value.events, submitted[k])
  }

  ghost predicate LosesTrigger(s: State, sid: SessionId) {
    exists h :: h in s.hooks && h.session == sid && h.settlement.Some? && !Covers(s.submitted, h)
  }

  ghost predicate SafeFor(s: State, sid: SessionId) {
    Issued(s, sid) && (s.gate.session == Some(sid) ==> s.base == []) && !LosesTrigger(s, sid)
  }

  /** With no offset, a satisfied barrier means an empty queue and nothing in flight. */
  lemma SatisfiedMeansDrained(s: State)
    requires GapInv(s) && s.base == [] && Satisfied(s.gate.barrier)
    ensures Outstanding(s) == []
  {
    if Outstanding(s) != [] {
      var job := Outstanding(s)[0];
      CountZoneMember(Outstanding(s), job);
      assert Gap(s.gate.barrier, job.zone) > 0;
      assert IsPending(s.gate.barrier, QueuePending(job.zone, Gap(s.gate.barrier, job.zone)));
    }
  }

  lemma CoversGrows(submitted: seq<Job>, more: seq<Job>, h: Hook)
    requires h.settlement.Some? && h.at <= |submitted| && Covers(submitted, h)
    ensures Covers(submitted + more, h)
  {
    forall k | 0 <= k < |submitted + more| && k < h.at && (submitted + more)[k].session == h.session
      ensures LoggedIn(h.settlement.value.events, (submitted + more)[k])
    {
      assert submitted[k] == (submitted + more)[k];
    }
  }

  lemma SubmitKeepsSafe(s: State, zone: int, seqNo: Option<int>, now: real, sid: SessionId)
    requires Inv(s) && SafeFor(s, sid)
    ensures SafeFor(SubmitStep(s, zone, seqNo, now), sid)
  {
    var t := SubmitStep(s, zone, seqNo, now);
    forall h | h in t.hooks && h.session == sid && h.settlement.Some? ensures Covers(t.submitted, h) {
      assert h in s.hooks;
      CoversGrows(s.submitted, t.submitted[|s.submitted|..], h);
      assert t.submitted == s.submitted + t.submitted[|s.submitted|..];
    }
  }

  lemma OpenKeepsSafe(cfg: Config, s: State, issuedAt: int, sid: SessionId)
    requires Inv(s) && SafeFor(s, sid)
    ensures SafeFor(OpenStep(cfg, s, issuedAt), sid)
  {
    var t := OpenStep(cfg, s, issuedAt);
    assert t.hooks == s.hooks && t.submitted == s.submitted;
  }

  lemma SettleCovers(cfg: Config, s: State, report: DoorState)
    requires Inv(s) && s.gate.door.PendingClose? && s.base == [] && Satisfied(s.gate.barrier)
    ensures var sid := CurrentSession(s.gate);
            Covers(s.submitted, Hook(sid, report, Some(SettlementFor(cfg, s, sid)), |s.submitted|))
  {
    SatisfiedMeansDrained(s);
    assert s.queue == [] && s.inflight == [];
    var sid := CurrentSession(s.gate);
    forall k | 0 <= k < |s.submitted| && s.submitted[k].session == sid
      ensures LoggedIn(EventsFor(s.log, sid), s.submitted[k]) {
      assert Traced(s, s.submitted[k]);
    }
  }

  lemma FinishKeepsSafe(
      s: State, t: State, door: DoorState, report: DoorState, settlement: Option<Settlement>, sid: SessionId)
    requires SafeFor(s, sid) && t.gate == s.gate && t.hooks == s.hooks && t.submitted == s.submitted && t.base == s.base
    requires t.sessionCounter == s.sessionCounter
    requires settlement.Some? && CurrentSession(s.gate) == sid ==>
               Covers(s.submitted, Hook(sid, report, settlement, |s.submitted|))
    ensures SafeFor(Finish(t, door, report, settlement), sid)
  {
  }

  lemma PollKeepsSafe(cfg: Config, s: State, now: real, sid: SessionId)
    requires Inv(s) && SafeFor(s, sid)
    ensures SafeFor(PollStep(cfg, s, now).0, sid)
  {
    PollCases(cfg, s, now);
    if PollStep(cfg, s, now).0 != s {
      var cur := CurrentSession(s.gate);
      if Satisfied(s.gate.barrier) {
        if cur == sid {
          SettleCovers(cfg, s, DoorError);
          SettleCovers(cfg, s, Finalized);
        }
        FinishKeepsSafe(s, Settle(cfg, s, cur), DoorError, DoorError, Some(SettlementFor(cfg, s, cur)), sid);
        FinishKeepsSafe(s, Settle(cfg, s, cur), Idle, Finalized, Some(SettlementFor(cfg, s, cur)), sid);
      }
      FinishKeepsSafe(s, s, DoorError, DoorError, None, sid);
    }
  }

  lemma ApplyKeepsSafe(cfg: Config, s: State, a: Action, sid: SessionId)
    requires Inv(s) && SafeFor(s, sid)
    ensures SafeFor(Apply(cfg, s, a), sid)
  {
    match a
    case Submit(zone, seqNo, now) => SubmitKeepsSafe(s, zone, seqNo, now, sid);
    case Pop(_) =>
    case Complete(i, failed, now) =>
    case LoadcellStable(zone, stable, _) =>
    case Open(issuedAt, _) => OpenKeepsSafe(cfg, s, issuedAt, sid);
    case Close(watermark, expected, now) =>
      if s.gate.door.Active? {
        var armed := ArmClose(s, watermark, expected, now);
        ArmKeepsInv(s, watermark, expected, now);
        PollKeepsSafe(cfg, armed, now, sid);
      } else {
        PollKeepsSafe(cfg, s, now, sid);
      }
    case Poll(now) => PollKeepsSafe(cfg, s, now, sid);
  }

  lemma ArmKeepsInv(s: State, watermark: map<int, int>, expected: map<int, int>, now: real)
    requires Inv(s) && s.gate.door.Active?
    ensures Inv(ArmClose(s, watermark, expected, now))
  {
    GapFrame(s, ArmClose(s, watermark, expected, now));
  }

  lemma TickKeepsInv(s: State, now: real)
    requires Inv(s)
    ensures Inv(s.(clock := now))
  {
    GapFrame(s, s.(clock := now));
    ClockKeeps(s, now);
  }

  lemma {:induction false} RunKeepsSafe(cfg: Config, s: State, actions: seq<Action>, sid: SessionId)
    requires Inv(s) && SafeFor(s, sid)
    ensures SafeFor(Run(cfg, s, actions), sid)
    decreases |actions|
  {
    if actions != [] {
      var a := actions[0];
      StepKeepsInv(cfg, s, a);
      if a.now >= s.clock {
        var t := s.(clock := a.now);
        TickKeepsInv(s, a.now);
        assert SafeFor(t, sid);
        ApplyKeepsSafe(cfg, t, a, sid);
      }
      RunKeepsSafe(cfg, Step(cfg, s, a), actions[1..], sid);
    }
  }
}
