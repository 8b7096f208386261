/** The close protocol as a state machine. Every lock-protected region of the service
    is one atomic step; inference runs between Pop and Complete. `base`, `submitted`,
    `hooks` and `clock` are history: no step branches on the first three. */
module Protocol {
  import opened Types

  // Session ids are `ses-<counter>-<seconds>`; triggers before the first OPEN carry "no-session".
  datatype SessionId = NoSession | Ses(counter: nat, issuedAt: int)

  datatype Job = Job(session: SessionId, zone: int, trigger: nat)
  datatype LoggedEvent = LoggedEvent(session: SessionId, zone: int, trigger: nat, failed: bool)

  function EventOf(job: Job, failed: bool): LoggedEvent { LoggedEvent(job.session, job.zone, job.trigger, failed) }

  // ---- the causal barrier ----

  datatype Barrier = Barrier(
    enqueued: map<int, int>,
    processed: map<int, int>,
    unstable: set<int>,
    watermark: map<int, int>,
    lastSeq: map<int, int>,
    expected: map<int, int>)

  const FRESH_BARRIER := Barrier(map[], map[], {}, map[], map[], map[])

  function At(m: map<int, int>, k: int, otherwise: int): int { if k in m then m[k] else otherwise }

  function Bumped(m: map<int, int>, k: int): map<int, int> { m[k := At(m, k, 0) + 1] }

  function Gap(b: Barrier, zone: int): int { At(b.enqueued, zone, 0) - At(b.processed, zone, 0) }

  datatype Pending =
    | QueuePending(zone: int, gap: int)
    | LoadcellUnstable(zone: int)
    | SeqGap(zone: int, last: int, watermark: int)
    | AwaitingTriggers(zone: int, arrived: int, expected: int)

  ghost predicate IsPending(b: Barrier, p: Pending) {
    match p
    case QueuePending(z, gap) => (z in b.enqueued || z in b.processed) && gap == Gap(b, z) && gap > 0
    case LoadcellUnstable(z) => z in b.unstable
    case SeqGap(z, last, wm) => z in b.watermark && wm == b.watermark[z] && last == At(b.lastSeq, z, -1) && last < wm
    case AwaitingTriggers(z, arrived, expected) =>
      z in b.expected && expected == b.expected[z] && arrived == At(b.enqueued, z, 0) && arrived < expected
  }

  ghost predicate Satisfied(b: Barrier) { forall p :: !IsPending(b, p) }

  ghost predicate InFlight(b: Barrier) { exists z, gap :: IsPending(b, QueuePending(z, gap)) }

  // ---- the state ----

  datatype DoorState = Idle | Active | PendingClose | Finalized | DoorError

  // A settlement is a function of the events it read (and of configuration), so it is kept as those events.
  datatype Settlement = Settlement(session: SessionId, events: seq<LoggedEvent>, blocked: bool)

  datatype Config = Config(
    closeTimeout: real,
    workerStallTimeout: real,
    closeGrace: real,
    keepSessions: int,
    blockPayment: bool)
  {
    function StallTimeout(): real { RMax(workerStallTimeout, closeTimeout) }
    function Keep(): nat { Max(keepSessions, 1) }
  }

  /** One `on_finalize` call: `at` counts the triggers submitted before it. */
  datatype Hook = Hook(session: SessionId, door: DoorState, settlement: Option<Settlement>, at: nat)

  datatype Response = Response(door: DoorState, settlement: Option<Settlement>)

  datatype Gateway = Gateway(
    door: DoorState,
    session: Option<SessionId>,
    barrier: Barrier,
    closeTs: Option<real>,
    progressTs: Option<real>,
    lastEnqueueTs: Option<real>,
    watermarkSet: bool)

  datatype Log = Log(events: map<SessionId, seq<LoggedEvent>>, closed: set<SessionId>, rejected: seq<LoggedEvent>)

  datatype State = State(
    gate: Gateway,
    log: Log,
    settled: map<SessionId, Settlement>,
    queue: seq<Job>,
    inflight: seq<Job>,
    sessionCounter: nat,
    triggerCounter: nat,
    recent: seq<SessionId>,
    hooks: seq<Hook>,
    submitted: seq<Job>,
    base: seq<Job>,
    clock: real)

  const START := State(
    Gateway(Idle, None, FRESH_BARRIER, None, None, None, false), Log(map[], {}, []), map[],
    [], [], 0, 0, [], [], [], [], 0.0)

  function Outstanding(s: State): seq<Job> { s.queue + s.inflight }

  // ---- the event log and the settler's cache ----

  function EventsFor(log: Log, sid: SessionId): seq<LoggedEvent> { if sid in log.events then log.events[sid] else [] }

  function Append(log: Log, e: LoggedEvent): Log {
    if e.session in log.closed then log.(rejected := log.rejected + [e])
    else log.(events := log.events[e.session := EventsFor(log, e.session) + [e]])
  }

  function PruneLog(log: Log, keep: set<SessionId>): Log {
    log.(events := map sid | sid in log.events && sid in keep :: log.events[sid], closed := log.closed * keep)
  }

  function PruneSettled(settled: map<SessionId, Settlement>, keep: set<SessionId>): map<SessionId, Settlement> {
    map sid | sid in settled && sid in keep :: settled[sid]
  }

  /** Blocked on any failed trigger, or (under the other policy) when every zone seen failed. */
  predicate Blocked(cfg: Config, events: seq<LoggedEvent>) {
    && (exists e :: e in events && e.failed)
    && (cfg.blockPayment || forall e :: e in events ==> exists f :: f in events && f.failed && f.zone == e.zone)
  }

  function SettlementFor(cfg: Config, s: State, sid: SessionId): Settlement {
    if sid in s.settled then s.settled[sid]
    else Settlement(sid, EventsFor(s.log, sid), Blocked(cfg, EventsFor(s.log, sid)))
  }

  function Settle(cfg: Config, s: State, sid: SessionId): State {
    if sid in s.settled then s
    else s.(settled := s.settled[sid := SettlementFor(cfg, s, sid)], log := s.log.(closed := s.log.closed + {sid}))
  }

  // ---- steps ----

  datatype Action =
    | Submit(zone: int, seqNo: Option<int>, now: real)
    | Pop(now: real)
    | Complete(job: nat, failed: bool, now: real)
    | LoadcellStable(zone: int, stable: bool, now: real)
    | Open(issuedAt: int, now: real)
    | Close(watermark: map<int, int>, expected: map<int, int>, now: real)
    | Poll(now: real)

  function CurrentSession(g: Gateway): SessionId { if g.session.Some? then g.session.value else NoSession }

  function SubmitStep(s: State, zone: int, seqNo: Option<int>, now: real): State {
    var job := Job(CurrentSession(s.gate), zone, s.triggerCounter + 1);
    var b := s.gate.barrier;
    var seen := if seqNo.Some? then b.lastSeq[zone := Max(At(b.lastSeq, zone, -1), seqNo.value)] else b.lastSeq;
    s.(gate := s.gate.(barrier := b.(lastSeq := seen, enqueued := Bumped(b.enqueued, zone)),
                       lastEnqueueTs := Some(now)),
       queue := s.queue + [job], submitted := s.submitted + [job], triggerCounter := s.triggerCounter + 1)
  }

  function PopStep(s: State): State {
    if s.queue == [] then s else s.(queue := s.queue[1..], inflight := s.inflight + [s.queue[0]])
  }

  function CompleteStep(s: State, i: nat, failed: bool, now: real): State {
    if i >= |s.inflight| then s
    else
      var job := s.inflight[i];
      var b := s.gate.barrier;
      s.(log := Append(s.log, EventOf(job, failed)),
         gate := s.gate.(barrier := b.(processed := Bumped(b.processed, job.zone)), progressTs := Some(now)),
         inflight := s.inflight[..i] + s.inflight[i + 1..])
  }

  function LoadcellStep(s: State, zone: int, stable: bool): State {
    var b := s.gate.barrier;
    s.(gate := s.gate.(barrier := b.(unstable := if stable then b.unstable - {zone} else b.unstable + {zone})))
  }

  predicate OpensNewSession(s: State) { s.gate.door in {Idle, Finalized, DoorError} }

  function Remember(cfg: Config, recent: seq<SessionId>, sid: SessionId): seq<SessionId> {
    var all := recent + [sid];
    if |all| <= cfg.Keep() then all else all[|all| - cfg.Keep()..]
  }

  function HandleOpen(s: State, sid: SessionId): State {
    if s.gate.session == Some(sid) then s.(gate := s.gate.(door := Active))
    else s.(gate := s.gate.(door := Active, session := Some(sid), barrier := FRESH_BARRIER, closeTs := None,
                            lastEnqueueTs := None),
            base := Outstanding(s))
  }

  function NewSession(cfg: Config, s: State, issuedAt: int): State {
    var sid := Ses(s.sessionCounter + 1, issuedAt);
    var recent := Remember(cfg, s.recent, sid);
    var keep := set x | x in recent;
    HandleOpen(s.(sessionCounter := s.sessionCounter + 1, recent := recent,
                  log := PruneLog(s.log, keep), settled := PruneSettled(s.settled, keep)), sid)
  }

  function OpenStep(cfg: Config, s: State, issuedAt: int): State {
    if OpensNewSession(s) then NewSession(cfg, s, issuedAt)
    else if s.gate.session.Some? then HandleOpen(s, s.gate.session.value)
    else HandleOpen(s.(sessionCounter := s.sessionCounter + 1), Ses(s.sessionCounter + 1, issuedAt))
  }

  /** Who answers to `on_finalize`: the state after the hook ran. */
  function Finish(s: State, door: DoorState, report: DoorState, settlement: Option<Settlement>): State {
    s.(gate := s.gate.(door := door),
       hooks := s.hooks + [Hook(CurrentSession(s.gate), report, settlement, |s.submitted|)])
  }

  predicate InGrace(cfg: Config, g: Gateway, now: real)
    requires g.closeTs.Some?
  {
    !g.watermarkSet && cfg.closeGrace > 0.0 &&
    var anchor := if g.lastEnqueueTs.Some? then RMax(g.closeTs.value, g.lastEnqueueTs.value) else g.closeTs.value;
    now - anchor < cfg.closeGrace
  }

  ghost predicate TimedOut(cfg: Config, g: Gateway, now: real)
    requires g.closeTs.Some?
  {
    var busy := InFlight(g.barrier);
    var anchor := if busy && g.progressTs.Some? then RMax(g.closeTs.value, g.progressTs.value) else g.closeTs.value;
    now - anchor >= if busy then cfg.StallTimeout() else cfg.closeTimeout
  }

  ghost function PollStep(cfg: Config, s: State, now: real): (State, Response)
    requires s.gate.door.PendingClose? ==> s.gate.closeTs.Some? && s.gate.session.Some?
  {
    if !s.gate.door.PendingClose? then (s, Response(s.gate.door, None))
    else if Satisfied(s.gate.barrier) then
      if InGrace(cfg, s.gate, now) then (s, Response(PendingClose, None))
      else
        var sid := s.gate.session.value;
        var settlement := SettlementFor(cfg, s, sid);
        var settledState := Settle(cfg, s, sid);
        if settlement.blocked then
          (Finish(settledState, DoorError, DoorError, Some(settlement)), Response(DoorError, Some(settlement)))
        else (Finish(settledState, Idle, Finalized, Some(settlement)), Response(Finalized, Some(settlement)))
    else if TimedOut(cfg, s.gate, now) then (Finish(s, DoorError, DoorError, None), Response(DoorError, None))
    else (s, Response(PendingClose, None))
  }

  /** `handle_close`: an empty watermark or count map is "not supplied". */
  function ArmClose(s: State, watermark: map<int, int>, expected: map<int, int>, now: real): State {
    var b := s.gate.barrier;
    var b1 := if watermark != map[] then b.(watermark := watermark) else b;
    var b2 := if expected != map[] then b1.(expected := expected) else b1;
    s.(gate := s.gate.(door := PendingClose, closeTs := Some(now), barrier := b2,
                       watermarkSet := watermark != map[] || expected != map[]))
  }

  ghost function CloseStep(
      cfg: Config, s: State, watermark: map<int, int>, expected: map<int, int>, now: real): (State, Response)
    requires WellGated(s)
  {
    PollStep(cfg, if s.gate.door.Active? then ArmClose(s, watermark, expected, now) else s, now)
  }

  ghost predicate WellGated(s: State) {
    && (s.gate.door.PendingClose? ==> s.gate.closeTs.Some?)
    && (s.gate.door.PendingClose? || s.gate.door.Active? ==> s.gate.session.Some?)
  }

  ghost function Apply(cfg: Config, s: State, a: Action): State
    requires WellGated(s)
  {
    match a
    case Submit(zone, seqNo, now) => SubmitStep(s, zone, seqNo, now)
    case Pop(_) => PopStep(s)
    case Complete(i, failed, now) => CompleteStep(s, i, failed, now)
    case LoadcellStable(zone, stable, _) => LoadcellStep(s, zone, stable)
    case Open(issuedAt, _) => OpenStep(cfg, s, issuedAt)
    case Close(watermark, expected, now) => CloseStep(cfg, s, watermark, expected, now).0
    case Poll(now) => PollStep(cfg, s, now).0
  }

  /** The clock never runs backwards: an action dated before it does not happen. */
  ghost function Step(cfg: Config, s: State, a: Action): State
    requires WellGated(s)
  {
    if a.now < s.clock then s else Apply(cfg, s.(clock := a.now), a)
  }
}
