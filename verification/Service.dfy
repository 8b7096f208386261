/** The objects behind the close protocol: barrier, event log, settlement cache, gateway,
    worker and facade. Each lock-protected region is a method, proved to be one `Protocol` step. */
module Service {
  import opened Types
  import opened Protocol

  method SmallestOf(zones: set<int>) returns (z: int)
    requires zones != {}
    ensures z in zones && forall y :: y in zones ==> z <= y
  {
    assert (forall y :: y !in zones) ==> zones == {};
    z :| z in zones;
    var rest := zones - {z};
    while rest != {}
      invariant z in zones && rest <= zones
      invariant forall y :: y in zones && y !in rest ==> z <= y
      decreases |rest|
    {
      assert (forall y :: y !in rest) ==> rest == {};
      var y :| y in rest;
      rest := rest - {y};
      if y < z {
        z := y;
      }
    }
  }

  ghost predicate Ascending(zs: seq<int>) { forall i, j :: 0 <= i < j < |zs| ==> zs[i] < zs[j] }

  method Sorted(zones: set<int>) returns (zs: seq<int>)
    ensures Ascending(zs) && forall z :: z in zs <==> z in zones
  {
    zs := [];
    var rest := zones;
    while rest != {}
      invariant rest <= zones && Ascending(zs)
      invariant forall z :: z in zs <==> z in zones && z !in rest
      invariant forall z, y :: z in zs && y in rest ==> z < y
      decreases |rest|
    {
      var z := SmallestOf(rest);
      forall i | 0 <= i < |zs| ensures zs[i] < z {
        assert zs[i] in zs;
      }
      zs, rest := zs + [z], rest - {z};
    }
  }

  /** Conditions of one kind by zone, each zone once. */
  ghost predicate ByZone(ps: seq<Pending>) { forall i, j :: 0 <= i < j < |ps| ==> ps[i].zone < ps[j].zone }

  function KindOf(p: Pending): nat {
    match p
    case QueuePending(_, _) => 0
    case LoadcellUnstable(_) => 1
    case SeqGap(_, _, _) => 2
    case AwaitingTriggers(_, _, _) => 3
  }

  /** Reported by kind of condition, then by zone, each zone once per kind. */
  ghost predicate InZoneOrder(ps: seq<Pending>) {
    forall i, j :: 0 <= i < j < |ps| ==>
      KindOf(ps[i]) < KindOf(ps[j]) || (KindOf(ps[i]) == KindOf(ps[j]) && ps[i].zone < ps[j].zone)
  }

  /** Exactly the pending conditions of one kind among the given zones, by zone. */
  ghost predicate Lists(b: Barrier, kind: nat, zs: seq<int>, ps: seq<Pending>) {
    ByZone(ps) && forall p :: p in ps <==> KindOf(p) == kind && p.zone in zs && IsPending(b, p)
  }

  lemma ListsNext(b: Barrier, kind: nat, zs: seq<int>, k: nat, ps: seq<Pending>, more: seq<Pending>)
    requires k < |zs| && Ascending(zs) && Lists(b, kind, zs[..k], ps)
    requires forall p :: p in more <==> KindOf(p) == kind && p.zone == zs[k] && IsPending(b, p)
    requires |more| <= 1
    ensures Lists(b, kind, zs[..k + 1], ps + more)
  {
    assert forall p :: p in ps ==> exists j :: 0 <= j < k && zs[j] == p.zone;
  }

  lemma ListsOrdered(b: Barrier, kind: nat, zs: seq<int>, before: seq<Pending>, ps: seq<Pending>)
    requires InZoneOrder(before) && (forall p :: p in before ==> KindOf(p) < kind) && Lists(b, kind, zs, ps)
    ensures InZoneOrder(before + ps)
  {
    var all := before + ps;
    forall i, j | 0 <= i < j < |all|
      ensures KindOf(all[i]) < KindOf(all[j]) || (KindOf(all[i]) == KindOf(all[j]) && all[i].zone < all[j].zone)
    {
      assert j >= |before| ==> all[j] in ps;
      assert i >= |before| ==> all[i] in ps;
      assert i < |before| ==> all[i] in before;
    }
  }

  class CausalBarrier {
    var enqueued: map<int, int>
    var processed: map<int, int>
    var unstable: set<int>
    var watermark: map<int, int>
    var lastSeq: map<int, int>
    var expected: map<int, int>

    ghost function View(): Barrier
      reads this
    {
      Barrier(enqueued, processed, unstable, watermark, lastSeq, expected)
    }

    constructor ()
      ensures View() == FRESH_BARRIER
    {
      enqueued, processed, unstable, watermark, lastSeq, expected := map[], map[], {}, map[], map[], map[];
    }

    method NotifyEnqueued(zone: int)
      modifies this
      ensures View() == old(View()).(enqueued := Bumped(old(enqueued), zone))
    {
      enqueued := enqueued[zone := At(enqueued, zone, 0) + 1];
    }

    method NotifyProcessed(zone: int)
      modifies this
      ensures View() == old(View()).(processed := Bumped(old(processed), zone))
    {
      processed := processed[zone := At(processed, zone, 0) + 1];
    }

    method SetLoadcellStable(zone: int, stable: bool)
      modifies this
      ensures View() == old(View()).(unstable := if stable then old(unstable) - {zone} else old(unstable) + {zone})
    {
      if stable {
        unstable := unstable - {zone};
      } else {
        unstable := unstable + {zone};
      }
    }

    method NoteSeq(zone: int, seqNo: int)
      modifies this
      ensures View() == old(View()).(lastSeq := old(lastSeq)[zone := Max(At(old(lastSeq), zone, -1), seqNo)])
    {
      lastSeq := lastSeq[zone := Max(At(lastSeq, zone, -1), seqNo)];
    }

    method SetCloseWatermark(seqByZone: map<int, int>)
      modifies this
      ensures View() == old(View()).(watermark := seqByZone)
    {
      watermark := seqByZone;
    }

    method SetExpectedCounts(countsByZone: map<int, int>)
      modifies this
      ensures View() == old(View()).(expected := countsByZone)
    {
      expected := countsByZone;
    }

    method QueuePendings(zs: seq<int>) returns (ps: seq<Pending>)
      requires Ascending(zs) && forall z :: z in zs <==> z in enqueued || z in processed
      ensures Lists(View(), 0, zs, ps)
    {
      ps := [];
      for k := 0 to |zs|
        invariant Lists(View(), 0, zs[..k], ps)
      {
        var gap := At(enqueued, zs[k], 0) - At(processed, zs[k], 0);
        var more := if gap > 0 then [QueuePending(zs[k], gap)] else [];
        ListsNext(View(), 0, zs, k, ps, more);
        ps := ps + more;
      }
      assert zs[..|zs|] == zs;
    }

    method UnstablePendings(zs: seq<int>) returns (ps: seq<Pending>)
      requires Ascending(zs) && forall z :: z in zs <==> z in unstable
      ensures Lists(View(), 1, zs, ps)
    {
      ps := [];
      for k := 0 to |zs|
        invariant Lists(View(), 1, zs[..k], ps)
      {
        ListsNext(View(), 1, zs, k, ps, [LoadcellUnstable(zs[k])]);
        ps := ps + [LoadcellUnstable(zs[k])];
      }
      assert zs[..|zs|] == zs;
    }

    method SeqPendings(zs: seq<int>) returns (ps: seq<Pending>)
      requires Ascending(zs) && forall z :: z in zs <==> z in watermark
      ensures Lists(View(), 2, zs, ps)
    {
      ps := [];
      for k := 0 to |zs|
        invariant Lists(View(), 2, zs[..k], ps)
      {
        var last := At(lastSeq, zs[k], -1);
        var more := if last < watermark[zs[k]] then [SeqGap(zs[k], last, watermark[zs[k]])] else [];
        ListsNext(View(), 2, zs, k, ps, more);
        ps := ps + more;
      }
      assert zs[..|zs|] == zs;
    }

    method AwaitedPendings(zs: seq<int>) returns (ps: seq<Pending>)
      requires Ascending(zs) && forall z :: z in zs <==> z in expected
      ensures Lists(View(), 3, zs, ps)
    {
      ps := [];
      for k := 0 to |zs|
        invariant Lists(View(), 3, zs[..k], ps)
      {
        var arrived := At(enqueued, zs[k], 0);
        var more := if arrived < expected[zs[k]] then [AwaitingTriggers(zs[k], arrived, expected[zs[k]])] else [];
        ListsNext(View(), 3, zs, k, ps, more);
        ps := ps + more;
      }
      assert zs[..|zs|] == zs;
    }

    /** Every unmet condition, once each, by kind and zone. */
    method Status() returns (pending: seq<Pending>)
      ensures forall p :: p in pending <==> IsPending(View(), p)
      ensures InZoneOrder(pending)
    {
      var zs := Sorted(enqueued.Keys + processed.Keys);
      pending := QueuePendings(zs);
      var us := Sorted(unstable);
      var more := UnstablePendings(us);
      ListsOrdered(View(), 1, us, pending, more);
      pending := pending + more;
      var ws := Sorted(watermark.Keys);
      more := SeqPendings(ws);
      ListsOrdered(View(), 2, ws, pending, more);
      pending := pending + more;
      var es := Sorted(expected.Keys);
      more := AwaitedPendings(es);
      ListsOrdered(View(), 3, es, pending, more);
      pending := pending + more;
    }
  }

  class EventLog {
    var events: map<SessionId, seq<LoggedEvent>>
    var closed: set<SessionId>
    var rejected: seq<LoggedEvent>

    ghost function View(): Log
      reads this
    {
      Log(events, closed, rejected)
    }

    constructor ()
      ensures View() == Log(map[], {}, [])
    {
      events, closed, rejected := map[], {}, [];
    }

    method Append(e: LoggedEvent) returns (accepted: bool)
      modifies this
      ensures View() == Protocol.Append(old(View()), e)
      ensures accepted <==> e.session !in old(closed)
    {
      if e.session in closed {
        rejected := rejected + [e];
        return false;
      }
      var known := if e.session in events then events[e.session] else [];
      events := events[e.session := known + [e]];
      return true;
    }

    method EventsFor(sid: SessionId) returns (r: seq<LoggedEvent>)
      ensures r == Protocol.EventsFor(View(), sid)
    {
      r := if sid in events then events[sid] else [];
    }

    method MarkFinalized(sid: SessionId)
      modifies this
      ensures View() == old(View()).(closed := old(closed) + {sid})
    {
      closed := closed + {sid};
    }

    method Prune(keep: set<SessionId>)
      modifies this
      ensures View() == PruneLog(old(View()), keep)
    {
      var stale := set sid | sid in events && sid !in keep;
      events := events - stale;
      closed := closed * keep;
      assert events == PruneLog(old(View()), keep).events;
    }
  }

  /** The idempotence cache of the settler; how a settlement is computed is the subject of `Close`. */
  class SettlementCache {
    const cfg: Config
    var finalized: map<SessionId, Settlement>

    constructor (cfg: Config)
      ensures this.cfg == cfg && finalized == map[]
    {
      this.cfg := cfg;
      finalized := map[];
    }

    method Settle(sid: SessionId, log: EventLog) returns (r: Settlement)
      modifies this, log
      ensures sid in old(finalized) ==>
              r == old(finalized)[sid] && finalized == old(finalized) && log.View() == old(log.View())
      ensures sid !in old(finalized) ==>
                var events := Protocol.EventsFor(old(log.View()), sid);
                && r == Settlement(sid, events, Blocked(cfg, events))
                && finalized == old(finalized)[sid := r]
                && log.View() == old(log.View()).(closed := old(log.closed) + {sid})
    {
      if sid in finalized {
        return finalized[sid];
      }
      var events := log.EventsFor(sid);
      r := Settlement(sid, events, Blocked(cfg, events));
      finalized := finalized[sid := r];
      log.MarkFinalized(sid);
    }

    method Prune(keep: set<SessionId>)
      modifies this
      ensures finalized == PruneSettled(old(finalized), keep)
    {
      var stale := set sid | sid in finalized && sid !in keep;
      finalized := finalized - stale;
      assert finalized == PruneSettled(old(finalized), keep);
    }
  }

  class MultiZoneGateway {
    const cfg: Config
    const settler: SettlementCache
    const log: EventLog
    var door: DoorState
    var session: Option<SessionId>
    var barrier: CausalBarrier
    var closeTs: Option<real>
    var progressTs: Option<real>
    var lastEnqueueTs: Option<real>
    var watermarkSet: bool
    ghost var hooks: seq<Hook>
    ghost var base: seq<Job>

    ghost function View(): Gateway
      reads this, barrier
    {
      Gateway(door, session, barrier.View(), closeTs, progressTs, lastEnqueueTs, watermarkSet)
    }

    constructor (cfg: Config, settler: SettlementCache, log: EventLog)
      requires settler.cfg == cfg
      ensures this.cfg == cfg && this.settler == settler && this.log == log && fresh(barrier)
      ensures View() == START.gate && hooks == [] && base == []
    {
      this.cfg, this.settler, this.log := cfg, settler, log;
      door, session, closeTs, progressTs, lastEnqueueTs, watermarkSet := Idle, None, None, None, None, false;
      barrier := new CausalBarrier();
      hooks, base := [], [];
    }

    method NotifyEnqueued(zone: int, now: real)
      modifies this`lastEnqueueTs, barrier
      ensures View() == old(View()).(
                barrier := old(View()).barrier.(enqueued := Bumped(old(barrier.enqueued), zone)),
                  lastEnqueueTs := Some(now))
    {
      barrier.NotifyEnqueued(zone);
      lastEnqueueTs := Some(now);
    }

    method NotifyProcessed(zone: int, now: real)
      modifies this`progressTs, barrier
      ensures View() == old(View()).(
                barrier := old(View()).barrier.(processed := Bumped(old(barrier.processed), zone)),
                  progressTs := Some(now))
    {
      barrier.NotifyProcessed(zone);
      progressTs := Some(now);
    }

    method HandleOpen(sid: SessionId, ghost outstanding: seq<Job>)
      modifies this
      ensures barrier == old(barrier) || fresh(barrier)
      ensures hooks == old(hooks)
      ensures if old(session) == Some(sid)
              then View() == old(View()).(door := Active) && base == old(base) && barrier == old(barrier)
              else View() == old(View()).(door := Active, session := Some(sid), barrier := FRESH_BARRIER,
                                          closeTs := None, lastEnqueueTs := None)
                   && base == outstanding
    {
      if session != Some(sid) {
        session := Some(sid);
        barrier := new CausalBarrier();
        closeTs := None;
        lastEnqueueTs := None;
        base := outstanding;
      }
      door := Active;
    }
  }

  class SerialTriggerWorker {
    const gateway: MultiZoneGateway
    var queue: seq<Job>
    var inflight: seq<Job>  // the job each drain call holds between its two lock regions

    constructor (gateway: MultiZoneGateway)
      ensures this.gateway == gateway && queue == [] && inflight == []
    {
      this.gateway := gateway;
      queue, inflight := [], [];
    }
  }

  class ModelService {
    const cfg: Config
    const log: EventLog
    const settler: SettlementCache
    const gateway: MultiZoneGateway
    const worker: SerialTriggerWorker
    var sessionCounter: nat
    var triggerCounter: nat
    var recent: seq<SessionId>
    ghost var submitted: seq<Job>
    ghost var clock: real

    ghost predicate Valid()
      reads this, gateway
    {
      && gateway.cfg == cfg && settler.cfg == cfg
      && gateway.settler == settler && gateway.log == log && worker.gateway == gateway
    }

    ghost function View(): State
      reads this, log, settler, gateway, gateway.barrier, worker
    {
      State(gateway.View(), log.View(), settler.finalized, worker.queue, worker.inflight, sessionCounter,
            triggerCounter,
            recent, gateway.hooks, submitted, gateway.base, clock)
    }

    constructor (cfg: Config)
      ensures Valid() && View() == START && this.cfg == cfg
    {
      this.cfg := cfg;
      var log := new EventLog();
      var settler := new SettlementCache(cfg);
      var gateway := new MultiZoneGateway(cfg, settler, log);
      this.log, this.settler, this.gateway := log, settler, gateway;
      worker := new SerialTriggerWorker(gateway);
      sessionCounter, triggerCounter, recent, submitted, clock := 0, 0, [], [], 0.0;
    }

    /** POST /trigger for a new (not duplicate) trigger. */
    method HandleTrigger(zone: int, seqNo: Option<int>, now: real)
      requires Valid() && now >= clock && WellGated(View())
      modifies this, gateway, gateway.barrier, worker
      ensures Valid() && View() == Step(cfg, old(View()), Submit(zone, seqNo, now))
    {
      clock := now;
      triggerCounter := triggerCounter + 1;
      var session := if gateway.session.Some? then gateway.session.value else NoSession;
      if seqNo.Some? {
        gateway.barrier.NoteSeq(zone, seqNo.value);
      }
      var job := Job(session, zone, triggerCounter);
      gateway.NotifyEnqueued(zone, now);
      worker.queue := worker.queue + [job];
      submitted := submitted + [job];
    }

    /** First lock region of `drain`. */
    method DrainPop(now: real)
      requires Valid() && now >= clock && WellGated(View())
      modifies this, worker
      ensures Valid() && View() == Step(cfg, old(View()), Pop(now))
    {
      clock := now;
      if worker.queue != [] {
        var job := worker.queue[0];
        worker.queue := worker.queue[1..];
        worker.inflight := worker.inflight + [job];
      }
    }

    /** Second lock region of `drain`: the inference of an in-flight job has returned. */
    method DrainComplete(i: nat, failed: bool, now: real) returns (accepted: bool)
      requires Valid() && now >= clock && WellGated(View()) && i < |worker.inflight|
      modifies this, gateway, gateway.barrier, worker, log
      ensures Valid() && View() == Step(cfg, old(View()), Action.Complete(i, failed, now))
      ensures accepted <==> old(worker.inflight[i]).session !in old(log.closed)
    {
      clock := now;
      var job := worker.inflight[i];
      accepted := log.Append(EventOf(job, failed));
      gateway.NotifyProcessed(job.zone, now);
      worker.inflight := worker.inflight[..i] + worker.inflight[i + 1..];
    }

    method NextSessionId(issuedAt: int) returns (sid: SessionId)
      modifies this`sessionCounter
      ensures sessionCounter == old(sessionCounter) + 1 && sid == Ses(sessionCounter, issuedAt)
    {
      sessionCounter := sessionCounter + 1;
      sid := Ses(sessionCounter, issuedAt);
    }

    method PruneLedger(sid: SessionId)
      requires Valid()
      modifies this`recent, log, settler
      ensures recent == Remember(cfg, old(recent), sid)
      ensures var keep := set x | x in recent;
              log.View() == PruneLog(old(log.View()), keep)
                && settler.finalized == PruneSettled(old(settler.finalized), keep)
    {
      recent := recent + [sid];
      if |recent| > cfg.Keep() {
        recent := recent[|recent| - cfg.Keep()..];
      }
      var keep := set x | x in recent;
      log.Prune(keep);
      settler.Prune(keep);
    }

    method HandleOpen(issuedAt: int, now: real)
      requires Valid() && now >= clock && WellGated(View())
      modifies this, gateway, log, settler
      ensures Valid() && View() == Step(cfg, old(View()), Open(issuedAt, now))
      ensures gateway.barrier == old(gateway.barrier) || fresh(gateway.barrier)
    {
      clock := now;
      var sid;
      if gateway.door in {Idle, Finalized, DoorError} {
        sid := NextSessionId(issuedAt);
        PruneLedger(sid);
      } else {
        sid := gateway.session.value;  // an active or closing gateway always has one
      }
      gateway.HandleOpen(sid, worker.queue + worker.inflight);
    }

    /** CLOSE: arms an active session, then polls; any other state only polls. */
    method HandleClose(watermark: map<int, int>, expected: map<int, int>, now: real) returns (r: Response)
      requires Valid() && now >= clock && WellGated(View())
      modifies this, gateway, gateway.barrier, log, settler
      ensures Valid() && View() == Step(cfg, old(View()), Close(watermark, expected, now))
      ensures r == CloseStep(cfg, old(View()).(clock := now), watermark, expected, now).1
    {
      clock := now;
      r := CloseNow(watermark, expected, now);
    }

    method CloseNow(watermark: map<int, int>, expected: map<int, int>, now: real) returns (r: Response)
      requires Valid() && clock == now && WellGated(View())
      modifies gateway, gateway.barrier, log, settler
      ensures Valid() && (View(), r) == CloseStep(cfg, old(View()), watermark, expected, now)
    {
      if gateway.door == Active {
        Arm(watermark, expected, now);
      }
      r := PollNow(now);
    }

    method Arm(watermark: map<int, int>, expected: map<int, int>, now: real)
      requires Valid() && WellGated(View()) && gateway.door == Active
      modifies gateway, gateway.barrier
      ensures Valid() && gateway.barrier == old(gateway.barrier)
      ensures View() == ArmClose(old(View()), watermark, expected, now)
    {
      gateway.door := PendingClose;
      gateway.closeTs := Some(now);
      gateway.watermarkSet := watermark != map[] || expected != map[];
      if watermark != map[] {
        gateway.barrier.SetCloseWatermark(watermark);
      }
      if expected != map[] {
        gateway.barrier.SetExpectedCounts(expected);
      }
    }

    method HandlePoll(now: real) returns (r: Response)
      requires Valid() && now >= clock && WellGated(View())
      modifies this, gateway, log, settler
      ensures Valid() && View() == Step(cfg, old(View()), Poll(now))
      ensures r == PollStep(cfg, old(View()).(clock := now), now).1
    {
      clock := now;
      r := PollNow(now);
    }

    method PollNow(now: real) returns (r: Response)
      requires Valid() && clock == now && WellGated(View())
      modifies gateway, log, settler
      ensures Valid() && gateway.barrier == old(gateway.barrier)
      ensures (View(), r) == PollStep(cfg, old(View()), now)
    {
      if gateway.door != PendingClose {
        return Response(gateway.door, None);
      }
      var pending := gateway.barrier.Status();
      if pending == [] {
        assert Satisfied(gateway.barrier.View());
        if !gateway.watermarkSet && cfg.closeGrace > 0.0 {
          var anchor := gateway.closeTs.value;
          if gateway.lastEnqueueTs.Some? {
            anchor := RMax(anchor, gateway.lastEnqueueTs.value);
          }
          if now - anchor < cfg.closeGrace {
            return Response(PendingClose, None);
          }
        }
        r := SettleAndFinish(now);
        return;
      }
      assert IsPending(gateway.barrier.View(), pending[0]);
      var busy := exists p :: p in pending && p.QueuePending?;
      assert busy <==> InFlight(gateway.barrier.View());
      var timeout := if busy then cfg.StallTimeout() else cfg.closeTimeout;
      var anchor := gateway.closeTs.value;
      if busy && gateway.progressTs.Some? {
        anchor := RMax(anchor, gateway.progressTs.value);
      }
      if now - anchor >= timeout {
        gateway.door := DoorError;
        gateway.hooks := gateway.hooks + [Hook(gateway.session.value, DoorError, None, |submitted|)];
        return Response(DoorError, None);
      }
      return Response(PendingClose, None);
    }

    method SettleAndFinish(now: real) returns (r: Response)
      requires Valid() && WellGated(View()) && gateway.door == PendingClose
      modifies gateway, log, settler
      ensures Valid() && gateway.barrier == old(gateway.barrier)
      ensures var s := old(View());
              var sid := CurrentSession(s.gate);
              var settlement := SettlementFor(cfg, s, sid);
              r == Response(if settlement.blocked then DoorError else Finalized, Some(settlement)) &&
              View() == if settlement.blocked then Finish(Settle(cfg, s, sid), DoorError, DoorError, Some(settlement))
                        else Finish(Settle(cfg, s, sid), Idle, Finalized, Some(settlement))
    {
      var settlement := settler.Settle(gateway.session.value, log);
      if settlement.blocked {
        gateway.door := DoorError;
        gateway.hooks := gateway.hooks + [Hook(gateway.session.value, DoorError, Some(settlement), |submitted|)];
        return Response(DoorError, Some(settlement));
      }
      gateway.hooks := gateway.hooks + [Hook(gateway.session.value, Finalized, Some(settlement), |submitted|)];
      gateway.door := Idle;
      return Response(Finalized, Some(settlement));
    }
  }
}
