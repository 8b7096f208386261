/** The second passes at close: events judged again after ghost demotion and after the cross-zone
    penalty. A new judgement replaces the old one only when it explains the weight; a judgement that
    weight had confirmed is never lost. */
module Repass {
  import opened Types
  import opened Sorting
  import opened Windows
  import opened Freezer
  import opened Strict
  import opened Strategies
  import opened Router
  import opened RouterTheorems
  import opened CrossZone
  import Ghosts

  datatype Setup = Setup(
    judge: JudgeConfig,
    profiles: map<int, SensorProfile>,
    fallback: SensorProfile,
    active: seq<ActiveProduct>)

  datatype Note =
    | SourceLowConf(zone: int)
    | NoOverlap(zone: int)
    | MutualExempt(zone: int)
    | SuppressedPartial(zone: int)
    | KeptOriginal(zone: int)
    | VisionPenalty(zone: int)
    | GhostsFound
    | GhostShadow(zone: int)
    | GhostGateFailed(zone: int)
    | GhostDemoted(zone: int)

  datatype Repassed = Repassed(event: TriggerEvent, notes: seq<Note>)

  function ContextOf(setup: Setup, e: TriggerEvent, candidates: seq<VisionCandidate>): Context {
    Context(ProfileOf(setup.profiles, e.zone, setup.fallback), e.deltaWeight, e.segments, candidates, setup.active,
            false, [])
  }

  function Rejudged(setup: Setup, e: TriggerEvent, candidates: seq<VisionCandidate>): JudgmentResult {
    VerdictOf(setup.judge.unitSlack, DefaultPipeline(setup.judge), ContextOf(setup, e, candidates)).result
  }

  /** A normal removal with candidates; returns and errors are left alone. */
  predicate Eligible(e: TriggerEvent) {
    e.status.EventOk? && e.deltaWeight < 0.0 && e.visionCandidates != [] && !e.judgment.status.Error?
  }

  predicate SameProducts(a: JudgmentResult, b: JudgmentResult) { Key(a.products) == Key(b.products) }

  predicate Adoptable(r: JudgmentResult, prior: JudgmentResult) {
    r.status.Complete? && r.products != [] && !SameProducts(r, prior)
  }

  predicate GateFails(r: JudgmentResult) { !r.status.Complete? || r.products == [] }

  function Outside(classes: set<int>): ProductCount -> bool { (pc: ProductCount) => pc.product.classId !in classes }

  // ---- cross-zone penalty ----

  ghost function PenalisedClasses(
      setup: Setup, cfg: CrossZoneConfig, events: seq<TriggerEvent>, e: TriggerEvent): set<int> {
    set c | c in e.visionCandidates && IsPenalised(e, events, cfg, setup.active, c.classId) :: c.classId
  }

  /** A billed partial loses exactly its contaminated products. */
  function Pruned(j: JudgmentResult, penalised: set<int>): JudgmentResult {
    var remaining := Filter(j.products, Outside(penalised));
    if remaining == [] then JudgmentResult(NoDetection, [], 0.0, [CrossZoneContaminatedPartialSuppressed])
    else j.(products := remaining, reason := j.reason + [CrossZoneContaminationPruned])
  }

  predicate Contaminated(j: JudgmentResult, penalised: set<int>) {
    exists pc :: pc in j.products && pc.product.classId in penalised
  }

  /** What becomes of an event whose judgement was repeated with result `r`. */
  function CrossDecision(e: TriggerEvent, penalised: set<int>, r: JudgmentResult): Repassed {
    if GateFails(r) then
      var survived := r.products != [] && SameProducts(r, e.judgment);
      if e.judgment.status.Partial? && Contaminated(e.judgment, penalised) && !survived
      then Repassed(e.(judgment := Pruned(e.judgment, penalised)), [SuppressedPartial(e.zone)])
      else Repassed(e, [KeptOriginal(e.zone)])
    else if SameProducts(r, e.judgment) then Repassed(e, [])
    else Repassed(e.(judgment := r.(reason := r.reason + [CrossZoneVisionPenalty])), [VisionPenalty(e.zone)])
  }

  function CrossRepass(setup: Setup, cfg: CrossZoneConfig, e: TriggerEvent, penalised: set<int>): Repassed {
    if penalised == {} then Repassed(e, [])
    else if e.judgment.status.Complete?
      && !WeightAmbiguous(e, setup.active, GateOf(ProfileOf(setup.profiles, e.zone, setup.fallback)))
    then Repassed(e, [])
    else CrossDecision(e, penalised, Rejudged(setup, e, Penalize(e.visionCandidates, penalised, cfg.alpha)))
  }

  ghost predicate Guarded(setup: Setup, cfg: CrossZoneConfig, events: seq<TriggerEvent>, e: TriggerEvent) {
    exists c :: c in e.visionCandidates && IsSource(e, events, cfg, c.classId)
      && IsExempt(events, cfg, setup.active, e.zone, c.classId)
  }

  /** Why an event was left alone although other zones were active: no source could be trusted, or none overlapped. */
  ghost function Silence(cfg: CrossZoneConfig, events: seq<TriggerEvent>, e: TriggerEvent): seq<Note> {
    if exists cid :: IsSource(e, events, cfg, cid) then []
    else if AnyDistrusted(e, events, cfg) then [SourceLowConf(e.zone)]
    else if exists other :: other in events && NearMiss(e, other) then [NoOverlap(e.zone)]
    else []
  }

  ghost function CrossEvent(setup: Setup, cfg: CrossZoneConfig, events: seq<TriggerEvent>, e: TriggerEvent): Repassed {
    if !cfg.enabled || setup.active == [] || !Eligible(e) then Repassed(e, [])
    else
      var r := CrossRepass(setup, cfg, e, PenalisedClasses(setup, cfg, events, e));
      var exempted := if Guarded(setup, cfg, events, e) then [MutualExempt(e.zone)] else [];
      Repassed(r.event, Silence(cfg, events, e) + exempted + r.notes)
  }

  // ---- ghost demotion ----

  ghost function GhostClasses(
      cfg: Ghosts.GhostConfig, window: Option<CrossZoneConfig>, events: seq<TriggerEvent>, e: TriggerEvent): set<int>
  {
    set c | c in e.visionCandidates && Ghosts.IsGhost(events, cfg, window, c.classId) :: c.classId
  }

  function GhostDecision(
      e: TriggerEvent, mode: Ghosts.GhostMode, demoted: seq<VisionCandidate>, r: JudgmentResult): Repassed {
    if mode.Shadow? then Repassed(e, [GhostShadow(e.zone)])
    else if !Adoptable(r, e.judgment)
    then Repassed(e.(visionCandidates := demoted), if GateFails(r) then [GhostGateFailed(e.zone)] else [])
    else
      Repassed(e.(judgment := r.(reason := r.reason + [GhostDemotion]), visionCandidates := demoted),
               [GhostDemoted(e.zone)])
  }

  function GhostRepass(setup: Setup, cfg: Ghosts.GhostConfig, e: TriggerEvent, ghosts: set<int>): Repassed {
    if !Eligible(e) || ghosts == {} then Repassed(e, [])
    else
      var demoted := Penalize(e.visionCandidates, ghosts, cfg.alpha);
      if !Contaminated(e.judgment, ghosts)
      then (if cfg.mode.Active? then Repassed(e.(visionCandidates := demoted), []) else Repassed(e, []))
      else GhostDecision(e, cfg.mode, demoted, Rejudged(setup, e, demoted))
  }

  ghost function GhostEvent(
      setup: Setup, cfg: Ghosts.GhostConfig, window: Option<CrossZoneConfig>, events: seq<TriggerEvent>,
      e: TriggerEvent): Repassed
  {
    if cfg.mode.Off? || setup.active == [] then Repassed(e, [])
    else GhostRepass(setup, cfg, e, GhostClasses(cfg, window, events, e))
  }

  // ---- what a repass may do ----

  /** Everything but the judgement and the candidates is kept. */
  predicate SameOccasion(a: TriggerEvent, b: TriggerEvent) {
    b == a.(judgment := b.judgment, visionCandidates := b.visionCandidates)
  }

  /** The new judgement is complete and sound by the router's own check, for some demotion of the candidates. */
  ghost predicate Accounted(setup: Setup, e: TriggerEvent, j: JudgmentResult) {
    j.status.Complete? && j.products != []
    && exists classes, alpha ::
       SoundVerdict(setup.judge, ContextOf(setup, e, Penalize(e.visionCandidates, classes, alpha)), j)
  }

  /** A partial without its penalised products, and without anything to bill if none remain. */
  ghost predicate Relieved(prior: JudgmentResult, penalised: set<int>, j: JudgmentResult) {
    && prior.status.Partial? && Contaminated(prior, penalised)
       && j.products == Filter(prior.products, Outside(penalised))
    && j.status == if j.products == [] then NoDetection else Partial
  }

  lemma RejudgedSound(setup: Setup, e: TriggerEvent, classes: set<int>, alpha: real, reason: Reason)
    ensures var r := Rejudged(setup, e, Penalize(e.visionCandidates, classes, alpha));
            r.status.Complete? && r.products != [] ==> Accounted(setup, e, r.(reason := r.reason + [reason]))
  {
    var ctx := ContextOf(setup, e, Penalize(e.visionCandidates, classes, alpha));
    var r := Rejudged(setup, e, Penalize(e.visionCandidates, classes, alpha));
    DefaultPipelineSound(setup.judge, ctx);
    var j := r.(reason := r.reason + [reason]);
    assert Billable(ctx, j);
    assert SoundVerdict(setup.judge, ctx, j);
  }

  lemma DecisionNeverWorsens(setup: Setup, e: TriggerEvent, penalised: set<int>, r: JudgmentResult)
    requires r.status.Complete? && r.products != [] ==>
             Accounted(setup, e, r.(reason := r.reason + [CrossZoneVisionPenalty]))
    ensures var d := CrossDecision(e, penalised, r);
            && d.event == e.(judgment := d.event.judgment)
            && (e.judgment.status.Complete? ==> d.event.judgment.status.Complete?)
            && (d.event.judgment == e.judgment || Accounted(setup, e, d.event.judgment)
                || Relieved(e.judgment, penalised, d.event.judgment))
            && (d.event.judgment != e.judgment ==> d.notes != [])
  {
  }

  /** The cross-zone pass keeps the occasion and the candidates; returns and errors stay; a complete
      judgement stays complete; a changed one accounts for the weight or sheds its contamination. */
  lemma CrossNeverWorsens(
      setup: Setup, cfg: CrossZoneConfig, events: seq<TriggerEvent>, e: TriggerEvent)
    ensures var after := CrossEvent(setup, cfg, events, e).event;
            && SameOccasion(e, after) && after.visionCandidates == e.visionCandidates
            && (!Eligible(e) || !cfg.enabled ==> after == e)
            && (e.judgment.status.Complete? ==> after.judgment.status.Complete?)
            && (after.judgment == e.judgment || Accounted(setup, e, after.judgment)
                || Relieved(e.judgment, PenalisedClasses(setup, cfg, events, e), after.judgment))
            && (after.judgment != e.judgment ==> CrossEvent(setup, cfg, events, e).notes != [])
  {
    var penalised := PenalisedClasses(setup, cfg, events, e);
    RejudgedSound(setup, e, penalised, cfg.alpha, CrossZoneVisionPenalty);
    DecisionNeverWorsens(setup, e, penalised, Rejudged(setup, e, Penalize(e.visionCandidates, penalised, cfg.alpha)));
  }

  /** Ghost demotion: off and shadow change nothing; otherwise likewise, and a changed judgement always
      accounts for the weight. */
  lemma GhostNeverWorsens(
      setup: Setup, cfg: Ghosts.GhostConfig, window: Option<CrossZoneConfig>, events: seq<TriggerEvent>,
      e: TriggerEvent)
    ensures var after := GhostEvent(setup, cfg, window, events, e).event;
            && SameOccasion(e, after)
            && (!Eligible(e) || !cfg.mode.Active? ==> after == e)
            && (e.judgment.status.Complete? ==> after.judgment.status.Complete?)
            && (after.judgment == e.judgment || Accounted(setup, e, after.judgment))
            && (after.judgment != e.judgment ==>
                GhostEvent(setup, cfg, window, events, e).notes == [GhostDemoted(e.zone)])
  {
    RejudgedSound(setup, e, GhostClasses(cfg, window, events, e), cfg.alpha, GhostDemotion);
  }

  // ---- both passes over a session ----

  ghost function AllCross(setup: Setup, cfg: CrossZoneConfig, events: seq<TriggerEvent>): seq<Repassed> {
    seq(|events|, i requires 0 <= i < |events| => CrossEvent(setup, cfg, events, events[i]))
  }

  ghost function AllGhost(
      setup: Setup, cfg: Ghosts.GhostConfig, window: Option<CrossZoneConfig>, events: seq<TriggerEvent>): seq<Repassed>
  {
    seq(|events|, i requires 0 <= i < |events| => GhostEvent(setup, cfg, window, events, events[i]))
  }

  function EventsOf(rs: seq<Repassed>): seq<TriggerEvent> { seq(|rs|, i requires 0 <= i < |rs| => rs[i].event) }

  function NotesOf(rs: seq<Repassed>): seq<Note> {
    if rs == [] then [] else NotesOf(rs[..|rs| - 1]) + rs[|rs| - 1].notes
  }

  lemma {:induction false} NothingNoted(rs: seq<Repassed>)
    requires forall r :: r in rs ==> r.notes == []
    ensures NotesOf(rs) == []
  {
    if rs != [] {
      assert rs[|rs| - 1] in rs;
      NothingNoted(rs[..|rs| - 1]);
    }
  }

  ghost function CrossPass(setup: Setup, cfg: CrossZoneConfig, events: seq<TriggerEvent>): seq<TriggerEvent> {
    EventsOf(AllCross(setup, cfg, events))
  }

  ghost function GhostPass(
      setup: Setup, cfg: Ghosts.GhostConfig, window: Option<CrossZoneConfig>,
      events: seq<TriggerEvent>): seq<TriggerEvent>
  {
    EventsOf(AllGhost(setup, cfg, window, events))
  }

  /** The second passes in order: ghosts first, so that a demoted candidate cannot be adopted afterwards. */
  ghost function SecondPasses(
      setup: Setup, ghosts: Ghosts.GhostConfig, cross: CrossZoneConfig, events: seq<TriggerEvent>): seq<TriggerEvent> {
    CrossPass(setup, cross, GhostPass(setup, ghosts, Some(cross), events))
  }

  /** Same occasions in the same order; what weight had confirmed stays confirmed. */
  ghost predicate NoWorse(events: seq<TriggerEvent>, after: seq<TriggerEvent>) {
    && |after| == |events|
    && forall i :: 0 <= i < |events| ==>
         && SameOccasion(events[i], after[i])
         && (events[i].judgment.status.Complete? ==> after[i].judgment.status.Complete?)
         && (events[i].deltaWeight >= 0.0 || !events[i].status.EventOk? ==> after[i] == events[i])
  }

  lemma SecondPassesNeverWorsen(
      setup: Setup, ghosts: Ghosts.GhostConfig, cross: CrossZoneConfig, events: seq<TriggerEvent>)
    ensures NoWorse(events, SecondPasses(setup, ghosts, cross, events))
  {
    var mid := GhostPass(setup, ghosts, Some(cross), events);
    forall i | 0 <= i < |events|
      ensures var after := CrossEvent(setup, cross, mid, mid[i]).event;
              && SameOccasion(events[i], after)
              && (events[i].judgment.status.Complete? ==> after.judgment.status.Complete?)
              && (events[i].deltaWeight >= 0.0 || !events[i].status.EventOk? ==> after == events[i])
    {
      GhostNeverWorsens(setup, ghosts, Some(cross), events, events[i]);
      CrossNeverWorsens(setup, cross, mid, mid[i]);
    }
  }

  /** With ghosts off or only observed and the cross-zone penalty disabled, the passes change nothing. */
  lemma DisabledPassesAreIdentity(
      setup: Setup, ghosts: Ghosts.GhostConfig, cross: CrossZoneConfig, events: seq<TriggerEvent>)
    requires !ghosts.mode.Active? && !cross.enabled
    ensures SecondPasses(setup, ghosts, cross, events) == events
  {
    var mid := GhostPass(setup, ghosts, Some(cross), events);
    forall i | 0 <= i < |events|
      ensures mid[i] == events[i] && CrossEvent(setup, cross, mid, mid[i]).event == events[i] {
      GhostNeverWorsens(setup, ghosts, Some(cross), events, events[i]);
      CrossNeverWorsens(setup, cross, mid, mid[i]);
    }
  }

  // ---- the loops ----

  ghost predicate Routes(router: JudgmentRouter, setup: Setup)
    reads router
  {
    router.Valid() && router.pipeline == DefaultPipeline(setup.judge) && router.unitSlack == setup.judge.unitSlack
  }

  method JudgeAgain(setup: Setup, e: TriggerEvent, candidates: seq<VisionCandidate>, router: JudgmentRouter)
    returns (r: JudgmentResult)
    requires Routes(router, setup)
    modifies router
    ensures Routes(router, setup) && r == Rejudged(setup, e, candidates)
  {
    var author: Option<Strategy>;
    r, author := router.Judge(ContextOf(setup, e, candidates));
  }

  method RepassCross(setup: Setup, cfg: CrossZoneConfig, e: TriggerEvent, penalised: set<int>, router: JudgmentRouter)
    returns (after: Repassed)
    requires Routes(router, setup)
    modifies router
    ensures Routes(router, setup) && after == CrossRepass(setup, cfg, e, penalised)
  {
    if penalised == {} {
      return Repassed(e, []);
    }
    if e.judgment.status.Complete? {
      var ambiguous := IsWeightAmbiguous(e, setup.active, GateOf(ProfileOf(setup.profiles, e.zone, setup.fallback)));
      if !ambiguous {
        return Repassed(e, []);
      }
    }
    var r := JudgeAgain(setup, e, Penalize(e.visionCandidates, penalised, cfg.alpha), router);
    return CrossDecision(e, penalised, r);
  }

  lemma SomeKey<K, V>(m: map<K, V>) returns (k: K)
    requires m != map[]
    ensures k in m
  {
    assert m.Keys != {};
    k :| k in m;
  }

  method SourcesOf(cfg: CrossZoneConfig, events: seq<TriggerEvent>, e: TriggerEvent)
    returns (sources: map<int, SourceRef>, silence: seq<Note>)
    ensures forall cid :: cid in sources <==> IsSource(e, events, cfg, cid)
    ensures silence == Silence(cfg, events, e)
  {
    var lowConf;
    sources, lowConf := PenaltySources(e, events, cfg);
    silence := [];
    if sources == map[] {
      if lowConf {
        silence := [SourceLowConf(e.zone)];
      } else {
        var near := AnyNearMiss(e, events);
        if near {
          silence := [NoOverlap(e.zone)];
        }
      }
    } else {
      assert exists cid :: IsSource(e, events, cfg, cid) by {
        var cid := SomeKey(sources);
        assert IsSource(e, events, cfg, cid);
      }
    }
  }

  method CrossOne(
      setup: Setup, cfg: CrossZoneConfig, events: seq<TriggerEvent>, e: TriggerEvent, exempt: set<(int, int)>,
      router: JudgmentRouter)
    returns (after: Repassed)
    requires cfg.enabled && setup.active != [] && Routes(router, setup)
    requires forall z, cid :: (z, cid) in exempt <==> IsExempt(events, cfg, setup.active, z, cid)
    modifies router
    ensures Routes(router, setup) && after == CrossEvent(setup, cfg, events, e)
  {
    if !Eligible(e) {
      return Repassed(e, []);
    }
    var sources, silence := SourcesOf(cfg, events, e);
    var penalised := set c | c in e.visionCandidates && c.classId in sources :: c.classId;
    var guarded := set cid | cid in penalised && (e.zone, cid) in exempt;
    assert penalised - guarded == PenalisedClasses(setup, cfg, events, e);
    assert guarded != {} <==> Guarded(setup, cfg, events, e) by {
      if c :| c in e.visionCandidates && IsSource(e, events, cfg, c.classId)
              && IsExempt(events, cfg, setup.active, e.zone, c.classId) {
        assert c.classId in guarded;
      }
    }
    var r := RepassCross(setup, cfg, e, penalised - guarded, router);
    var exempted := if guarded != {} then [MutualExempt(e.zone)] else [];
    after := Repassed(r.event, silence + exempted + r.notes);
  }

  method ApplyCrossZonePenalty(setup: Setup, cfg: CrossZoneConfig, events: seq<TriggerEvent>, router: JudgmentRouter)
    returns (out: seq<TriggerEvent>, notes: seq<Note>)
    requires Routes(router, setup)
    modifies router
    ensures Routes(router, setup)
    ensures out == CrossPass(setup, cfg, events) && notes == NotesOf(AllCross(setup, cfg, events))
  {
    ghost var all := AllCross(setup, cfg, events);
    if !cfg.enabled || setup.active == [] {
      NothingNoted(all);
      return events, [];
    }
    var exempt := MutualExemptions(events, cfg, setup.active);
    var done: seq<Repassed> := [];
    for i := 0 to |events|
      invariant Routes(router, setup) && done == all[..i]
    {
      var after := CrossOne(setup, cfg, events, events[i], exempt, router);
      done := done + [after];
    }
    assert done == all;
    return EventsOf(done), NotesOf(done);
  }

  method GhostOne(setup: Setup, cfg: Ghosts.GhostConfig, e: TriggerEvent, ghosts: set<int>, router: JudgmentRouter)
    returns (after: Repassed)
    requires Routes(router, setup)
    modifies router
    ensures Routes(router, setup) && after == GhostRepass(setup, cfg, e, ghosts)
  {
    if !Eligible(e) || ghosts == {} {
      return Repassed(e, []);
    }
    var demoted := Penalize(e.visionCandidates, ghosts, cfg.alpha);
    if !Contaminated(e.judgment, ghosts) {
      if cfg.mode.Active? {
        return Repassed(e.(visionCandidates := demoted), []);
      }
      return Repassed(e, []);
    }
    var r := JudgeAgain(setup, e, demoted, router);
    return GhostDecision(e, cfg.mode, demoted, r);
  }

  lemma DetectedClasses(
      cfg: Ghosts.GhostConfig, window: Option<CrossZoneConfig>, events: seq<TriggerEvent>, e: TriggerEvent,
      ghosts: map<int, set<int>>)
    requires forall cid :: cid in ghosts <==> Ghosts.IsGhost(events, cfg, window, cid)
    ensures (set c | c in e.visionCandidates && c.classId in ghosts :: c.classId) ==
            GhostClasses(cfg, window, events, e)
  {
  }

  method GhostLoop(
      setup: Setup, cfg: Ghosts.GhostConfig, window: Option<CrossZoneConfig>, events: seq<TriggerEvent>,
      ghosts: map<int, set<int>>, router: JudgmentRouter)
    returns (done: seq<Repassed>)
    requires Routes(router, setup) && !cfg.mode.Off? && setup.active != []
    requires forall cid :: cid in ghosts <==> Ghosts.IsGhost(events, cfg, window, cid)
    modifies router
    ensures Routes(router, setup) && done == AllGhost(setup, cfg, window, events)
  {
    done := [];
    for i := 0 to |events|
      invariant Routes(router, setup) && done == AllGhost(setup, cfg, window, events)[..i]
    {
      var classes := set c | c in events[i].visionCandidates && c.classId in ghosts :: c.classId;
      DetectedClasses(cfg, window, events, events[i], ghosts);
      var after := GhostOne(setup, cfg, events[i], classes, router);
      done := done + [after];
    }
  }

  method ApplyGhostDemotion(
      setup: Setup, cfg: Ghosts.GhostConfig, window: Option<CrossZoneConfig>, events: seq<TriggerEvent>,
      router: JudgmentRouter)
    returns (out: seq<TriggerEvent>, notes: seq<Note>)
    requires Routes(router, setup)
    modifies router
    ensures Routes(router, setup)
    ensures out == GhostPass(setup, cfg, window, events)
    ensures var found := !cfg.mode.Off? && setup.active != [] && exists cid :: Ghosts.IsGhost(events, cfg, window, cid);
            notes == (if found then [GhostsFound] else []) + NotesOf(AllGhost(setup, cfg, window, events))
  {
    ghost var all := AllGhost(setup, cfg, window, events);
    if cfg.mode.Off? || setup.active == [] {
      NothingNoted(all);
      return events, [];
    }
    var ghosts := Ghosts.DetectGhosts(events, cfg, window);
    if ghosts == map[] {
      forall i | 0 <= i < |events| ensures GhostClasses(cfg, window, events, events[i]) == {} {
        DetectedClasses(cfg, window, events, events[i], ghosts);
      }
      NothingNoted(all);
      return events, [];
    }
    assert exists cid :: Ghosts.IsGhost(events, cfg, window, cid) by {
      var cid := SomeKey(ghosts);
      assert Ghosts.IsGhost(events, cfg, window, cid);
    }
    var done := GhostLoop(setup, cfg, window, events, ghosts, router);
    return EventsOf(done), [GhostsFound] + NotesOf(done);
  }
}
