/** What the second passes must do: when an event is judged again, what the new judgement replaces, and
    what stays as it was. */
module RepassDecides {
  import opened Types
  import opened Windows
  import opened Freezer
  import opened Strict
  import opened Router
  import opened CrossZone
  import opened Repass
  import Ghosts

  /** Candidates of the given classes have votes, confidence and ratio scaled down; nothing else differs. */
  ghost predicate DemotedTo(
      before: seq<VisionCandidate>, classes: set<int>, alpha: real, after: seq<VisionCandidate>)
  {
    && |after| == |before|
    && forall i :: 0 <= i < |before| ==>
         if before[i].classId in classes then
           && after[i].classId == before[i].classId && after[i].confidence == before[i].confidence * alpha
           && after[i].voteCount == Trunc(before[i].voteCount as real * alpha)
           && after[i].voteRatio == before[i].voteRatio * alpha
         else after[i] == before[i]
  }

  /** The router's answer for the event on other candidates, everything else as it was. */
  ghost predicate Answers(setup: Setup, e: TriggerEvent, candidates: seq<VisionCandidate>, r: JudgmentResult) {
    var profile := if e.zone in setup.profiles then setup.profiles[e.zone] else setup.fallback;
    r == VerdictOf(setup.judge.unitSlack, DefaultPipeline(setup.judge),
                   Context(profile, e.deltaWeight, e.segments, candidates, setup.active, false, [])).result
  }

  /** The same units of the same products, in any order. */
  predicate SameBill(a: seq<ProductCount>, b: seq<ProductCount>) { Key(a) == Key(b) }

  predicate Confirms(r: JudgmentResult) { r.status.Complete? && r.products != [] }

  /** The new judgement with one more reason. */
  predicate Adopts(r: JudgmentResult, reason: Reason, j: JudgmentResult) {
    j.status == r.status && j.products == r.products && j.confidence == r.confidence && j.reason == r.reason + [reason]
  }

  lemma RejudgedAnswers(setup: Setup, e: TriggerEvent, candidates: seq<VisionCandidate>)
    ensures Answers(setup, e, candidates, Rejudged(setup, e, candidates))
  {
  }

  lemma PenalizeDemotes(cs: seq<VisionCandidate>, classes: set<int>, alpha: real)
    ensures DemotedTo(cs, classes, alpha, Penalize(cs, classes, alpha))
  {
  }

  /** An event is judged again in the cross-zone pass: it is eligible, some candidate's class is penalised,
      and its judgement is not confirmed by an unambiguous weight. */
  ghost predicate JudgedAgain(setup: Setup, cfg: CrossZoneConfig, events: seq<TriggerEvent>, e: TriggerEvent) {
    && cfg.enabled && setup.active != []
    && e.status.EventOk? && e.deltaWeight < 0.0 && e.visionCandidates != [] && !e.judgment.status.Error?
    && (exists c :: c in e.visionCandidates && IsPenalised(e, events, cfg, setup.active, c.classId))
    && (e.judgment.status.Complete? ==>
          WeightAmbiguous(e, setup.active, GateOf(ProfileOf(setup.profiles, e.zone, setup.fallback))))
  }

  predicate Penalty(n: Note) { n.VisionPenalty? || n.KeptOriginal? || n.SuppressedPartial? }

  ghost predicate PenaltyNotes(notes: seq<Note>, expected: seq<Note>) {
    exists before :: notes == before + expected && forall n :: n in before ==> !Penalty(n)
  }

  /** The outcome for an event judged again with answer `r`. */
  ghost predicate CrossOutcome(e: TriggerEvent, penalised: set<int>, r: JudgmentResult, after: Repassed) {
    var j := after.event.judgment;
    && after.event == e.(judgment := j)
    && if Confirms(r) && !SameBill(r.products, e.judgment.products) then
         Adopts(r, CrossZoneVisionPenalty, j) && PenaltyNotes(after.notes, [VisionPenalty(e.zone)])
       else if Confirms(r) then j == e.judgment && PenaltyNotes(after.notes, [])
       else if e.judgment.status.Partial? && Contaminated(e.judgment, penalised)
               && (r.products == [] || !SameBill(r.products, e.judgment.products)) then
         && Relieved(e.judgment, penalised, j)
            && j.confidence == (if j.products == [] then 0.0 else e.judgment.confidence)
         && PenaltyNotes(after.notes, [SuppressedPartial(e.zone)])
       else j == e.judgment && PenaltyNotes(after.notes, [KeptOriginal(e.zone)])
  }

  lemma RepeatsExactly(setup: Setup, cfg: CrossZoneConfig, events: seq<TriggerEvent>, e: TriggerEvent)
    ensures JudgedAgain(setup, cfg, events, e) <==>
            cfg.enabled && setup.active != [] && Eligible(e) && PenalisedClasses(setup, cfg, events, e) != {}
            && (e.judgment.status.Complete? ==>
                  WeightAmbiguous(e, setup.active, GateOf(ProfileOf(setup.profiles, e.zone, setup.fallback))))
  {
    if c :| c in e.visionCandidates && IsPenalised(e, events, cfg, setup.active, c.classId) {
      assert c.classId in PenalisedClasses(setup, cfg, events, e);
    }
  }

  lemma NotedAfter(before: seq<Note>, last: seq<Note>)
    requires forall n :: n in before ==> !Penalty(n)
    ensures PenaltyNotes(before + last, last)
  {
  }

  /** The cross-zone pass judges an event again exactly when it should, and replaces, relieves or keeps its
      judgement exactly as the router's answer on the demoted candidates says. */
  lemma CrossDecides(setup: Setup, cfg: CrossZoneConfig, events: seq<TriggerEvent>, e: TriggerEvent)
    returns (candidates: seq<VisionCandidate>, r: JudgmentResult)
    ensures DemotedTo(e.visionCandidates, PenalisedClasses(setup, cfg, events, e), cfg.alpha, candidates)
    ensures r == Rejudged(setup, e, candidates)
    ensures var after := CrossEvent(setup, cfg, events, e);
            if JudgedAgain(setup, cfg, events, e)
            then CrossOutcome(e, PenalisedClasses(setup, cfg, events, e), r, after)
            else after.event == e && PenaltyNotes(after.notes, [])
  {
    var penalised := PenalisedClasses(setup, cfg, events, e);
    candidates := Penalize(e.visionCandidates, penalised, cfg.alpha);
    r := Rejudged(setup, e, candidates);
    PenalizeDemotes(e.visionCandidates, penalised, cfg.alpha);
    RepeatsExactly(setup, cfg, events, e);
    if !cfg.enabled || setup.active == [] || !Eligible(e) {
      CrossEventOff(setup, cfg, events, e);
    } else {
      CrossEventOn(setup, cfg, events, e, CrossRepass(setup, cfg, e, penalised));
    }
    if JudgedAgain(setup, cfg, events, e) {
      DecisionIsOutcome(e, penalised, r, CrossEvent(setup, cfg, events, e));
    }
  }

  lemma CrossEventOff(setup: Setup, cfg: CrossZoneConfig, events: seq<TriggerEvent>, e: TriggerEvent)
    requires !cfg.enabled || setup.active == [] || !Eligible(e)
    ensures CrossEvent(setup, cfg, events, e).event == e && PenaltyNotes(CrossEvent(setup, cfg, events, e).notes, [])
  {
    NotedAfter([], []);
  }

  /** The event of the pass, and its notes up to those that come before. */
  lemma CrossEventOn(
      setup: Setup, cfg: CrossZoneConfig, events: seq<TriggerEvent>, e: TriggerEvent, repassed: Repassed)
    requires cfg.enabled && setup.active != [] && Eligible(e)
    requires repassed == CrossRepass(setup, cfg, e, PenalisedClasses(setup, cfg, events, e))
    ensures CrossEvent(setup, cfg, events, e).event == repassed.event
    ensures PenaltyNotes(CrossEvent(setup, cfg, events, e).notes, repassed.notes)
  {
    var exempted := if Guarded(setup, cfg, events, e) then [MutualExempt(e.zone)] else [];
    NotedAfter(Silence(cfg, events, e) + exempted, repassed.notes);
  }

  lemma DecisionIsOutcome(e: TriggerEvent, penalised: set<int>, r: JudgmentResult, after: Repassed)
    requires after.event == CrossDecision(e, penalised, r).event
    requires PenaltyNotes(after.notes, CrossDecision(e, penalised, r).notes)
    ensures CrossOutcome(e, penalised, r, after)
  {
  }

  // ---- ghosts ----

  /** In active mode every ghost candidate of an eligible event is demoted; a judgement that billed a ghost
      is replaced exactly when the answer on the demoted candidates is complete and bills something else. */
  ghost predicate GhostOutcome(
      e: TriggerEvent, ghosts: set<int>, candidates: seq<VisionCandidate>, r: JudgmentResult, after: Repassed)
  {
    var j := after.event.judgment;
    && after.event == e.(judgment := j, visionCandidates := candidates)
    && if !(exists pc :: pc in e.judgment.products && pc.product.classId in ghosts) then
         j == e.judgment && after.notes == []
       else if Confirms(r) && !SameBill(r.products, e.judgment.products) then
         Adopts(r, GhostDemotion, j) && after.notes == [GhostDemoted(e.zone)]
       else j == e.judgment && after.notes == if Confirms(r) then [] else [GhostGateFailed(e.zone)]
  }

  lemma GhostDecides(
      setup: Setup, cfg: Ghosts.GhostConfig, window: Option<CrossZoneConfig>, events: seq<TriggerEvent>,
      e: TriggerEvent)
    returns (candidates: seq<VisionCandidate>, r: JudgmentResult)
    ensures DemotedTo(e.visionCandidates, GhostClasses(cfg, window, events, e), cfg.alpha, candidates)
    ensures r == Rejudged(setup, e, candidates)
    ensures var after, ghosts := GhostEvent(setup, cfg, window, events, e), GhostClasses(cfg, window, events, e);
            if cfg.mode.Active? && setup.active != [] && Eligible(e) && ghosts != {}
            then GhostOutcome(e, ghosts, candidates, r, after)
            else
              && after.event == e
              && (after.notes != [] <==>
                  cfg.mode.Shadow? && setup.active != [] && Eligible(e) && Contaminated(e.judgment, ghosts))
  {
    var ghosts := GhostClasses(cfg, window, events, e);
    candidates := Penalize(e.visionCandidates, ghosts, cfg.alpha);
    r := Rejudged(setup, e, candidates);
    PenalizeDemotes(e.visionCandidates, ghosts, cfg.alpha);
    GhostRepassDecides(setup, cfg, e, ghosts, candidates, r);
  }

  lemma GhostRepassDecides(
      setup: Setup, cfg: Ghosts.GhostConfig, e: TriggerEvent, ghosts: set<int>, candidates: seq<VisionCandidate>,
      r: JudgmentResult)
    requires candidates == Penalize(e.visionCandidates, ghosts, cfg.alpha) && r == Rejudged(setup, e, candidates)
    ensures var after := GhostRepass(setup, cfg, e, ghosts);
            if cfg.mode.Active? && Eligible(e) && ghosts != {} then GhostOutcome(e, ghosts, candidates, r, after)
            else if !cfg.mode.Off? then
              && after.event == e
              && (after.notes != [] <==> cfg.mode.Shadow? && Eligible(e) && Contaminated(e.judgment, ghosts))
            else true
  {
  }
}
