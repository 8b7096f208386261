/** Which answer the freezer strategy gives: for every stage, exactly which identity or combination it
    chooses, and exactly when it passes to the next. */
module FreezerDecides {
  import opened Types
  import opened Sorting
  import opened Combos
  import opened Freezer
  import opened FreezerTheorems
  import opened FreezerSolver
  import opened NearestCount

  // ---- a count for an identity, and how well it explains the pull ----

  /** Every identity is tried in its nearest feasible count. */
  lemma FitIsNearest(target: real, id: Ident)
    requires id.product.stockQty > 0 && id.product.unitWeight > 0.0
    ensures var f := Fit(target, id);
            && f.id == id && IsNearestInStock(target, id.product.unitWeight, id.product.stockQty, f.count)
            && f.residual == Abs(target - Times(f.count, id.product.unitWeight))
  {
    ClampedIsNearest(target, id.product.unitWeight, id.product.stockQty);
  }

  function FitAt(pull: Pull, ids: seq<Ident>, i: nat): FitOf
    requires i < |ids|
  {
    Fit(pull.target, ids[i])
  }

  /** Within the gate, which widens by one slack for every unit after the first. */
  predicate Within(cfg: FreezerConfig, pull: Pull, factor: real, f: FitOf) {
    f.count >= 1 && f.residual <= factor * (pull.gate + Times(f.count - 1, cfg.unitSlack))
  }

  lemma GatesAreWithin(cfg: FreezerConfig, pull: Pull, id: Ident)
    requires id.product.stockQty > 0 && id.product.unitWeight > 0.0
    ensures var f := Fit(pull.target, id);
            && (InGate(cfg, pull, f) <==> Within(cfg, pull, 1.0, f))
            && (NearGate(cfg, pull, f) <==> Within(cfg, pull, cfg.nearFactor, f))
  {
    FitIsNearest(pull.target, id);
  }

  /** One confidence is far enough above another; near the ceiling 0.99 is enough against one that is not
      decisive itself. */
  predicate Ahead(cfg: FreezerConfig, conf: real, rival: real) {
    || conf >= rival + cfg.confMargin
    || (cfg.confMargin < 1.0 && rival < cfg.confOverride && conf >= 0.99)
  }

  lemma ThresholdIsAhead(cfg: FreezerConfig, conf: real, rival: real)
    ensures conf >= ArbThreshold(cfg, rival) <==> Ahead(cfg, conf, rival)
  {
  }

  // ---- lists of fits as sets of positions ----

  /** The fits are those at the listed positions, in order; the listed positions are exactly those in `chosen`. */
  ghost predicate Positions(pull: Pull, ids: seq<Ident>, chosen: iset<nat>, fits: seq<FitOf>, at: seq<nat>) {
    && |at| == |fits| && (forall i, j :: 0 <= i < j < |at| ==> at[i] < at[j])
    && (forall k :: 0 <= k < |at| ==> at[k] in chosen && at[k] < |ids| && fits[k] == FitAt(pull, ids, at[k]))
    && forall i: nat :: i in chosen ==> i in at
  }

  ghost predicate InHits(cfg: FreezerConfig, pull: Pull, ids: seq<Ident>, p: Ident -> bool, i: nat) {
    i < |ids| && p(ids[i]) && InGate(cfg, pull, FitAt(pull, ids, i))
  }

  ghost predicate InBrushes(cfg: FreezerConfig, pull: Pull, ids: seq<Ident>, p: Ident -> bool, i: nat) {
    i < |ids| && p(ids[i]) && !InGate(cfg, pull, FitAt(pull, ids, i)) && NearGate(cfg, pull, FitAt(pull, ids, i))
  }

  /** The first `n` positions of a set. */
  ghost function UpTo(chosen: iset<nat>, n: nat): iset<nat> { iset i: nat | i in chosen && i < n }

  lemma PositionsNext(pull: Pull, ids: seq<Ident>, chosen: iset<nat>, fits: seq<FitOf>, at: seq<nat>, i: nat)
    requires Positions(pull, ids, UpTo(chosen, i), fits, at) && i < |ids|
    ensures Positions(pull, ids, UpTo(chosen, i + 1), fits + (if i in chosen then [FitAt(pull, ids, i)] else []),
                      at + if i in chosen then [i] else [])
  {
  }

  lemma {:induction false} HitPositions(
      cfg: FreezerConfig, pull: Pull, ids: seq<Ident>, p: Ident -> bool, chosen: iset<nat>, n: nat)
    returns (at: seq<nat>)
    requires n <= |ids| && forall i: nat :: i in chosen <==> InHits(cfg, pull, ids, p, i)
    ensures Positions(pull, ids, UpTo(chosen, n), GateFits(cfg, pull, Filter(ids[..n], p)), at)
  {
    at := [];
    if n > 0 {
      var i := n - 1;
      at := HitPositions(cfg, pull, ids, p, chosen, i);
      FitsStep(cfg, pull, ids, i, p);
      PositionsNext(pull, ids, chosen, GateFits(cfg, pull, Filter(ids[..i], p)), at, i);
      assert i in chosen <==> InHits(cfg, pull, ids, p, i);
      at := at + if i in chosen then [i] else [];
    }
  }

  lemma {:induction false} BrushPositions(
      cfg: FreezerConfig, pull: Pull, ids: seq<Ident>, p: Ident -> bool, chosen: iset<nat>, n: nat)
    returns (at: seq<nat>)
    requires n <= |ids| && forall i: nat :: i in chosen <==> InBrushes(cfg, pull, ids, p, i)
    ensures Positions(pull, ids, UpTo(chosen, n), NearFits(cfg, pull, Filter(ids[..n], p)), at)
  {
    at := [];
    if n > 0 {
      var i := n - 1;
      at := BrushPositions(cfg, pull, ids, p, chosen, i);
      FitsStep(cfg, pull, ids, i, p);
      PositionsNext(pull, ids, chosen, NearFits(cfg, pull, Filter(ids[..i], p)), at, i);
      assert i in chosen <==> InBrushes(cfg, pull, ids, p, i);
      at := at + if i in chosen then [i] else [];
    }
  }

  /** The first element nothing beats: it beats everything before it. */
  lemma {:induction false} FirstMaxIsFirst(fits: seq<FitOf>, beats: (FitOf, FitOf) -> bool)
    requires fits != [] && StrictOrder(beats)
    ensures var k := FirstMax(fits, beats);
            && (forall j :: 0 <= j < |fits| ==> !beats(fits[j], fits[k]))
            && forall j :: 0 <= j < k ==> beats(fits[k], fits[j])
  {
    var n := |fits| - 1;
    if n > 0 {
      FirstMaxIsFirst(fits[..n], beats);
      assert forall j :: 0 <= j < n ==> fits[..n][j] == fits[j];
    }
  }

  /** A list of exactly the chosen positions has one element exactly when one position alone is chosen. */
  lemma OneChosen(pull: Pull, ids: seq<Ident>, chosen: iset<nat>, fits: seq<FitOf>, at: seq<nat>)
    requires Positions(pull, ids, chosen, fits, at)
    ensures forall i: nat :: i in chosen ==> i < |ids|
    ensures |fits| == 0 <==> forall i: nat :: i !in chosen
    ensures |fits| == 1 ==> OnlyIn(chosen, at[0])
    ensures |fits| >= 2 ==> at[0] in chosen && at[1] in chosen && at[0] != at[1]
  {
    if |fits| == 0 {
      forall i: nat ensures i !in chosen {
        assert i !in at;
      }
    } else {
      assert at[0] in chosen;
    }
  }

  ghost predicate OnlyIn(chosen: iset<nat>, i: nat) { i in chosen && forall j: nat :: j in chosen ==> j == i }

  /** Nothing chosen beats it, and it beats everything chosen before it. */
  ghost predicate FirstIn(
      pull: Pull, ids: seq<Ident>, chosen: iset<nat>, beats: (FitOf, FitOf) -> bool, i: nat)
    requires forall j: nat :: j in chosen ==> j < |ids|
  {
    && i in chosen
    && forall j: nat :: j in chosen && j != i ==>
         && !beats(FitAt(pull, ids, j), FitAt(pull, ids, i))
         && (j < i ==> beats(FitAt(pull, ids, i), FitAt(pull, ids, j)))
  }

  lemma MaxIsFirst(
      pull: Pull, ids: seq<Ident>, chosen: iset<nat>, fits: seq<FitOf>, at: seq<nat>, beats: (FitOf, FitOf) -> bool)
    requires Positions(pull, ids, chosen, fits, at) && fits != [] && StrictOrder(beats)
    ensures forall i: nat :: i in chosen ==> i < |ids|
    ensures FirstIn(pull, ids, chosen, beats, at[FirstMax(fits, beats)])
  {
    var k := FirstMax(fits, beats);
    FirstMaxIsFirst(fits, beats);
    forall j: nat | j in chosen && j != at[k]
      ensures !beats(FitAt(pull, ids, j), fits[k]) && (j < at[k] ==> beats(fits[k], FitAt(pull, ids, j)))
    {
      var l :| 0 <= l < |at| && at[l] == j;
      assert l < k <==> j < at[k];
    }
    assert at[k] in chosen;
  }

  lemma FirstIsUnique(
      pull: Pull, ids: seq<Ident>, chosen: iset<nat>, beats: (FitOf, FitOf) -> bool, i: nat, j: nat)
    requires forall j: nat :: j in chosen ==> j < |ids|
    requires FirstIn(pull, ids, chosen, beats, i) && FirstIn(pull, ids, chosen, beats, j)
    ensures i == j
  {
  }

  /** More votes, or as many and more confidence; and the other way round. */
  predicate Louder(a: VisionCandidate, b: VisionCandidate) {
    a.voteCount > b.voteCount || (a.voteCount == b.voteCount && a.confidence > b.confidence)
  }

  predicate Surer(a: VisionCandidate, b: VisionCandidate) {
    a.confidence > b.confidence || (a.confidence == b.confidence && a.voteCount > b.voteCount)
  }

  /** The first of the loudest, and the first of the surest. */
  ghost predicate Loudest(ids: seq<Ident>, chosen: iset<nat>, i: nat)
    requires forall j: nat :: j in chosen ==> j < |ids|
  {
    && i in chosen
    && forall j: nat :: j in chosen && j != i ==>
         !Louder(ids[j].cand, ids[i].cand) && (j < i ==> Louder(ids[i].cand, ids[j].cand))
  }

  ghost predicate Surest(ids: seq<Ident>, chosen: iset<nat>, i: nat)
    requires forall j: nat :: j in chosen ==> j < |ids|
  {
    && i in chosen
    && forall j: nat :: j in chosen && j != i ==>
         !Surer(ids[j].cand, ids[i].cand) && (j < i ==> Surer(ids[i].cand, ids[j].cand))
  }

  lemma FirstSounds(pull: Pull, ids: seq<Ident>, chosen: iset<nat>, i: nat)
    requires forall j: nat :: j in chosen ==> j < |ids|
    ensures FirstIn(pull, ids, chosen, MoreVotes, i) <==> Loudest(ids, chosen, i)
    ensures FirstIn(pull, ids, chosen, MoreConfident, i) <==> Surest(ids, chosen, i)
  {
    if i in chosen {
      forall j: nat | j in chosen
        ensures MoreVotes(FitAt(pull, ids, j), FitAt(pull, ids, i)) == Louder(ids[j].cand, ids[i].cand)
        ensures MoreVotes(FitAt(pull, ids, i), FitAt(pull, ids, j)) == Louder(ids[i].cand, ids[j].cand)
        ensures MoreConfident(FitAt(pull, ids, j), FitAt(pull, ids, i)) == Surer(ids[j].cand, ids[i].cand)
        ensures MoreConfident(FitAt(pull, ids, i), FitAt(pull, ids, j)) == Surer(ids[i].cand, ids[j].cand)
      {
      }
    }
  }

  /** The loudest and the surest, and nobody else, are where the two maxima are found. */
  lemma Voices(pull: Pull, ids: seq<Ident>, chosen: iset<nat>, fits: seq<FitOf>, at: seq<nat>)
    requires Positions(pull, ids, chosen, fits, at) && fits != []
    ensures forall i: nat :: i in chosen ==> i < |ids|
    ensures forall i: nat :: Loudest(ids, chosen, i) <==> i == at[FirstMax(fits, MoreVotes)]
    ensures forall i: nat :: Surest(ids, chosen, i) <==> i == at[FirstMax(fits, MoreConfident)]
  {
    var v, c := at[FirstMax(fits, MoreVotes)], at[FirstMax(fits, MoreConfident)];
    MaxIsFirst(pull, ids, chosen, fits, at, MoreVotes);
    MaxIsFirst(pull, ids, chosen, fits, at, MoreConfident);
    forall i: nat
      ensures Loudest(ids, chosen, i) <==> i == v
      ensures Surest(ids, chosen, i) <==> i == c
    {
      FirstSounds(pull, ids, chosen, i);
      if Loudest(ids, chosen, i) {
        FirstIsUnique(pull, ids, chosen, MoreVotes, i, v);
      }
      if Surest(ids, chosen, i) {
        FirstIsUnique(pull, ids, chosen, MoreConfident, i, c);
      }
    }
  }

  // ---- the rescue of another identity ----

  predicate Rival(cfg: FreezerConfig, votes: int, rest: seq<Ident>, i: nat) {
    i < |rest| && rest[i].cand.voteCount as real >= cfg.refitShare * votes as real
  }

  predicate Hit(cfg: FreezerConfig, pull: Pull, votes: int, rest: seq<Ident>, i: nat) {
    Rival(cfg, votes, rest, i) && Within(cfg, pull, 1.0, FitAt(pull, rest, i))
  }

  predicate Brush(cfg: FreezerConfig, pull: Pull, votes: int, rest: seq<Ident>, i: nat) {
    && Rival(cfg, votes, rest, i)
    && !Within(cfg, pull, 1.0, FitAt(pull, rest, i)) && Within(cfg, pull, cfg.nearFactor, FitAt(pull, rest, i))
  }

  ghost function Hits(cfg: FreezerConfig, pull: Pull, votes: int, rest: seq<Ident>): iset<nat> {
    iset i: nat | Hit(cfg, pull, votes, rest, i)
  }

  ghost function Brushes(cfg: FreezerConfig, pull: Pull, votes: int, rest: seq<Ident>): iset<nat> {
    iset i: nat | Brush(cfg, pull, votes, rest, i)
  }

  /** One of several, the surest, clear in itself and ahead of every other. */
  ghost predicate ClearIn(cfg: FreezerConfig, ids: seq<Ident>, chosen: iset<nat>, i: nat)
    requires forall j: nat :: j in chosen ==> j < |ids|
  {
    && Surest(ids, chosen, i) && ids[i].cand.confidence >= cfg.refitArbFloor && (exists j: nat :: j in chosen && j != i)
    && forall j: nat :: j in chosen && j != i ==> Ahead(cfg, ids[i].cand.confidence, ids[j].cand.confidence)
  }

  /** The identity at position `i` is rescued: clear among several hits, or the only hit, or the only one
      near when there is no hit. */
  ghost predicate Rescued(
      cfg: FreezerConfig, ids: seq<Ident>, hits: iset<nat>, brushes: iset<nat>, i: nat, clear: bool)
    requires forall j: nat :: j in hits ==> j < |ids|
  {
    if clear then ClearIn(cfg, ids, hits, i)
    else OnlyIn(hits, i) || (OnlyIn(brushes, i) && forall j: nat :: j !in hits)
  }

  function RescueResult(pull: Pull, x: Ident, clear: bool): JudgmentResult {
    JudgmentResult(JudgmentStatus.Complete, [ProductCount(x.product, FitCount(pull.target, x.product))],
                   x.cand.confidence * 0.8, [if clear then FreezerRefitArbitrated else FreezerUniqueRefit])
  }

  function RestOthers(cfg: FreezerConfig, votes: int, rest: seq<Ident>): seq<Ident> {
    Filter(rest, IdentAtLeast(Share(cfg.refitShare, votes)))
  }

  lemma ClearIsOutshining(
      cfg: FreezerConfig, pull: Pull, ids: seq<Ident>, chosen: iset<nat>, fits: seq<FitOf>, at: seq<nat>)
    requires Positions(pull, ids, chosen, fits, at) && |fits| >= 2
    ensures forall i: nat :: i in chosen ==> i < |ids|
    ensures var k := FirstMax(fits, MoreConfident);
            Outshines(cfg, k, fits) <==> ClearIn(cfg, ids, chosen, at[k])
  {
    var k := FirstMax(fits, MoreConfident);
    OneChosen(pull, ids, chosen, fits, at);
    Voices(pull, ids, chosen, fits, at);
    assert (if at[0] != at[k] then at[0] else at[1]) in chosen;
    forall l | 0 <= l < |fits|
      ensures at[l] in chosen && (l == k <==> at[l] == at[k])
      ensures fits[k].id.cand.confidence >= ArbThreshold(cfg, fits[l].id.cand.confidence) <==>
              Ahead(cfg, ids[at[k]].cand.confidence, ids[at[l]].cand.confidence)
    {
      ThresholdIsAhead(cfg, fits[k].id.cand.confidence, fits[l].id.cand.confidence);
    }
    if Outshines(cfg, k, fits) {
      forall j: nat | j in chosen && j != at[k]
        ensures Ahead(cfg, ids[at[k]].cand.confidence, ids[j].cand.confidence)
      {
        var l :| 0 <= l < |at| && at[l] == j;
      }
    }
  }

  /** Which of the listed fits is rescued. */
  lemma RescueChooses(
      cfg: FreezerConfig, pull: Pull, ids: seq<Ident>, hits: iset<nat>, brushes: iset<nat>, inGate: seq<FitOf>,
      near: seq<FitOf>, hitAt: seq<nat>, brushAt: seq<nat>)
    requires Positions(pull, ids, hits, inGate, hitAt) && Positions(pull, ids, brushes, near, brushAt)
    ensures forall i: nat :: i in hits ==> i < |ids|
    ensures match Rescue(cfg, inGate, near)
            case None => forall i: nat, clear :: !Rescued(cfg, ids, hits, brushes, i, clear)
            case Some(win) =>
              exists i: nat ::
                i < |ids| && Rescued(cfg, ids, hits, brushes, i, win.arbitrated) && win.fit == FitAt(pull, ids, i)
  {
    OneChosen(pull, ids, hits, inGate, hitAt);
    OneChosen(pull, ids, brushes, near, brushAt);
    if |inGate| == 1 {
      assert Rescued(cfg, ids, hits, brushes, hitAt[0], false);
    } else if |inGate| == 0 {
      if |near| == 1 {
        assert Rescued(cfg, ids, hits, brushes, brushAt[0], false);
      }
    } else {
      var k := FirstMax(inGate, MoreConfident);
      ClearIsOutshining(cfg, pull, ids, hits, inGate, hitAt);
      Voices(pull, ids, hits, inGate, hitAt);
      if Outshines(cfg, k, inGate) {
        assert Rescued(cfg, ids, hits, brushes, hitAt[k], true);
      }
    }
  }

  /** The rival fits of the rest: in the gate, and near it. */
  lemma RivalPositions(cfg: FreezerConfig, pull: Pull, votes: int, rest: seq<Ident>)
    returns (hitAt: seq<nat>, brushAt: seq<nat>)
    requires Usable(rest)
    ensures var others := RestOthers(cfg, votes, rest);
            && Positions(pull, rest, Hits(cfg, pull, votes, rest), GateFits(cfg, pull, others), hitAt)
            && Positions(pull, rest, Brushes(cfg, pull, votes, rest), NearFits(cfg, pull, others), brushAt)
  {
    var p := IdentAtLeast(Share(cfg.refitShare, votes));
    var hits, brushes := Hits(cfg, pull, votes, rest), Brushes(cfg, pull, votes, rest);
    assert rest[..|rest|] == rest;
    forall i: nat
      ensures i in hits <==> InHits(cfg, pull, rest, p, i)
      ensures i in brushes <==> InBrushes(cfg, pull, rest, p, i)
    {
      if i < |rest| {
        GatesAreWithin(cfg, pull, rest[i]);
      }
    }
    hitAt := HitPositions(cfg, pull, rest, p, hits, |rest|);
    brushAt := BrushPositions(cfg, pull, rest, p, brushes, |rest|);
    assert UpTo(hits, |rest|) == hits && UpTo(brushes, |rest|) == brushes;
  }

  /** The last stage rescues exactly the identity that is alone in the gate, or alone near it with none in
      the gate, or clear among several in the gate. Weight never chooses. */
  lemma RescueDecides(cfg: FreezerConfig, pull: Pull, votes: int, rest: seq<Ident>)
    requires Usable(rest)
    ensures var hits, brushes := Hits(cfg, pull, votes, rest), Brushes(cfg, pull, votes, rest);
            match RescueStage(cfg, pull, RestOthers(cfg, votes, rest))
            case None => forall i: nat, clear :: !Rescued(cfg, rest, hits, brushes, i, clear)
            case Some(j) =>
              exists i: nat, clear ::
                i < |rest| && Rescued(cfg, rest, hits, brushes, i, clear) && j == RescueResult(pull, rest[i], clear)
  {
    var others := RestOthers(cfg, votes, rest);
    var hits, brushes := Hits(cfg, pull, votes, rest), Brushes(cfg, pull, votes, rest);
    var hitAt, brushAt := RivalPositions(cfg, pull, votes, rest);
    RescueChooses(cfg, pull, rest, hits, brushes, GateFits(cfg, pull, others), NearFits(cfg, pull, others),
                  hitAt, brushAt);
  }

  // ---- the first stage: votes and confidence choose among the fits ----

  /** Enough votes, or a decisive confidence and not too few. */
  predicate Eligible(cfg: FreezerConfig, votes: int, x: Ident) {
    || x.cand.voteCount as real >= cfg.singleShare * votes as real
    || (x.cand.confidence >= cfg.confOverride && x.cand.voteCount as real >= cfg.refitShare * votes as real)
  }

  predicate Fitting(cfg: FreezerConfig, pull: Pull, votes: int, ids: seq<Ident>, i: nat) {
    i < |ids| && Eligible(cfg, votes, ids[i]) && Within(cfg, pull, 1.0, FitAt(pull, ids, i))
  }

  /** Several units only if they explain the pull strictly better than any single unit that fits. */
  ghost predicate Contends(cfg: FreezerConfig, pull: Pull, votes: int, ids: seq<Ident>, i: nat) {
    && Fitting(cfg, pull, votes, ids, i)
    && (cfg.countOccam && FitAt(pull, ids, i).count != 1 ==>
          forall j: nat :: Fitting(cfg, pull, votes, ids, j) && FitAt(pull, ids, j).count == 1 ==>
            FitAt(pull, ids, i).residual < FitAt(pull, ids, j).residual)
  }

  ghost function FittingSet(cfg: FreezerConfig, pull: Pull, votes: int, ids: seq<Ident>): iset<nat> {
    iset i: nat | Fitting(cfg, pull, votes, ids, i)
  }

  ghost function Contenders(cfg: FreezerConfig, pull: Pull, votes: int, ids: seq<Ident>): iset<nat> {
    iset i: nat | Contends(cfg, pull, votes, ids, i)
  }

  lemma PositionsTail(pull: Pull, ids: seq<Ident>, chosen: iset<nat>, fits: seq<FitOf>, at: seq<nat>)
    requires Positions(pull, ids, chosen, fits, at) && fits != []
    ensures Positions(pull, ids, chosen - iset{at[0]}, fits[1..], at[1..])
    ensures forall i: nat :: i in chosen - iset{at[0]} ==> at[0] < i
    ensures fits[0] == FitAt(pull, ids, at[0]) && at[0] in chosen
  {
    assert at == [at[0]] + at[1..];
    forall i: nat | i in chosen - iset{at[0]} ensures i in at[1..] && at[0] < i {
      assert i in at;
    }
  }

  lemma PositionsFront(pull: Pull, ids: seq<Ident>, chosen: iset<nat>, fits: seq<FitOf>, at: seq<nat>, i: nat)
    requires Positions(pull, ids, chosen, fits, at) && i < |ids| && forall k: nat :: k in chosen ==> i < k
    ensures Positions(pull, ids, iset{i} + chosen, [FitAt(pull, ids, i)] + fits, [i] + at)
  {
    var more, all, with := [i] + at, [FitAt(pull, ids, i)] + fits, iset{i} + chosen;
    forall k | 0 < k < |more| ensures more[k] == at[k - 1] && all[k] == fits[k - 1] && more[k] in chosen {
    }
    forall k: nat | k in with ensures k in more {
      assert k == more[0] || k in at;
    }
    assert forall k :: 0 <= k < |more| ==> more[k] in with && more[k] < |ids| && all[k] == FitAt(pull, ids, more[k]);
  }

  ghost function Where(pull: Pull, ids: seq<Ident>, chosen: iset<nat>, q: FitOf -> bool): iset<nat> {
    iset i: nat | i in chosen && i < |ids| && q(FitAt(pull, ids, i))
  }

  lemma {:induction false} FilterPositions(
      pull: Pull, ids: seq<Ident>, chosen: iset<nat>, fits: seq<FitOf>, at: seq<nat>, q: FitOf -> bool)
    returns (kept: seq<nat>)
    requires Positions(pull, ids, chosen, fits, at)
    ensures Positions(pull, ids, Where(pull, ids, chosen, q), Filter(fits, q), kept)
  {
    kept := [];
    if fits != [] {
      var rest := chosen - iset{at[0]};
      PositionsTail(pull, ids, chosen, fits, at);
      kept := FilterPositions(pull, ids, rest, fits[1..], at[1..], q);
      if q(fits[0]) {
        PositionsFront(pull, ids, Where(pull, ids, rest, q), Filter(fits[1..], q), kept, at[0]);
        assert Where(pull, ids, chosen, q) == iset{at[0]} + Where(pull, ids, rest, q);
        kept := [at[0]] + kept;
      } else {
        assert Where(pull, ids, chosen, q) == Where(pull, ids, rest, q);
      }
    }
  }

  lemma OccamIsContending(
      cfg: FreezerConfig, pull: Pull, votes: int, ids: seq<Ident>, fits: seq<FitOf>, at: seq<nat>)
    returns (kept: seq<nat>)
    requires Positions(pull, ids, FittingSet(cfg, pull, votes, ids), fits, at)
    ensures Positions(pull, ids, Contenders(cfg, pull, votes, ids),
                      if cfg.countOccam then OccamFits(fits) else fits, kept)
  {
    var fitting, contenders := FittingSet(cfg, pull, votes, ids), Contenders(cfg, pull, votes, ids);
    var best := BestSingleResidual(fits);
    BestSingleIsLeast(fits);
    forall j: nat | j in fitting ensures FitAt(pull, ids, j) in fits {
      var k :| 0 <= k < |at| && at[k] == j;
    }
    if !cfg.countOccam || best.None? {
      kept := at;
      assert contenders == fitting;
    } else {
      var q := Unrefuted(best.value);
      kept := FilterPositions(pull, ids, fitting, fits, at, q);
      var f :| f in fits && f.count == 1 && f.residual == best.value;
      var k :| 0 <= k < |fits| && fits[k] == f;
      assert at[k] in fitting && FitAt(pull, ids, at[k]) == f;
      forall i: nat ensures i in contenders <==> i in fitting && q(FitAt(pull, ids, i)) {
        if i in contenders && FitAt(pull, ids, i).count != 1 {
          assert Fitting(cfg, pull, votes, ids, at[k]);
        }
      }
      assert contenders == Where(pull, ids, fitting, q);
    }
  }

  /** The list the first stage chooses from. */
  lemma ContenderPositions(cfg: FreezerConfig, pull: Pull, votes: int, ids: seq<Ident>) returns (at: seq<nat>)
    requires Usable(ids)
    ensures var fits := GateFits(cfg, pull, Filter(ids, Qualifies(cfg, votes)));
            Positions(pull, ids, Contenders(cfg, pull, votes, ids),
                      if cfg.countOccam then OccamFits(fits) else fits, at)
  {
    var p, fitting := Qualifies(cfg, votes), FittingSet(cfg, pull, votes, ids);
    assert ids[..|ids|] == ids;
    forall i: nat ensures i in fitting <==> InHits(cfg, pull, ids, p, i) {
      if i < |ids| {
        GatesAreWithin(cfg, pull, ids[i]);
      }
    }
    var hitAt := HitPositions(cfg, pull, ids, p, fitting, |ids|);
    assert UpTo(fitting, |ids|) == fitting;
    at := OccamIsContending(cfg, pull, votes, ids, GateFits(cfg, pull, Filter(ids, p)), hitAt);
  }

  /** The loudest wins when it is also the surest; the surest wins when it is far enough ahead of the
      loudest; otherwise the loudest wins only if it is the top identity itself. */
  ghost predicate Wins(cfg: FreezerConfig, ids: seq<Ident>, top: Ident, chosen: iset<nat>, i: nat, arbitrated: bool)
    requires forall j: nat :: j in chosen ==> j < |ids|
  {
    exists v: nat, c: nat ::
      && Loudest(ids, chosen, v) && Surest(ids, chosen, c)
      && var ahead := Ahead(cfg, ids[c].cand.confidence, ids[v].cand.confidence);
         if arbitrated then i == c && c != v && ahead
         else i == v && (c == v || (!ahead && ids[v].cand == top.cand))
  }

  lemma WinnerChooses(
      cfg: FreezerConfig, pull: Pull, ids: seq<Ident>, top: Ident, chosen: iset<nat>, fits: seq<FitOf>, at: seq<nat>)
    requires Positions(pull, ids, chosen, fits, at)
    ensures forall i: nat :: i in chosen ==> i < |ids|
    ensures match Winner(cfg, top, fits)
            case None => forall i: nat, arbitrated :: !Wins(cfg, ids, top, chosen, i, arbitrated)
            case Some(win) =>
              exists i: nat ::
                i < |ids| && Wins(cfg, ids, top, chosen, i, win.arbitrated) && win.fit == FitAt(pull, ids, i)
  {
    OneChosen(pull, ids, chosen, fits, at);
    if fits != [] {
      var v, c := at[FirstMax(fits, MoreVotes)], at[FirstMax(fits, MoreConfident)];
      Voices(pull, ids, chosen, fits, at);
      ThresholdIsAhead(cfg, ids[c].cand.confidence, ids[v].cand.confidence);
      var won := Winner(cfg, top, fits);
      if won.Some? {
        var i := if won.value.arbitrated then c else v;
        assert Wins(cfg, ids, top, chosen, i, won.value.arbitrated);
      }
    }
  }

  // ---- all four stages ----

  /** A combination overrides a repeated unit only if the segments speak for it: as many separate removals
      as units, no more units than the repeat, and a strictly better fit. */
  predicate Overrides(cfg: FreezerConfig, pull: Pull, won: FitOf, c: Combo) {
    && cfg.segmentCombo && won.count >= 2 && won.residual > 0.0 && pull.removals >= cfg.segmentComboMinSegments
    && c.residual < won.residual && Total(c.alloc) <= won.count && Total(c.alloc) <= pull.removals
  }

  lemma ChallengeOverrides(cfg: FreezerConfig, pull: Pull, ids: seq<Ident>, won: FitOf)
    requires ids != [] && Usable(ids)
    ensures var best := BestCombo(GoalOf(cfg, pull), ids[0], Partners(cfg, ids), cfg.maxKinds);
            Challenge(cfg, pull, ids[0], Partners(cfg, ids), won) ==
            if best.Some? && Overrides(cfg, pull, won, best.value) then best else None
  {
    FilterMembers(ids[1..], IdentAtLeast(Share(cfg.comboShare, ids[0].cand.voteCount)));
    BestComboIsValid(cfg, pull, ids, Partners(cfg, ids));
  }

  function SingleAnswer(pull: Pull, x: Ident, arbitrated: bool): JudgmentResult {
    JudgmentResult(JudgmentStatus.Complete, [ProductCount(x.product, FitCount(pull.target, x.product))],
                   x.cand.confidence, [if arbitrated then FreezerSingleArbitrated else FreezerSingle])
  }

  function NearAnswer(cfg: FreezerConfig, pull: Pull, top: Ident): JudgmentResult {
    var conf := top.cand.confidence * 0.6;
    if conf >= cfg.partialMinConf
    then JudgmentResult(Partial, [ProductCount(top.product, FitCount(pull.target, top.product))], conf,
                        [FreezerNearGate])
    else JudgmentResult(NoDetection, [], conf, [FreezerNearGateLowConf])
  }

  /** The first stage answers exactly when somebody wins among the contenders. */
  lemma FirstStageDecides(cfg: FreezerConfig, pull: Pull, ids: seq<Ident>)
    requires ids != [] && Usable(ids)
    ensures var votes := ids[0].cand.voteCount;
            var chosen := Contenders(cfg, pull, votes, ids);
            match SingleStage(cfg, pull, ids[0], Filter(ids, Qualifies(cfg, votes)), Partners(cfg, ids))
            case None => forall i: nat, arbitrated :: !Wins(cfg, ids, ids[0], chosen, i, arbitrated)
            case Some(j) =>
              exists i: nat, arbitrated ::
                i < |ids| && Wins(cfg, ids, ids[0], chosen, i, arbitrated) &&
                var best := BestCombo(GoalOf(cfg, pull), ids[0], Partners(cfg, ids), cfg.maxKinds);
                j == if best.Some? && Overrides(cfg, pull, FitAt(pull, ids, i), best.value)
                     then ComboResult(best.value, FreezerSegmentCombo)
                     else SingleAnswer(pull, ids[i], arbitrated)
  {
    var votes := ids[0].cand.voteCount;
    var fits := GateFits(cfg, pull, Filter(ids, Qualifies(cfg, votes)));
    var kept := if cfg.countOccam then OccamFits(fits) else fits;
    var at := ContenderPositions(cfg, pull, votes, ids);
    WinnerChooses(cfg, pull, ids, ids[0], Contenders(cfg, pull, votes, ids), kept, at);
    var won := Winner(cfg, ids[0], kept);
    if won.Some? {
      ChallengeOverrides(cfg, pull, ids, won.value.fit);
    }
  }

  ghost predicate SomebodyWins(cfg: FreezerConfig, pull: Pull, ids: seq<Ident>)
    requires ids != []
  {
    exists i: nat, arbitrated ::
      Wins(cfg, ids, ids[0], Contenders(cfg, pull, ids[0].cand.voteCount, ids), i, arbitrated)
  }

  ghost predicate SomebodyIsRescued(cfg: FreezerConfig, pull: Pull, ids: seq<Ident>)
    requires ids != []
  {
    var votes, rest := ids[0].cand.voteCount, ids[1..];
    exists i: nat, clear :: Rescued(cfg, rest, Hits(cfg, pull, votes, rest), Brushes(cfg, pull, votes, rest), i, clear)
  }

  /** The strategy decides by its stages: a winner among the contenders; else the top identity if it only
      just misses the gate; else the best combination with it; else a rescue; else nothing. */
  lemma SolveDecides(cfg: FreezerConfig, pull: Pull, ids: seq<Ident>)
    requires ids != [] && Usable(ids)
    ensures var votes, rest := ids[0].cand.voteCount, ids[1..];
            var best := BestCombo(GoalOf(cfg, pull), ids[0], Partners(cfg, ids), cfg.maxKinds);
            var r := SolveFor(cfg, pull, ids);
            if SomebodyWins(cfg, pull, ids) then
              exists i: nat, arbitrated ::
                i < |ids| && Wins(cfg, ids, ids[0], Contenders(cfg, pull, votes, ids), i, arbitrated) &&
                r == Some(if best.Some? && Overrides(cfg, pull, FitAt(pull, ids, i), best.value)
                          then ComboResult(best.value, FreezerSegmentCombo)
                          else SingleAnswer(pull, ids[i], arbitrated))
            else if Within(cfg, pull, cfg.nearFactor, FitAt(pull, ids, 0)) then r == Some(NearAnswer(cfg, pull, ids[0]))
            else if best.Some? then r == Some(ComboResult(best.value, FreezerCombo))
            else if SomebodyIsRescued(cfg, pull, ids) then
              exists i: nat, clear ::
                i < |rest| && r == Some(RescueResult(pull, rest[i], clear)) &&
                Rescued(cfg, rest, Hits(cfg, pull, votes, rest), Brushes(cfg, pull, votes, rest), i, clear)
            else r == None
  {
    FirstStageDecides(cfg, pull, ids);
    GatesAreWithin(cfg, pull, ids[0]);
    RescueDecides(cfg, pull, ids[0].cand.voteCount, ids[1..]);
  }
}
