/** The freezer strategy as its loops run: lists of fits grown candidate by candidate, each proved to be
    the one the specification names. */
module FreezerSolver {
  import opened Types
  import opened Sorting
  import opened Combos
  import opened Freezer

  lemma FilterSnoc(ids: seq<Ident>, i: nat, p: Ident -> bool)
    requires i < |ids|
    ensures Filter(ids[..i + 1], p) == Filter(ids[..i], p) + if p(ids[i]) then [ids[i]] else []
  {
    assert ids[..i + 1] == ids[..i] + [ids[i]];
    FilterConcat(ids[..i], [ids[i]], p);
    assert [ids[i]][1..] == [];
  }

  lemma FitsStep(cfg: FreezerConfig, pull: Pull, ids: seq<Ident>, i: nat, p: Ident -> bool)
    requires i < |ids|
    ensures var f, before, after := Fit(pull.target, ids[i]), Filter(ids[..i], p), Filter(ids[..i + 1], p);
            && GateFits(cfg, pull, after) ==
               GateFits(cfg, pull, before) + (if p(ids[i]) && InGate(cfg, pull, f) then [f] else [])
            && NearFits(cfg, pull, after) ==
               NearFits(cfg, pull, before)
                 + if p(ids[i]) && !InGate(cfg, pull, f) && NearGate(cfg, pull, f) then [f] else []
  {
    var before := Filter(ids[..i], p);
    FilterSnoc(ids, i, p);
    if p(ids[i]) {
      assert (before + [ids[i]])[..|before|] == before;
    } else {
      assert before + [] == before;
      assert GateFits(cfg, pull, before) + [] == GateFits(cfg, pull, before);
      assert NearFits(cfg, pull, before) + [] == NearFits(cfg, pull, before);
    }
  }

  /** Fits of every qualified identity, not just the first that fits. */
  method CollectFits(cfg: FreezerConfig, pull: Pull, ids: seq<Ident>, topVotes: int) returns (fits: seq<FitOf>)
    ensures fits == GateFits(cfg, pull, Filter(ids, Qualifies(cfg, topVotes)))
  {
    var qualifies := Qualifies(cfg, topVotes);
    fits := [];
    for i := 0 to |ids|
      invariant fits == GateFits(cfg, pull, Filter(ids[..i], qualifies))
    {
      var f := Fit(pull.target, ids[i]);
      FitsStep(cfg, pull, ids, i, qualifies);
      if qualifies(ids[i]) && InGate(cfg, pull, f) {
        fits := fits + [f];
      }
    }
    assert ids[..|ids|] == ids;
  }

  method CollectRescues(cfg: FreezerConfig, pull: Pull, rest: seq<Ident>, topVotes: int)
    returns (inGate: seq<FitOf>, near: seq<FitOf>)
    ensures var others := Filter(rest, IdentAtLeast(Share(cfg.refitShare, topVotes)));
            inGate == GateFits(cfg, pull, others) && near == NearFits(cfg, pull, others)
  {
    var seen := IdentAtLeast(Share(cfg.refitShare, topVotes));
    inGate, near := [], [];
    for i := 0 to |rest|
      invariant inGate == GateFits(cfg, pull, Filter(rest[..i], seen))
      invariant near == NearFits(cfg, pull, Filter(rest[..i], seen))
    {
      var f := Fit(pull.target, rest[i]);
      FitsStep(cfg, pull, rest, i, seen);
      if seen(rest[i]) {
        if InGate(cfg, pull, f) {
          inGate := inGate + [f];
        } else if NearGate(cfg, pull, f) {
          near := near + [f];
        }
      }
    }
    assert rest[..|rest|] == rest;
  }

  method ChallengeOf(cfg: FreezerConfig, pull: Pull, top: Ident, partners: seq<Ident>, won: FitOf)
    returns (c: Option<Combo>)
    ensures c == Challenge(cfg, pull, top, partners, won)
  {
    if !cfg.segmentCombo || won.count < 2 || won.residual <= 0.0 || pull.removals < cfg.segmentComboMinSegments {
      return None;
    }
    c := FindBestCombo(GoalOf(cfg, pull), top, partners, cfg.maxKinds);
    if c.Some? && (|c.value.subset| < 2 || c.value.residual >= won.residual
                   || Total(c.value.alloc) > won.count || Total(c.value.alloc) > pull.removals) {
      c := None;
    }
  }

  /** The four stages in order; the first that answers decides. */
  method SolveFreezer(cfg: FreezerConfig, ctx: Context) returns (r: Option<JudgmentResult>)
    ensures r == Solve(cfg, ctx)
  {
    var pull := PullOf(ctx);
    var ids := Identities(cfg, ctx);
    if ids == [] {
      return None;
    }
    var top := ids[0];
    var fits := CollectFits(cfg, pull, ids, top.cand.voteCount);
    if cfg.countOccam {
      fits := OccamFits(fits);
    }
    var partners := Partners(cfg, ids);
    var winner := Winner(cfg, top, fits);
    if winner.Some? {
      var won := winner.value;
      var challenge := ChallengeOf(cfg, pull, top, partners, won.fit);
      if challenge.Some? {
        return Some(ComboResult(challenge.value, FreezerSegmentCombo));
      }
      return Some(SingleResult(won.fit, 1.0, if won.arbitrated then FreezerSingleArbitrated else FreezerSingle));
    }
    var near := NearStage(cfg, pull, top);
    if near.Some? {
      return near;
    }
    var combo := FindBestCombo(GoalOf(cfg, pull), top, partners, cfg.maxKinds);
    if combo.Some? {
      return Some(ComboResult(combo.value, FreezerCombo));
    }
    var inGate, nearFits := CollectRescues(cfg, pull, ids[1..], top.cand.voteCount);
    var rescued := Rescue(cfg, inGate, nearFits);
    if rescued.Some? {
      return Some(SingleResult(rescued.value.fit, 0.8,
                               if rescued.value.arbitrated then FreezerRefitArbitrated else FreezerUniqueRefit));
    }
    return None;
  }
}
