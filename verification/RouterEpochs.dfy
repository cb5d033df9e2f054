/**
 A main agent is classified at most once between two invalidations that clear its routing, and keeps its
 tier in between.
 */
module RouterEpochs {
  import opened Options
  import opened RouterProtocol
  import opened RouterStore
  import opened RouterDecide
  import opened RouterRouting

  predicate Named(m: Option<ModelRef>) { m.Some? ==> m.value.provider != "" && m.value.model != "" }

  /** The token saver is on, there is a default model, and the configured models have names. */
  predicate SaverConfig(cfg: Config) {
    && cfg.tokenSaver.Some? && cfg.tokenSaver.value.enabled
    && cfg.defaultModel.Some? && Named(cfg.defaultModel)
    && (cfg.orchestrate.Some? ==> Named(cfg.orchestrate.value.mainAgentModel))
  }

  /** A call of session `s`'s main agent: no custom or explicit route, several messages, models with names. */
  predicate EpochCall(c: Call, s: string) {
    Own(c, s) &&
    (c.Decide? ==>
       && c.custom.provider == "" && c.scenario.scenarioType != ExplicitScenario && c.messageCount > 1
       && Named(c.scenario.selection) && (c.judge.Some? ==> Named(c.judge.value.selection)))
  }

  /** Every call comes before the slot written by the previous one expires. */
  predicate Timely(limits: Limits, calls: seq<Call>, deadline: int) {
    calls == [] ||
    (calls[0].at.lookup <= deadline && calls[0].at.sticky <= deadline &&
     Timely(limits, calls[1..], calls[0].at.store + limits.ttlMs))
  }

  /** An invalidation after which no model is remembered. */
  predicate Clearing(o: Outcome) {
    o.Invalidated? && !(o.orchestrating && IsSet(o.previousTier))
  }

  ghost predicate NoClearing(outcomes: seq<Outcome>) {
    forall o :: o in outcomes ==> !Clearing(o)
  }

  /** The cell remembers a model for `tier`. */
  predicate Committed(cell: Option<Slot>, tier: Option<string>) {
    cell.Some? && HasModel(Some(cell.value.state)) && cell.value.state.tier == tier
  }

  function ModelOf(cell: Option<Slot>): ModelRef
    requires cell.Some? && HasModel(Some(cell.value.state))
  {
    ModelRef(cell.value.state.stickyProvider.value, cell.value.state.stickyModel.value)
  }

  predicate NoMainModel(cfg: Config) { cfg.orchestrate.Some? ==> cfg.orchestrate.value.mainAgentModel.None? }

  /** A decision that repeats what is remembered. */
  ghost predicate Repeats(cfg: Config, o: Outcome, tier: Option<string>, model: ModelRef) {
    o.Decided? ==>
      && !o.classified && o.decision.tier == tier
      && (NoMainModel(cfg) ==> ModelRef(o.decision.provider, o.decision.model) == model)
  }

  lemma HintedModelIsNamed(hint: Option<string>)
    ensures Named(HintedModel(hint))
  {
  }

  /** A decision commits the cell to its tier, and is classified exactly if nothing was remembered. */
  lemma DecideCommits(cfg: Config, limits: Limits, cell: Option<Slot>, c: Call, s: string)
    requires SaverConfig(cfg) && EpochCall(c, s) && c.Decide?
    ensures var known, again := Read(cell, c.at.lookup), Read(cell, c.at.sticky);
            var o := OutcomeFromReads(cfg, c, known, again);
            var after := Stored(cfg, limits, c, cell, known, again);
            && o.Decided? && o.classified == !(known.Some? && HasModel(again))
            && Committed(after, o.decision.tier) && after.value.expiresAt == c.at.store + limits.ttlMs
            && ModelOf(after) == ModelRef(o.decision.provider, o.decision.model)
            && (known.Some? && HasModel(again) ==> Repeats(cfg, o, again.value.tier, ModelOf(cell)))
  {
    HintedModelIsNamed(c.scenario.modelHint);
    hide HintedModel;
  }

  lemma {:induction false} EpochRepeats(
    cfg: Config, limits: Limits, cell: Option<Slot>, calls: seq<Call>, s: string, tier: Option<string>)
    requires SaverConfig(cfg) && (forall c :: c in calls ==> EpochCall(c, s))
    requires Committed(cell, tier) && Timely(limits, calls, cell.value.expiresAt)
    requires NoClearing(CellOutcomes(cfg, limits, cell, calls))
    ensures forall o :: o in CellOutcomes(cfg, limits, cell, calls) ==> Repeats(cfg, o, tier, ModelOf(cell))
    decreases calls
  {
    if calls != [] {
      var c, rest := calls[0], calls[1..];
      var known, again := Read(cell, c.at.lookup), Read(cell, c.at.sticky);
      var o, after := OutcomeFromReads(cfg, c, known, again), Stored(cfg, limits, c, cell, known, again);
      var outcomes := CellOutcomes(cfg, limits, cell, calls);
      assert c in calls && EpochCall(c, s);
      assert outcomes[0] == o && outcomes[1..] == CellOutcomes(cfg, limits, after, rest);
      assert o in outcomes && !Clearing(o);
      CellKeepsModel(cfg, limits, cell, c, s, tier);
      assert forall x :: x in rest ==> x in calls;
      assert forall x :: x in outcomes[1..] ==> x in outcomes;
      hide OutcomeFromReads, Stored, Clearing;
      EpochRepeats(cfg, limits, after, rest, s, tier);
    }
  }

  /** One call within an epoch. */
  lemma CellKeepsModel(cfg: Config, limits: Limits, cell: Option<Slot>, c: Call, s: string, tier: Option<string>)
    requires SaverConfig(cfg) && EpochCall(c, s) && Committed(cell, tier)
    requires c.at.lookup <= cell.value.expiresAt && c.at.sticky <= cell.value.expiresAt
    requires !Clearing(OutcomeFromReads(cfg, c, Read(cell, c.at.lookup), Read(cell, c.at.sticky)))
    ensures var known, again := Read(cell, c.at.lookup), Read(cell, c.at.sticky);
            var after := Stored(cfg, limits, c, cell, known, again);
            && Committed(after, tier) && after.value.expiresAt == c.at.store + limits.ttlMs
            && (NoMainModel(cfg) ==> ModelOf(after) == ModelOf(cell))
            && Repeats(cfg, OutcomeFromReads(cfg, c, known, again), tier, ModelOf(cell))
  {
    if c.Decide? {
      DecideCommits(cfg, limits, cell, c, s);
    }
  }

  /** The first decision of an epoch may be classified; none of the later ones is, and all have its tier and,
      unless the main agent's model is overridden while orchestrating, its model. */
  ghost predicate JudgedOnce(cfg: Config, outcomes: seq<Outcome>) {
    |outcomes| > 0 ==>
      && outcomes[0].Decided?
      && var first := outcomes[0].decision;
      forall k :: 0 < k < |outcomes| ==> Repeats(cfg, outcomes[k], first.tier, ModelRef(first.provider, first.model))
  }

  lemma CellJudgedOnce(cfg: Config, limits: Limits, cell: Option<Slot>, own: seq<Call>, s: string)
    requires SaverConfig(cfg) && (forall c :: c in own ==> EpochCall(c, s))
    requires own != [] ==> own[0].Decide? && Timely(limits, own[1..], own[0].at.store + limits.ttlMs)
    requires NoClearing(CellOutcomes(cfg, limits, cell, own))
    ensures JudgedOnce(cfg, CellOutcomes(cfg, limits, cell, own))
  {
    if own != [] {
      var c := own[0];
      var known, again := Read(cell, c.at.lookup), Read(cell, c.at.sticky);
      var o, after := OutcomeFromReads(cfg, c, known, again), Stored(cfg, limits, c, cell, known, again);
      var outcomes := CellOutcomes(cfg, limits, cell, own);
      assert c in own;
      DecideCommits(cfg, limits, cell, c, s);
      hide OutcomeFromReads, Stored, Clearing, EpochCall;
      assert outcomes[0] == o && outcomes[1..] == CellOutcomes(cfg, limits, after, own[1..]);
      assert forall x :: x in own[1..] ==> x in own;
      assert forall x :: x in outcomes[1..] ==> x in outcomes;
      EpochRepeats(cfg, limits, after, own[1..], s, o.decision.tier);
      forall k | 0 < k < |outcomes|
        ensures Repeats(cfg, outcomes[k], o.decision.tier, ModelOf(after))
      {
        assert outcomes[k] == outcomes[1..][k - 1];
      }
    }
  }

  /**
   In any run of a store with room, whatever else is called in between: from a decision of session `s`'s main
   agent on, as long as its calls are timely and none is a clearing invalidation, it is judged at most once.
   */
  lemma JudgeAtMostOncePerEpoch(
    cfg: Config, limits: Limits, slots: seq<Slot>, calls: seq<Call>, s: string, keys: set<string>)
    requires Roomy(slots, limits, keys) && KeysOf(calls) <= keys && NoAlias(calls, s) && SaverConfig(cfg)
    requires var own := OnlyOwn(calls, s);
             && (forall c :: c in own ==> EpochCall(c, s))
             && (own != [] ==> own[0].Decide? && Timely(limits, own[1..], own[0].at.store + limits.ttlMs))
    requires NoClearing(OwnOutcomes(cfg, limits, slots, calls, s))
    ensures JudgedOnce(cfg, OwnOutcomes(cfg, limits, slots, calls, s))
  {
    StoreRefinesCell(cfg, limits, slots, calls, s, keys);
    hide OwnOutcomes, OnlyOwn, CellOutcomes, EpochCall;
    CellJudgedOnce(cfg, limits, Lookup(slots, s), OnlyOwn(calls, s), s);
  }

  /** An invalidation keeps a remembered model exactly while the session orchestrates with a tier; otherwise
      the next decision is classified again. */
  lemma InvalidationEndsEpochIffClearing(
    cfg: Config, limits: Limits, cell: Option<Slot>, i: Call, d: Call, s: string)
    requires SaverConfig(cfg) && EpochCall(i, s) && i.Invalidate? && EpochCall(d, s) && d.Decide?
    requires HasModel(Read(cell, i.at.lookup)) && Timely(limits, [d], i.at.store + limits.ttlMs)
    ensures var o := CellOutcomes(cfg, limits, cell, [i, d]);
            |o| == 2 && o[1].Decided? && (o[1].classified <==> Clearing(o[0]))
  {
    var known, again := Read(cell, i.at.lookup), Read(cell, i.at.sticky);
    var after := Stored(cfg, limits, i, cell, known, again);
    assert after.Some? && (HasModel(Some(after.value.state)) <==> known.value.orchestrating && IsSet(known.value.tier));
    assert d.at.lookup <= after.value.expiresAt && d.at.sticky <= after.value.expiresAt by {
      assert [d][0] == d;
    }
    DecideCommits(cfg, limits, after, d, s);
    CellOfTwo(cfg, limits, cell, i, d);
    hide HintedModel, FinalChoice, MakeDecision, CellOutcomes;
  }

  lemma CellOfTwo(cfg: Config, limits: Limits, cell: Option<Slot>, a: Call, b: Call)
    ensures var after := Stored(cfg, limits, a, cell, Read(cell, a.at.lookup), Read(cell, a.at.sticky));
            CellOutcomes(cfg, limits, cell, [a, b]) ==
            [OutcomeFromReads(cfg, a, Read(cell, a.at.lookup), Read(cell, a.at.sticky)),
             OutcomeFromReads(cfg, b, Read(after, b.at.lookup), Read(after, b.at.sticky))]
  {
    hide OutcomeFromReads, Stored, Read;
    assert [a, b][1..] == [b] && [b][1..] == [];
    var after := Stored(cfg, limits, a, cell, Read(cell, a.at.lookup), Read(cell, a.at.sticky));
    var end := Stored(cfg, limits, b, after, Read(after, b.at.lookup), Read(after, b.at.sticky));
    assert CellOutcomes(cfg, limits, end, []) == [];
    assert CellOutcomes(cfg, limits, after, [b]) ==
           [OutcomeFromReads(cfg, b, Read(after, b.at.lookup), Read(after, b.at.sticky))];
  }
}
