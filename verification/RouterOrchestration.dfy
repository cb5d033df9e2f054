/**
 What a routing decision says, field by field, in terms of the call, the configuration and the stored state, and when
 a session orchestrates: from its first decision with a trigger tier on, for as long as there is something to inject.
 */
module RouterOrchestration {
  import opened Options
  import opened RouterProtocol
  import opened RouterStore
  import opened RouterDecide
  import opened RouterRouting
  import Text

  // ---- One decision

  predicate WasOrchestrating(known: Option<RoutingState>) { known.Some? && known.value.orchestrating }

  /** The token saver is on and the tier is one that starts orchestration; without a list, every tier does. */
  predicate Triggers(cfg: Config, tier: Option<string>) {
    match (cfg.orchestrate, cfg.tokenSaver, tier)
    case (Some(o), Some(saver), Some(t)) => saver.enabled && (|o.triggerTiers| > 0 ==> t != "" && t in o.triggerTiers)
    case _ => false
  }

  predicate OrchestrationOn(cfg: Config) { cfg.orchestrate.Some? && cfg.orchestrate.value.enabled }

  /** There is something that orchestration would change about the request. */
  predicate Changes(c: Call) { c.Decide? && (c.injects || c.strips) }

  /** The token saver is asked: it is on, also for this agent, and nobody else has decided. */
  predicate AsksSaver(cfg: Config, c: Call)
    requires c.Decide?
  {
    match cfg.tokenSaver
    case None => false
    case Some(saver) =>
      !(saver.subagentPolicy == Skip && !c.isMain) && saver.enabled
      && |c.custom.provider| == 0 && !c.scenario.scenarioType.ExplicitScenario?
  }

  /** The session's state is looked at for a model to stay with. */
  predicate LooksBack(cfg: Config, c: Call)
    requires c.Decide?
  {
    AsksSaver(cfg, c) && c.messageCount >= 2 && (!c.isMain ==> cfg.tokenSaver.value.subagentPolicy == JudgeToo)
  }

  /** The state names a provider and a model. */
  predicate Remembers(state: Option<RoutingState>, m: ModelRef) {
    |m.provider| > 0 && |m.model| > 0 &&
    match state
    case Some(known) => known.stickyProvider == Some(m.provider) && known.stickyModel == Some(m.model)
    case None => false
  }

  /** Number `i` of the sources offers the model `m`: the remembered model, the judge, the custom router, the scenario,
      the hint in the messages, and the default. */
  predicate Offered(cfg: Config, c: Call, sticky: Option<RoutingState>, i: nat, m: ModelRef)
    requires c.Decide?
  {
    match i
    case 0 => AsksSaver(cfg, c) && Remembers(sticky, m)
    case 1 => AsksSaver(cfg, c) && c.judge.Some? && c.judge.value.selection == Some(m)
    case 2 => c.custom == m && |m.provider| > 0 && |m.model| > 0
    case 3 => c.scenario.selection == Some(m)
    case 4 =>
      c.scenario.modelHint == Some(m.provider + "/" + m.model) && '/' !in m.provider
      && |m.provider| > 0 && |m.model| > 0
    case 5 => cfg.defaultModel == Some(m)
    case _ => false
  }

  lemma HintMeaning(hint: Option<string>, m: ModelRef)
    ensures HintedModel(hint) == Some(m) <==>
      hint == Some(m.provider + "/" + m.model) && '/' !in m.provider && |m.provider| > 0 && |m.model| > 0
  {
    if hint.Some? {
      var h := hint.value;
      var slash := Text.IndexOf(h, '/');
      if slash < |h| {
        assert h == h[..slash] + "/" + h[slash + 1..];
      }
      if h == m.provider + "/" + m.model && '/' !in m.provider {
        assert h == m.provider + ['/'] + m.model;
        Text.IndexOfFirst(m.provider, '/', m.model);
        assert h[..slash] == m.provider && h[slash + 1..] == m.model;
      }
    }
  }

  lemma RemembersIff(state: Option<RoutingState>, m: ModelRef)
    ensures Remembers(state, m) <==>
      HasModel(state) && m == ModelRef(state.value.stickyProvider.value, state.value.stickyModel.value)
  {
  }

  lemma SaverIff(cfg: Config, c: Call)
    requires c.Decide?
    ensures AsksSaver(cfg, c) <==> SaverApplies(cfg, c)
    ensures LooksBack(cfg, c) <==> LooksForSticky(cfg, c)
  {
  }

  lemma OfferedIff(cfg: Config, c: Call, sticky: Option<RoutingState>, i: nat, m: ModelRef)
    requires c.Decide?
    ensures Offered(cfg, c, sticky, i, m) <==> i < 6 && Offers(cfg, c, sticky)[i] == Some(m)
  {
    HintMeaning(c.scenario.modelHint, m);
    RemembersIff(sticky, m);
    SaverIff(cfg, c);
    hide HintedModel, Remembers, HasModel, AsksSaver, SaverApplies, LooksBack;
  }

  /** Number `i` is the first source that offers a model, and `m` is that model. */
  ghost predicate FirstOffer(cfg: Config, c: Call, sticky: Option<RoutingState>, i: nat, m: ModelRef)
    requires c.Decide?
  {
    Offered(cfg, c, sticky, i, m) && forall j: nat, n :: j < i ==> !Offered(cfg, c, sticky, j, n)
  }

  /** The tier comes with the remembered model, or from the judge if none is remembered. */
  ghost predicate TierIs(cfg: Config, c: Call, sticky: Option<RoutingState>, tier: Option<string>)
    requires c.Decide?
  {
    if !AsksSaver(cfg, c) then tier.None?
    else if exists m :: Remembers(sticky, m) then tier == sticky.value.tier
    else match c.judge
      case Some(answer) => tier == Some(answer.tier)
      case None => tier.None?
  }

  /** Every field of a decision; `already` says that the session was orchestrating. */
  ghost predicate Says(cfg: Config, c: Call, already: bool, sticky: Option<RoutingState>, d: Decision)
    requires c.Decide?
  {
    && TierIs(cfg, c, sticky, d.tier)
    && (d.orchestrating <==>
          OrchestrationOn(cfg) && c.isMain && Changes(c) && (already || Triggers(cfg, d.tier)))
    && d.patch == (if d.orchestrating then Some(c.patch) else None)
    && d.isSubagent == c.scenario.isSubagent
    && d.mutations.promptTier.Some? == (d.orchestrating && c.injects)
    && (d.mutations.promptTier.Some? ==> d.mutations.promptTier.value == d.tier.GetOr("main"))
    && (d.mutations.subagentTagStripped <==> c.scenario.isSubagent || c.scenario.modelHint.Some?)
    && exists i: nat, m :: FirstOffer(cfg, c, sticky, i, m) && SaysModel(cfg, c, d, i, m)
  }

  /** The model `m` that source number `i` offers, unless orchestration names another one, and what else depends on
      the source. */
  predicate SaysModel(cfg: Config, c: Call, d: Decision, i: nat, m: ModelRef)
    requires c.Decide?
  {
    var model := ModelRef(d.provider, d.model);
    var forSub := !c.isMain && cfg.orchestrate.Some? && cfg.orchestrate.value.subagentModel.Some?;
    var forMain := d.orchestrating && cfg.orchestrate.Some? && cfg.orchestrate.value.mainAgentModel.Some?;
    var explicit := c.scenario.scenarioType == ExplicitScenario;
    && (forSub ==> model == cfg.orchestrate.value.subagentModel.value)
    && (forMain ==> model == cfg.orchestrate.value.mainAgentModel.value)
    && (!forSub && !forMain ==> model == m)
    && (d.mutations.subagentModelOverride <==> forSub)
    && d.scenarioType == (if i == 5 && !explicit then DefaultScenario else c.scenario.scenarioType)
    && d.resolvedFrom == (if i <= 1 then ByTokenSaver
                          else if i == 4 then ByExplicit
                          else if |c.custom.provider| > 0 then ByCustom
                          else if explicit then ByExplicit else ByScenario)
  }

  lemma ChoiceIs(cfg: Config, c: Call, sticky: Option<RoutingState>) returns (i: nat)
    requires c.Decide? && FinalChoice(cfg, c, sticky).model.Some?
    ensures FirstOffer(cfg, c, sticky, i, FinalChoice(cfg, c, sticky).model.value)
    ensures var choice := FinalChoice(cfg, c, sticky);
      && choice.scenarioType == (if i == 5 && c.scenario.scenarioType != ExplicitScenario then DefaultScenario
                                 else c.scenario.scenarioType)
      && choice.from == (if i <= 1 then ByTokenSaver
                         else if i == 4 then ByExplicit
                         else if |c.custom.provider| > 0 then ByCustom
                         else if c.scenario.scenarioType == ExplicitScenario then ByExplicit else ByScenario)
  {
    hide HintedModel, SaverApplies, HasModel, FirstOffer, Offered;
    var offers := Offers(cfg, c, sticky);
    i := if offers[0].Some? then 0 else if offers[1].Some? then 1 else if offers[2].Some? then 2
         else if offers[3].Some? then 3 else if offers[4].Some? then 4 else 5;
    FirstIs(cfg, c, sticky, i, FinalChoice(cfg, c, sticky).model.value);
  }

  lemma FirstIs(cfg: Config, c: Call, sticky: Option<RoutingState>, i: nat, m: ModelRef)
    requires c.Decide? && i < 6 && Offers(cfg, c, sticky)[i] == Some(m)
    requires forall j :: 0 <= j < i ==> Offers(cfg, c, sticky)[j].None?
    ensures FirstOffer(cfg, c, sticky, i, m)
  {
    SixOffers(cfg, c, sticky);
    hide Offers, Offered;
    forall j: nat, n
      ensures Offered(cfg, c, sticky, j, n) <==> j < 6 && Offers(cfg, c, sticky)[j] == Some(n)
    {
      OfferedIff(cfg, c, sticky, j, n);
    }
  }

  lemma TierOfChoice(cfg: Config, c: Call, sticky: Option<RoutingState>)
    requires c.Decide?
    ensures TierIs(cfg, c, sticky, FinalChoice(cfg, c, sticky).tier)
  {
    SaverIff(cfg, c);
    forall m
      ensures Remembers(sticky, m) <==>
        HasModel(sticky) && m == ModelRef(sticky.value.stickyProvider.value, sticky.value.stickyModel.value)
    {
      RemembersIff(sticky, m);
    }
    if HasModel(sticky) {
      assert Remembers(sticky, ModelRef(sticky.value.stickyProvider.value, sticky.value.stickyModel.value));
    }
    hide HintedModel, SaverApplies, AsksSaver, HasModel, Remembers;
  }

  lemma DecisionSays(cfg: Config, c: Call, already: bool, sticky: Option<RoutingState>)
    requires c.Decide? && FinalChoice(cfg, c, sticky).model.Some?
    ensures Says(cfg, c, already, sticky, MakeDecision(cfg, c, FinalChoice(cfg, c, sticky), already))
  {
    TierOfChoice(cfg, c, sticky);
    var i := ChoiceIs(cfg, c, sticky);
    hide FinalChoice, TierIs, FirstOffer;
    assert SaysModel(cfg, c, MakeDecision(cfg, c, FinalChoice(cfg, c, sticky), already), i,
                     FinalChoice(cfg, c, sticky).model.value);
  }

  lemma NoModelIff(cfg: Config, c: Call, sticky: Option<RoutingState>)
    requires c.Decide?
    ensures FinalChoice(cfg, c, sticky).model.None? <==> forall i: nat, m :: !Offered(cfg, c, sticky, i, m)
  {
    FirstOfferWins(cfg, c, sticky);
    SixOffers(cfg, c, sticky);
    hide Offers, Offered, FinalChoice;
    forall j: nat, n
      ensures Offered(cfg, c, sticky, j, n) <==> j < 6 && Offers(cfg, c, sticky)[j] == Some(n)
    {
      OfferedIff(cfg, c, sticky, j, n);
    }
    if FinalChoice(cfg, c, sticky).model.Some? {
      var i :| 0 <= i < 6 && Offers(cfg, c, sticky)[i] == FinalChoice(cfg, c, sticky).model;
      assert Offered(cfg, c, sticky, i, FinalChoice(cfg, c, sticky).model.value);
    }
  }

  lemma SixOffers(cfg: Config, c: Call, sticky: Option<RoutingState>)
    requires c.Decide?
    ensures |Offers(cfg, c, sticky)| == 6
  {
    hide HintedModel, SaverApplies, HasModel;
  }

  // ---- One call on the store

  /** What the call finds in its slot at time `now`: nothing once the slot has expired. */
  ghost predicate Finds(slots: seq<Slot>, key: string, now: int, state: Option<RoutingState>) {
    match state
    case Some(known) => exists slot :: Lookup(slots, key) == Some(slot) && slot.state == known && now <= slot.expiresAt
    case None => forall slot :: Lookup(slots, key) == Some(slot) ==> slot.expiresAt < now
  }

  lemma FindsState(slots: seq<Slot>, key: string, now: int)
    ensures Finds(slots, key, now, GetState(slots, key, now))
  {
  }

  /** The slot that a call leaves behind for its key. */
  predicate Leaves(limits: Limits, slots: seq<Slot>, key: string, now: int, state: RoutingState) {
    Lookup(slots, key) == Some(Slot(key, state, now + limits.ttlMs)) && state.updatedAt == now
  }

  /** The slot remembers the decision. */
  predicate LeavesDecision(limits: Limits, slots: seq<Slot>, key: string, now: int, d: Decision) {
    Leaves(limits, slots, key, now, RoutingState(d.tier, Some(d.provider), Some(d.model), d.orchestrating, now))
  }

  /**
   What a decision on any store says and leaves behind: it depends on what its slot holds when the call looks it up,
   and, if it looks back for a model to stay with, on what the slot holds then.
   */
  lemma DecideMeaning(cfg: Config, limits: Limits, slots: seq<Slot>, c: Call)
    returns (known: Option<RoutingState>, sticky: Option<RoutingState>)
    requires c.Decide? && limits.capacity > 0 && Distinct(slots)
    ensures var key := if c.isMain then c.sessionId else c.sessionId + ":sub";
      && Finds(slots, key, c.at.lookup, known)
      && (LooksBack(cfg, c) && known.Some? ==> Finds(slots, key, c.at.sticky, sticky))
      && (!LooksBack(cfg, c) || known.None? ==> sticky.None?)
      && var (after, outcome) := StepOn(cfg, limits, slots, c);
         match outcome
         case Decided(d, classified) =>
           && Says(cfg, c, WasOrchestrating(known), sticky, d) && LeavesDecision(limits, after, key, c.at.store, d)
           && (classified <==> AsksSaver(cfg, c) && !exists m :: Remembers(sticky, m))
         case NoModel(classified) =>
           && (forall i: nat, m :: !Offered(cfg, c, sticky, i, m))
           && (classified <==> AsksSaver(cfg, c) && !exists m :: Remembers(sticky, m))
         case Invalidated(_, _) => false
  {
    var key := KeyOf(c);
    known := GetState(slots, key, c.at.lookup);
    SaverIff(cfg, c);
    sticky := if LooksForSticky(cfg, c) && known.Some? then GetState(slots, key, c.at.sticky) else None;
    FindsState(slots, key, c.at.lookup);
    FindsState(slots, key, c.at.sticky);
    StickyRead(slots, key, c.at.lookup, c.at.sticky);
    NoModelIff(cfg, c, sticky);
    RemembersSome(sticky);
    DecisionStored(cfg, limits, slots, c);
    hide Finds, Offered, Says, FinalChoice, MakeDecision, AsksSaver, LooksBack, LooksForSticky, SaverApplies, HasModel,
         Remembers, Lookup, GetState, AfterGet, AfterSet, Distinct, LeavesDecision;
    if StepOn(cfg, limits, slots, c).1.Decided? {
      DecisionSays(cfg, c, WasOrchestrating(known), sticky);
    }
  }

  lemma DecisionStored(cfg: Config, limits: Limits, slots: seq<Slot>, c: Call)
    requires c.Decide? && limits.capacity > 0 && Distinct(slots)
    ensures var (after, outcome) := StepOn(cfg, limits, slots, c);
      outcome.Decided? ==> LeavesDecision(limits, after, KeyOf(c), c.at.store, outcome.decision)
  {
    hide FinalChoice, MakeDecision, LooksForSticky, SaverApplies, HasModel, Lookup, GetState, AfterGet, AfterSet,
         Distinct;
    var key := KeyOf(c);
    var slots1 := AfterGet(slots, key, c.at.lookup);
    var slots2 := if LooksForSticky(cfg, c) then AfterGet(slots1, key, c.at.sticky) else slots1;
    AfterGetDistinct(slots, key, c.at.lookup);
    AfterGetDistinct(slots1, key, c.at.sticky);
    var outcome := StepOn(cfg, limits, slots, c).1;
    if outcome.Decided? {
      LookupAfterSet(slots2, Slot(key, StateOf(outcome.decision, c.at.store), c.at.store + limits.ttlMs),
                     limits.capacity);
    }
  }

  lemma StickyRead(slots: seq<Slot>, key: string, first: int, second: int)
    requires Distinct(slots)
    ensures GetState(AfterGet(slots, key, first), key, second)
         == if GetState(slots, key, first).None? then None else GetState(slots, key, second)
  {
    LookupAfterGet(slots, key, first, key);
    hide AfterGet, Lookup, Distinct;
  }

  lemma RemembersSome(state: Option<RoutingState>)
    ensures HasModel(state) <==> exists m :: Remembers(state, m)
  {
    forall m
      ensures Remembers(state, m) <==>
        HasModel(state) && m == ModelRef(state.value.stickyProvider.value, state.value.stickyModel.value)
    {
      RemembersIff(state, m);
    }
    hide Remembers, HasModel;
    if HasModel(state) {
      assert Remembers(state, ModelRef(state.value.stickyProvider.value, state.value.stickyModel.value));
    }
  }

  /** An invalidation answers with what it finds, and leaves the model and tier behind only while the session
      orchestrates with a tier. */
  lemma InvalidateMeaning(cfg: Config, limits: Limits, slots: seq<Slot>, c: Call)
    returns (known: Option<RoutingState>)
    requires c.Invalidate? && limits.capacity > 0 && Distinct(slots)
    ensures var (after, outcome) := StepOn(cfg, limits, slots, c);
      && Finds(slots, c.sessionId, c.at.lookup, known)
      && outcome.Invalidated? && outcome.orchestrating == WasOrchestrating(known)
      && outcome.previousTier == (match known case Some(state) => state.tier case None => None)
      && match (known, outcome.orchestrating, outcome.previousTier)
         case (Some(state), true, Some(tier)) =>
           Leaves(limits, after, c.sessionId, c.at.store,
                  if |tier| > 0 then state.(updatedAt := c.at.store)
                  else RoutingState(None, None, None, true, c.at.store))
         case _ =>
           Leaves(limits, after, c.sessionId, c.at.store,
                  RoutingState(None, None, None, WasOrchestrating(known), c.at.store))
  {
    var key := KeyOf(c);
    known := GetState(slots, key, c.at.lookup);
    FindsState(slots, key, c.at.lookup);
    AfterGetDistinct(slots, key, c.at.lookup);
    hide Finds, Lookup, GetState, AfterGet, AfterSet, Distinct;
    LookupAfterSet(AfterGet(slots, key, c.at.lookup),
                   Slot(key, Invalid(known, c.at.store), c.at.store + limits.ttlMs), limits.capacity);
  }

  // ---- Over a run

  /** The calls of a session come before the slot written by the one before expires. */
  predicate InTime(limits: Limits, calls: seq<Call>, deadline: int) {
    calls != [] ==>
      calls[0].at.lookup <= deadline && InTime(limits, calls[1..], calls[0].at.store + limits.ttlMs)
  }

  /** A decision whose tier starts orchestration. */
  predicate Starts(cfg: Config, o: Outcome) { o.Decided? && Triggers(cfg, o.decision.tier) }

  /** From call number `j` to call number `k`, every decision had something to inject or to strip. */
  predicate ChangesAllAlong(calls: seq<Call>, j: int, k: int)
    requires 0 <= j && k < |calls|
  {
    forall i :: j <= i <= k && calls[i].Decide? ==> Changes(calls[i])
  }

  /** Up to call number `k` the session has orchestrated from the start, or from a trigger tier on. */
  predicate Orchestrating(cfg: Config, calls: seq<Call>, outcomes: seq<Outcome>, already: bool, k: nat)
    requires k < |calls| == |outcomes|
  {
    || (already && ChangesAllAlong(calls, 0, k))
    || exists j :: 0 <= j <= k && Starts(cfg, outcomes[j]) && ChangesAllAlong(calls, j, k)
  }

  /** The decisions that orchestrate are exactly those. */
  ghost predicate OrchestratesSince(cfg: Config, calls: seq<Call>, outcomes: seq<Outcome>, already: bool) {
    |outcomes| == |calls| &&
    forall k :: 0 <= k < |calls| && outcomes[k].Decided? ==>
      (outcomes[k].decision.orchestrating <==>
         OrchestrationOn(cfg) && Orchestrating(cfg, calls, outcomes, already, k))
  }

  predicate CellOrchestrates(cell: Option<Slot>) { cell.Some? && cell.value.state.orchestrating }

  lemma OutcomesCons(cfg: Config, calls: seq<Call>, outcomes: seq<Outcome>, already: bool, k: nat)
    requires 0 < k < |calls| == |outcomes|
    ensures Orchestrating(cfg, calls, outcomes, already, k) <==>
      Orchestrating(cfg, calls[1..], outcomes[1..],
                    (already || Starts(cfg, outcomes[0])) && (calls[0].Decide? ==> Changes(calls[0])), k - 1)
  {
    hide Starts, Changes;
    var rest, later := calls[1..], outcomes[1..];
    assert forall i :: 1 <= i < |calls| ==> calls[i] == rest[i - 1] && outcomes[i] == later[i - 1];
    forall j | 1 <= j <= k
      ensures ChangesAllAlong(calls, j, k) <==> ChangesAllAlong(rest, j - 1, k - 1)
    {
      AlongShift(calls, j, k);
    }
    AlongFirst(calls, k);
    hide ChangesAllAlong;
    if j :| 0 <= j <= k - 1 && Starts(cfg, later[j]) && ChangesAllAlong(rest, j, k - 1) {
      assert Starts(cfg, outcomes[j + 1]) && ChangesAllAlong(calls, j + 1, k);
    }
    if j :| 1 <= j <= k && Starts(cfg, outcomes[j]) && ChangesAllAlong(calls, j, k) {
      assert Starts(cfg, later[j - 1]) && ChangesAllAlong(rest, j - 1, k - 1);
    }
  }

  lemma AlongShift(calls: seq<Call>, j: nat, k: nat)
    requires 1 <= j <= k < |calls|
    ensures ChangesAllAlong(calls, j, k) <==> ChangesAllAlong(calls[1..], j - 1, k - 1)
  {
    hide Changes;
    var rest := calls[1..];
    assert forall i :: j <= i <= k ==> calls[i] == rest[i - 1];
    assert forall i :: j - 1 <= i <= k - 1 ==> rest[i] == calls[i + 1];
  }

  lemma AlongFirst(calls: seq<Call>, k: nat)
    requires 0 < k < |calls|
    ensures ChangesAllAlong(calls, 0, k) <==>
      (calls[0].Decide? ==> Changes(calls[0])) && ChangesAllAlong(calls[1..], 0, k - 1)
  {
    hide Changes;
    AlongShift(calls, 1, k);
  }

  /** One call in a cell of its own. */
  lemma CellStep(cfg: Config, limits: Limits, cell: Option<Slot>, c: Call, s: string)
    requires cfg.defaultModel.Some? && Own(c, s)
    requires cell.Some? ==> c.at.lookup <= cell.value.expiresAt
    ensures var known, again := Read(cell, c.at.lookup), Read(cell, c.at.sticky);
      var o, after := OutcomeFromReads(cfg, c, known, again), Stored(cfg, limits, c, cell, known, again);
      && after.Some? && after.value.expiresAt == c.at.store + limits.ttlMs
      && if c.Decide? then
           && o.Decided? && (CellOrchestrates(after) <==> o.decision.orchestrating)
           && (o.decision.orchestrating <==>
                 OrchestrationOn(cfg) && Changes(c) && (CellOrchestrates(cell) || Starts(cfg, o)))
         else o.Invalidated? && (CellOrchestrates(after) <==> CellOrchestrates(cell))
  {
    var known, again := Read(cell, c.at.lookup), Read(cell, c.at.sticky);
    hide FinalChoice;
    if c.Decide? {
      var sticky := if LooksForSticky(cfg, c) && known.Some? then again else None;
      HasDefault(cfg, c, sticky);
      DecisionSays(cfg, c, WasOrchestrating(known), sticky);
      hide MakeDecision, TierIs, SaysModel, FirstOffer, Triggers, LooksForSticky, SaverApplies, HasModel;
    }
  }

  lemma HasDefault(cfg: Config, c: Call, sticky: Option<RoutingState>)
    requires c.Decide? && cfg.defaultModel.Some?
    ensures FinalChoice(cfg, c, sticky).model.Some?
  {
    hide SaverChoice, HintedModel;
  }

  lemma {:induction false} CellOrchestratesSince(
    cfg: Config, limits: Limits, cell: Option<Slot>, calls: seq<Call>, s: string)
    requires cfg.defaultModel.Some? && (forall c :: c in calls ==> Own(c, s))
    requires cell.Some? ==> InTime(limits, calls, cell.value.expiresAt)
    requires cell.None? && calls != [] ==> InTime(limits, calls[1..], calls[0].at.store + limits.ttlMs)
    ensures OrchestratesSince(cfg, calls, CellOutcomes(cfg, limits, cell, calls), CellOrchestrates(cell))
    decreases calls
  {
    if calls != [] {
      var c, rest := calls[0], calls[1..];
      var known, again := Read(cell, c.at.lookup), Read(cell, c.at.sticky);
      var o, after := OutcomeFromReads(cfg, c, known, again), Stored(cfg, limits, c, cell, known, again);
      var outcomes := CellOutcomes(cfg, limits, cell, calls);
      assert c in calls && forall x :: x in rest ==> x in calls;
      CellStep(cfg, limits, cell, c, s);
      assert outcomes[0] == o && outcomes[1..] == CellOutcomes(cfg, limits, after, rest);
      hide OutcomeFromReads, Stored, Own, Read, CellOutcomes, Starts, Changes, OrchestratesSince;
      CellOrchestratesSince(cfg, limits, after, rest, s);
      SinceCons(cfg, calls, outcomes, CellOrchestrates(cell), CellOrchestrates(after));
    }
  }

  lemma SinceCons(cfg: Config, calls: seq<Call>, outcomes: seq<Outcome>, already: bool, next: bool)
    requires calls != [] && outcomes != [] && OrchestratesSince(cfg, calls[1..], outcomes[1..], next)
    requires var c, o := calls[0], outcomes[0];
      if c.Decide? then
        && o.Decided? && (next <==> o.decision.orchestrating)
        && (o.decision.orchestrating <==> OrchestrationOn(cfg) && Changes(c) && (already || Starts(cfg, o)))
      else o.Invalidated? && (next <==> already)
    ensures OrchestratesSince(cfg, calls, outcomes, already)
  {
    hide Changes;
    forall k | 0 <= k < |calls| && outcomes[k].Decided?
      ensures outcomes[k].decision.orchestrating <==>
        OrchestrationOn(cfg) && Orchestrating(cfg, calls, outcomes, already, k)
    {
      if k > 0 {
        OutcomesCons(cfg, calls, outcomes, already, k);
        assert outcomes[k] == outcomes[1..][k - 1];
        assert OrchestrationOn(cfg) ==>
          (next <==> (already || Starts(cfg, outcomes[0])) && (calls[0].Decide? ==> Changes(calls[0])));
        hide Starts, Orchestrating, OrchestrationOn;
      }
    }
  }

  lemma InTimeCons(limits: Limits, calls: seq<Call>, deadline: int)
    requires calls != [] && calls[0].at.lookup <= deadline
    requires InTime(limits, calls[1..], calls[0].at.store + limits.ttlMs)
    ensures InTime(limits, calls, deadline)
  {
  }

  lemma NoneInTime(limits: Limits)
    ensures forall deadline :: InTime(limits, [], deadline)
  {
  }

  /**
   In any run of a store with room, whatever else is called in between, session `s`'s main agent orchestrates from its
   first decision with a trigger tier on, through later tiers and invalidations, for as long as every decision has
   something to inject or to strip; and never otherwise.
   */
  lemma OrchestratesFromTrigger(
    cfg: Config, limits: Limits, slots: seq<Slot>, calls: seq<Call>, s: string, keys: set<string>)
    requires Roomy(slots, limits, keys) && KeysOf(calls) <= keys && NoAlias(calls, s) && cfg.defaultModel.Some?
    requires var own, cell := OnlyOwn(calls, s), Lookup(slots, s);
      own != [] ==>
        && (cell.Some? ==> own[0].at.lookup <= cell.value.expiresAt)
        && InTime(limits, own[1..], own[0].at.store + limits.ttlMs)
    ensures OrchestratesSince(cfg, OnlyOwn(calls, s), OwnOutcomes(cfg, limits, slots, calls, s),
                              CellOrchestrates(Lookup(slots, s)))
  {
    hide *;
    RoomyIsDistinct(slots, limits, keys);
    StoreRefinesCell(cfg, limits, slots, calls, s, keys);
    OnlyOwnFacts(calls, s);
    var own, cell := OnlyOwn(calls, s), Lookup(slots, s);
    if own != [] && cell.Some? {
      InTimeCons(limits, own, cell.value.expiresAt);
    } else {
      NoneInTime(limits);
    }
    CellOrchestratesSince(cfg, limits, Lookup(slots, s), OnlyOwn(calls, s), s);
  }
}
