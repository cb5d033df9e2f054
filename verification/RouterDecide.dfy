/**
 `decide` and `invalidateSticky` of src/router/RouterRuntime.ts: which provider and model a request goes
 to, and what is remembered about it for the next request of the same session.

 `DecideOn` and `InvalidateOn` describe one call as a function of the stored slots; the class does the same
 step by step on the store. What the judge, a custom router, the scenario detection and the prompt
 injection answer is part of each call.
 */
module RouterDecide {
  import opened Options
  import opened RouterProtocol
  import opened RouterStore
  import Text

  datatype SubagentPolicy = Skip | JudgeToo

  datatype TokenSaver = TokenSaver(enabled: bool, subagentPolicy: SubagentPolicy)

  datatype Orchestrate = Orchestrate(
    enabled: bool,
    mainAgentModel: Option<ModelRef>,
    subagentModel: Option<ModelRef>,
    triggerTiers: seq<string>)

  datatype Config = Config(
    defaultModel: Option<ModelRef>,
    tokenSaver: Option<TokenSaver>,
    orchestrate: Option<Orchestrate>)

  /** What `decideScenario` finds in a request. */
  datatype Scenario = Scenario(
    scenarioType: ScenarioType,
    selection: Option<ModelRef>,
    isSubagent: bool,
    modelHint: Option<string>)

  datatype Classification = Classification(tier: string, selection: Option<ModelRef>)

  /** A call reads the clock when it looks up the session, when it looks for a sticky model, and when it stores. */
  datatype Times = Times(lookup: int, sticky: int, store: int)

  datatype Call =
    | Decide(
        sessionId: string,
        isMain: bool,
        messageCount: nat,
        custom: ModelRef,                  // empty strings: the custom router said nothing
        scenario: Scenario,
        judge: Option<Classification>,     // what the classification answers if it is asked
        injects: bool,                     // whether there is an orchestration prompt to inject
        strips: bool,                      // whether orchestration would change tools or system prompt
        patch: Patch,
        at: Times)
    | Invalidate(sessionId: string, at: Times)

  datatype Outcome =
    | Decided(decision: Decision, classified: bool)
    | NoModel(classified: bool)
    | Invalidated(previousTier: Option<string>, orchestrating: bool)

  function KeyOf(c: Call): string {
    MakeKey(c.sessionId, c.Decide? && !c.isMain)
  }

  // ---- The pieces of a decision

  predicate SaverApplies(cfg: Config, c: Call)
    requires c.Decide?
  {
    && c.custom.provider == ""
    && c.scenario.scenarioType != ExplicitScenario
    && cfg.tokenSaver.Some? && cfg.tokenSaver.value.enabled
    && (c.isMain || cfg.tokenSaver.value.subagentPolicy != Skip)
  }

  /** Whether a stored model is looked for at all. */
  predicate LooksForSticky(cfg: Config, c: Call)
    requires c.Decide?
  {
    SaverApplies(cfg, c) && c.messageCount > 1 && (c.isMain || cfg.tokenSaver.value.subagentPolicy == JudgeToo)
  }

  predicate IsSet(name: Option<string>) { name.Some? && name.value != "" }

  predicate HasModel(state: Option<RoutingState>) {
    state.Some? && IsSet(state.value.stickyProvider) && IsSet(state.value.stickyModel)
  }

  datatype Choice = Choice(model: Option<ModelRef>, scenarioType: ScenarioType, from: Resolution, tier: Option<string>)

  function InitialChoice(c: Call): Choice
    requires c.Decide?
  {
    Choice(if c.custom.provider != "" && c.custom.model != "" then Some(c.custom) else c.scenario.selection,
           c.scenario.scenarioType,
           if c.custom.provider != "" then ByCustom
           else if c.scenario.scenarioType == ExplicitScenario then ByExplicit else ByScenario,
           None)
  }

  /** `sticky` is the stored state if it was looked for and found. */
  function SaverChoice(cfg: Config, c: Call, sticky: Option<RoutingState>): Choice
    requires c.Decide?
  {
    var start := InitialChoice(c);
    if !SaverApplies(cfg, c) then start
    else if HasModel(sticky) then
      start.(model := Some(ModelRef(sticky.value.stickyProvider.value, sticky.value.stickyModel.value)),
             from := ByTokenSaver, tier := sticky.value.tier)
    else match c.judge
      case None => start
      case Some(answer) =>
        if answer.selection.Some? then
          start.(model := answer.selection, from := ByTokenSaver, tier := Some(answer.tier))
        else start.(tier := Some(answer.tier))
  }

  /** The model named by a "provider/model" hint in the messages. */
  function HintedModel(hint: Option<string>): Option<ModelRef> {
    match hint
    case None => None
    case Some(h) =>
      var slash := Text.IndexOf(h, '/');
      if slash < |h| && h[..slash] != "" && h[slash + 1..] != "" then Some(ModelRef(h[..slash], h[slash + 1..]))
      else None
  }

  function FinalChoice(cfg: Config, c: Call, sticky: Option<RoutingState>): Choice
    requires c.Decide?
  {
    var saver := SaverChoice(cfg, c, sticky);
    var hinted := if saver.model.None? && HintedModel(c.scenario.modelHint).Some?
                  then saver.(model := HintedModel(c.scenario.modelHint), from := ByExplicit) else saver;
    if hinted.model.None? then
      hinted.(model := cfg.defaultModel,
              scenarioType := if hinted.scenarioType == ExplicitScenario then ExplicitScenario else DefaultScenario)
    else hinted
  }

  /** What each source offers, the strongest first: the remembered model, the judge, the custom router, the
      scenario, the hint in the messages, and the default. */
  function Offers(cfg: Config, c: Call, sticky: Option<RoutingState>): seq<Option<ModelRef>>
    requires c.Decide?
  {
    var saver := SaverApplies(cfg, c);
    [if saver && HasModel(sticky)
     then Some(ModelRef(sticky.value.stickyProvider.value, sticky.value.stickyModel.value)) else None,
     if saver && c.judge.Some? then c.judge.value.selection else None,
     if c.custom.provider != "" && c.custom.model != "" then Some(c.custom) else None,
     c.scenario.selection,
     HintedModel(c.scenario.modelHint),
     cfg.defaultModel]
  }

  /** The chosen model is the first one offered, and there is none only if no source offers one. */
  lemma FirstOfferWins(cfg: Config, c: Call, sticky: Option<RoutingState>)
    requires c.Decide?
    ensures var offers, model := Offers(cfg, c, sticky), FinalChoice(cfg, c, sticky).model;
      if forall i :: 0 <= i < |offers| ==> offers[i].None? then model.None?
      else exists i ::
        0 <= i < |offers| && model.Some? && offers[i] == model && forall j :: 0 <= j < i ==> offers[j].None?
    ensures FinalChoice(cfg, c, sticky).tier.Some? ==> SaverApplies(cfg, c)
  {
    hide HintedModel;
    var offers, model := Offers(cfg, c, sticky), FinalChoice(cfg, c, sticky).model;
    var i := if offers[0].Some? then 0 else if offers[1].Some? then 1 else if offers[2].Some? then 2
             else if offers[3].Some? then 3 else if offers[4].Some? then 4 else 5;
    hide Offers, FinalChoice, SaverChoice, InitialChoice, SaverApplies, HasModel;
    assert i < |offers| && model == offers[i];
  }

  predicate Orchestrates(cfg: Config, c: Call, tier: Option<string>, already: bool)
    requires c.Decide?
  {
    && cfg.orchestrate.Some? && cfg.orchestrate.value.enabled
    && ((cfg.tokenSaver.Some? && cfg.tokenSaver.value.enabled && tier.Some?) || already)
    && c.isMain
    && (already || cfg.orchestrate.value.triggerTiers == []
        || (IsSet(tier) && tier.value in cfg.orchestrate.value.triggerTiers))
    && (c.injects || c.strips)
  }

  /** The decision for a chosen model; `already` says that the session was orchestrating before. */
  function MakeDecision(cfg: Config, c: Call, choice: Choice, already: bool): Decision
    requires c.Decide? && choice.model.Some?
  {
    var orchestrating := Orchestrates(cfg, c, choice.tier, already);
    var forSub := !c.isMain && cfg.orchestrate.Some? && cfg.orchestrate.value.subagentModel.Some?;
    var model :=
      if forSub then cfg.orchestrate.value.subagentModel.value
      else if orchestrating && cfg.orchestrate.value.mainAgentModel.Some? then
        cfg.orchestrate.value.mainAgentModel.value
      else choice.model.value;
    Decision(model.provider, model.model, choice.scenarioType, choice.tier, c.scenario.isSubagent, orchestrating,
             choice.from,
             Mutations(if orchestrating && c.injects then Some(choice.tier.GetOr("main")) else None, forSub,
                       c.scenario.modelHint.Some? || c.scenario.isSubagent),
             if orchestrating then Some(c.patch) else None)
  }

  // ---- One call on the stored slots

  datatype Limits = Limits(capacity: nat, ttlMs: int)

  predicate ValidStore(slots: seq<Slot>, limits: Limits) {
    limits.capacity > 0 && limits.ttlMs > 0 && Distinct(slots) && |slots| <= limits.capacity
  }

  function StateOf(d: Decision, now: int): RoutingState {
    RoutingState(d.tier, Some(d.provider), Some(d.model), d.orchestrating, now)
  }

  function DecideOn(cfg: Config, limits: Limits, slots: seq<Slot>, c: Call): (r: (seq<Slot>, Outcome))
    requires c.Decide? && limits.capacity > 0
  {
    var key := KeyOf(c);
    var known, slots1 := GetState(slots, key, c.at.lookup), AfterGet(slots, key, c.at.lookup);
    var looks := LooksForSticky(cfg, c);
    var sticky := if looks then GetState(slots1, key, c.at.sticky) else None;
    var slots2 := if looks then AfterGet(slots1, key, c.at.sticky) else slots1;
    var choice := FinalChoice(cfg, c, sticky);
    var classified := SaverApplies(cfg, c) && !HasModel(sticky);
    if choice.model.None? then (slots2, NoModel(classified))
    else
      var d := MakeDecision(cfg, c, choice, known.Some? && known.value.orchestrating);
      (AfterSet(slots2, Slot(key, StateOf(d, c.at.store), c.at.store + limits.ttlMs), limits.capacity),
       Decided(d, classified))
  }

  /** What is left of a state when a new user turn begins. */
  function Invalid(known: Option<RoutingState>, now: int): RoutingState {
    if known.Some? && known.value.orchestrating && IsSet(known.value.tier) then known.value.(updatedAt := now)
    else RoutingState(None, None, None, known.Some? && known.value.orchestrating, now)
  }

  function InvalidateOn(limits: Limits, slots: seq<Slot>, c: Call): (r: (seq<Slot>, Outcome))
    requires c.Invalidate? && limits.capacity > 0
  {
    var key := KeyOf(c);
    var known, slots1 := GetState(slots, key, c.at.lookup), AfterGet(slots, key, c.at.lookup);
    (AfterSet(slots1, Slot(key, Invalid(known, c.at.store), c.at.store + limits.ttlMs), limits.capacity),
     Invalidated(if known.Some? then known.value.tier else None, known.Some? && known.value.orchestrating))
  }

  function StepOn(cfg: Config, limits: Limits, slots: seq<Slot>, c: Call): (r: (seq<Slot>, Outcome))
    requires limits.capacity > 0
  {
    if c.Decide? then DecideOn(cfg, limits, slots, c) else InvalidateOn(limits, slots, c)
  }

  // ---- The same calls on the store object

  class RouterRuntime {
    const config: Config
    const sessionStore: SessionRouterStore

    constructor (config: Config, sessionStore: SessionRouterStore)
      ensures this.config == config && this.sessionStore == sessionStore
    {
      this.config := config;
      this.sessionStore := sessionStore;
    }

    function TheLimits(): Limits {
      Limits(sessionStore.capacity, sessionStore.ttlMs)
    }

    /** The custom router, the scenario and the token saver: everything before the fallbacks of last resort. */
    method ChooseModel(c: Call) returns (choice: Choice, classified: bool)
      requires c.Decide? && sessionStore.Valid()
      modifies sessionStore
      ensures sessionStore.Valid()
      ensures var looks := LooksForSticky(config, c);
              var sticky := if looks then GetState(old(sessionStore.slots), KeyOf(c), c.at.sticky) else None;
              && sessionStore.slots == (if looks then AfterGet(old(sessionStore.slots), KeyOf(c), c.at.sticky)
                                        else old(sessionStore.slots))
              && choice == SaverChoice(config, c, sticky)
              && classified == (SaverApplies(config, c) && !HasModel(sticky))
    {
      hide AfterGet, GetState, Distinct;
      var selection := if c.custom.provider != "" && c.custom.model != "" then Some(c.custom) else c.scenario.selection;
      var resolvedFrom := if c.custom.provider != "" then ByCustom
                          else if c.scenario.scenarioType == ExplicitScenario then ByExplicit else ByScenario;
      var tokenSaverTier: Option<string> := None;
      classified := false;
      if SaverApplies(config, c) {
        var stickyHit := false;
        if LooksForSticky(config, c) {
          var sticky := sessionStore.Get(MakeKey(c.sessionId, !c.isMain), c.at.sticky);
          if HasModel(sticky) {
            selection := Some(ModelRef(sticky.value.stickyProvider.value, sticky.value.stickyModel.value));
            resolvedFrom := ByTokenSaver;
            tokenSaverTier := sticky.value.tier;
            stickyHit := true;
          }
        }
        if !stickyHit {
          classified := true;
          if c.judge.Some? {
            if c.judge.value.selection.Some? {
              selection := c.judge.value.selection;
              resolvedFrom := ByTokenSaver;
            }
            tokenSaverTier := Some(c.judge.value.tier);
          }
        }
      }
      choice := Choice(selection, c.scenario.scenarioType, resolvedFrom, tokenSaverTier);
    }

    method Decide(c: Call) returns (outcome: Outcome)
      requires c.Decide? && sessionStore.Valid()
      modifies sessionStore
      ensures sessionStore.Valid()
      ensures (sessionStore.slots, outcome) == DecideOn(config, TheLimits(), old(sessionStore.slots), c)
    {
      hide AfterGet, AfterSet, GetState, Distinct, HintedModel, MakeDecision, StateOf, SaverApplies, SaverChoice,
           LooksForSticky, HasModel;
      var key := MakeKey(c.sessionId, !c.isMain);
      var known := sessionStore.Get(key, c.at.lookup);
      var choice, classified := ChooseModel(c);
      if choice.model.None? && HintedModel(c.scenario.modelHint).Some? {
        choice := choice.(model := HintedModel(c.scenario.modelHint), from := ByExplicit);
      }
      if choice.model.None? {
        choice := choice.(model := config.defaultModel,
                          scenarioType := if choice.scenarioType == ExplicitScenario then ExplicitScenario
                                          else DefaultScenario);
      }
      if choice.model.None? {
        return NoModel(classified);
      }
      var decision := MakeDecision(config, c, choice, known.Some? && known.value.orchestrating);
      sessionStore.Set(key, StateOf(decision, c.at.store), c.at.store);
      return Decided(decision, classified);
    }

    method InvalidateSticky(c: Call) returns (outcome: Outcome)
      requires c.Invalidate? && sessionStore.Valid()
      modifies sessionStore
      ensures sessionStore.Valid()
      ensures (sessionStore.slots, outcome) == InvalidateOn(TheLimits(), old(sessionStore.slots), c)
    {
      var key := MakeKey(c.sessionId, false);
      var current := sessionStore.Get(key, c.at.lookup);
      var previousTier := if current.Some? then current.value.tier else None;
      var orchestrating := current.Some? && current.value.orchestrating;
      if orchestrating && IsSet(previousTier) {
        var kept := RoutingState(previousTier, current.value.stickyProvider, current.value.stickyModel,
                                 orchestrating, c.at.store);
        sessionStore.Set(key, kept, c.at.store);
      } else {
        sessionStore.Set(key, RoutingState(None, None, None, orchestrating, c.at.store), c.at.store);
      }
      return Invalidated(previousTier, orchestrating);
    }
  }
}
