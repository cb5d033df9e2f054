/** Runs of routing calls: what one session's main agent can and cannot be influenced by. */
module RouterRouting {
  import opened Options
  import opened RouterProtocol
  import opened RouterStore
  import opened RouterDecide
  import opened Sets

  /** The calls that belong to the main agent of session `s`. */
  predicate Own(c: Call, s: string) {
    c.sessionId == s && (c.Decide? ==> c.isMain)
  }

  /** The outcomes of the calls of session `s`'s main agent in a run. */
  function OwnOutcomes(cfg: Config, limits: Limits, slots: seq<Slot>, calls: seq<Call>, s: string): seq<Outcome>
    requires limits.capacity > 0
    decreases calls
  {
    if calls == [] then []
    else
      var (after, outcome) := StepOn(cfg, limits, slots, calls[0]);
      (if Own(calls[0], s) then [outcome] else []) + OwnOutcomes(cfg, limits, after, calls[1..], s)
  }

  function OnlyOwn(calls: seq<Call>, s: string): seq<Call> {
    if calls == [] then [] else (if Own(calls[0], s) then [calls[0]] else []) + OnlyOwn(calls[1..], s)
  }

  function KeysOf(calls: seq<Call>): set<string> {
    if calls == [] then {} else {KeyOf(calls[0])} + KeysOf(calls[1..])
  }

  /** No sub-agent call uses the key of session `s`'s main agent. */
  predicate NoAlias(calls: seq<Call>, s: string) {
    forall c :: c in calls && c.Decide? && !c.isMain ==> c.sessionId + ":sub" != s
  }

  lemma OwnKey(c: Call, s: string)
    ensures KeyOf(c) == s <==> Own(c, s) || (c.Decide? && !c.isMain && c.sessionId + ":sub" == s)
  {
    SharedKey(c.sessionId, c.Decide? && !c.isMain, s, false);
  }

  // ---- One call

  /** A store with room for every key of `keys`. */
  ghost predicate Roomy(slots: seq<Slot>, limits: Limits, keys: set<string>) {
    limits.capacity > 0 && limits.ttlMs > 0 && Distinct(slots) && Keys(slots) <= keys && |keys| <= limits.capacity
  }

  lemma RoomyRead(slots: seq<Slot>, limits: Limits, keys: set<string>, key: string, now: int)
    requires Roomy(slots, limits, keys)
    ensures Roomy(AfterGet(slots, key, now), limits, keys)
  {
    AfterGetDistinct(slots, key, now);
  }

  /** In a roomy store a write is a plain map update. */
  lemma RoomyWrite(slots: seq<Slot>, limits: Limits, keys: set<string>, slot: Slot, other: string)
    requires Roomy(slots, limits, keys) && slot.key in keys
    ensures Roomy(AfterSet(slots, slot, limits.capacity), limits, keys)
    ensures Lookup(AfterSet(slots, slot, limits.capacity), other) ==
            if other == slot.key then Some(slot) else Lookup(slots, other)
  {
    SizeIsKeys(slots);
    SubsetSize(Keys(slots), keys);
    LookupKeys(slots, slot.key);
    AfterSetDistinct(slots, slot, limits.capacity);
    LookupAfterSet(slots, slot, limits.capacity);
    if other != slot.key {
      WriteKeepsOthers(slots, slot, limits.capacity, other);
    }
  }

  /** What a call reads of its own slot: the state found first, and the one looked for as sticky model. */
  lemma ReadTwice(
    slots: seq<Slot>, limits: Limits, keys: set<string>, key: string, first: int, second: int, other: string)
    requires Roomy(slots, limits, keys)
    ensures Roomy(AfterGet(AfterGet(slots, key, first), key, second), limits, keys)
    ensures GetState(AfterGet(slots, key, first), key, second) ==
            if GetState(slots, key, first).None? then None else GetState(slots, key, second)
    ensures other != key ==> Lookup(AfterGet(AfterGet(slots, key, first), key, second), other) == Lookup(slots, other)
    ensures Lookup(AfterGet(AfterGet(slots, key, first), key, second), key) ==
            if GetState(slots, key, first).None? || GetState(slots, key, second).None? then None else Lookup(slots, key)
  {
    RoomyRead(slots, limits, keys, key, first);
    RoomyRead(AfterGet(slots, key, first), limits, keys, key, second);
    LookupAfterGet(slots, key, first, key);
    LookupAfterGet(slots, key, first, other);
    LookupAfterGet(AfterGet(slots, key, first), key, second, key);
    LookupAfterGet(AfterGet(slots, key, first), key, second, other);
  }

  /** A call to another key leaves this one alone. */
  lemma OtherStep(cfg: Config, limits: Limits, slots: seq<Slot>, c: Call, keys: set<string>, s: string)
    requires Roomy(slots, limits, keys) && KeyOf(c) in keys && KeyOf(c) != s
    ensures Roomy(StepOn(cfg, limits, slots, c).0, limits, keys)
    ensures Lookup(StepOn(cfg, limits, slots, c).0, s) == Lookup(slots, s)
  {
    hide Roomy, AfterGet, AfterSet, GetState, Lookup, FinalChoice, MakeDecision, SaverApplies, LooksForSticky, Invalid;
    var key := KeyOf(c);
    RoomyRead(slots, limits, keys, key, c.at.lookup);
    var slots1 := AfterGet(slots, key, c.at.lookup);
    assert Lookup(slots1, s) == Lookup(slots, s) by {
      RoomyIsDistinct(slots, limits, keys);
      LookupAfterGet(slots, key, c.at.lookup, s);
    }
    if c.Decide? {
      ReadTwice(slots, limits, keys, key, c.at.lookup, c.at.sticky, s);
      var slots2 := if LooksForSticky(cfg, c) then AfterGet(slots1, key, c.at.sticky) else slots1;
      var step := DecideOn(cfg, limits, slots, c);
      if step.1.Decided? {
        var slot := Slot(key, StateOf(step.1.decision, c.at.store), c.at.store + limits.ttlMs);
        RoomyWrite(slots2, limits, keys, slot, s);
      }
    } else {
      var slot := Slot(key, Invalid(GetState(slots, key, c.at.lookup), c.at.store), c.at.store + limits.ttlMs);
      RoomyWrite(slots1, limits, keys, slot, s);
    }
  }

  lemma RoomyIsDistinct(slots: seq<Slot>, limits: Limits, keys: set<string>)
    requires Roomy(slots, limits, keys)
    ensures Distinct(slots) && limits.capacity > 0
  {
  }

  /** The outcome of a call in terms of what its two reads find. */
  function OutcomeFromReads(cfg: Config, c: Call, known: Option<RoutingState>, again: Option<RoutingState>): Outcome {
    if c.Invalidate? then
      Invalidated(if known.Some? then known.value.tier else None, known.Some? && known.value.orchestrating)
    else
      var sticky := if LooksForSticky(cfg, c) && known.Some? then again else None;
      var choice := FinalChoice(cfg, c, sticky);
      var classified := SaverApplies(cfg, c) && !HasModel(sticky);
      if choice.model.None? then NoModel(classified)
      else Decided(MakeDecision(cfg, c, choice, known.Some? && known.value.orchestrating), classified)
  }

  /** The slot of a call's key afterwards. */
  function Stored(cfg: Config, limits: Limits, c: Call, before: Option<Slot>, known: Option<RoutingState>,
                  again: Option<RoutingState>): Option<Slot> {
    var expires := c.at.store + limits.ttlMs;
    if c.Invalidate? then Some(Slot(KeyOf(c), Invalid(known, c.at.store), expires))
    else match OutcomeFromReads(cfg, c, known, again)
      case Decided(d, _) => Some(Slot(KeyOf(c), StateOf(d, c.at.store), expires))
      case _ => if known.None? || (LooksForSticky(cfg, c) && again.None?) then None else before
  }

  lemma StepFromReads(cfg: Config, limits: Limits, slots: seq<Slot>, c: Call, keys: set<string>)
    requires Roomy(slots, limits, keys) && KeyOf(c) in keys
    ensures Roomy(StepOn(cfg, limits, slots, c).0, limits, keys)
    ensures var known, again := GetState(slots, KeyOf(c), c.at.lookup), GetState(slots, KeyOf(c), c.at.sticky);
            var step := StepOn(cfg, limits, slots, c);
            && step.1 == OutcomeFromReads(cfg, c, known, again)
            && Lookup(step.0, KeyOf(c)) == Stored(cfg, limits, c, Lookup(slots, KeyOf(c)), known, again)
  {
    hide Roomy, AfterGet, AfterSet, GetState, Lookup, FinalChoice, MakeDecision, SaverApplies, LooksForSticky,
         Invalid, HasModel;
    var key := KeyOf(c);
    RoomyRead(slots, limits, keys, key, c.at.lookup);
    var slots1 := AfterGet(slots, key, c.at.lookup);
    RoomyIsDistinct(slots, limits, keys);
    LookupAfterGet(slots, key, c.at.lookup, key);
    if c.Decide? {
      ReadTwice(slots, limits, keys, key, c.at.lookup, c.at.sticky, key);
      var slots2 := if LooksForSticky(cfg, c) then AfterGet(slots1, key, c.at.sticky) else slots1;
      var step := DecideOn(cfg, limits, slots, c);
      if step.1.Decided? {
        var slot := Slot(key, StateOf(step.1.decision, c.at.store), c.at.store + limits.ttlMs);
        RoomyWrite(slots2, limits, keys, slot, key);
      }
    } else {
      var slot := Slot(key, Invalid(GetState(slots, key, c.at.lookup), c.at.store), c.at.store + limits.ttlMs);
      RoomyWrite(slots1, limits, keys, slot, key);
    }
  }

  // ---- Non-interference

  function Read(cell: Option<Slot>, now: int): Option<RoutingState> {
    if cell.None? || cell.value.expiresAt < now then None else Some(cell.value.state)
  }

  /** The outcomes of a session's calls when its slot is a cell of its own. */
  function CellOutcomes(cfg: Config, limits: Limits, cell: Option<Slot>, calls: seq<Call>): seq<Outcome>
    decreases calls
  {
    if calls == [] then []
    else
      var c := calls[0];
      var known, again := Read(cell, c.at.lookup), Read(cell, c.at.sticky);
      [OutcomeFromReads(cfg, c, known, again)]
      + CellOutcomes(cfg, limits, Stored(cfg, limits, c, cell, known, again), calls[1..])
  }

  /** In a roomy store every main agent has, in effect, a cell of its own. */
  lemma {:induction false} StoreRefinesCell(
    cfg: Config, limits: Limits, slots: seq<Slot>, calls: seq<Call>, s: string, keys: set<string>)
    requires Roomy(slots, limits, keys) && KeysOf(calls) <= keys && NoAlias(calls, s)
    ensures OwnOutcomes(cfg, limits, slots, calls, s) == CellOutcomes(cfg, limits, Lookup(slots, s), OnlyOwn(calls, s))
    decreases calls
  {
    hide Roomy, StepOn, Lookup, OutcomeFromReads, Stored;
    RoomyIsDistinct(slots, limits, keys);
    if calls != [] {
      var c, rest := calls[0], calls[1..];
      var after := StepOn(cfg, limits, slots, c).0;
      OwnKey(c, s);
      assert c in calls;
      if Own(c, s) {
        StepFromReads(cfg, limits, slots, c, keys);
        StoreRefinesCell(cfg, limits, after, rest, s, keys);
        assert OnlyOwn(calls, s)[0] == c && OnlyOwn(calls, s)[1..] == OnlyOwn(rest, s);
      } else {
        OtherStep(cfg, limits, slots, c, keys, s);
        StoreRefinesCell(cfg, limits, after, rest, s, keys);
        assert OnlyOwn(calls, s) == OnlyOwn(rest, s);
      }
    }
  }

  lemma {:induction false} OnlyOwnFacts(calls: seq<Call>, s: string)
    ensures OnlyOwn(OnlyOwn(calls, s), s) == OnlyOwn(calls, s)
    ensures KeysOf(OnlyOwn(calls, s)) <= KeysOf(calls)
    ensures forall c :: c in OnlyOwn(calls, s) ==> c in calls && Own(c, s)
  {
    if calls != [] {
      OnlyOwnFacts(calls[1..], s);
      if Own(calls[0], s) {
        assert OnlyOwn(calls, s)[1..] == OnlyOwn(calls[1..], s);
      } else {
        assert OnlyOwn(calls, s) == OnlyOwn(calls[1..], s);
      }
    }
  }

  /**
   Non-interference: as long as the store has room for all sessions of a run and no sub-agent call borrows
   the key of session `s`, its main agent gets the outcomes it would get if all other calls were deleted.
   */
  lemma NonInterference(cfg: Config, limits: Limits, calls: seq<Call>, s: string)
    requires limits.ttlMs > 0 && |KeysOf(calls)| <= limits.capacity && limits.capacity > 0
    requires NoAlias(calls, s)
    ensures OwnOutcomes(cfg, limits, [], calls, s) == OwnOutcomes(cfg, limits, [], OnlyOwn(calls, s), s)
  {
    OnlyOwnFacts(calls, s);
    StoreRefinesCell(cfg, limits, [], calls, s, KeysOf(calls));
    StoreRefinesCell(cfg, limits, [], OnlyOwn(calls, s), s, KeysOf(calls));
  }

  // ---- The condition on keys is needed

  const JUDGING := Config(None, Some(TokenSaver(true, JudgeToo)), None)

  /** A request of several messages that the judge would put into `tier`. */
  function Asked(sessionId: string, isMain: bool, tier: string): Call {
    Decide(sessionId, isMain, 2, ModelRef("", ""), Scenario(DefaultScenario, None, !isMain, None),
           Some(Classification(tier, Some(ModelRef("p", "m")))), false, false, Patch([], None, None), Times(0, 0, 0))
  }

  /** With an empty slot the judge decides, and its tier is stored. */
  lemma AskedFresh(limits: Limits, slots: seq<Slot>, sessionId: string, isMain: bool, tier: string)
    requires ValidStore(slots, limits) && Lookup(slots, MakeKey(sessionId, !isMain)) == None
    ensures var (after, outcome) := StepOn(JUDGING, limits, slots, Asked(sessionId, isMain, tier));
            && Tier(outcome) == Some(tier)
            && StoresTier(after, MakeKey(sessionId, !isMain), tier)
            && after[..|after| - 1] == MadeRoom(slots, limits.capacity)
  {
    var after := StepOn(JUDGING, limits, slots, Asked(sessionId, isMain, tier)).0;
    LookupAfterSet(slots, after[|after| - 1], limits.capacity);
  }

  /** With a stored tier the judge is not asked. */
  lemma AskedAgain(limits: Limits, slots: seq<Slot>, sessionId: string, isMain: bool, tier: string, stored: string)
    requires limits.capacity > 0 && Distinct(slots) && StoresTier(slots, MakeKey(sessionId, !isMain), stored)
    ensures Tier(StepOn(JUDGING, limits, slots, Asked(sessionId, isMain, tier)).1) == Some(stored)
  {
    var key := MakeKey(sessionId, !isMain);
    LookupAfterGet(slots, key, 0, key);
  }

  function Tier(outcome: Outcome): Option<string> {
    if outcome.Decided? then outcome.decision.tier else None
  }

  /** The last slot is the only one for `key` and holds a model that was chosen for `tier`. */
  predicate StoresTier(slots: seq<Slot>, key: string, tier: string) {
    |slots| > 0 && var slot := slots[|slots| - 1];
    slot.key == key && Lookup(slots, key) == Some(slot) && HasModel(Some(slot.state)) && slot.state.tier == Some(tier)
    && slot.expiresAt >= 0
  }

  lemma OwnCons(cfg: Config, limits: Limits, slots: seq<Slot>, c: Call, rest: seq<Call>, s: string)
    requires limits.capacity > 0
    ensures OwnOutcomes(cfg, limits, slots, [c] + rest, s) ==
            (if Own(c, s) then [StepOn(cfg, limits, slots, c).1] else [])
            + OwnOutcomes(cfg, limits, StepOn(cfg, limits, slots, c).0, rest, s)
    ensures OnlyOwn([c] + rest, s) == (if Own(c, s) then [c] else []) + OnlyOwn(rest, s)
  {
    assert ([c] + rest)[1..] == rest;
  }

  lemma KeysOfTwo(c: Call, d: Call)
    ensures KeysOf([c] + [d]) == {KeyOf(c), KeyOf(d)}
  {
    hide KeyOf;
    var all := [c] + [d];
    assert all[0] == c && all[1..] == [d] && [d][1..] == [];
    assert KeysOf([d]) == {KeyOf(d)} + KeysOf([]);
    assert KeysOf(all) == {KeyOf(c)} + KeysOf([d]);
  }

  /** A sub-agent call of session `a` changes what the main agent of session `a:sub` gets. */
  lemma AliasInterferes(a: string, limits: Limits) returns (calls: seq<Call>)
    requires limits.capacity > 0 && limits.ttlMs > 0
    ensures KeysOf(calls) == {a + ":sub"}
    ensures OwnOutcomes(JUDGING, limits, [], calls, a + ":sub")
         != OwnOutcomes(JUDGING, limits, [], OnlyOwn(calls, a + ":sub"), a + ":sub")
  {
    var s := a + ":sub";
    var sub, main := Asked(a, false, "low"), Asked(s, true, "high");
    AskedFresh(limits, [], a, false, "low");
    AskedFresh(limits, [], s, true, "high");
    var after := StepOn(JUDGING, limits, [], sub).0;
    StepDistinct(limits, [], sub);
    AskedAgain(limits, after, s, true, "high", "low");
    var low, high := StepOn(JUDGING, limits, after, main).1, StepOn(JUDGING, limits, [], main).1;
    assert low != high;
    assert !Own(sub, s) && Own(main, s);
    assert KeyOf(sub) == KeyOf(main) == s;
    hide KeyOf, KeysOf, Own, Asked;
    hide StepOn, AfterSet, MadeRoom, Tier;
    OwnCons(JUDGING, limits, [], sub, [main], s);
    OwnCons(JUDGING, limits, after, main, [], s);
    OwnCons(JUDGING, limits, [], main, [], s);
    assert [main] + [] == [main] && [low] + [] == [low] && [high] + [] == [high];
    calls := [sub] + [main];
    KeysOfTwo(sub, main);
    assert OwnOutcomes(JUDGING, limits, [], [sub] + [main], s)[0] == low;
    assert OwnOutcomes(JUDGING, limits, [], OnlyOwn([sub] + [main], s), s)[0] == high;
  }

  lemma StepDistinct(limits: Limits, slots: seq<Slot>, c: Call)
    requires ValidStore(slots, limits)
    ensures ValidStore(StepOn(JUDGING, limits, slots, c).0, limits)
  {
    var key := KeyOf(c);
    AfterGetDistinct(slots, key, c.at.lookup);
    AfterGetDistinct(AfterGet(slots, key, c.at.lookup), key, c.at.sticky);
    hide AfterGet, AfterSet, Distinct, FinalChoice, MakeDecision, SaverApplies, LooksForSticky, Invalid, GetState,
         HasModel;
    forall rest: seq<Slot>, slot: Slot | Distinct(rest) && |rest| <= limits.capacity
      ensures Distinct(AfterSet(rest, slot, limits.capacity))
      ensures |AfterSet(rest, slot, limits.capacity)| <= limits.capacity
    {
      AfterSetDistinct(rest, slot, limits.capacity);
    }
  }
}
