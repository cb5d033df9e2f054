/** How much room non-interference needs: exactly as many slots as a run uses keys. */
module RouterCapacity {
  import opened Options
  import opened RouterStore
  import opened RouterDecide
  import opened RouterRouting

  /** Deleting the calls of all others changes nothing for the main agent of session `s`. */
  ghost predicate Undisturbed(cfg: Config, limits: Limits, calls: seq<Call>, s: string)
    requires limits.capacity > 0
  {
    OwnOutcomes(cfg, limits, [], calls, s) == OwnOutcomes(cfg, limits, [], OnlyOwn(calls, s), s)
  }

  function RunOn(limits: Limits, slots: seq<Slot>, calls: seq<Call>): seq<Slot>
    requires limits.capacity > 0
    decreases calls
  {
    if calls == [] then slots else RunOn(limits, StepOn(JUDGING, limits, slots, calls[0]).0, calls[1..])
  }

  lemma {:induction false} RunAppend(limits: Limits, slots: seq<Slot>, a: seq<Call>, b: seq<Call>, s: string)
    requires limits.capacity > 0
    ensures RunOn(limits, slots, a + b) == RunOn(limits, RunOn(limits, slots, a), b)
    ensures OwnOutcomes(JUDGING, limits, slots, a + b, s)
         == OwnOutcomes(JUDGING, limits, slots, a, s) + OwnOutcomes(JUDGING, limits, RunOn(limits, slots, a), b, s)
    decreases a
  {
    hide StepOn, Own;
    if a == [] {
      assert a + b == b;
    } else {
      assert (a + b)[1..] == a[1..] + b;
      RunAppend(limits, StepOn(JUDGING, limits, slots, a[0]).0, a[1..], b, s);
    }
  }

  lemma {:induction false} OwnAppend(a: seq<Call>, b: seq<Call>, s: string)
    ensures OnlyOwn(a + b, s) == OnlyOwn(a, s) + OnlyOwn(b, s)
    ensures KeysOf(a + b) == KeysOf(a) + KeysOf(b)
  {
    hide Own, KeyOf;
    if a == [] {
      assert a + b == b;
    } else {
      assert (a + b)[1..] == a[1..] + b;
      OwnAppend(a[1..], b, s);
    }
  }

  // ---- A run that needs one slot more than there are

  function Name(j: nat): string { if j == 0 then "t" else Name(j - 1) + "t" }

  lemma {:induction false} NamesDiffer(j: nat, k: nat)
    ensures |Name(j)| == j + 1 && Name(j)[0] == 't'
    ensures |Name(k)| == k + 1 && Name(k)[0] == 't'
  {
    if j > 0 {
      NamesDiffer(j - 1, k);
    } else if k > 0 {
      NamesDiffer(j, k - 1);
    }
  }

  /** One call each of the main agents of `j` other sessions. */
  function Others(j: nat): seq<Call> {
    if j == 0 then [] else Others(j - 1) + [Other(j)]
  }

  function Other(j: nat): Call { Asked(Name(j), true, "low") }

  lemma OtherIsNotOwn(j: nat)
    ensures !Own(Other(j), "s") && Other(j).Decide? && Other(j).isMain
  {
    NamesDiffer(j, j);
  }

  lemma SingleCall(limits: Limits, slots: seq<Slot>, c: Call, s: string)
    requires limits.capacity > 0
    ensures OnlyOwn([c], s) == (if Own(c, s) then [c] else []) && KeysOf([c]) == {KeyOf(c)}
    ensures RunOn(limits, slots, [c]) == StepOn(JUDGING, limits, slots, c).0
    ensures OwnOutcomes(JUDGING, limits, slots, [c], s)
         == if Own(c, s) then [StepOn(JUDGING, limits, slots, c).1] else []
  {
    hide StepOn, Own, KeyOf;
    assert [c][1..] == [];
  }

  lemma OthersUnfold(j: nat)
    ensures Others(j) == if j == 0 then [] else Others(j - 1) + [Other(j)]
  {
    hide Asked;
  }

  lemma {:induction false} OthersAreOthers(limits: Limits, slots: seq<Slot>, j: nat)
    requires limits.capacity > 0
    ensures OnlyOwn(Others(j), "s") == [] && |KeysOf(Others(j))| <= j
    ensures forall c :: c in Others(j) ==> c.Decide? && c.isMain
    ensures OwnOutcomes(JUDGING, limits, slots, Others(j), "s") == []
  {
    hide *;
    OthersUnfold(j);
    if j > 0 {
      OthersAreOthers(limits, slots, j - 1);
      OtherIsNotOwn(j);
      OwnAppend(Others(j - 1), [Other(j)], "s");
      RunAppend(limits, slots, Others(j - 1), [Other(j)], "s");
      SingleCall(limits, RunOn(limits, slots, Others(j - 1)), Other(j), "s");
    } else {
      NoCalls(limits, slots);
    }
  }

  /** After the calls of `s` and of `j` others: `s` is the oldest, or has had to make room. */
  ghost predicate Filled(limits: Limits, slots: seq<Slot>, j: nat) {
    && ValidStore(slots, limits) && j <= limits.capacity
    && (forall m: nat :: m > j ==> Name(m) !in Keys(slots))
    && if j < limits.capacity then |slots| == j + 1 && slots[0].key == "s" else "s" !in Keys(slots)
  }

  /** What the call of a session without a slot does to the store. */
  lemma UnknownStep(limits: Limits, slots: seq<Slot>, j: nat) returns (last: Slot)
    requires ValidStore(slots, limits) && Name(j) !in Keys(slots)
    ensures var after := StepOn(JUDGING, limits, slots, Other(j)).0;
      last.key == Name(j) && ValidStore(after, limits) && after == MadeRoom(slots, limits.capacity) + [last]
  {
    var after := StepOn(JUDGING, limits, slots, Other(j)).0;
    LookupKeys(slots, Name(j));
    AskedFresh(limits, slots, Name(j), true, "low");
    StepDistinct(limits, slots, Other(j));
    hide StepOn, Asked, MadeRoom, Lookup, Distinct, Tier;
    last := after[|after| - 1];
    assert after == after[..|after| - 1] + [last];
  }

  lemma FillOne(limits: Limits, slots: seq<Slot>, j: nat)
    requires Filled(limits, slots, j) && j < limits.capacity
    ensures Filled(limits, StepOn(JUDGING, limits, slots, Other(j + 1)).0, j + 1)
  {
    hide StepOn, Other, Name, Keys;
    var last := UnknownStep(limits, slots, j + 1);
    var room, after := MadeRoom(slots, limits.capacity), StepOn(JUDGING, limits, slots, Other(j + 1)).0;
    MadeRoomFacts(slots, limits.capacity);
    OldestGoes(slots, limits.capacity);
    KeysAppend(room, [last]);
    SingleSlot(last, last.key);
    NamesDiffer(j + 1, j + 1);
    forall m: nat | m > j + 1
      ensures Name(m) !in Keys(after)
    {
      NamesDiffer(j + 1, m);
    }
    hide MadeRoom, Distinct;
    assert "s" != Name(j + 1);
    assert j + 1 < limits.capacity ==> room == slots && after[0] == slots[0];
  }

  lemma OldestGoes(slots: seq<Slot>, capacity: nat)
    requires capacity > 0 && Distinct(slots) && 0 < |slots| <= capacity
    ensures if |slots| < capacity then MadeRoom(slots, capacity) == slots
      else slots[0].key !in Keys(MadeRoom(slots, capacity))
  {
  }

  lemma {:induction false} FillUp(limits: Limits, slots: seq<Slot>, j: nat)
    requires Filled(limits, slots, 0) && j <= limits.capacity
    ensures limits.capacity > 0 && Filled(limits, RunOn(limits, slots, Others(j)), j)
  {
    hide *;
    FilledIsValid(limits, slots, 0);
    OthersUnfold(j);
    if j > 0 {
      FillUp(limits, slots, j - 1);
      var before := RunOn(limits, slots, Others(j - 1));
      RunAppend(limits, slots, Others(j - 1), [Other(j)], "s");
      SingleCall(limits, before, Other(j), "s");
      FillOne(limits, before, j - 1);
    } else {
      RunNothing(limits, slots);
    }
  }

  lemma RunNothing(limits: Limits, slots: seq<Slot>)
    requires limits.capacity > 0
    ensures RunOn(limits, slots, []) == slots
  {
  }

  lemma FilledIsValid(limits: Limits, slots: seq<Slot>, j: nat)
    requires Filled(limits, slots, j)
    ensures ValidStore(slots, limits) && limits.capacity > 0
    ensures j == limits.capacity ==> Lookup(slots, "s") == None
  {
    LookupKeys(slots, "s");
  }

  function One(): Call { Asked("s", true, "low") }

  function Three(): Call { Asked("s", true, "high") }

  function Crowd(n: nat): seq<Call> { [One()] + Others(n) + [Three()] }

  lemma FirstFills(limits: Limits)
    requires limits.capacity > 0 && limits.ttlMs > 0
    ensures var after := StepOn(JUDGING, limits, [], One()).0;
      Filled(limits, after, 0) && StoresTier(after, "s", "low")
  {
    var after := StepOn(JUDGING, limits, [], One()).0;
    AskedFresh(limits, [], "s", true, "low");
    StepDistinct(limits, [], One());
    assert |after| == 1 && after[0].key == "s";
    hide StepOn, Asked;
    SingleSlot(after[0], "s");
    assert after == [after[0]];
    forall m: nat
      ensures Name(m) !in Keys(after)
    {
      NamesDiffer(m, m);
    }
  }

  /** The last call is judged afresh in the crowd, and not without it. */
  lemma CrowdDisturbs(limits: Limits)
    requires limits.capacity > 0 && limits.ttlMs > 0
    ensures !Undisturbed(JUDGING, limits, Crowd(limits.capacity), "s")
  {
    var n := limits.capacity;
    var after := StepOn(JUDGING, limits, [], One()).0;
    var crowded := RunOn(limits, after, Others(n));
    FirstFills(limits);
    FillUp(limits, after, n);
    FilledIsValid(limits, after, 0);
    FilledIsValid(limits, crowded, n);
    AskedFresh(limits, crowded, "s", true, "high");
    AskedAgain(limits, after, "s", true, "high", "low");
    var first := StepOn(JUDGING, limits, [], One()).1;
    var high, low := StepOn(JUDGING, limits, crowded, Three()).1, StepOn(JUDGING, limits, after, Three()).1;
    assert Tier(high) != Tier(low);
    assert Own(One(), "s") && Own(Three(), "s");
    hide StepOn, Asked, Filled, OwnOutcomes, OnlyOwn, RunOn, Tier, StoresTier, Lookup, Others;
    CrowdOutcomes(limits, after, crowded);
  }

  lemma CrowdOutcomes(limits: Limits, after: seq<Slot>, crowded: seq<Slot>)
    requires limits.capacity > 0
    requires after == StepOn(JUDGING, limits, [], One()).0 && crowded == RunOn(limits, after, Others(limits.capacity))
    ensures var first := StepOn(JUDGING, limits, [], One()).1;
      var calls := Crowd(limits.capacity);
      && OwnOutcomes(JUDGING, limits, [], calls, "s") == [first, StepOn(JUDGING, limits, crowded, Three()).1]
      && OwnOutcomes(JUDGING, limits, [], OnlyOwn(calls, "s"), "s")
         == [first, StepOn(JUDGING, limits, after, Three()).1]
  {
    OnesAreOwn();
    hide *;
    var others := Others(limits.capacity);
    var tail := others + [Three()];
    OthersAreOthers(limits, after, limits.capacity);
    RunAppend(limits, after, others, [Three()], "s");
    SingleCall(limits, crowded, Three(), "s");
    SingleCall(limits, after, Three(), "s");
    OwnAppend(others, [Three()], "s");
    OwnCons(JUDGING, limits, [], One(), tail, "s");
    OwnCons(JUDGING, limits, [], One(), [Three()], "s");
    assert [] + [Three()] == [Three()];
    CrowdIs(limits.capacity);
  }

  lemma OnesAreOwn()
    ensures Own(One(), "s") && Own(Three(), "s")
  {
  }

  lemma CrowdIs(n: nat)
    ensures Crowd(n) == [One()] + (Others(n) + [Three()])
  {
    hide One, Three, Others;
  }

  lemma NoCalls(limits: Limits, slots: seq<Slot>)
    requires limits.capacity > 0
    ensures OwnOutcomes(JUDGING, limits, slots, [], "s") == [] && OnlyOwn([], "s") == [] && KeysOf([]) == {}
  {
  }

  lemma CrowdIsSmall(limits: Limits)
    requires limits.capacity > 0
    ensures |KeysOf(Crowd(limits.capacity))| <= limits.capacity + 1 && NoAlias(Crowd(limits.capacity), "s")
  {
    var n := limits.capacity;
    OthersAreOthers(limits, [], n);
    OwnAppend([One()] + Others(n), [Three()], "s");
    OwnAppend([One()], Others(n), "s");
    assert KeysOf([One()]) == KeysOf([Three()]) == {"s"};
    hide Others, StepOn, OnlyOwn, OwnOutcomes;
    assert KeysOf(Crowd(n)) == {"s"} + KeysOf(Others(n));
  }

  /**
   A store of some capacity keeps main agents apart in all runs of up to `n` keys iff it has room for `n`:
   above that, evictions let other sessions change what a session gets.
   */
  lemma RoomIsExact(limits: Limits, n: nat)
    requires limits.capacity > 0 && limits.ttlMs > 0
    ensures n <= limits.capacity <==>
      forall cfg, calls, s :: NoAlias(calls, s) && |KeysOf(calls)| <= n ==> Undisturbed(cfg, limits, calls, s)
  {
    hide *;
    if n <= limits.capacity {
      forall cfg, calls, s | NoAlias(calls, s) && |KeysOf(calls)| <= n
        ensures Undisturbed(cfg, limits, calls, s)
      {
        RoomyUndisturbed(cfg, limits, calls, s);
      }
    } else {
      CrowdIsSmall(limits);
      CrowdDisturbs(limits);
    }
  }

  lemma RoomyUndisturbed(cfg: Config, limits: Limits, calls: seq<Call>, s: string)
    requires limits.capacity > 0 && limits.ttlMs > 0 && NoAlias(calls, s) && |KeysOf(calls)| <= limits.capacity
    ensures Undisturbed(cfg, limits, calls, s)
  {
    NonInterference(cfg, limits, calls, s);
  }

  predicate EndsInSub(s: string) { |s| >= 4 && s[|s| - 4..] == ":sub" }

  /** In runs that fit the store, a session is kept apart from all others iff its id does not end in ":sub". */
  lemma AliasIsExact(limits: Limits, s: string)
    requires limits.capacity > 0 && limits.ttlMs > 0
    ensures !EndsInSub(s) <==>
      forall cfg, calls :: |KeysOf(calls)| <= limits.capacity ==> Undisturbed(cfg, limits, calls, s)
  {
    if EndsInSub(s) {
      var a := s[..|s| - 4];
      assert s == a + ":sub";
      hide Undisturbed, KeysOf, OwnOutcomes, OnlyOwn;
      Disturbed(limits, a);
    } else {
      forall cfg, calls | |KeysOf(calls)| <= limits.capacity
        ensures Undisturbed(cfg, limits, calls, s)
      {
        NothingBorrows(calls, s);
        hide *;
        RoomyUndisturbed(cfg, limits, calls, s);
      }
    }
  }

  lemma Disturbed(limits: Limits, a: string)
    requires limits.capacity > 0 && limits.ttlMs > 0
    ensures exists calls :: |KeysOf(calls)| <= limits.capacity && !Undisturbed(JUDGING, limits, calls, a + ":sub")
  {
    hide KeysOf, OwnOutcomes, OnlyOwn;
    var calls := AliasInterferes(a, limits);
    assert |KeysOf(calls)| == 1;
  }

  lemma NothingBorrows(calls: seq<Call>, s: string)
    requires !EndsInSub(s)
    ensures NoAlias(calls, s)
  {
    forall c | c in calls && c.Decide? && !c.isMain
      ensures c.sessionId + ":sub" != s
    {
      var t := c.sessionId + ":sub";
      assert t[|t| - 4..] == ":sub";
    }
  }
}
