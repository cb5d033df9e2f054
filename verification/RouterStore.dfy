/**
 The per-session routing store (src/router/session/SessionRouterStore.ts): a map in insertion order that
 forgets slots after a time to live and evicts the least recently used ones above its capacity.
 */
module RouterStore {
  import opened Options

  datatype RoutingState = RoutingState(
    tier: Option<string>,
    stickyProvider: Option<string>,
    stickyModel: Option<string>,
    orchestrating: bool,
    updatedAt: int)

  datatype Slot = Slot(key: string, state: RoutingState, expiresAt: int)

  function MakeKey(sessionId: string, isSubagent: bool): string {
    if isSubagent then sessionId + ":sub" else sessionId
  }

  /** Two different owners share a slot exactly when one is the main agent of a session whose id is that of
      the sub-agent's session followed by ":sub". */
  lemma SharedKey(a: string, aSub: bool, b: string, bSub: bool)
    ensures MakeKey(a, aSub) == MakeKey(b, bSub) <==>
            (a == b && aSub == bSub) || (aSub && !bSub && b == a + ":sub") || (!aSub && bSub && a == b + ":sub")
  {
    if aSub && bSub && a + ":sub" == b + ":sub" {
      assert |a| == |b|;
      assert a == (a + ":sub")[..|a|] == (b + ":sub")[..|b|] == b;
    }
    if aSub != bSub && a == b {
      assert |a + ":sub"| == |a| + 4;
    }
  }

  function Lookup(slots: seq<Slot>, key: string): (r: Option<Slot>)
    ensures r.Some? ==> r.value.key == key
  {
    if slots == [] then None
    else if slots[0].key == key then Some(slots[0])
    else Lookup(slots[1..], key)
  }

  function Without(slots: seq<Slot>, key: string): seq<Slot> {
    if slots == [] then []
    else (if slots[0].key == key then [] else [slots[0]]) + Without(slots[1..], key)
  }

  function Keys(slots: seq<Slot>): set<string> {
    if slots == [] then {} else {slots[0].key} + Keys(slots[1..])
  }

  predicate Distinct(slots: seq<Slot>) {
    slots == [] || (slots[0].key !in Keys(slots[1..]) && Distinct(slots[1..]))
  }

  // ---- What the operations do to the slots

  /** An expired slot is dropped; a live one becomes the most recently used. */
  function AfterGet(slots: seq<Slot>, key: string, now: int): seq<Slot> {
    match Lookup(slots, key)
    case None => slots
    case Some(slot) => Without(slots, key) + (if slot.expiresAt < now then [] else [slot])
  }

  function GetState(slots: seq<Slot>, key: string, now: int): Option<RoutingState> {
    match Lookup(slots, key)
    case None => None
    case Some(slot) => if slot.expiresAt < now then None else Some(slot.state)
  }

  /** The slots that are left after the oldest ones made room for one more. */
  function MadeRoom(slots: seq<Slot>, capacity: nat): seq<Slot>
    requires capacity > 0
  {
    if |slots| >= capacity then slots[|slots| - capacity + 1..] else slots
  }

  function AfterSet(slots: seq<Slot>, slot: Slot, capacity: nat): seq<Slot>
    requires capacity > 0
  {
    (if Lookup(slots, slot.key).Some? then Without(slots, slot.key) else MadeRoom(slots, capacity)) + [slot]
  }

  class SessionRouterStore {
    const capacity: nat
    const ttlMs: int
    /** The map, in insertion order. */
    var slots: seq<Slot>

    ghost predicate Valid()
      reads this
    {
      capacity > 0 && ttlMs > 0 && Distinct(slots) && |slots| <= capacity
    }

    constructor (capacity: int, ttlMs: int)
      ensures Valid() && slots == []
      ensures this.capacity == (if capacity < 1 then 1 else capacity) && this.ttlMs == (if ttlMs < 1 then 1 else ttlMs)
    {
      this.capacity := if capacity < 1 then 1 else capacity;
      this.ttlMs := if ttlMs < 1 then 1 else ttlMs;
      slots := [];
    }

    method Get(key: string, now: int) returns (state: Option<RoutingState>)
      requires Valid()
      modifies this
      ensures Valid()
      ensures slots == AfterGet(old(slots), key, now) && state == GetState(old(slots), key, now)
    {
      AfterGetDistinct(slots, key, now);
      var slot := Lookup(slots, key);
      if slot.None? {
        return None;
      }
      slots := Without(slots, key);
      if slot.value.expiresAt < now {
        assert slots == slots + [];
        return None;
      }
      slots := slots + [slot.value];
      return Some(slot.value.state);
    }

    method Set(key: string, state: RoutingState, now: int)
      requires Valid()
      modifies this
      ensures Valid()
      ensures slots == AfterSet(old(slots), Slot(key, state, now + ttlMs), capacity)
    {
      var slot := Slot(key, state, now + ttlMs);
      AfterSetDistinct(slots, slot, capacity);
      if Lookup(slots, key).Some? {
        slots := Without(slots, key);
      } else {
        while |slots| >= capacity
          invariant MadeRoom(slots, capacity) == MadeRoom(old(slots), capacity)
        {
          slots := slots[1..];
        }
      }
      slots := slots + [slot];
    }
  }

  // ---- Facts about lookups

  lemma {:induction false} LookupKeys(slots: seq<Slot>, key: string)
    ensures Lookup(slots, key).Some? <==> key in Keys(slots)
  {
    if slots != [] {
      LookupKeys(slots[1..], key);
    }
  }

  lemma {:induction false} KeysAppend(a: seq<Slot>, b: seq<Slot>)
    ensures Keys(a + b) == Keys(a) + Keys(b)
  {
    if a == [] {
      assert a + b == b;
    } else {
      assert (a + b)[1..] == a[1..] + b;
      KeysAppend(a[1..], b);
    }
  }

  lemma {:induction false} LookupAppend(a: seq<Slot>, b: seq<Slot>, key: string)
    ensures Lookup(a + b, key) == if Lookup(a, key).Some? then Lookup(a, key) else Lookup(b, key)
  {
    if a == [] {
      assert a + b == b;
    } else {
      assert (a + b)[1..] == a[1..] + b;
      LookupAppend(a[1..], b, key);
    }
  }

  lemma {:induction false} DistinctAppend(a: seq<Slot>, b: seq<Slot>)
    ensures Distinct(a + b) <==> Distinct(a) && Distinct(b) && Keys(a) !! Keys(b)
  {
    if a == [] {
      assert a + b == b;
    } else {
      assert (a + b)[1..] == a[1..] + b;
      DistinctAppend(a[1..], b);
      KeysAppend(a[1..], b);
    }
  }

  lemma {:induction false} WithoutFacts(slots: seq<Slot>, key: string, other: string)
    ensures Keys(Without(slots, key)) == Keys(slots) - {key}
    ensures Distinct(slots) ==> Distinct(Without(slots, key))
    ensures Lookup(Without(slots, key), other) == if other == key then None else Lookup(slots, other)
    ensures |Without(slots, key)| <= |slots|
    ensures key in Keys(slots) ==> |Without(slots, key)| < |slots|
  {
    if slots != [] {
      WithoutFacts(slots[1..], key, other);
      if slots[0].key != key {
        assert Without(slots, key)[1..] == Without(slots[1..], key);
      } else {
        assert Without(slots, key) == Without(slots[1..], key);
      }
    }
  }

  lemma SingleSlot(slot: Slot, key: string)
    ensures Keys([slot]) == {slot.key} && Distinct([slot])
    ensures Lookup([slot], key) == if slot.key == key then Some(slot) else None
  {
    assert [slot][1..] == [];
  }

  lemma AfterGetDistinct(slots: seq<Slot>, key: string, now: int)
    requires Distinct(slots)
    ensures Distinct(AfterGet(slots, key, now)) && |AfterGet(slots, key, now)| <= |slots|
    ensures Keys(AfterGet(slots, key, now)) <= Keys(slots)
  {
    LookupKeys(slots, key);
    WithoutFacts(slots, key, key);
    if Lookup(slots, key).Some? {
      var slot := Lookup(slots, key).value;
      SingleSlot(slot, key);
      DistinctAppend(Without(slots, key), [slot]);
      KeysAppend(Without(slots, key), [slot]);
      assert Without(slots, key) + [] == Without(slots, key);
    }
  }

  lemma MadeRoomFacts(slots: seq<Slot>, capacity: nat)
    requires Distinct(slots) && capacity > 0
    ensures Distinct(MadeRoom(slots, capacity)) && |MadeRoom(slots, capacity)| < capacity
    ensures Keys(MadeRoom(slots, capacity)) <= Keys(slots)
  {
    if |slots| >= capacity {
      var n := |slots| - capacity + 1;
      assert slots == slots[..n] + slots[n..];
      DistinctAppend(slots[..n], slots[n..]);
      KeysAppend(slots[..n], slots[n..]);
    }
  }

  lemma AfterSetDistinct(slots: seq<Slot>, slot: Slot, capacity: nat)
    requires Distinct(slots) && capacity > 0 && |slots| <= capacity
    ensures Distinct(AfterSet(slots, slot, capacity)) && |AfterSet(slots, slot, capacity)| <= capacity
    ensures Keys(AfterSet(slots, slot, capacity)) <= Keys(slots) + {slot.key}
  {
    LookupKeys(slots, slot.key);
    var kept := if Lookup(slots, slot.key).Some? then Without(slots, slot.key) else MadeRoom(slots, capacity);
    WithoutFacts(slots, slot.key, slot.key);
    MadeRoomFacts(slots, capacity);
    SingleSlot(slot, slot.key);
    DistinctAppend(kept, [slot]);
    KeysAppend(kept, [slot]);
  }

  /** A read keeps every lookup, except that it forgets the key it reads if that has expired. */
  lemma LookupAfterGet(slots: seq<Slot>, key: string, now: int, other: string)
    requires Distinct(slots)
    ensures Lookup(AfterGet(slots, key, now), other) ==
            if other == key && GetState(slots, key, now).None? then None else Lookup(slots, other)
  {
    WithoutFacts(slots, key, other);
    var slot := Lookup(slots, key);
    if slot.Some? {
      LookupAppend(Without(slots, key), [slot.value], other);
      assert Without(slots, key) + [] == Without(slots, key);
      SingleSlot(slot.value, other);
    }
  }

  /** The position of a key in the order of use, or the number of slots if it has none. */
  function Age(slots: seq<Slot>, key: string): nat {
    if slots == [] || slots[0].key == key then 0 else 1 + Age(slots[1..], key)
  }

  lemma {:induction false} LookupTail(slots: seq<Slot>, n: nat, key: string)
    requires Distinct(slots) && n <= |slots|
    ensures Lookup(slots[n..], key) == if Age(slots, key) >= n then Lookup(slots, key) else None
  {
    if n > 0 {
      assert slots[n..] == slots[1..][n - 1..];
      LookupTail(slots[1..], n - 1, key);
      LookupKeys(slots[1..], slots[0].key);
    }
  }

  /**
   A write leaves the slot of another key alone exactly when there is none, or the written key has a slot
   already, or there is room, or the other key is not among the oldest that have to make room.
   */
  lemma WriteKeepsOthers(slots: seq<Slot>, slot: Slot, capacity: nat, other: string)
    requires Distinct(slots) && capacity > 0 && slot.key != other
    ensures Lookup(AfterSet(slots, slot, capacity), other) == Lookup(slots, other) <==>
            || Lookup(slots, other).None?
            || Lookup(slots, slot.key).Some?
            || |slots| < capacity
            || Age(slots, other) > |slots| - capacity
  {
    hide Lookup, Without, Age, Distinct;
    SingleSlot(slot, other);
    if Lookup(slots, slot.key).Some? {
      WithoutFacts(slots, slot.key, other);
      LookupAppend(Without(slots, slot.key), [slot], other);
    } else {
      LookupAppend(MadeRoom(slots, capacity), [slot], other);
      if |slots| >= capacity {
        LookupTail(slots, |slots| - capacity + 1, other);
      }
    }
  }

  lemma LookupAfterSet(slots: seq<Slot>, slot: Slot, capacity: nat)
    requires Distinct(slots) && capacity > 0
    ensures Lookup(AfterSet(slots, slot, capacity), slot.key) == Some(slot)
  {
    WithoutFacts(slots, slot.key, slot.key);
    var kept := if Lookup(slots, slot.key).Some? then Without(slots, slot.key) else MadeRoom(slots, capacity);
    LookupKeys(slots, slot.key);
    LookupKeys(kept, slot.key);
    MadeRoomFacts(slots, capacity);
    LookupAppend(kept, [slot], slot.key);
    SingleSlot(slot, slot.key);
  }

  lemma {:induction false} SizeIsKeys(slots: seq<Slot>)
    requires Distinct(slots)
    ensures |slots| == |Keys(slots)|
  {
    if slots != [] {
      SizeIsKeys(slots[1..]);
    }
  }

  // ---- The order of use

  lemma {:induction false} AgeAppend(a: seq<Slot>, slot: Slot, key: string)
    ensures Age(a + [slot], key) == if key in Keys(a) then Age(a, key) else if slot.key == key then |a| else |a| + 1
  {
    if a == [] {
      assert a + [slot] == [slot] && [slot][1..] == [];
    } else {
      assert (a + [slot])[1..] == a[1..] + [slot];
      AgeAppend(a[1..], slot, key);
    }
  }

  lemma {:induction false} AgeWithout(slots: seq<Slot>, key: string, other: string)
    requires Distinct(slots) && key in Keys(slots) && other in Keys(slots) && other != key
    ensures |Without(slots, key)| == |slots| - 1
    ensures Age(Without(slots, key), other)
         == Age(slots, other) - (if Age(slots, key) < Age(slots, other) then 1 else 0)
  {
    var rest := slots[1..];
    if slots[0].key == key {
      WithoutNone(rest, key);
      assert Without(slots, key) == rest;
    } else {
      assert Without(slots, key)[1..] == Without(rest, key);
      if slots[0].key != other {
        AgeWithout(rest, key, other);
      } else {
        WithoutSize(rest, key);
      }
    }
  }

  lemma {:induction false} WithoutNone(slots: seq<Slot>, key: string)
    requires key !in Keys(slots)
    ensures Without(slots, key) == slots
  {
    if slots != [] {
      WithoutNone(slots[1..], key);
    }
  }

  lemma {:induction false} WithoutSize(slots: seq<Slot>, key: string)
    requires Distinct(slots) && key in Keys(slots)
    ensures |Without(slots, key)| == |slots| - 1
  {
    if slots[0].key == key {
      WithoutNone(slots[1..], key);
      assert Without(slots, key) == slots[1..];
    } else {
      WithoutSize(slots[1..], key);
      assert Without(slots, key)[1..] == Without(slots[1..], key);
    }
  }

  /** A key that was read while it was live, or written, becomes the youngest; the others stay in their order. */
  lemma UseMakesYoungest(slots: seq<Slot>, key: string, now: int, slot: Slot, capacity: nat, other: string)
    requires Distinct(slots) && slot.key == key && capacity > 0
    requires GetState(slots, key, now).Some? && other in Keys(slots) && other != key
    ensures forall after :: after == AfterGet(slots, key, now) || after == AfterSet(slots, slot, capacity) ==>
      && Age(after, key) == |after| - 1 == |slots| - 1
      && Age(after, other) == Age(slots, other) - (if Age(slots, key) < Age(slots, other) then 1 else 0)
  {
    LookupKeys(slots, key);
    var rest, found := Without(slots, key), Lookup(slots, key).value;
    WithoutFacts(slots, key, other);
    AgeWithout(slots, key, other);
    AgeAppend(rest, found, key);
    AgeAppend(rest, found, other);
    AgeAppend(rest, slot, key);
    AgeAppend(rest, slot, other);
    hide Age, Without, Keys, Lookup, Distinct;
  }
}
