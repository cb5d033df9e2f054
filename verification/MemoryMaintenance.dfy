/**
 The coalesced maintenance loop of a project runtime (`scheduleMemoryMaintenance` in
 src/cli/createLocalGateway.ts), at the granularity of its awaits: a request, the end of a run, and the
 callback that follows the end of the loop are atomic, and arrive in any order that the loop allows.
 */
module MemoryMaintenance {
  /** The promise of the loop: absent, waiting for a run, or settled with its `finally` callback still to come. */
  datatype Loop = NoLoop | AwaitsRun | Settled

  /** `runs` and `requests` count what happened so far, `active` the runs that have not ended. */
  datatype State = State(requested: bool, loop: Loop, runs: nat, active: nat, requests: nat)

  const IDLE := State(false, NoLoop, 0, 0, 0)

  /** What can happen next; `throws` says that the next run, if one is started, fails before its first await. */
  datatype Event = Request(throws: bool) | RunEnds(throws: bool) | LoopEnds(throws: bool)

  predicate Enabled(s: State, e: Event) {
    match e
    case Request(_) => true
    case RunEnds(_) => s.loop == AwaitsRun
    case LoopEnds(_) => s.loop == Settled
  }

  /** The loop from its head up to the next await: one run if one is requested, unless it fails at once. */
  function LoopHead(s: State, throws: bool): State {
    if !s.requested then s.(loop := Settled)
    else if throws then s.(requested := false, runs := s.runs + 1, loop := Settled)
    else s.(requested := false, runs := s.runs + 1, active := s.active + 1, loop := AwaitsRun)
  }

  function Schedule(s: State, throws: bool): State {
    if s.loop != NoLoop then s.(requested := true) else LoopHead(s.(requested := true), throws)
  }

  function Step(s: State, e: Event): State
    requires Enabled(s, e) && (e.RunEnds? ==> s.active > 0)
  {
    match e
    case Request(throws) => Schedule(s.(requests := s.requests + 1), throws)
    case RunEnds(throws) => LoopHead(s.(active := s.active - 1), throws)
    case LoopEnds(throws) => if s.requested then Schedule(s.(loop := NoLoop), throws) else s.(loop := NoLoop)
  }

  class ProjectRuntime {
    var memoryMaintenanceRequested: bool
    var memoryMaintenanceInFlight: Loop
    ghost var runs: nat
    ghost var active: nat
    ghost var requests: nat

    ghost function TheState(): State
      reads this
    {
      State(memoryMaintenanceRequested, memoryMaintenanceInFlight, runs, active, requests)
    }

    constructor ()
      ensures TheState() == IDLE
    {
      memoryMaintenanceRequested, memoryMaintenanceInFlight := false, NoLoop;
      runs, active, requests := 0, 0, 0;
    }

    /** The `while` loop, until it waits or is done. */
    method RunLoop(throws: bool)
      modifies this
      ensures TheState() == LoopHead(old(TheState()), throws)
    {
      var fails := throws;
      while memoryMaintenanceRequested
        invariant LoopHead(TheState(), throws) == LoopHead(old(TheState()), throws) ||
                  (!memoryMaintenanceRequested && TheState().(loop := Settled) == LoopHead(old(TheState()), throws))
        decreases memoryMaintenanceRequested
      {
        memoryMaintenanceRequested := false;
        runs := runs + 1;
        if !fails {
          active := active + 1;
          memoryMaintenanceInFlight := AwaitsRun;
          return;
        }
      }
      memoryMaintenanceInFlight := Settled;
    }

    method ScheduleMemoryMaintenance(throws: bool)
      modifies this
      ensures TheState() == Step(old(TheState()), Request(throws))
    {
      requests := requests + 1;
      ScheduleAgain(throws);
    }

    method ScheduleAgain(throws: bool)
      modifies this
      ensures TheState() == Schedule(old(TheState()), throws)
    {
      memoryMaintenanceRequested := true;
      if memoryMaintenanceInFlight != NoLoop {
        return;
      }
      RunLoop(throws);
    }

    method RunSettled(throws: bool)
      requires memoryMaintenanceInFlight == AwaitsRun && active > 0
      modifies this
      ensures TheState() == Step(old(TheState()), RunEnds(throws))
    {
      active := active - 1;
      RunLoop(throws);
    }

    method Finally(throws: bool)
      requires memoryMaintenanceInFlight == Settled
      modifies this
      ensures TheState() == Step(old(TheState()), LoopEnds(throws))
    {
      memoryMaintenanceInFlight := NoLoop;
      if memoryMaintenanceRequested {
        ScheduleAgain(throws);
      }
    }
  }

  // ---- What every run keeps

  /** A pending request always has a loop that will see it, at most one run is active, and every run answers
      at least one request of its own. */
  predicate Inv(s: State) {
    && (s.requested ==> s.loop != NoLoop)
    && s.active == (if s.loop == AwaitsRun then 1 else 0)
    && s.runs + (if s.requested then 1 else 0) <= s.requests
  }

  ghost predicate Possible(s: State, events: seq<Event>)
    decreases events
  {
    events != [] ==>
      Enabled(s, events[0]) && (events[0].RunEnds? ==> s.active > 0) && Possible(Step(s, events[0]), events[1..])
  }

  ghost function After(s: State, events: seq<Event>): State
    requires Possible(s, events)
    decreases events
  {
    if events == [] then s else After(Step(s, events[0]), events[1..])
  }

  lemma {:induction false} InvHolds(s: State, events: seq<Event>)
    requires Inv(s) && Possible(s, events)
    ensures Inv(After(s, events)) && After(s, events).runs >= s.runs && After(s, events).requests >= s.requests
    decreases events
  {
    if events != [] {
      InvHolds(Step(s, events[0]), events[1..]);
    }
  }

  /** In every run: at most one maintenance run is active at any time, and never more runs than requests. */
  lemma OneRunAtATime(events: seq<Event>)
    requires Possible(IDLE, events)
    ensures After(IDLE, events).active <= 1 && After(IDLE, events).runs <= After(IDLE, events).requests
  {
    InvHolds(IDLE, events);
  }

  /** The loop never gets stuck: something other than a request can happen exactly while there is a loop, and
      then it is one definite event. */
  lemma LoopNeverSticks(s: State, throws: bool)
    requires Inv(s)
    ensures s.loop != NoLoop <==> Possible(s, [RunEnds(throws)]) || Possible(s, [LoopEnds(throws)])
    ensures !(Possible(s, [RunEnds(throws)]) && Possible(s, [LoopEnds(throws)]))
  {
    assert [RunEnds(throws)][1..] == [] && [LoopEnds(throws)][1..] == [];
  }

  /** The events other than requests. */
  function Others(events: seq<Event>): nat {
    if events == [] then 0 else (if events[0].Request? then 0 else 1) + Others(events[1..])
  }

  lemma {:induction false} PendingIsServed(s: State, events: seq<Event>)
    requires Inv(s) && s.requested && Possible(s, events) && Others(events) >= 1
    ensures After(s, events).runs > s.runs
    decreases events
  {
    var next := Step(s, events[0]);
    if events[0].Request? {
      PendingIsServed(next, events[1..]);
    } else {
      assert next.runs == s.runs + 1;
      InvHolds(next, events[1..]);
    }
  }

  /**
   No lost wake-up: in any run, a request is followed by a run that starts with it or later, at the latest in
   the first step that is not itself a request.
   */
  lemma NoLostWakeUp(before: seq<Event>, request: Event, later: seq<Event>)
    requires request.Request? && Possible(IDLE, before)
    requires Possible(After(IDLE, before), [request] + later)
    requires Others(later) >= 1 || After(IDLE, before).loop == NoLoop
    ensures After(After(IDLE, before), [request] + later).runs > After(IDLE, before).runs
  {
    InvHolds(IDLE, before);
    var s := After(IDLE, before);
    assert ([request] + later)[1..] == later;
    var next := Step(s, request);
    InvHolds(s, [request]) by {
      assert [request][1..] == [];
    }
    if s.loop != NoLoop {
      PendingIsServed(next, later);
    } else {
      InvHolds(next, later);
    }
  }

  // ---- Which requests get a run of their own

  /** What an event does: a run starts iff one is requested where the loop is at its head; the loop is gone iff its
      callback finds nothing requested; and a request is kept pending iff the loop is already there. */
  lemma StepMeaning(s: State, e: Event)
    requires Inv(s) && Enabled(s, e)
    ensures var after := Step(s, e);
      var starts := if e.Request? then s.loop == NoLoop else s.requested;
      && after.runs == s.runs + (if starts then 1 else 0)
      && after.requests == s.requests + (if e.Request? then 1 else 0)
      && (after.requested <==> e.Request? && s.loop != NoLoop)
      && (after.loop == NoLoop <==> e.LoopEnds? && !s.requested)
      && (after.loop == AwaitsRun <==> (starts && !e.throws) || (e.Request? && s.loop == AwaitsRun))
      && (after.active == 1 <==> after.loop == AwaitsRun) && after.active <= 1
  {
  }

  /** The requests of a run that come while another one is already pending. */
  ghost function Coalesced(s: State, events: seq<Event>): nat
    requires Possible(s, events)
    decreases events
  {
    if events == [] then 0
    else (if events[0].Request? && s.requested then 1 else 0) + Coalesced(Step(s, events[0]), events[1..])
  }

  lemma {:induction false} CoalescedFrom(s: State, events: seq<Event>)
    requires Inv(s) && Possible(s, events)
    ensures var after := After(s, events);
      after.requests - s.requests
      == after.runs - s.runs + (if after.requested then 1 else 0) - (if s.requested then 1 else 0)
         + Coalesced(s, events)
    decreases events
  {
    if events != [] {
      StepMeaning(s, events[0]);
      hide Step, Inv, Enabled;
      StepKeepsInv(s, events[0]);
      CoalescedFrom(Step(s, events[0]), events[1..]);
    }
  }

  lemma StepKeepsInv(s: State, e: Event)
    requires Inv(s) && Enabled(s, e)
    ensures Inv(Step(s, e))
  {
  }

  /** In every run each request has a run of its own, or is pending, or was joined to one that was pending. */
  lemma RequestsAreRunsOrJoined(events: seq<Event>)
    requires Possible(IDLE, events)
    ensures var after := After(IDLE, events);
      after.requests == after.runs + (if after.requested then 1 else 0) + Coalesced(IDLE, events)
  {
    CoalescedFrom(IDLE, events);
  }
}
