/**
 Turns and the use of sessions over whole runs of the gateway (src/gateway/SessionRouter.ts): when a turn is admitted,
 and what the record of a session holds.
 */
module GatewayTurns {
  import opened Gateway
  import opened GatewayAccounting

  // ---- Slots of turns

  predicate InFlight(s: Router, key: string, run: string) { key in s.inFlight && s.inFlight[key] == run }

  /** A turn is in flight after an event iff it was before and is not released, or begins with the event. */
  lemma SlotAfter(env: Env, w: World, e: Event, key: string, run: string)
    ensures InFlight(Step(env, w, e).0.router, key, run)
      <==> (InFlight(w.router, key, run) && !Releases(e, key, run))
           || (e.Begin? && e.key == key && e.runId == run && key !in w.router.inFlight)
  {
    hide Prepare, EvictMcp, Invalidate, Resolve, IdleKeys;
  }

  lemma AnswerOfBegin(env: Env, w: World, e: Event)
    requires e.Begin?
    ensures Step(env, w, e).1 == Began(e.key !in w.router.inFlight)
  {
    hide EvictMcp, IdleKeys;
  }

  lemma {:induction false} AfterMore(env: Env, w: World, events: seq<Event>, e: Event)
    ensures After(env, w, events + [e]) == Step(env, After(env, w, events), e).0
    ensures |Answers(env, w, events)| == |events|
    ensures Answers(env, w, events + [e]) == Answers(env, w, events) + [Step(env, After(env, w, events), e).1]
    decreases events
  {
    hide Step;
    if events == [] {
      assert events + [e] == [e] && [e][1..] == [];
    } else {
      assert (events + [e])[1..] == events[1..] + [e];
      AfterMore(env, Step(env, w, events[0]).0, events[1..], e);
    }
  }

  /** Event number `j` began the turn of `key` that was admitted last. */
  predicate LastAdmitted(events: seq<Event>, answers: seq<Answer>, key: string, j: nat)
    requires |events| == |answers|
  {
    && j < |events| && Admitted(events[j], answers[j], key)
    && forall later :: j < later < |events| ==> !Admitted(events[later], answers[later], key)
  }

  predicate Admitted(e: Event, a: Answer, key: string) { e.Begin? && e.key == key && a == Began(true) }

  predicate ReleasedSince(events: seq<Event>, key: string, run: string, j: nat) {
    exists r :: j < r < |events| && Releases(events[r], key, run)
  }

  /** The turn of event number `j` was admitted last and was not released since. */
  predicate Holds(events: seq<Event>, answers: seq<Answer>, key: string, run: string, j: nat)
    requires |events| == |answers|
  {
    LastAdmitted(events, answers, key, j) && events[j].runId == run && !ReleasedSince(events, key, run, j)
  }

  lemma HoldsMore(events: seq<Event>, answers: seq<Answer>, e: Event, a: Answer, key: string, run: string, j: nat)
    requires |events| == |answers|
    ensures Holds(events + [e], answers + [a], key, run, j) <==>
      if Admitted(e, a, key) then j == |events| && e.runId == run
      else Holds(events, answers, key, run, j) && !Releases(e, key, run)
  {
    var more, replies := events + [e], answers + [a];
    assert forall i :: 0 <= i < |events| ==> more[i] == events[i] && replies[i] == answers[i];
    assert more[|events|] == e && replies[|events|] == a;
    hide Releases, Admitted;
    if j < |events| && ReleasedSince(events, key, run, j) {
      var r :| j < r < |events| && Releases(events[r], key, run);
      assert Releases(more[r], key, run);
    }
    if j < |events| && Releases(e, key, run) {
      assert Releases(more[|events|], key, run);
    }
  }

  /** A slot is taken by a run iff the turn that was admitted last for its key is of that run and not yet released. */
  ghost predicate SlotsAreHeld(router: Router, events: seq<Event>, answers: seq<Answer>, key: string)
    requires |events| == |answers|
  {
    forall run :: InFlight(router, key, run) <==> exists j :: Holds(events, answers, key, run, j)
  }

  lemma HeldMore(env: Env, w: World, events: seq<Event>, answers: seq<Answer>, e: Event, key: string)
    requires |events| == |answers| && SlotsAreHeld(w.router, events, answers, key)
    ensures var (after, a) := Step(env, w, e); SlotsAreHeld(after.router, events + [e], answers + [a], key)
  {
    var (after, a) := Step(env, w, e);
    if e.Begin? {
      AnswerOfBegin(env, w, e);
    }
    hide Step, Releases, Holds;
    forall run
      ensures InFlight(after.router, key, run)
        <==> exists j :: Holds(events + [e], answers + [a], key, run, j)
    {
      SlotAfter(env, w, e, key, run);
      forall j: nat
        ensures Holds(events + [e], answers + [a], key, run, j) <==>
          if Admitted(e, a, key) then j == |events| && e.runId == run
          else Holds(events, answers, key, run, j) && !Releases(e, key, run)
      {
        HoldsMore(events, answers, e, a, key, run, j);
      }
      if Admitted(e, a, key) && e.runId == run {
        assert Holds(events + [e], answers + [a], key, run, |events|);
      }
      if Admitted(e, a, key) {
        BeginReleasesNothing(e, key, run);
      }
    }
  }

  lemma {:induction false} HeldOverRun(env: Env, events: seq<Event>, key: string)
    ensures |Answers(env, EMPTY, events)| == |events|
    ensures SlotsAreHeld(After(env, EMPTY, events).router, events, Answers(env, EMPTY, events), key)
  {
    if events == [] {
      hide Holds;
      forall run, j: nat
        ensures !Holds([], [], key, run, j)
      {
        NothingHeld(key, run, j);
      }
    } else {
      hide *;
      var front, last := events[..|events| - 1], events[|events| - 1];
      assert events == front + [last];
      HeldOverRun(env, front, key);
      AfterMore(env, EMPTY, front, last);
      HeldMore(env, After(env, EMPTY, front), front, Answers(env, EMPTY, front), last, key);
    }
  }

  lemma NothingHeld(key: string, run: string, j: nat)
    ensures !Holds([], [], key, run, j)
  {
  }

  /**
   In every run a turn is admitted iff the turn of its session that was admitted last, if there is one, was released
   since: by an end with its run id, or with none.
   */
  lemma AdmittedIffReleased(env: Env, before: seq<Event>, begin: Event)
    requires begin.Begin?
    ensures var answers := Answers(env, EMPTY, before);
      && |answers| == |before|
      && (Step(env, After(env, EMPTY, before), begin).1 == Began(true) <==>
            forall j: nat :: LastAdmitted(before, answers, begin.key, j) ==>
              ReleasedSince(before, begin.key, before[j].runId, j))
  {
    var key, answers, router := begin.key, Answers(env, EMPTY, before), After(env, EMPTY, before).router;
    HeldOverRun(env, before, key);
    AnswerOfBegin(env, After(env, EMPTY, before), begin);
    hide Step, After, Answers, LastAdmitted, ReleasedSince;
    if key in router.inFlight {
      assert InFlight(router, key, router.inFlight[key]);
      var j :| Holds(before, answers, key, router.inFlight[key], j);
    }
    if j: nat :| LastAdmitted(before, answers, key, j) && !ReleasedSince(before, key, before[j].runId, j) {
      assert Holds(before, answers, key, before[j].runId, j);
      assert InFlight(router, key, before[j].runId);
    }
  }
}
