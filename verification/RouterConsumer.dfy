/**
 The agent loop reads the stream of `execute` and leaves its `for await` at the first error event
 (src/agent/loop/AgentLoop.ts). That closes the generator, so whatever `execute` would have done after
 that event never happens.
 */
module RouterConsumer {
  import opened Options
  import opened ModelStream
  import opened RouterExecute
  import opened RouterRuns

  /** The part of a run that happens when its consumer stops at the first error event. */
  function UntilError(trace: seq<Effect>): seq<Effect> {
    if trace == [] then []
    else if trace[0].Emit? && trace[0].event.ErrorEvent? then [trace[0]]
    else [trace[0]] + UntilError(trace[1..])
  }

  lemma HasErrorCons(e: Event, events: seq<Event>)
    ensures HasErrorEvent([e] + events) <==> e.ErrorEvent? || HasErrorEvent(events)
  {
    if e.ErrorEvent? {
      assert ([e] + events)[0].ErrorEvent?;
    }
    if HasErrorEvent(events) {
      var j :| 0 <= j < |events| && events[j].ErrorEvent?;
      assert ([e] + events)[j + 1].ErrorEvent?;
    }
  }

  lemma UntilErrorFirst(first: Effect, rest: seq<Effect>)
    ensures UntilError([first] + rest)
         == [first] + if first.Emit? && first.event.ErrorEvent? then [] else UntilError(rest)
    ensures HasErrorEvent(Output([first] + rest))
      <==> (first.Emit? && first.event.ErrorEvent?) || HasErrorEvent(Output(rest))
  {
    var all := [first] + rest;
    assert all[0] == first && all[1..] == rest;
    assert [first] + [] == [first];
    if first.Emit? {
      HasErrorCons(first.event, Output(rest));
    }
    hide HasErrorEvent;
  }

  lemma UntilErrorEmpty()
    ensures UntilError([]) == [] && !HasErrorEvent(Output([]))
  {
  }

  lemma {:induction false} UntilErrorAppend(a: seq<Effect>, b: seq<Effect>)
    ensures UntilError(a + b) == if HasErrorEvent(Output(a)) then UntilError(a) else a + UntilError(b)
    decreases a
  {
    hide *;
    if a == [] {
      assert a + b == b;
      UntilErrorEmpty();
      assert a + UntilError(b) == UntilError(b);
    } else {
      var first, rest := a[0], a[1..];
      assert a == [first] + rest;
      assert a + b == [first] + (rest + b);
      UntilErrorAppend(rest, b);
      UntilErrorFirst(first, rest);
      UntilErrorFirst(first, rest + b);
      if !HasErrorEvent(Output(a)) {
        ConsAssociates(first, rest, UntilError(b));
      }
    }
  }

  lemma ConsAssociates(first: Effect, rest: seq<Effect>, more: seq<Effect>)
    ensures [first] + (rest + more) == [first] + rest + more
  {
  }

  lemma {:induction false} UntilErrorCounts(trace: seq<Effect>, kind: Kind)
    ensures Count(UntilError(trace), kind) <= Count(trace, kind)
  {
    hide KindOf;
    if trace != [] && !(trace[0].Emit? && trace[0].event.ErrorEvent?) {
      UntilErrorCounts(trace[1..], kind);
      assert UntilError(trace)[1..] == UntilError(trace[1..]);
    }
  }

  /** A failed run books its statistics before it replays anything, but after the queue was passed on. */
  lemma ReportUntilError(s: Setup, last: Last)
    ensures Count(UntilError(ReportFailure(s, last)), KStats) == 1
  {
    var usage := UsageOrEstimate(s, last.usage, s.request.messages, last.buffered);
    var replayed := WithoutErrors(if last.hasYieldedContent then [] else last.buffered);
    var a, b := ExecuteFailed(last.decision, last.error), StatsRecorded(last.decision, usage);
    var rest := Emits(replayed) + [Emit(ErrorEvent(last.error))];
    assert ReportFailure(s, last) == [a, b] + rest;
    CountOfReportFailure(s, last, KStats);
    UntilErrorCounts(ReportFailure(s, last), KStats);
    hide ReportFailure, UsageOrEstimate, WithoutErrors, Emits, UntilError, Count;
    OfTwo(a, b, KStats);
    UntilErrorAppend([a, b], rest);
    CountAppend([a, b], UntilError(rest), KStats);
  }

  lemma EndUntilError(s: Setup, env: Env, i: nat, tries: nat, transients: nat, k: nat)
    requires i < |Attempts(s)| && OneTry(s, env, i, tries, transients, k).Halt?
    ensures var step := OneTry(s, env, i, tries, transients, k);
            var booked := Count(UntilError(step.effects), KStats);
            match step.result
            case Succeeded => booked == 1
            case Failed => booked == if HasErrorEvent(env.reply(k).events) then 0 else 1
            case _ => true
  {
    var step, reply := OneTry(s, env, i, tries, transients, k), env.reply(k);
    HaltForm(s, env, i, tries, transients, k);
    hide OneTry, Head, Emits, Held, ReportFailure, ReportSuccess, Attempts, UntilError, Count, Output, HasErrorEvent;
    var front := Head(s, env, i, k) + Emits(Held(reply.events));
    OfHead(s, env, i, k, KStats);
    UntilErrorCounts(front, KStats);
    if step.result == Failed {
      var report := ReportFailure(s, LastOf(s, i, reply, ErrorOf(reply).value));
      UntilErrorAppend(front, report);
      ReportUntilError(s, LastOf(s, i, reply, ErrorOf(reply).value));
      CountAppend(front, UntilError(report), KStats);
    } else if step.result == Succeeded {
      var report := ReportSuccess(s, i, reply);
      UntilErrorAppend(front, report);
      OfReportSuccess(s, i, reply, KStats);
      assert !HasErrorEvent(reply.events);
      SilentUntilError(report);
      CountAppend(front, report, KStats);
    }
  }

  lemma {:induction false} SilentUntilError(trace: seq<Effect>)
    requires Output(trace) == []
    ensures UntilError(trace) == trace
  {
    if trace != [] {
      SilentUntilError(trace[1..]);
    }
  }

  lemma SilentAppend(a: seq<Effect>, b: seq<Effect>)
    requires Output(a) == []
    ensures UntilError(a + b) == a + UntilError(b)
  {
    UntilErrorAppend(a, b);
    hide UntilError, Output;
  }

  /** How often a run whose first call has number `k` is booked. */
  ghost predicate Booked(env: Env, k: nat, run: Run) {
    var booked, calls := Count(UntilError(run.trace), KStats), Count(run.trace, KCall);
    && (run.result == Succeeded ==> booked == 1)
    && (run.result == Failed ==>
          calls > 0 && booked == if HasErrorEvent(env.reply(k + calls - 1).events) then 0 else 1)
  }

  lemma BookedHalt(s: Setup, env: Env, i: nat, tries: nat, transients: nat, k: nat)
    requires i < |Attempts(s)| && OneTry(s, env, i, tries, transients, k).Halt?
    ensures var step := OneTry(s, env, i, tries, transients, k); Booked(env, k, Run(step.effects, step.result))
  {
    EndUntilError(s, env, i, tries, transients, k);
    HaltShape(s, env, i, tries, transients, k, KCall);
    hide OneTry, GoesOn, UntilError, Count, Output, Waited, HasErrorEvent, ErrorOf, FailedOutput, Attempts;
  }

  /** A call that shows and books nothing, and the rest of the run. */
  lemma BookedRest(env: Env, k: nat, effects: seq<Effect>, run: Run, rest: Run)
    requires Booked(env, k + 1, rest) && run == Run(effects + rest.trace, rest.result)
    requires Output(effects) == [] && Count(effects, KCall) == 1 && Count(effects, KStats) == 0
    ensures Booked(env, k, run)
  {
    hide Output, Count, UntilError, HasErrorEvent;
    SilentAppend(effects, rest.trace);
    CountAppend(effects, UntilError(rest.trace), KStats);
    CountAppend(effects, rest.trace, KCall);
  }

  lemma {:induction false} BookedFrom(s: Setup, env: Env, i: nat, tries: nat, transients: nat, k: nat)
    requires i < |Attempts(s)|
    ensures Booked(env, k, RunFrom(s, env, i, tries, transients, k))
    decreases |Attempts(s)| - i, RetriesLeft(s, tries, transients)
  {
    hide OneTry, BudgetStop, GoesOn, Ends, Count, Output, UntilError, HasErrorEvent;
    if !StopsBeforeCall(s, env, i, tries, k) {
      var step := Unroll(s, env, i, tries, transients, k, KCall);
      var run := RunFrom(s, env, i, tries, transients, k);
      hide RunFrom, Booked;
      if step.Again? {
        var rest := RunFrom(s, env, step.i, step.tries, step.transients, k + 1);
        OfAgain(s, i, tries, transients, step, KCall);
        OfAgain(s, i, tries, transients, step, KStats);
        BookedFrom(s, env, step.i, step.tries, step.transients, k + 1);
        BookedRest(env, k, step.effects, run, rest);
      } else {
        BookedHalt(s, env, i, tries, transients, k);
      }
    }
  }

  /**
   For the agent loop, a successful run is always booked, but a failed one only if its last answer held no
   error event, that is, only if the provider failed by throwing: otherwise the loop leaves at the error
   event of the answer, before the statistics of the run are recorded.
   */
  lemma LoopBooksFailureIffThrown(s: Setup, env: Env)
    ensures var run := Buffered(s, env);
            var booked := Count(UntilError(run.trace), KStats);
            && (run.result == Succeeded ==> booked == 1)
            && (run.result == Failed ==>
                  && Count(run.trace, KCall) > 0
                  && (booked == 1 <==> !HasErrorEvent(env.reply(Count(run.trace, KCall) - 1).events))
                  && booked <= 1)
  {
    hide RunFrom, Count, UntilError, HasErrorEvent;
    BookedFrom(s, env, 0, 0, 0, 0);
  }

  // ---- A failure that is never booked

  const REFUSED := ModelError("auth_failed", false, false, false)

  /** A provider that answers every call with one error event. */
  function RefusingProvider(): Env {
    Env((k: nat) => Reply([ErrorEvent(REFUSED)], Finished), (k: nat) => false, (k: nat) => false, (k: nat) => 0)
  }

  lemma RefusalEnds(s: Setup)
    ensures OneTry(s, RefusingProvider(), 0, 0, 0, 0).Halt?
    ensures OneTry(s, RefusingProvider(), 0, 0, 0, 0).result == Failed
  {
    var events := [ErrorEvent(REFUSED)];
    assert LastError(events) == Some(REFUSED) && !HasContent(events);
    hide Head, Emits, Held, ReportFailure, Attempts, LastError, HasContent;
  }

  /** Whatever the configuration, the loop books nothing for a run that fails by an error event of its provider. */
  lemma RefusalIsNotBooked(s: Setup)
    requires !OverBudget(s, 0)
    ensures var run := Buffered(s, RefusingProvider());
      run.result == Failed && Count(run.trace, KStats) == 1 && Count(UntilError(run.trace), KStats) == 0
  {
    var env := RefusingProvider();
    RefusalEnds(s);
    assert !StopsBeforeCall(s, env, 0, 0, 0);
    hide OneTry, Count, UntilError, GoesOn;
    var step := Unroll(s, env, 0, 0, 0, 0, KStats);
    EndUntilError(s, env, 0, 0, 0, 0);
    assert env.reply(0).events[0].ErrorEvent?;
  }
}
