/** The main results about a whole run of `execute`. */
module RouterTheorems {
  import opened RouterProtocol
  import opened ModelStream
  import opened RouterExecute
  import opened RouterRuns

  // ---- The consumer sees the last answer and nothing else

  /** What the consumer sees of a run whose first call has number `k`. */
  ghost predicate ShowsLastAnswer(env: Env, k: nat, run: Run)
  {
    var calls := Count(run.trace, KCall);
    match run.result
    case Succeeded =>
      calls > 0 && ErrorOf(env.reply(k + calls - 1)).None? && Output(run.trace) == env.reply(k + calls - 1).events
    case Failed =>
      calls > 0 && ErrorOf(env.reply(k + calls - 1)).Some?
      && Output(run.trace) == FailedOutput(env.reply(k + calls - 1))
    case AbortThrown =>
      calls > 0 &&
      var last := env.reply(k + calls - 1);
      Output(run.trace) == if last.ending.AbortedByCaller? then Shown(last.events) else []
    case Stopped => Output(run.trace) == []
    case BudgetExceeded => |Output(run.trace)| == 2
  }

  /** A run that stops before its next call. */
  lemma ShowsNothing(s: Setup, env: Env, i: nat, k: nat)
    requires i < |Attempts(s)|
    ensures ShowsLastAnswer(env, k, Run([], Stopped))
    ensures OverBudget(s, i) ==> ShowsLastAnswer(env, k, Run(BudgetStop(s, i), BudgetExceeded))
  {
    hide BudgetStop;
    if OverBudget(s, i) {
      OfBudgetStop(s, i, KCall);
    }
  }

  /** A run that ends with its next call. */
  lemma ShowsHalt(s: Setup, env: Env, i: nat, tries: nat, transients: nat, k: nat, step: Step)
    requires i < |Attempts(s)| && Ends(s, env.reply(k), i, tries, transients, step, KCall)
    ensures ShowsLastAnswer(env, k, Run(step.effects, step.result))
  {
    hide GoesOn, FailedOutput, ErrorOf, Shown, Count, Output, Waited, Attempts;
    if step.result == AbortThrown && !env.reply(k).ending.AbortedByCaller? {
      var next :| AbortedIn(s, i, tries, transients, step, next);
      OfAgain(s, i, tries, transients, next, KCall);
    }
  }

  /** A call that shows nothing, and the rest of the run. */
  lemma ShowsRest(env: Env, k: nat, run: Run, rest: Run)
    requires ShowsLastAnswer(env, k + 1, rest) && run.result == rest.result
    requires Output(run.trace) == Output(rest.trace) && Count(run.trace, KCall) == 1 + Count(rest.trace, KCall)
    ensures ShowsLastAnswer(env, k, run)
  {
    hide Output, Count, FailedOutput, ErrorOf, Shown;
  }

  lemma {:induction false} OutputFrom(s: Setup, env: Env, i: nat, tries: nat, transients: nat, k: nat)
    requires i < |Attempts(s)|
    ensures ShowsLastAnswer(env, k, RunFrom(s, env, i, tries, transients, k))
    decreases |Attempts(s)| - i, RetriesLeft(s, tries, transients)
  {
    hide OneTry, BudgetStop, GoesOn, Ends, ShowsLastAnswer, Count, Output;
    if StopsBeforeCall(s, env, i, tries, k) {
      ShowsNothing(s, env, i, k);
    } else {
      var step := Unroll(s, env, i, tries, transients, k, KCall);
      hide RunFrom;
      if step.Again? {
        OfAgain(s, i, tries, transients, step, KCall);
        OutputFrom(s, env, step.i, step.tries, step.transients, k + 1);
        ShowsRest(env, k, RunFrom(s, env, i, tries, transients, k),
                  RunFrom(s, env, step.i, step.tries, step.transients, k + 1));
      } else {
        ShowsHalt(s, env, i, tries, transients, k, step);
      }
    }
  }

  /**
   Live streaming shows what waiting for whole answers would show: an answer that is retried or fallen
   back from contributes no event; a successful run shows its last answer, all of it and in order; a
   failed run shows its last answer and ends with the error.
   */
  lemma OutputIsLastAnswer(s: Setup, env: Env)
    ensures ShowsLastAnswer(env, 0, Buffered(s, env))
  {
    OutputFrom(s, env, 0, 0, 0, 0);
  }

  function Contents(events: seq<Event>): seq<Event> {
    if events == [] then []
    else (if IsContentEvent(events[0]) then [events[0]] else []) + Contents(events[1..])
  }

  lemma {:induction false} ContentsAppend(a: seq<Event>, b: seq<Event>)
    ensures Contents(a + b) == Contents(a) + Contents(b)
  {
    if a == [] {
      assert a + b == b;
    } else {
      assert (a + b)[1..] == a[1..] + b;
      ContentsAppend(a[1..], b);
    }
  }

  lemma {:induction false} NoContents(events: seq<Event>)
    requires !HasContent(events)
    ensures Contents(events) == [] && Contents(WithoutErrors(events)) == []
  {
    if events != [] {
      var front, rest := if events[0].ErrorEvent? then [] else [events[0]], events[1..];
      assert forall j :: 0 <= j < |rest| ==> rest[j] == events[j + 1];
      NoContents(rest);
      ContentsAppend(front, WithoutErrors(rest));
      assert !IsContentEvent(events[0]);
    }
  }

  /** No content event is shown twice, even though framing events of a failed answer are. */
  lemma FailureKeepsContent(reply: Reply)
    requires ErrorOf(reply).Some?
    ensures Contents(FailedOutput(reply)) == Contents(reply.events)
    ensures FailedOutput(reply)[|FailedOutput(reply)| - 1] == ErrorEvent(ErrorOf(reply).value)
  {
    var again, error := WithoutErrors(Held(reply.events)), [ErrorEvent(ErrorOf(reply).value)];
    NoContents(Held(reply.events));
    ContentsAppend(reply.events, again);
    ContentsAppend(reply.events + again, error);
    assert Contents(error) == [];
  }

  // ---- Booking

  /** Statistics once for every run that succeeds or fails, the usage cache exactly for those that succeed. */
  ghost predicate BookedOnce(run: Run) {
    && Count(run.trace, KStats) == (if run.result == Succeeded || run.result == Failed then 1 else 0)
    && Count(run.trace, KUsage) == (if run.result == Succeeded then 1 else 0)
  }

  lemma {:induction false} BookingFrom(s: Setup, env: Env, i: nat, tries: nat, transients: nat, k: nat, kind: Kind)
    requires i < |Attempts(s)| && (kind == KStats || kind == KUsage)
    ensures var run := RunFrom(s, env, i, tries, transients, k);
            Count(run.trace, kind) ==
            if run.result == Succeeded || (run.result == Failed && kind == KStats) then 1 else 0
    decreases |Attempts(s)| - i, RetriesLeft(s, tries, transients)
  {
    hide OneTry, BudgetStop, GoesOn, FailedOutput, ErrorOf;
    if StopsBeforeCall(s, env, i, tries, k) {
      if !env.abortedBefore(k) {
        OfBudgetStop(s, i, kind);
      }
    } else {
      var step := Unroll(s, env, i, tries, transients, k, kind);
      hide RunFrom, Count, Output;
      if step.Again? {
        OfAgain(s, i, tries, transients, step, kind);
        BookingFrom(s, env, step.i, step.tries, step.transients, k + 1, kind);
      } else if step.result == AbortThrown && !env.reply(k).ending.AbortedByCaller? {
        var next :| AbortedIn(s, i, tries, transients, step, next);
        OfAgain(s, i, tries, transients, next, kind);
      }
    }
  }

  lemma RunIsBookedOnce(s: Setup, env: Env)
    ensures BookedOnce(Buffered(s, env))
  {
    BookingFrom(s, env, 0, 0, 0, 0, KStats);
    BookingFrom(s, env, 0, 0, 0, 0, KUsage);
  }

  // ---- The sub-agent budget

  /** All attempts send the same messages, to their own provider and model. */
  lemma SameMessages(s: Setup, i: nat)
    requires i < |Attempts(s)|
    ensures AttemptRequest(s, i).messages == AttemptRequest(s, 0).messages
    ensures ModelRef(AttemptRequest(s, i).provider, AttemptRequest(s, i).model) == Attempts(s)[i]
    ensures OverBudget(s, i) <==> OverBudget(s, 0)
  {
  }

  lemma {:induction false} NoBudgetStopLater(s: Setup, env: Env, i: nat, tries: nat, transients: nat, k: nat)
    requires i < |Attempts(s)| && !OverBudget(s, 0)
    ensures RunFrom(s, env, i, tries, transients, k).result != BudgetExceeded
    decreases |Attempts(s)| - i, RetriesLeft(s, tries, transients)
  {
    hide BudgetStop, GoesOn, OneTry;
    SameMessages(s, i);
    if !StopsBeforeCall(s, env, i, tries, k) {
      var step := Unroll(s, env, i, tries, transients, k, KCall);
      hide Count, Output;
      if step.Again? {
        NoBudgetStopLater(s, env, step.i, step.tries, step.transients, k + 1);
      }
    }
  }

  /** The budget stops a run before its first provider call or never. */
  lemma BudgetStopsFirst(s: Setup, env: Env)
    ensures Buffered(s, env).result == BudgetExceeded <==> !env.abortedBefore(0) && OverBudget(s, 0)
    ensures Buffered(s, env).result == BudgetExceeded ==> Count(Buffered(s, env).trace, KCall) == 0
  {
    if OverBudget(s, 0) {
      OfBudgetStop(s, 0, KCall);
    } else {
      NoBudgetStopLater(s, env, 0, 0, 0, 0);
    }
  }

  // ---- Which attempt each call belongs to

  /** The effects of a run that has reached attempt `i`: every fallback event leads to the next attempt,
      every call and every record belongs to the attempt reached so far, and transient retries happen only
      in the last one. */
  ghost predicate FollowsAttempts(s: Setup, i: nat, trace: seq<Effect>)
    decreases trace
  {
    trace == [] ||
    (InPlace(s, i, trace[0]) && FollowsAttempts(s, i + (if trace[0].FallbackTaken? then 1 else 0), trace[1..]))
  }

  ghost predicate InPlace(s: Setup, m: nat, e: Effect) {
    m < |Attempts(s)| &&
    match e
    case Call(r) => r == AttemptRequest(s, m)
    case FallbackTaken(attempt, from, to, _) =>
      attempt == m + 1 < |Attempts(s)| && from == Attempts(s)[m] && to == Attempts(s)[m + 1]
    case TransientRetry(_, on, _) => m == |Attempts(s)| - 1 && on == Attempts(s)[m]
    case ZeroUsageRetry(_, on) => on == Attempts(s)[m]
    case StatsRecorded(d, _) => d == AttemptDecision(s, m)
    case ExecuteFailed(d, _) => d == AttemptDecision(s, m)
    case _ => true
  }

  lemma {:induction false} FollowsAppend(s: Setup, i: nat, a: seq<Effect>, b: seq<Effect>)
    requires FollowsAttempts(s, i, a) && FollowsAttempts(s, i + Count(a, KFallback), b)
    ensures FollowsAttempts(s, i, a + b)
    decreases a
  {
    hide InPlace;
    if a == [] {
      assert a + b == b;
    } else {
      assert (a + b)[1..] == a[1..] + b;
      FollowsAppend(s, i + (if a[0].FallbackTaken? then 1 else 0), a[1..], b);
    }
  }

  lemma {:induction false} FollowsEmits(s: Setup, i: nat, events: seq<Event>)
    requires i < |Attempts(s)|
    ensures FollowsAttempts(s, i, Emits(events))
  {
    hide Attempts;
    if events != [] {
      assert Emits(events)[1..] == Emits(events[1..]);
      FollowsEmits(s, i, events[1..]);
    }
  }

  lemma FollowsOne(s: Setup, i: nat, e: Effect)
    requires InPlace(s, i, e)
    ensures FollowsAttempts(s, i, [e])
  {
  }

  lemma FollowsTwo(s: Setup, i: nat, a: Effect, b: Effect)
    requires InPlace(s, i, a) && !a.FallbackTaken? && InPlace(s, i, b)
    ensures FollowsAttempts(s, i, [a, b])
  {
    hide InPlace;
    assert [a, b][1..] == [b];
    FollowsOne(s, i, b);
  }

  lemma FollowsHead(s: Setup, env: Env, i: nat, k: nat)
    requires i < |Attempts(s)|
    ensures FollowsAttempts(s, i, Head(s, env, i, k))
    ensures FollowsAttempts(s, i, Head(s, env, i, k) + Emits(Held(env.reply(k).events)))
  {
    var call := Call(AttemptRequest(s, i));
    FollowsOne(s, i, call);
    hide FollowsAttempts, Shown, Held, Emits, Attempts, AttemptRequest;
    OfOne(call, KFallback);
    FollowsEmits(s, i, Shown(env.reply(k).events));
    FollowsAppend(s, i, [call], Emits(Shown(env.reply(k).events)));
    OfHead(s, env, i, k, KFallback);
    FollowsEmits(s, i, Held(env.reply(k).events));
    FollowsAppend(s, i, Head(s, env, i, k), Emits(Held(env.reply(k).events)));
  }

  lemma FollowsReportFailure(s: Setup, i: nat, last: Last)
    requires i < |Attempts(s)| && last.decision == AttemptDecision(s, i)
    ensures FollowsAttempts(s, i, ReportFailure(s, last))
  {
    var usage := UsageOrEstimate(s, last.usage, s.request.messages, last.buffered);
    var replayed := WithoutErrors(if last.hasYieldedContent then [] else last.buffered);
    var front := [ExecuteFailed(last.decision, last.error), StatsRecorded(last.decision, usage)];
    var end := Emit(ErrorEvent(last.error));
    FollowsTwo(s, i, front[0], front[1]);
    FollowsOne(s, i, end);
    assert ReportFailure(s, last) == front + Emits(replayed) + [end];
    hide FollowsAttempts, ReportFailure, Emits, Attempts, WithoutErrors, UsageOrEstimate;
    OfTwo(front[0], front[1], KFallback);
    FollowsEmits(s, i, replayed);
    OfEmits(replayed, KFallback);
    CountAppend(front, Emits(replayed), KFallback);
    FollowsAppend(s, i, front, Emits(replayed));
    FollowsAppend(s, i, front + Emits(replayed), [end]);
  }

  lemma FollowsReportSuccess(s: Setup, i: nat, reply: Reply)
    requires i < |Attempts(s)|
    ensures FollowsAttempts(s, i, ReportSuccess(s, i, reply))
  {
    hide Attempts, UsageOrEstimate;
    var report := ReportSuccess(s, i, reply);
    FollowsTwo(s, i, report[0], report[1]);
  }

  lemma FollowsAgain(s: Setup, i: nat, tries: nat, transients: nat, step: Step)
    requires i < |Attempts(s)| && GoesOn(s, i, tries, transients, step)
    ensures FollowsAttempts(s, i, step.effects)
  {
    var effects := step.effects;
    if step.i == i {
      assert effects == [effects[0]] + ([effects[1]] + [effects[2]]);
      FollowsOne(s, i, effects[2]);
    } else {
      assert effects == [effects[0]] + [effects[1]];
    }
    FollowsOne(s, i, effects[0]);
    FollowsOne(s, i, effects[1]);
    hide FollowsAttempts, InPlace, AttemptRequest, Attempts, Z, T, MaxDelay;
    OfOne(effects[0], KFallback);
    OfOne(effects[1], KFallback);
    if step.i == i {
      FollowsAppend(s, i, [effects[1]], [effects[2]]);
      FollowsAppend(s, i, [effects[0]], [effects[1]] + [effects[2]]);
    } else {
      FollowsAppend(s, i, [effects[0]], [effects[1]]);
    }
  }

  lemma FollowsEnd(s: Setup, env: Env, i: nat, tries: nat, transients: nat, k: nat)
    requires i < |Attempts(s)| && OneTry(s, env, i, tries, transients, k).Halt?
    ensures FollowsAttempts(s, i, OneTry(s, env, i, tries, transients, k).effects)
  {
    var step, reply := OneTry(s, env, i, tries, transients, k), env.reply(k);
    HaltForm(s, env, i, tries, transients, k);
    HaltShape(s, env, i, tries, transients, k, KFallback);
    hide OneTry, FollowsAttempts, ReportFailure, ReportSuccess, Head, Attempts, GoesOn, Emits, ErrorOf, Output,
         Count, Waited;
    FollowsHead(s, env, i, k);
    if step.result == AbortThrown {
      if !reply.ending.AbortedByCaller? {
        var next :| AbortedIn(s, i, tries, transients, step, next);
        FollowsAgain(s, i, tries, transients, next);
      }
    } else {
      FollowsReport(s, env, i, k);
    }
  }

  lemma FollowsReport(s: Setup, env: Env, i: nat, k: nat)
    requires i < |Attempts(s)|
    ensures var reply := env.reply(k);
            var front := Head(s, env, i, k) + Emits(Held(reply.events));
            && FollowsAttempts(s, i, front + ReportSuccess(s, i, reply))
            && (ErrorOf(reply).Some? ==>
                  FollowsAttempts(s, i, front + ReportFailure(s, LastOf(s, i, reply, ErrorOf(reply).value))))
  {
    hide FollowsAttempts, ReportFailure, ReportSuccess, Head, Attempts, Emits, ErrorOf, Held;
    var reply := env.reply(k);
    var front := Head(s, env, i, k) + Emits(Held(reply.events));
    FollowsHead(s, env, i, k);
    OfHead(s, env, i, k, KFallback);
    FollowsReportSuccess(s, i, reply);
    FollowsAppend(s, i, front, ReportSuccess(s, i, reply));
    if ErrorOf(reply).Some? {
      var last := LastOf(s, i, reply, ErrorOf(reply).value);
      FollowsReportFailure(s, i, last);
      FollowsAppend(s, i, front, ReportFailure(s, last));
    }
  }

  lemma {:induction false} RunFollows(s: Setup, env: Env, i: nat, tries: nat, transients: nat, k: nat)
    requires i < |Attempts(s)|
    ensures FollowsAttempts(s, i, RunFrom(s, env, i, tries, transients, k).trace)
    decreases |Attempts(s)| - i, RetriesLeft(s, tries, transients)
  {
    hide OneTry, FollowsAttempts, BudgetStop, GoesOn;
    if StopsBeforeCall(s, env, i, tries, k) {
      StopFollows(s, i);
    } else {
      var step := Unroll(s, env, i, tries, transients, k, KFallback);
      hide RunFrom;
      if step.Again? {
        OfAgain(s, i, tries, transients, step, KFallback);
        FollowsAgain(s, i, tries, transients, step);
        RunFollows(s, env, step.i, step.tries, step.transients, k + 1);
        FollowsAppend(s, i, step.effects, RunFrom(s, env, step.i, step.tries, step.transients, k + 1).trace);
      } else {
        FollowsEnd(s, env, i, tries, transients, k);
      }
    }
  }

  lemma StopFollows(s: Setup, i: nat)
    requires i < |Attempts(s)|
    ensures FollowsAttempts(s, i, [])
    ensures OverBudget(s, i) ==> FollowsAttempts(s, i, BudgetStop(s, i))
  {
    if OverBudget(s, i) {
      FollowsTwo(s, i, BudgetStop(s, i)[0], BudgetStop(s, i)[1]);
    }
  }

  /** The effects of a run walk through the attempts in order, from attempt 0. */
  lemma RunWalksAttempts(s: Setup, env: Env)
    ensures FollowsAttempts(s, 0, Buffered(s, env).trace)
  {
    RunFollows(s, env, 0, 0, 0, 0);
  }
}
