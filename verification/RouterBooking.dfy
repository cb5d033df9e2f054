/**
 What a run of `execute` books, in terms of the provider's last answer: the usage of its last report if that counts
 input or output, and the token estimates otherwise; and for which model.
 */
module RouterBooking {
  import opened Options
  import opened RouterProtocol
  import opened ModelStream
  import opened RouterExecute
  import opened RouterRuns

  /** The report counts input or output. */
  predicate Counts(u: Usage) { (u.input.Some? && u.input.value > 0) || (u.output.Some? && u.output.value > 0) }

  /** `u` is what is recorded for an answer to `messages`: what it reported last, or the estimates. */
  ghost predicate Recorded(s: Setup, messages: seq<Message>, events: seq<Event>, u: Usage) {
    && (forall i :: LastUsageAt(events, i) && Counts(events[i].usage) ==> u == events[i].usage)
    && ((forall i :: LastUsageAt(events, i) ==> !Counts(events[i].usage)) ==>
          var sent, received := s.helpers.countMessages(messages), s.helpers.countResponse(events);
          u == Usage(Some(sent), Some(received), Some(sent + received), None, None))
  }

  lemma RecordedUsage(s: Setup, messages: seq<Message>, events: seq<Event>)
    ensures Recorded(s, messages, events, UsageOrEstimate(s, ObserveAll(events).usage, messages, events))
  {
    hide ObserveAll;
    ObservedUsage(events, 0);
    forall i | LastUsageAt(events, i)
      ensures ObserveAll(events).usage == Some(events[i].usage)
    {
      ObservedUsage(events, i);
    }
    if ObserveAll(events).usage.Some? {
      var i := LastUsageIndex(events);
    }
  }

  /** The answer ended without exception and without error event. */
  predicate Succeeds(reply: Reply) { reply.ending.Finished? && !HasErrorEvent(reply.events) }

  lemma SucceedsIff(reply: Reply)
    requires !reply.ending.AbortedByCaller?
    ensures Succeeds(reply) <==> ErrorOf(reply).None?
  {
    hide LastError;
  }

  /** One effect of a run whose last answer is `reply`, and whose messages were sent as `messages`. */
  ghost predicate Books(s: Setup, messages: seq<Message>, reply: Reply, result: Result, e: Effect) {
    match e
    case Call(r) => r.messages == messages
    case UsageCached(u) => result == Succeeded && Succeeds(reply) && Recorded(s, messages, reply.events, u)
    case StatsRecorded(_, u) =>
      if result == Succeeded then Succeeds(reply) && Recorded(s, messages, reply.events, u)
      else result == Failed && !Succeeds(reply) && Recorded(s, s.request.messages, reply.events, u)
    case _ => true
  }

  /** Every record of a run whose first call has number `k` is made for its last answer. */
  ghost predicate BooksLastAnswer(s: Setup, env: Env, k: nat, run: Run) {
    var calls := Count(run.trace, KCall);
    forall e :: e in run.trace ==>
      if calls > 0 then Books(s, AttemptRequest(s, 0).messages, env.reply(k + calls - 1), run.result, e)
      else !e.Call? && !e.UsageCached? && !e.StatsRecorded?
  }

  lemma BooksAgain(s: Setup, i: nat, tries: nat, transients: nat, step: Step, reply: Reply, result: Result)
    requires i < |Attempts(s)| && GoesOn(s, i, tries, transients, step)
    ensures forall e :: e in step.effects ==> Books(s, AttemptRequest(s, i).messages, reply, result, e)
  {
    hide Attempts, AttemptRequest, Z, T, MaxDelay, Recorded, Succeeds;
  }

  /** The effect books nothing, and sends `messages` if it is a call. */
  predicate OnlySends(messages: seq<Message>, e: Effect) {
    !e.UsageCached? && !e.StatsRecorded? && (e.Call? ==> e.request.messages == messages)
  }

  lemma AgainOnlySends(s: Setup, i: nat, tries: nat, transients: nat, step: Step)
    requires i < |Attempts(s)| && GoesOn(s, i, tries, transients, step)
    ensures forall e :: e in step.effects ==> OnlySends(AttemptRequest(s, i).messages, e)
  {
    hide Attempts, AttemptRequest, Z, T, MaxDelay;
  }

  lemma BooksEmits(s: Setup, events: seq<Event>, messages: seq<Message>, reply: Reply, result: Result)
    ensures forall e :: e in Emits(events) ==> Books(s, messages, reply, result, e)
  {
    hide Recorded, Succeeds;
  }

  lemma BooksHead(s: Setup, env: Env, i: nat, k: nat, result: Result)
    requires i < |Attempts(s)|
    ensures forall e :: e in Head(s, env, i, k) + Emits(Held(env.reply(k).events)) ==>
      Books(s, AttemptRequest(s, i).messages, env.reply(k), result, e)
  {
    var messages, reply := AttemptRequest(s, i).messages, env.reply(k);
    BooksEmits(s, Shown(reply.events), messages, reply, result);
    BooksEmits(s, Held(reply.events), messages, reply, result);
    hide Shown, Held, Emits, Attempts, AttemptRequest, Recorded, Succeeds;
  }

  lemma BooksSuccess(s: Setup, i: nat, reply: Reply)
    requires i < |Attempts(s)| && !reply.ending.AbortedByCaller? && ErrorOf(reply).None?
    ensures forall e :: e in ReportSuccess(s, i, reply) ==>
      Books(s, AttemptRequest(s, i).messages, reply, Succeeded, e)
  {
    SucceedsIff(reply);
    RecordedUsage(s, AttemptRequest(s, i).messages, reply.events);
    hide Attempts, AttemptRequest, Recorded, Succeeds, UsageOrEstimate, ErrorOf, AttemptDecision;
  }

  lemma BooksFailure(s: Setup, i: nat, reply: Reply, messages: seq<Message>)
    requires i < |Attempts(s)| && !reply.ending.AbortedByCaller? && ErrorOf(reply).Some?
    ensures forall e :: e in ReportFailure(s, LastOf(s, i, reply, ErrorOf(reply).value)) ==>
      Books(s, messages, reply, Failed, e)
  {
    SucceedsIff(reply);
    var last := LastOf(s, i, reply, ErrorOf(reply).value);
    RecordedUsage(s, s.request.messages, reply.events);
    var replayed := WithoutErrors(if last.hasYieldedContent then [] else last.buffered);
    BooksEmits(s, replayed, messages, reply, Failed);
    hide Attempts, Recorded, Succeeds, UsageOrEstimate, ErrorOf, AttemptDecision, Emits, WithoutErrors, HasContent;
  }

  lemma BooksHalt(s: Setup, env: Env, i: nat, tries: nat, transients: nat, k: nat)
    requires i < |Attempts(s)| && OneTry(s, env, i, tries, transients, k).Halt?
    ensures var step := OneTry(s, env, i, tries, transients, k);
      forall e :: e in step.effects ==>
        Books(s, AttemptRequest(s, i).messages, env.reply(k), step.result, e)
  {
    var step, reply := OneTry(s, env, i, tries, transients, k), env.reply(k);
    HaltForm(s, env, i, tries, transients, k);
    if step.result == AbortThrown && !reply.ending.AbortedByCaller? {
      var next := AbortedWait(s, env, i, tries, transients, k);
      BooksAgain(s, i, tries, transients, next, reply, AbortThrown);
    }
    hide OneTry, Head, Emits, Held, ReportFailure, ReportSuccess, ErrorOf, Books, Attempts, AttemptRequest, GoesOn;
    BooksHead(s, env, i, k, step.result);
    match step.result
    case Succeeded => BooksSuccess(s, i, reply);
    case Failed => BooksFailure(s, i, reply, AttemptRequest(s, i).messages);
    case _ =>
  }

  lemma SentIsSame(s: Setup, i: nat)
    requires i < |Attempts(s)|
    ensures AttemptRequest(s, i).messages == AttemptRequest(s, 0).messages
  {
  }

  lemma StopBooks(s: Setup, env: Env, i: nat, k: nat)
    requires i < |Attempts(s)|
    ensures BooksLastAnswer(s, env, k, Run([], Stopped))
    ensures OverBudget(s, i) ==> BooksLastAnswer(s, env, k, Run(BudgetStop(s, i), BudgetExceeded))
  {
    hide Attempts, AttemptRequest;
    if OverBudget(s, i) {
      OfBudgetStop(s, i, KCall);
    }
  }

  lemma RestBooks(s: Setup, env: Env, k: nat, effects: seq<Effect>, run: Run, rest: Run)
    requires BooksLastAnswer(s, env, k + 1, rest) && run == Run(effects + rest.trace, rest.result)
    requires Count(run.trace, KCall) == 1 + Count(rest.trace, KCall)
    requires forall e :: e in effects ==> OnlySends(AttemptRequest(s, 0).messages, e)
    ensures BooksLastAnswer(s, env, k, run)
  {
    hide Count, Recorded, Succeeds, AttemptRequest;
  }

  lemma HaltBooks(s: Setup, env: Env, k: nat, run: Run)
    requires Count(run.trace, KCall) == 1
    requires forall e :: e in run.trace ==> Books(s, AttemptRequest(s, 0).messages, env.reply(k), run.result, e)
    ensures BooksLastAnswer(s, env, k, run)
  {
    hide Count, Books, AttemptRequest;
  }

  lemma CallsOfHalt(s: Setup, env: Env, i: nat, tries: nat, transients: nat, k: nat, step: Step)
    requires i < |Attempts(s)| && Ends(s, env.reply(k), i, tries, transients, step, KCall)
    ensures Count(step.effects, KCall) == 1
  {
    hide Count, Output, Waited, Attempts, GoesOn, FailedOutput, ErrorOf;
    if step.result == AbortThrown && !env.reply(k).ending.AbortedByCaller? {
      var next :| AbortedIn(s, i, tries, transients, step, next);
      OfAgain(s, i, tries, transients, next, KCall);
    }
  }

  lemma {:induction false} BooksFrom(s: Setup, env: Env, i: nat, tries: nat, transients: nat, k: nat)
    requires i < |Attempts(s)|
    ensures BooksLastAnswer(s, env, k, RunFrom(s, env, i, tries, transients, k))
    decreases |Attempts(s)| - i, RetriesLeft(s, tries, transients)
  {
    hide OneTry, BudgetStop, GoesOn, Ends, BooksLastAnswer, Books, OnlySends, AttemptRequest, Count, Output;
    SentIsSame(s, i);
    if StopsBeforeCall(s, env, i, tries, k) {
      StopBooks(s, env, i, k);
    } else {
      var step := Unroll(s, env, i, tries, transients, k, KCall);
      var run := RunFrom(s, env, i, tries, transients, k);
      hide RunFrom;
      if step.Again? {
        var rest := RunFrom(s, env, step.i, step.tries, step.transients, k + 1);
        OfAgain(s, i, tries, transients, step, KCall);
        BooksFrom(s, env, step.i, step.tries, step.transients, k + 1);
        AgainOnlySends(s, i, tries, transients, step);
        RestBooks(s, env, k, step.effects, run, rest);
      } else {
        BooksHalt(s, env, i, tries, transients, k);
        CallsOfHalt(s, env, i, tries, transients, k, step);
        HaltBooks(s, env, k, run);
      }
    }
  }

  /**
   In every run the usage cache and the statistics receive what the last answer reported, if its last report counts
   input or output, and otherwise the estimates for the messages sent and the answer; a failed run is estimated by the
   messages of the request itself.
   */
  lemma RunBooksLastAnswer(s: Setup, env: Env)
    ensures BooksLastAnswer(s, env, 0, Buffered(s, env))
  {
    BooksFrom(s, env, 0, 0, 0, 0);
  }
}
