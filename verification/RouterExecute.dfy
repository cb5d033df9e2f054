/**
 `execute` of src/router/RouterRuntime.ts: one run tries a list of provider/model pairs, retries and
 falls back before any content was shown, and streams live.

 Everything a run does is one ordered trace of effects. `RunFrom` is the buffered reading of a run: it
 looks at each provider answer as a whole. `Execute` is the live one, event by event, with a queue of
 framing events; its contract says that it produces the buffered trace.

 The provider, the abort signal and the random jitter are an arbitrary environment, indexed by the
 number of provider calls already made.
 */
module RouterExecute {
  import opened Options
  import opened RouterProtocol
  import opened ModelStream

  datatype ZeroUsageConfig = ZeroUsageConfig(enabled: bool, maxAttempts: int)

  datatype TransientConfig = TransientConfig(enabled: bool, maxAttempts: int, baseDelayMs: int, maxDelayMs: int)

  datatype Config = Config(
    fallback: Option<map<ScenarioType, seq<ModelRef>>>,
    zeroUsage: Option<ZeroUsageConfig>,
    transient: Option<TransientConfig>,
    subagentMaxTokens: Option<int>)

  /** Code of other files: token estimates, tag stripping, the budget message. */
  datatype Helpers = Helpers(
    countMessages: seq<Message> -> nat,
    countResponse: seq<Event> -> nat,
    stripTag: seq<Message> -> seq<Message>,
    budgetNotice: (nat, int) -> string)

  datatype Setup = Setup(config: Config, helpers: Helpers, decision: Decision, request: Request)

  datatype Env = Env(
    reply: nat -> Reply,
    abortedBefore: nat -> bool,
    abortedInDelay: nat -> bool,
    jitter: nat -> int)

  datatype Effect =
    | Emit(event: Event)
    | Call(request: Request)
    | FallbackTaken(attempt: nat, from: ModelRef, to: ModelRef, error: ModelError)
    | TransientRetry(attempt: nat, on: ModelRef, code: string)
    | ZeroUsageRetry(attempt: nat, on: ModelRef)
    | Wait(ms: int)
    | UsageCached(usage: Usage)
    | StatsRecorded(decision: Decision, usage: Usage)
    | ExecuteFailed(decision: Decision, error: ModelError)

  datatype Result = Succeeded | Failed | BudgetExceeded | Stopped | AbortThrown

  datatype Run = Run(trace: seq<Effect>, result: Result)

  // ---- Configuration

  function Max(a: int, b: int): int { if a >= b then a else b }

  function ZeroUsageMax(c: Config): int {
    Max(1, if c.zeroUsage.Some? then c.zeroUsage.value.maxAttempts else 5)
  }

  predicate ZeroUsageEnabled(c: Config) { c.zeroUsage.Some? ==> c.zeroUsage.value.enabled }

  function TransientMax(c: Config): int {
    Max(1, if c.transient.Some? then c.transient.value.maxAttempts else 5)
  }

  predicate TransientEnabled(c: Config) { c.transient.Some? ==> c.transient.value.enabled }

  function BaseDelay(c: Config): int { if c.transient.Some? then c.transient.value.baseDelayMs else 1000 }

  function MaxDelay(c: Config): int { if c.transient.Some? then c.transient.value.maxDelayMs else 30000 }

  /** The provider calls one attempt may spend on empty answers. */
  function Z(c: Config): int { if ZeroUsageEnabled(c) then ZeroUsageMax(c) else 1 }

  /** The transient retries one attempt may spend. */
  function T(c: Config): int { if TransientEnabled(c) then TransientMax(c) else 0 }

  function PlanFallback(fallback: Option<map<ScenarioType, seq<ModelRef>>>, scenario: ScenarioType): seq<ModelRef> {
    match fallback
    case None => []
    case Some(plan) =>
      if scenario != ExplicitScenario && scenario in plan then plan[scenario]
      else if DefaultScenario in plan then plan[DefaultScenario]
      else []
  }

  function Attempts(s: Setup): (r: seq<ModelRef>)
    ensures |r| >= 1
  {
    [ModelRef(s.decision.provider, s.decision.model)] + PlanFallback(s.config.fallback, s.decision.scenarioType)
  }

  function AttemptDecision(s: Setup, i: nat): Decision
    requires i < |Attempts(s)|
  {
    s.decision.(provider := Attempts(s)[i].provider,
                model := Attempts(s)[i].model,
                resolvedFrom := if i == 0 then s.decision.resolvedFrom else ByFallback)
  }

  function ApplyDecisionToRequest(h: Helpers, d: Decision, r: Request): Request {
    var messages := if d.patch.Some? then d.patch.value.messages else r.messages;
    Request(d.provider, d.model,
            if d.mutations.subagentTagStripped then h.stripTag(messages) else messages,
            if d.patch.Some? then d.patch.value.tools else r.tools,
            if d.patch.Some? then d.patch.value.systemPrompt else r.systemPrompt)
  }

  function AttemptRequest(s: Setup, i: nat): Request
    requires i < |Attempts(s)|
  {
    ApplyDecisionToRequest(s.helpers, AttemptDecision(s, i), s.request)
  }

  /** A budget of 0 counts as no budget. */
  predicate OverBudget(s: Setup, i: nat)
    requires i < |Attempts(s)|
  {
    && s.decision.isSubagent
    && s.config.subagentMaxTokens.Some?
    && s.config.subagentMaxTokens.value != 0
    && s.helpers.countMessages(AttemptRequest(s, i).messages) > s.config.subagentMaxTokens.value
  }

  // ---- What is decided after each answer

  datatype Verdict =
    | AbortedMidStream
    | NextAttempt(error: ModelError)
    | RetryTransient(error: ModelError)
    | GiveUp(error: ModelError)
    | RetryZeroUsage
    | Accept

  /** `tries` counts the calls of attempt `i` including this one, `transients` its transient retries. */
  function Judge(s: Setup, reply: Reply, i: nat, tries: nat, transients: nat): Verdict {
    if reply.ending.AbortedByCaller? then AbortedMidStream
    else match ErrorOf(reply)
      case Some(e) =>
        var retryable := !HasContent(reply.events) && IsFallbackEligible(e);
        if retryable && i < |Attempts(s)| - 1 then NextAttempt(e)
        else if retryable && TransientEnabled(s.config) && transients < TransientMax(s.config) then RetryTransient(e)
        else GiveUp(e)
      case None =>
        if !HasContent(reply.events) && ZeroUsageEnabled(s.config)
           && ShouldRetryZeroUsage(ObserveAll(reply.events)) && tries < ZeroUsageMax(s.config)
        then RetryZeroUsage
        else Accept
  }

  function Emits(events: seq<Event>): seq<Effect> {
    seq(|events|, i requires 0 <= i < |events| => Emit(events[i]))
  }

  function Pow2(n: nat): int { if n == 0 then 1 else 2 * Pow2(n - 1) }

  function TransientDelay(c: Config, transients: nat, jitter: int): int {
    var wanted := BaseDelay(c) * Pow2(transients) + jitter;
    if wanted <= MaxDelay(c) then wanted else MaxDelay(c)
  }

  /** The usage that is recorded: the reported one, or an estimate when it counts nothing. */
  function UsageOrEstimate(s: Setup, reported: Option<Usage>, messages: seq<Message>, response: seq<Event>): Usage {
    if reported.None? || (reported.value.input.GetOr(0) == 0 && reported.value.output.GetOr(0) == 0) then
      var input, output := s.helpers.countMessages(messages), s.helpers.countResponse(response);
      Usage(Some(input), Some(output), Some(input + output), None, None)
    else reported.value
  }

  function BudgetStop(s: Setup, i: nat): seq<Effect>
    requires i < |Attempts(s)| && OverBudget(s, i)
  {
    [Emit(TextDelta(s.helpers.budgetNotice(s.helpers.countMessages(AttemptRequest(s, i).messages),
                                           s.config.subagentMaxTokens.value))),
     Emit(MessageEnd)]
  }

  /** The events of an answer with content reach the consumer; the others are held back. */
  function Shown(events: seq<Event>): seq<Event> { if HasContent(events) then events else [] }

  function Held(events: seq<Event>): seq<Event> { if HasContent(events) then [] else events }

  /** What the run remembers of its last call when it gives up. */
  datatype Last = Last(buffered: seq<Event>, error: ModelError, usage: Option<Usage>,
                       decision: Decision, hasYieldedContent: bool)

  /** What is reported after giving up: the events of an answer that was never shown are replayed. */
  function ReportFailure(s: Setup, last: Last): seq<Effect> {
    [ExecuteFailed(last.decision, last.error),
     StatsRecorded(last.decision, UsageOrEstimate(s, last.usage, s.request.messages, last.buffered))]
    + Emits(WithoutErrors(if last.hasYieldedContent then [] else last.buffered))
    + [Emit(ErrorEvent(last.error))]
  }

  function LastOf(s: Setup, i: nat, reply: Reply, e: ModelError): Last
    requires i < |Attempts(s)|
  {
    Last(reply.events, e, ObserveAll(reply.events).usage, AttemptDecision(s, i), HasContent(reply.events))
  }

  function ReportSuccess(s: Setup, i: nat, reply: Reply): seq<Effect>
    requires i < |Attempts(s)|
  {
    var usage := UsageOrEstimate(s, ObserveAll(reply.events).usage, AttemptRequest(s, i).messages, reply.events);
    [UsageCached(usage), StatsRecorded(AttemptDecision(s, i), usage)]
  }

  // ---- The buffered run

  function RetriesLeft(s: Setup, tries: nat, transients: nat): nat {
    Max(0, ZeroUsageMax(s.config) - tries) + Max(0, TransientMax(s.config) - transients)
  }

  /** One provider call either ends the run or leads to another one. */
  datatype Step =
    | Halt(effects: seq<Effect>, result: Result)
    | Again(effects: seq<Effect>, i: nat, tries: nat, transients: nat)

  /** The call with number `k`, made for attempt `i` after `tries` calls of that attempt, `transients` of
      which were followed by a transient retry. */
  function OneTry(s: Setup, env: Env, i: nat, tries: nat, transients: nat, k: nat): (r: Step)
    requires i < |Attempts(s)|
    ensures r.Again? ==> r.i < |Attempts(s)|
    ensures r.Again? && r.i != i ==> r.i == i + 1
    ensures r.Again? && r.i == i ==>
      0 < r.tries && RetriesLeft(s, r.tries, r.transients) < RetriesLeft(s, tries, transients)
  {
    var reply := env.reply(k);
    var here := Attempts(s)[i];
    var head := Head(s, env, i, k);
    match Judge(s, reply, i, tries + 1, transients)
    case AbortedMidStream => Halt(head, AbortThrown)
    case NextAttempt(e) => Again(head + [FallbackTaken(i + 1, here, Attempts(s)[i + 1], e)], i + 1, 0, 0)
    case RetryTransient(e) =>
      var effects := head + [TransientRetry(transients + 1, here, e.code),
                             Wait(TransientDelay(s.config, transients, env.jitter(k)))];
      if env.abortedInDelay(k) then Halt(effects, AbortThrown) else Again(effects, i, tries + 1, transients + 1)
    case RetryZeroUsage =>
      var effects := head + [ZeroUsageRetry(tries + 1, here), Wait(500 * (tries + 1))];
      if env.abortedInDelay(k) then Halt(effects, AbortThrown) else Again(effects, i, tries + 1, transients)
    case GiveUp(e) => Halt(head + Emits(Held(reply.events)) + ReportFailure(s, LastOf(s, i, reply, e)), Failed)
    case Accept => Halt(head + Emits(Held(reply.events)) + ReportSuccess(s, i, reply), Succeeded)
  }

  function Head(s: Setup, env: Env, i: nat, k: nat): seq<Effect>
    requires i < |Attempts(s)|
  {
    [Call(AttemptRequest(s, i))] + Emits(Shown(env.reply(k).events))
  }

  /** The rest of the run, from the point where call number `k` is about to be made. */
  function RunFrom(s: Setup, env: Env, i: nat, tries: nat, transients: nat, k: nat): Run
    requires i < |Attempts(s)|
    decreases |Attempts(s)| - i, RetriesLeft(s, tries, transients)
  {
    if tries == 0 && env.abortedBefore(k) then Run([], Stopped)
    else if tries == 0 && OverBudget(s, i) then Run(BudgetStop(s, i), BudgetExceeded)
    else match OneTry(s, env, i, tries, transients, k)
      case Halt(effects, result) => Run(effects, result)
      case Again(effects, i', tries', transients') =>
        Prefixed(effects, RunFrom(s, env, i', tries', transients', k + 1))
  }

  function Prefixed(head: seq<Effect>, rest: Run): Run { Run(head + rest.trace, rest.result) }

  function Buffered(s: Setup, env: Env): Run { RunFrom(s, env, 0, 0, 0, 0) }

  // ---- The live run

  /**
   Reads one answer event by event: content passes through at once, framing events wait in `pending`
   until the first content event.
   */
  method Pump(reply: Reply)
    returns (shown: seq<Event>, pending: seq<Event>, buffered: seq<Event>, hasYieldedContent: bool,
             state: ZeroUsageState, error: Option<ModelError>)
    ensures shown == Shown(reply.events) && pending == Held(reply.events) && buffered == reply.events
    ensures hasYieldedContent <==> HasContent(reply.events)
    ensures state == ObserveAll(reply.events) && error == ErrorOf(reply)
  {
    hide ObserveAll, LastError, HasContent, HasErrorEvent, Shown, Held, Observe;
    NothingSeen();
    shown, pending, buffered, hasYieldedContent, state, error := [], [], [], false, FRESH_STATE, None;
    for j := 0 to |reply.events|
      invariant buffered == reply.events[..j]
      invariant state == ObserveAll(buffered) && error == LastError(buffered)
      invariant hasYieldedContent <==> HasContent(buffered)
      invariant shown == Shown(buffered) && pending == Held(buffered)
    {
      var event := reply.events[j];
      ghost var seen := buffered;
      state := Observe(state, event);
      buffered := buffered + [event];
      assert buffered == reply.events[..j + 1];
      AfterOneMore(seen, event);
      if event.ErrorEvent? {
        error := Some(event.error);
      }
      if !hasYieldedContent && IsContentEvent(event) {
        shown := shown + pending + [event];
        pending := [];
        hasYieldedContent := true;
      } else if hasYieldedContent {
        shown := shown + [event];
      } else {
        pending := pending + [event];
      }
    }
    assert reply.events[..|reply.events|] == reply.events;
    if reply.ending.Threw? {
      error := Some(reply.ending.thrown);
    }
  }

  lemma NothingSeen()
    ensures ObserveAll([]) == FRESH_STATE && LastError([]) == None
    ensures !HasContent([]) && Shown([]) == [] && Held([]) == []
  {
  }

  /** How each piece of bookkeeping changes with one more event. */
  lemma AfterOneMore(seen: seq<Event>, e: Event)
    ensures ObserveAll(seen + [e]) == Observe(ObserveAll(seen), e)
    ensures LastError(seen + [e]) == if e.ErrorEvent? then Some(e.error) else LastError(seen)
    ensures HasContent(seen + [e]) <==> HasContent(seen) || IsContentEvent(e)
    ensures Shown(seen + [e]) == (if HasContent(seen) || IsContentEvent(e) then seen + [e] else [])
    ensures Held(seen + [e]) == (if HasContent(seen) || IsContentEvent(e) then [] else seen + [e])
    ensures Shown(seen) == (if HasContent(seen) then seen else [])
    ensures Held(seen) == (if HasContent(seen) then [] else seen)
  {
    var more := seen + [e];
    assert more[..|more| - 1] == seen;
    if HasContent(seen) {
      var i :| 0 <= i < |seen| && IsContentEvent(seen[i]);
      assert IsContentEvent(more[i]);
    }
    if IsContentEvent(e) {
      assert IsContentEvent(more[|seen|]);
    }
  }

  /** Where the loops of `execute` go after one call. */
  datatype Flow = ContinueOuter | ContinueInner | BreakOuter | Leave(result: Result)

  /** The body of the inner loop: one provider call and the decision what comes next. */
  method LiveTry(s: Setup, env: Env, i: nat, tries: nat, transients: nat, k: nat)
    returns (effects: seq<Effect>, flow: Flow, tries': nat, transients': nat, last: Option<Last>)
    requires i < |Attempts(s)|
    ensures match flow
            case Leave(result) => OneTry(s, env, i, tries, transients, k) == Halt(effects, result)
            case BreakOuter =>
              && last.Some?
              && OneTry(s, env, i, tries, transients, k) == Halt(effects + ReportFailure(s, last.value), Failed)
            case ContinueInner => OneTry(s, env, i, tries, transients, k) == Again(effects, i, tries', transients')
            case ContinueOuter => OneTry(s, env, i, tries, transients, k) == Again(effects, i + 1, 0, 0)
  {
    var here, attemptDecision := Attempts(s)[i], AttemptDecision(s, i);
    var request := ApplyDecisionToRequest(s.helpers, attemptDecision, s.request);
    tries', transients', last := tries + 1, transients, None;
    var shown, pending, buffered, hasYieldedContent, state, error := Pump(env.reply(k));
    effects := [Call(request)] + Emits(shown);
    if env.reply(k).ending.AbortedByCaller? {
      flow := Leave(AbortThrown);
    } else if error.Some? {
      last := Some(Last(buffered, error.value, state.usage, attemptDecision, hasYieldedContent));
      if !hasYieldedContent && IsFallbackEligible(error.value) && i < |Attempts(s)| - 1 {
        effects := effects + [FallbackTaken(i + 1, here, Attempts(s)[i + 1], error.value)];
        flow := ContinueOuter;
      } else if !hasYieldedContent && IsFallbackEligible(error.value)
                && TransientEnabled(s.config) && transients < TransientMax(s.config) {
        effects := effects + [TransientRetry(transients + 1, here, error.value.code),
                              Wait(TransientDelay(s.config, transients, env.jitter(k)))];
        transients' := transients + 1;
        flow := if env.abortedInDelay(k) then Leave(AbortThrown) else ContinueInner;
      } else {
        effects := effects + Emits(pending);
        flow := BreakOuter;
      }
    } else if !hasYieldedContent && ZeroUsageEnabled(s.config) && ShouldRetryZeroUsage(state)
              && tries' < ZeroUsageMax(s.config) {
      effects := effects + [ZeroUsageRetry(tries', here), Wait(500 * tries')];
      flow := if env.abortedInDelay(k) then Leave(AbortThrown) else ContinueInner;
    } else {
      effects := effects + Emits(pending);
      var finalUsage := UsageOrEstimate(s, state.usage, request.messages, buffered);
      effects := effects + [UsageCached(finalUsage), StatsRecorded(attemptDecision, finalUsage)];
      flow := Leave(Succeeded);
    }
  }

  /** The same call, read as the next part of the run. */
  method LiveStep(s: Setup, env: Env, i: nat, tries: nat, transients: nat, k: nat)
    returns (effects: seq<Effect>, flow: Flow, tries': nat, transients': nat, last: Option<Last>)
    requires i < |Attempts(s)|
    requires tries == 0 ==> !env.abortedBefore(k) && !OverBudget(s, i)
    ensures var run := RunFrom(s, env, i, tries, transients, k);
            match flow
            case Leave(result) => run == Run(effects, result)
            case BreakOuter => last.Some? && run == Run(effects + ReportFailure(s, last.value), Failed)
            case ContinueInner =>
              && 0 < tries' && RetriesLeft(s, tries', transients') < RetriesLeft(s, tries, transients)
              && run == Prefixed(effects, RunFrom(s, env, i, tries', transients', k + 1))
            case ContinueOuter =>
              i + 1 < |Attempts(s)| && run == Prefixed(effects, RunFrom(s, env, i + 1, 0, 0, k + 1))
  {
    hide OneTry, ReportFailure, BudgetStop;
    effects, flow, tries', transients', last := LiveTry(s, env, i, tries, transients, k);
  }

  lemma PrefixedTwice(a: seq<Effect>, b: seq<Effect>, rest: Run)
    ensures Prefixed(a, Prefixed(b, rest)) == Prefixed(a + b, rest)
  {
    assert a + (b + rest.trace) == a + b + rest.trace;
  }

  /** The inner loop: all calls of attempt `i`. */
  method LiveAttempt(s: Setup, env: Env, i: nat, k: nat)
    returns (effects: seq<Effect>, flow: Flow, k': nat, last: Option<Last>)
    requires i < |Attempts(s)|
    requires !env.abortedBefore(k) && !OverBudget(s, i)
    ensures match flow
            case Leave(result) => RunFrom(s, env, i, 0, 0, k) == Run(effects, result)
            case BreakOuter =>
              last.Some? && RunFrom(s, env, i, 0, 0, k) == Run(effects + ReportFailure(s, last.value), Failed)
            case ContinueOuter =>
              && i + 1 < |Attempts(s)|
              && RunFrom(s, env, i, 0, 0, k) == Prefixed(effects, RunFrom(s, env, i + 1, 0, 0, k'))
            case ContinueInner => false
  {
    hide OneTry, ReportFailure, BudgetStop;
    effects, k' := [], k;
    var tries, transients := 0, 0;
    while true
      invariant RunFrom(s, env, i, 0, 0, k) == Prefixed(effects, RunFrom(s, env, i, tries, transients, k'))
      invariant tries == 0 ==> !env.abortedBefore(k') && !OverBudget(s, i)
      decreases RetriesLeft(s, tries, transients)
    {
      ghost var before := effects;
      var more;
      more, flow, tries, transients, last := LiveStep(s, env, i, tries, transients, k');
      effects := effects + more;
      if flow != ContinueInner {
        if flow == BreakOuter {
          assert before + (more + ReportFailure(s, last.value)) == effects + ReportFailure(s, last.value);
        } else if flow == ContinueOuter {
          PrefixedTwice(before, more, RunFrom(s, env, i + 1, 0, 0, k' + 1));
        }
        k' := k' + 1;
        return;
      }
      PrefixedTwice(before, more, RunFrom(s, env, i, tries, transients, k' + 1));
      k' := k' + 1;
    }
  }

  /** Streams live, event by event, and produces exactly the buffered trace. */
  method Execute(s: Setup, env: Env) returns (trace: seq<Effect>, result: Result)
    ensures Run(trace, result) == Buffered(s, env)
  {
    hide OneTry, ReportFailure, BudgetStop;
    trace := [];
    var i: nat, k: nat := 0, 0;
    while true
      invariant 0 <= i < |Attempts(s)|
      invariant Prefixed(trace, RunFrom(s, env, i, 0, 0, k)) == Buffered(s, env)
      decreases |Attempts(s)| - i
    {
      if env.abortedBefore(k) {
        return trace, Stopped;
      }
      if OverBudget(s, i) {
        return trace + BudgetStop(s, i), BudgetExceeded;
      }
      ghost var before := trace;
      var effects, flow, k', last := LiveAttempt(s, env, i, k);
      trace := trace + effects;
      match flow {
        case Leave(r) => return trace, r;
        case BreakOuter =>
          assert before + (effects + ReportFailure(s, last.value)) == trace + ReportFailure(s, last.value);
          return trace + ReportFailure(s, last.value), Failed;
        case ContinueOuter =>
          PrefixedTwice(before, effects, RunFrom(s, env, i + 1, 0, 0, k'));
          i, k := i + 1, k';
      }
    }
  }
}
