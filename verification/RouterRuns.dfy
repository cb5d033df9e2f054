/**
 What every run of `execute` guarantees: which answer the consumer sees, how many provider calls and how
 much waiting a run may cost, how often it is booked, and what is lost when the consumer stops reading
 at the first error event, as the agent loop does.
 */
module RouterRuns {
  import opened ModelStream
  import opened RouterExecute

  // ---- What a trace shows and costs

  datatype Kind = KEmit | KCall | KFallback | KTransient | KZeroUsage | KWait | KUsage | KStats | KFailed

  function KindOf(e: Effect): Kind {
    match e
    case Emit(_) => KEmit
    case Call(_) => KCall
    case FallbackTaken(_, _, _, _) => KFallback
    case TransientRetry(_, _, _) => KTransient
    case ZeroUsageRetry(_, _) => KZeroUsage
    case Wait(_) => KWait
    case UsageCached(_) => KUsage
    case StatsRecorded(_, _) => KStats
    case ExecuteFailed(_, _) => KFailed
  }

  function Count(trace: seq<Effect>, kind: Kind): nat {
    if trace == [] then 0 else (if KindOf(trace[0]) == kind then 1 else 0) + Count(trace[1..], kind)
  }

  function Waited(trace: seq<Effect>): int {
    if trace == [] then 0 else (if trace[0].Wait? then trace[0].ms else 0) + Waited(trace[1..])
  }

  function Output(trace: seq<Effect>): seq<Event> {
    if trace == [] then []
    else if trace[0].Emit? then [trace[0].event] + Output(trace[1..])
    else Output(trace[1..])
  }

  lemma {:induction false} CountAppend(a: seq<Effect>, b: seq<Effect>, kind: Kind)
    ensures Count(a + b, kind) == Count(a, kind) + Count(b, kind)
  {
    hide KindOf;
    if a == [] {
      assert a + b == b;
    } else {
      assert (a + b)[1..] == a[1..] + b;
      CountAppend(a[1..], b, kind);
    }
  }

  lemma {:induction false} OutputAppend(a: seq<Effect>, b: seq<Effect>)
    ensures Waited(a + b) == Waited(a) + Waited(b)
    ensures Output(a + b) == Output(a) + Output(b)
  {
    if a == [] {
      assert a + b == b;
    } else {
      assert (a + b)[1..] == a[1..] + b;
      OutputAppend(a[1..], b);
    }
  }

  lemma OfAppend(a: seq<Effect>, b: seq<Effect>, kind: Kind)
    ensures Count(a + b, kind) == Count(a, kind) + Count(b, kind)
    ensures Waited(a + b) == Waited(a) + Waited(b)
    ensures Output(a + b) == Output(a) + Output(b)
  {
    hide Count, Waited, Output;
    CountAppend(a, b, kind);
    OutputAppend(a, b);
  }

  lemma {:induction false} OfEmits(events: seq<Event>, kind: Kind)
    ensures Count(Emits(events), kind) == if kind == KEmit then |events| else 0
    ensures Waited(Emits(events)) == 0
    ensures Output(Emits(events)) == events
  {
    if events != [] {
      assert Emits(events)[1..] == Emits(events[1..]);
      assert [events[0]] + events[1..] == events;
      OfEmits(events[1..], kind);
    }
  }

  lemma OfOne(e: Effect, kind: Kind)
    ensures Count([e], kind) == if KindOf(e) == kind then 1 else 0
    ensures Waited([e]) == if e.Wait? then e.ms else 0
    ensures Output([e]) == if e.Emit? then [e.event] else []
  {
  }

  /** Two effects neither of which shows anything. */
  lemma OfTwo(a: Effect, b: Effect, kind: Kind)
    requires !a.Emit? && !b.Emit?
    ensures Count([a, b], kind) == (if KindOf(a) == kind then 1 else 0) + (if KindOf(b) == kind then 1 else 0)
    ensures Waited([a, b]) == (if a.Wait? then a.ms else 0) + (if b.Wait? then b.ms else 0)
    ensures Output([a, b]) == []
  {
    assert [a, b] == [a] + [b];
    var none: seq<Event> := [];
    assert none + none == none;
    hide Count, Waited, Output;
    OfAppend([a], [b], kind);
    OfOne(a, kind);
    OfOne(b, kind);
  }

  // ---- The shape of one call

  /** A call that is followed by another one shows nothing; there are three ways to go on. */
  ghost predicate GoesOn(s: Setup, i: nat, tries: nat, transients: nat, step: Step)
    requires i < |Attempts(s)|
  {
    step.Again? && |step.effects| >= 2 &&
    var n, call := |Attempts(s)|, Call(AttemptRequest(s, i));
    if step.i != i then
      && step.i == i + 1 < n && step.tries == 0 && step.transients == 0
      && step.effects == [call, step.effects[1]] && step.effects[1].FallbackTaken?
      && step.effects[1].attempt == i + 1
      && step.effects[1].from == Attempts(s)[i] && step.effects[1].to == Attempts(s)[i + 1]
    else
      && step.tries == tries + 1 && |step.effects| == 3
      && step.effects == [call, step.effects[1], step.effects[2]] && step.effects[2].Wait?
      && if step.effects[1].TransientRetry? then
           && i == n - 1 && step.transients == transients + 1 <= T(s.config)
           && step.effects[2].ms <= MaxDelay(s.config) && step.effects[1].on == Attempts(s)[i]
         else
           && step.effects[1].ZeroUsageRetry? && step.transients == transients && tries + 1 < Z(s.config)
           && step.effects[2].ms == 500 * (tries + 1) && step.effects[1].on == Attempts(s)[i]
  }

  lemma AgainShape(s: Setup, env: Env, i: nat, tries: nat, transients: nat, k: nat)
    requires i < |Attempts(s)| && OneTry(s, env, i, tries, transients, k).Again?
    ensures GoesOn(s, i, tries, transients, OneTry(s, env, i, tries, transients, k))
  {
    assert Emits([]) == [];
    assert !HasContent(env.reply(k).events);
    assert Head(s, env, i, k) == [Call(AttemptRequest(s, i))];
  }

  lemma OfAgain(s: Setup, i: nat, tries: nat, transients: nat, step: Step, kind: Kind)
    requires i < |Attempts(s)| && GoesOn(s, i, tries, transients, step)
    ensures Output(step.effects) == []
    ensures Waited(step.effects) == if step.i == i then step.effects[2].ms else 0
    ensures kind in {KEmit, KUsage, KStats, KFailed} ==> Count(step.effects, kind) == 0
    ensures kind == KCall ==> Count(step.effects, kind) == 1
    ensures kind == KFallback ==> Count(step.effects, kind) == step.i - i
    ensures kind == KTransient ==> Count(step.effects, kind) == if step.i == i then step.transients - transients else 0
  {
    var effects := step.effects;
    hide Count, Waited, Output, AttemptRequest, Attempts;
    OfTwo(effects[0], effects[1], kind);
    if step.i == i {
      assert effects == [effects[0], effects[1]] + [effects[2]];
      OfOne(effects[2], kind);
      OfAppend([effects[0], effects[1]], [effects[2]], kind);
      var none: seq<Event> := [];
      assert none + none == none;
    }
  }

  lemma OfHead(s: Setup, env: Env, i: nat, k: nat, kind: Kind)
    requires i < |Attempts(s)|
    ensures var head := Head(s, env, i, k);
            && Output(head) == Shown(env.reply(k).events) && Waited(head) == 0
            && (kind == KCall ==> Count(head, kind) == 1)
            && (kind != KCall && kind != KEmit ==> Count(head, kind) == 0)
    ensures var front := Head(s, env, i, k) + Emits(Held(env.reply(k).events));
            && Output(front) == env.reply(k).events && Waited(front) == 0
            && (kind == KCall ==> Count(front, kind) == 1)
            && (kind != KCall && kind != KEmit ==> Count(front, kind) == 0)
  {
    var events := env.reply(k).events;
    assert Shown(events) + Held(events) == events;
    assert [] + Shown(events) == Shown(events);
    hide Count, Waited, Output, Shown, Held, Emits, AttemptRequest, Attempts;
    OfOne(Call(AttemptRequest(s, i)), kind);
    OfAppend([Call(AttemptRequest(s, i))], Emits(Shown(events)), kind);
    OfEmits(Shown(events), kind);
    OfAppend(Head(s, env, i, k), Emits(Held(events)), kind);
    OfEmits(Held(events), kind);
  }

  lemma OutputOfReportFailure(s: Setup, last: Last)
    ensures Waited(ReportFailure(s, last)) == 0
    ensures Output(ReportFailure(s, last)) ==
            WithoutErrors(if last.hasYieldedContent then [] else last.buffered) + [ErrorEvent(last.error)]
  {
    var usage := UsageOrEstimate(s, last.usage, s.request.messages, last.buffered);
    var replayed := WithoutErrors(if last.hasYieldedContent then [] else last.buffered);
    var a, b, end := ExecuteFailed(last.decision, last.error), StatsRecorded(last.decision, usage),
                     Emit(ErrorEvent(last.error));
    assert ReportFailure(s, last) == [a, b] + Emits(replayed) + [end];
    assert [] + replayed == replayed;
    hide ReportFailure, Count, Waited, Output, Emits, UsageOrEstimate, WithoutErrors;
    OfTwo(a, b, KEmit);
    OfOne(end, KEmit);
    OfEmits(replayed, KEmit);
    OfAppend([a, b], Emits(replayed), KEmit);
    OfAppend([a, b] + Emits(replayed), [end], KEmit);
  }

  lemma CountOfReportFailure(s: Setup, last: Last, kind: Kind)
    requires kind != KEmit && kind != KFailed
    ensures Count(ReportFailure(s, last), kind) == if kind == KStats then 1 else 0
  {
    var usage := UsageOrEstimate(s, last.usage, s.request.messages, last.buffered);
    var replayed := WithoutErrors(if last.hasYieldedContent then [] else last.buffered);
    var a, b, end := ExecuteFailed(last.decision, last.error), StatsRecorded(last.decision, usage),
                     Emit(ErrorEvent(last.error));
    assert ReportFailure(s, last) == [a, b] + Emits(replayed) + [end];
    hide ReportFailure, Count, Waited, Output, Emits, UsageOrEstimate, WithoutErrors;
    OfTwo(a, b, kind);
    OfOne(end, kind);
    OfEmits(replayed, kind);
    CountAppend([a, b], Emits(replayed), kind);
    CountAppend([a, b] + Emits(replayed), [end], kind);
  }

  lemma OfReportSuccess(s: Setup, i: nat, reply: Reply, kind: Kind)
    requires i < |Attempts(s)|
    ensures var report := ReportSuccess(s, i, reply);
            && Waited(report) == 0 && Output(report) == []
            && Count(report, kind) == if kind == KStats || kind == KUsage then 1 else 0
  {
    var usage := UsageOrEstimate(s, ObserveAll(reply.events).usage, AttemptRequest(s, i).messages, reply.events);
    var a, b := UsageCached(usage), StatsRecorded(AttemptDecision(s, i), usage);
    assert ReportSuccess(s, i, reply) == [a] + [b];
    hide ReportSuccess, Count, Waited, Output, UsageOrEstimate, AttemptDecision, AttemptRequest;
    OfOne(a, kind);
    OfOne(b, kind);
    OfAppend([a], [b], kind);
  }

  /** The run was aborted while it waited for the call that `next` leads to. */
  ghost predicate AbortedIn(s: Setup, i: nat, tries: nat, transients: nat, step: Step, next: Step)
    requires i < |Attempts(s)|
  {
    GoesOn(s, i, tries, transients, next) && next.i == i && step.effects == next.effects
  }

  /** The events of an answer that ends in failure, as the consumer receives them: all of them, then, when
      nothing was shown live, once more those that are not error events, then the error. */
  function FailedOutput(reply: Reply): seq<Event>
    requires ErrorOf(reply).Some?
  {
    reply.events + WithoutErrors(Held(reply.events)) + [ErrorEvent(ErrorOf(reply).value)]
  }

  /** The last call of a run. */
  ghost predicate Ends(s: Setup, reply: Reply, i: nat, tries: nat, transients: nat, step: Step, kind: Kind)
    requires i < |Attempts(s)|
  {
    step.Halt? &&
    if step.result == AbortThrown && !reply.ending.AbortedByCaller? then
      exists next :: AbortedIn(s, i, tries, transients, step, next)
    else
      && Waited(step.effects) == 0
      && (kind == KCall ==> Count(step.effects, kind) == 1)
      && (kind == KFallback || kind == KTransient ==> Count(step.effects, kind) == 0)
      && match step.result
         case AbortThrown =>
           && Output(step.effects) == Shown(reply.events)
           && (kind == KStats || kind == KUsage ==> Count(step.effects, kind) == 0)
         case Failed =>
           && ErrorOf(reply).Some? && Output(step.effects) == FailedOutput(reply)
           && (kind == KStats ==> Count(step.effects, kind) == 1)
           && (kind == KUsage ==> Count(step.effects, kind) == 0)
         case Succeeded =>
           && ErrorOf(reply).None? && Output(step.effects) == reply.events
           && (kind == KStats || kind == KUsage ==> Count(step.effects, kind) == 1)
         case _ => false
  }

  lemma HaltForm(s: Setup, env: Env, i: nat, tries: nat, transients: nat, k: nat)
    requires i < |Attempts(s)| && OneTry(s, env, i, tries, transients, k).Halt?
    ensures var step, reply := OneTry(s, env, i, tries, transients, k), env.reply(k);
            var front := Head(s, env, i, k) + Emits(Held(reply.events));
            match step.result
            case AbortThrown => reply.ending.AbortedByCaller? ==> step.effects == Head(s, env, i, k)
            case Failed =>
              && !reply.ending.AbortedByCaller? && ErrorOf(reply).Some?
              && step.effects == front + ReportFailure(s, LastOf(s, i, reply, ErrorOf(reply).value))
            case Succeeded =>
              && !reply.ending.AbortedByCaller? && ErrorOf(reply).None?
              && step.effects == front + ReportSuccess(s, i, reply)
            case _ => false
  {
    hide ErrorOf, Head, Emits, Held, ReportFailure, ReportSuccess, ShouldRetryZeroUsage;
  }

  lemma HaltShape(s: Setup, env: Env, i: nat, tries: nat, transients: nat, k: nat, kind: Kind)
    requires i < |Attempts(s)| && OneTry(s, env, i, tries, transients, k).Halt?
    ensures Ends(s, env.reply(k), i, tries, transients, OneTry(s, env, i, tries, transients, k), kind)
  {
    var step, reply := OneTry(s, env, i, tries, transients, k), env.reply(k);
    HaltForm(s, env, i, tries, transients, k);
    if step.result == AbortThrown && !reply.ending.AbortedByCaller? {
      var next := AbortedWait(s, env, i, tries, transients, k);
    }
    hide OneTry, Count, Waited, Output, ReportFailure, ReportSuccess, Head, GoesOn, Emits, Attempts, ErrorOf;
    OfHead(s, env, i, k, kind);
    if step.result == Failed {
      OfFailure(s, env, i, k, kind);
    } else if step.result == Succeeded {
      OfSuccess(s, env, i, k, kind);
    }
  }

  lemma OfFailure(s: Setup, env: Env, i: nat, k: nat, kind: Kind)
    requires i < |Attempts(s)| && ErrorOf(env.reply(k)).Some?
    ensures var reply := env.reply(k);
            var last := LastOf(s, i, reply, ErrorOf(reply).value);
            var effects := Head(s, env, i, k) + Emits(Held(reply.events)) + ReportFailure(s, last);
            && Waited(effects) == 0 && Output(effects) == FailedOutput(reply)
            && (kind == KCall || kind == KStats ==> Count(effects, kind) == 1)
            && (kind == KFallback || kind == KTransient || kind == KUsage ==> Count(effects, kind) == 0)
  {
    var reply := env.reply(k);
    var last := LastOf(s, i, reply, ErrorOf(reply).value);
    assert reply.events + (WithoutErrors(Held(reply.events)) + [ErrorEvent(last.error)]) == FailedOutput(reply);
    assert (if last.hasYieldedContent then [] else last.buffered) == Held(reply.events);
    hide Count, Waited, Output, ReportFailure, Head, Emits, Attempts, ErrorOf, FailedOutput, Held, WithoutErrors;
    OfHead(s, env, i, k, kind);
    OutputOfReportFailure(s, last);
    if kind != KEmit && kind != KFailed {
      CountOfReportFailure(s, last, kind);
    }
    OfAppend(Head(s, env, i, k) + Emits(Held(reply.events)), ReportFailure(s, last), kind);
  }

  lemma OfSuccess(s: Setup, env: Env, i: nat, k: nat, kind: Kind)
    requires i < |Attempts(s)|
    ensures var reply := env.reply(k);
            var effects := Head(s, env, i, k) + Emits(Held(reply.events)) + ReportSuccess(s, i, reply);
            && Waited(effects) == 0 && Output(effects) == reply.events
            && (kind == KCall || kind == KStats || kind == KUsage ==> Count(effects, kind) == 1)
            && (kind == KFallback || kind == KTransient ==> Count(effects, kind) == 0)
  {
    var reply := env.reply(k);
    assert reply.events + [] == reply.events;
    hide Count, Waited, Output, ReportSuccess, Head, Emits, Attempts, Held;
    OfHead(s, env, i, k, kind);
    OfReportSuccess(s, i, reply, kind);
    OfAppend(Head(s, env, i, k) + Emits(Held(reply.events)), ReportSuccess(s, i, reply), kind);
  }

  lemma AbortedWait(s: Setup, env: Env, i: nat, tries: nat, transients: nat, k: nat) returns (next: Step)
    requires i < |Attempts(s)| && OneTry(s, env, i, tries, transients, k).Halt?
    requires OneTry(s, env, i, tries, transients, k).result == AbortThrown && !env.reply(k).ending.AbortedByCaller?
    ensures AbortedIn(s, i, tries, transients, OneTry(s, env, i, tries, transients, k), next)
  {
    var step := OneTry(s, env, i, tries, transients, k);
    assert Emits([]) == [];
    assert Head(s, env, i, k) == [Call(AttemptRequest(s, i))];
    next := Again(step.effects, i, tries + 1, if step.effects[1].TransientRetry? then transients + 1 else transients);
  }

  lemma OfBudgetStop(s: Setup, i: nat, kind: Kind)
    requires i < |Attempts(s)| && OverBudget(s, i)
    ensures Waited(BudgetStop(s, i)) == 0 && |Output(BudgetStop(s, i))| == 2
    ensures kind != KEmit ==> Count(BudgetStop(s, i), kind) == 0
  {
    var stop := BudgetStop(s, i);
    assert stop == [stop[0]] + [stop[1]];
    OfAppend([stop[0]], [stop[1]], kind);
    OfOne(stop[0], kind);
    OfOne(stop[1], kind);
  }

  /** Nothing is left to do once a run has stopped before a call. */
  ghost predicate StopsBeforeCall(s: Setup, env: Env, i: nat, tries: nat, k: nat)
    requires i < |Attempts(s)|
  {
    tries == 0 && (env.abortedBefore(k) || OverBudget(s, i))
  }

  /** One step of a run, seen through the projections. */
  lemma Unroll(s: Setup, env: Env, i: nat, tries: nat, transients: nat, k: nat, kind: Kind) returns (step: Step)
    requires i < |Attempts(s)| && !StopsBeforeCall(s, env, i, tries, k)
    ensures step == OneTry(s, env, i, tries, transients, k)
    ensures var run := RunFrom(s, env, i, tries, transients, k);
            if step.Halt? then
              && run == Run(step.effects, step.result)
              && Ends(s, env.reply(k), i, tries, transients, step, kind)
            else
              && GoesOn(s, i, tries, transients, step)
              && step.i < |Attempts(s)|
              && var rest := RunFrom(s, env, step.i, step.tries, step.transients, k + 1);
              && run.trace == step.effects + rest.trace && run.result == rest.result
              && Count(run.trace, kind) == Count(step.effects, kind) + Count(rest.trace, kind)
              && Waited(run.trace) == Waited(step.effects) + Waited(rest.trace)
              && Output(run.trace) == Output(rest.trace)
  {
    step := OneTry(s, env, i, tries, transients, k);
    if step.Halt? {
      HaltShape(s, env, i, tries, transients, k, kind);
    } else {
      AgainShape(s, env, i, tries, transients, k);
    }
    hide OneTry, GoesOn, Ends, Count, Waited, Output, BudgetStop;
    if step.Again? {
      var rest := RunFrom(s, env, step.i, step.tries, step.transients, k + 1);
      OfAgain(s, i, tries, transients, step, kind);
      OfAppend(step.effects, rest.trace, kind);
      assert [] + Output(rest.trace) == Output(rest.trace);
    }
  }

  // ---- How much a run may cost

  function CallsLeft(s: Setup, i: nat, tries: nat, transients: nat): int {
    1 + Max(0, Z(s.config) - 1 - tries) + (|Attempts(s)| - 1 - i) * Z(s.config) + T(s.config) - transients
  }

  /** Transient retries are counted within their limit, and only for the last attempt. */
  ghost predicate Counters(s: Setup, i: nat, transients: nat) {
    i < |Attempts(s)| && transients <= T(s.config) && (transients > 0 ==> i == |Attempts(s)| - 1)
  }

  /** What remains after a call is one call less. */
  lemma CallStep(s: Setup, i: nat, tries: nat, transients: nat, step: Step)
    requires Counters(s, i, transients) && GoesOn(s, i, tries, transients, step)
    ensures 1 + CallsLeft(s, step.i, step.tries, step.transients) <= CallsLeft(s, i, tries, transients)
    ensures Counters(s, step.i, step.transients)
  {
    hide Attempts, MaxDelay, AttemptRequest;
    var m, z := |Attempts(s)| - 1 - i, Z(s.config);
    assert m * z == (m - 1) * z + z;
  }

  lemma CallsLeftPositive(s: Setup, i: nat, tries: nat, transients: nat)
    requires Counters(s, i, transients)
    ensures 1 <= CallsLeft(s, i, tries, transients)
  {
    Product(|Attempts(s)| - 1 - i, Z(s.config));
    hide Attempts, Z, T;
  }

  lemma Product(a: int, b: int)
    requires a >= 0 && b >= 0
    ensures a * b >= 0
  {
  }

  lemma {:induction false} CallsFrom(s: Setup, env: Env, i: nat, tries: nat, transients: nat, k: nat)
    requires Counters(s, i, transients)
    ensures Count(RunFrom(s, env, i, tries, transients, k).trace, KCall) <= CallsLeft(s, i, tries, transients)
    decreases |Attempts(s)| - i, RetriesLeft(s, tries, transients)
  {
    hide CallsLeft, GoesOn, OneTry, BudgetStop;
    CallsLeftPositive(s, i, tries, transients);
    if StopsBeforeCall(s, env, i, tries, k) {
      if !env.abortedBefore(k) {
        OfBudgetStop(s, i, KCall);
      }
    } else {
      var step := Unroll(s, env, i, tries, transients, k, KCall);
      hide RunFrom, Count;
      if step.Again? {
        OfAgain(s, i, tries, transients, step, KCall);
        CallStep(s, i, tries, transients, step);
        CallsFrom(s, env, step.i, step.tries, step.transients, k + 1);
      } else if exists next :: AbortedIn(s, i, tries, transients, step, next) {
        var next :| AbortedIn(s, i, tries, transients, step, next);
        OfAgain(s, i, tries, transients, next, KCall);
      }
    }
  }

  /** A run of n attempts makes at most n * Z + T provider calls. */
  lemma CallBound(s: Setup, env: Env)
    ensures Count(Buffered(s, env).trace, KCall) <= |Attempts(s)| * Z(s.config) + T(s.config)
  {
    CallsFrom(s, env, 0, 0, 0, 0);
    var n, z := |Attempts(s)|, Z(s.config);
    assert n * z == (n - 1) * z + z;
  }

  /** The waits before retries number `tries + 1` to Z - 1 of one attempt. */
  function ZeroWaits(tries: nat, z: int): int
    decreases z - tries
  {
    if tries + 1 >= z then 0 else 500 * (tries + 1) + ZeroWaits(tries + 1, z)
  }

  lemma {:induction false} ZeroWaitsClosed(tries: nat, z: int)
    requires tries < z
    ensures ZeroWaits(tries, z) == 250 * (z * (z - 1)) - 250 * (tries * (tries + 1))
    decreases z - tries
  {
    if tries + 1 < z {
      ZeroWaitsClosed(tries + 1, z);
      assert (tries + 1) * (tries + 2) == tries * (tries + 1) + 2 * (tries + 1);
    } else {
      assert z * (z - 1) == tries * (tries + 1);
    }
  }

  lemma {:induction false} ZeroWaitsPositive(tries: nat, z: int)
    ensures ZeroWaits(tries, z) >= 0
    decreases z - tries
  {
    if tries + 1 < z {
      ZeroWaitsPositive(tries + 1, z);
    }
  }

  function WaitLeft(s: Setup, i: nat, tries: nat, transients: nat): int {
    ZeroWaits(tries, Z(s.config)) + (|Attempts(s)| - 1 - i) * ZeroWaits(0, Z(s.config))
    + (T(s.config) - transients) * Max(0, MaxDelay(s.config))
  }

  /** What the next call may add to the waiting is covered by what it uses up. */
  lemma WaitStep(s: Setup, i: nat, tries: nat, transients: nat, step: Step)
    requires Counters(s, i, transients) && GoesOn(s, i, tries, transients, step)
    ensures Waited(step.effects) + WaitLeft(s, step.i, step.tries, step.transients) <= WaitLeft(s, i, tries, transients)
    ensures step.Again? && Counters(s, step.i, step.transients)
  {
    OfAgain(s, i, tries, transients, step, KWait);
    hide Waited, MaxDelay, Attempts, AttemptRequest, Z, T;
    var z, m, d, r := Z(s.config), |Attempts(s)| - 1 - i, Max(0, MaxDelay(s.config)), T(s.config) - transients;
    ZeroWaitsPositive(tries, z);
    ZeroWaitsPositive(tries + 1, z);
    assert m * ZeroWaits(0, z) == (m - 1) * ZeroWaits(0, z) + ZeroWaits(0, z);
    assert r * d == (r - 1) * d + d;
  }

  lemma WaitLeftPositive(s: Setup, i: nat, tries: nat, transients: nat)
    requires Counters(s, i, transients)
    ensures 0 <= WaitLeft(s, i, tries, transients)
  {
    hide Attempts, Z, T;
    var z := Z(s.config);
    ZeroWaitsPositive(tries, z);
    ZeroWaitsPositive(0, z);
    Product(|Attempts(s)| - 1 - i, ZeroWaits(0, z));
    Product(T(s.config) - transients, Max(0, MaxDelay(s.config)));
  }

  lemma {:induction false} WaitedFrom(s: Setup, env: Env, i: nat, tries: nat, transients: nat, k: nat)
    requires Counters(s, i, transients)
    ensures Waited(RunFrom(s, env, i, tries, transients, k).trace) <= WaitLeft(s, i, tries, transients)
    decreases |Attempts(s)| - i, RetriesLeft(s, tries, transients)
  {
    hide WaitLeft, GoesOn, OneTry, BudgetStop;
    WaitLeftPositive(s, i, tries, transients);
    if StopsBeforeCall(s, env, i, tries, k) {
      if !env.abortedBefore(k) {
        OfBudgetStop(s, i, KWait);
      }
    } else {
      var step := Unroll(s, env, i, tries, transients, k, KWait);
      hide RunFrom, Waited, Count;
      if step.Again? {
        WaitStep(s, i, tries, transients, step);
        WaitedFrom(s, env, step.i, step.tries, step.transients, k + 1);
      } else if exists next :: AbortedIn(s, i, tries, transients, step, next) {
        var next :| AbortedIn(s, i, tries, transients, step, next);
        WaitStep(s, i, tries, transients, next);
        WaitLeftPositive(s, next.i, next.tries, next.transients);
      }
    }
  }

  /** A run waits at most n * 250 * Z * (Z - 1) + T * maxDelay milliseconds before its retries. */
  lemma BackOffBound(s: Setup, env: Env)
    ensures var z := Z(s.config);
            Waited(Buffered(s, env).trace) <=
            |Attempts(s)| * (250 * (z * (z - 1))) + T(s.config) * Max(0, MaxDelay(s.config))
  {
    hide Attempts, RunFrom, Waited, MaxDelay;
    var n, z, d := |Attempts(s)|, Z(s.config), Max(0, MaxDelay(s.config));
    ZeroWaitsClosed(0, z);
    assert n * ZeroWaits(0, z) == ZeroWaits(0, z) + (n - 1) * ZeroWaits(0, z);
    assert Buffered(s, env) == RunFrom(s, env, 0, 0, 0, 0);
    WaitedFrom(s, env, 0, 0, 0, 0);
  }
}
