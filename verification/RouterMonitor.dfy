/**
 A monitor for runs of `execute`. It reads the trace of a run effect by effect, knows the configuration and what the
 provider answered, and says of every effect whether it was due. It is a second account of the same rules, written
 as a reader of traces would state them; every run of the router satisfies it.
 */
module RouterMonitor {
  import opened Options
  import opened RouterProtocol
  import opened ModelStream
  import opened RouterExecute
  import opened RouterRuns
  import opened RouterTheorems
  import opened RouterBooking

  // ---- Reading an answer

  /** Nothing but framing, usage and errors. */
  predicate Silent(events: seq<Event>) {
    forall i :: 0 <= i < |events| ==>
      match events[i]
      case RequestStarted => true
      case MessageStart => true
      case MessageEnd => true
      case UsageReport(_) => true
      case ErrorEvent(_) => true
      case _ => false
  }

  predicate LastErrorAt(events: seq<Event>, i: int) {
    0 <= i < |events| && events[i].ErrorEvent? && forall j :: i < j < |events| ==> !events[j].ErrorEvent?
  }

  ghost predicate LastErrorIs(events: seq<Event>, e: ModelError) {
    exists i :: LastErrorAt(events, i) && events[i] == ErrorEvent(e)
  }

  /** The call failed with `e`: the exception, or else the last error event. */
  ghost predicate FailsWith(reply: Reply, e: ModelError) {
    match reply.ending
    case Threw(thrown) => e == thrown
    case Finished => LastErrorIs(reply.events, e)
    case AbortedByCaller => false
  }

  /** Another try may help: the model can correct itself, or the error passes and needs no change of the request. */
  predicate Recoverable(e: ModelError) {
    if e.code in ["invalid_tool_arguments"] then true
    else if e.code in ["prompt_too_long", "request_too_large"] then false
    else !(e.viaCompact || e.viaImageStrip) && e.retryable
  }

  predicate ZeroTokens(u: Usage) {
    u.total.GetOr(0) == 0 && u.input.GetOr(0) == 0 && u.output.GetOr(0) == 0
    && u.cacheRead.GetOr(0) == 0 && u.cacheWrite.GetOr(0) == 0
  }

  /** The answer came to an end without showing or counting anything. */
  ghost predicate Blank(events: seq<Event>) {
    && Silent(events)
    && (exists i :: 0 <= i < |events| && events[i].MessageEnd?)
    && (forall i :: LastUsageAt(events, i) ==> ZeroTokens(events[i].usage))
  }

  // ---- The configuration

  predicate ZeroUsageOff(c: Config) { c.zeroUsage.Some? && !c.zeroUsage.value.enabled }

  /** `n` calls of one attempt may still be followed by another one after a blank answer. */
  predicate BelowZeroUsageLimit(c: Config, n: int) {
    match c.zeroUsage
    case None => n < 5
    case Some(config) => n < config.maxAttempts
  }

  predicate TransientOff(c: Config) { c.transient.Some? && !c.transient.value.enabled }

  /** After `n` transient retries another one is allowed; the first always is. */
  predicate BelowTransientLimit(c: Config, n: int) {
    match c.transient
    case None => n < 5
    case Some(config) => n == 0 || n < config.maxAttempts
  }

  function Smaller(a: int, b: int): int { if a < b then a else b }

  function Doubled(ms: int, times: nat): int
    decreases times
  {
    if times == 0 then ms else Doubled(ms + ms, times - 1)
  }

  /** The time before transient retry number `n + 1`: it doubles from one to the next, up to a maximum. */
  function BackOff(c: Config, n: nat, jitter: int): int {
    match c.transient
    case None => Smaller(Doubled(1000, n) + jitter, 30000)
    case Some(config) => Smaller(Doubled(config.baseDelayMs, n) + jitter, config.maxDelayMs)
  }

  /** `m` stands for attempt number `n`: the decision first, then the fallbacks of its scenario, or else of the
      default one. */
  predicate IsAttempt(s: Setup, n: int, m: ModelRef) {
    var plan, scenario := s.config.fallback.GetOr(map[]), s.decision.scenarioType;
    if n == 0 then m.provider == s.decision.provider && m.model == s.decision.model
    else if scenario in plan && !scenario.ExplicitScenario? then
      1 <= n <= |plan[scenario]| && m == plan[scenario][n - 1]
    else DefaultScenario in plan && 1 <= n <= |plan[DefaultScenario]| && m == plan[DefaultScenario][n - 1]
  }

  ghost predicate IsLastAttempt(s: Setup, n: int) { forall later, m :: later > n ==> !IsAttempt(s, later, m) }

  /** What is sent in attempt `n`: the request with the decision's patch, sub-agent tags taken out. */
  predicate IsRequest(s: Setup, n: int, r: Request) {
    var d, asked := s.decision, s.request;
    && IsAttempt(s, n, ModelRef(r.provider, r.model))
    && (d.patch.None? ==> r.tools == asked.tools && r.systemPrompt == asked.systemPrompt)
    && (d.patch.Some? ==> r.tools == d.patch.value.tools && r.systemPrompt == d.patch.value.systemPrompt)
    && var messages := (match d.patch case Some(p) => p.messages case None => asked.messages);
       r.messages == (if d.mutations.subagentTagStripped then s.helpers.stripTag(messages) else messages)
  }

  /** The decision as it is recorded for attempt `n`. */
  predicate IsRecordOf(s: Setup, n: int, d: Decision) {
    && IsAttempt(s, n, ModelRef(d.provider, d.model))
    && d.resolvedFrom == (if n > 0 then ByFallback else s.decision.resolvedFrom)
    && d.(provider := s.decision.provider, model := s.decision.model, resolvedFrom := s.decision.resolvedFrom)
       == s.decision
  }

  /** The messages of a sub-agent count more tokens than its budget. */
  predicate Exceeds(s: Setup, messages: seq<Message>) {
    s.decision.isSubagent &&
    match s.config.subagentMaxTokens
    case None => false
    case Some(budget) => budget != 0 && s.helpers.countMessages(messages) > budget
  }

  // ---- The monitor

  /** How far a run has come: its attempt, all calls, the calls and transient retries of the attempt, a retry that
      was announced but not yet waited for, whether a wait has just ended, and how many events the last call showed. */
  datatype Place = Place(attempt: nat, calls: nat, tries: nat, transients: nat, announced: Option<Effect>, waited: bool,
                         shown: nat)

  const START := Place(0, 0, 0, 0, None, false, 0)

  function Move(p: Place, e: Effect): Place {
    match e
    case Emit(_) => p.(shown := p.shown + 1)
    case Call(_) => Place(p.attempt, p.calls + 1, p.tries + 1, p.transients, None, false, 0)
    case FallbackTaken(_, _, _, _) => Place(p.attempt + 1, p.calls, 0, 0, None, false, 0)
    case TransientRetry(_, _, _) => p.(transients := p.transients + 1, announced := Some(e))
    case ZeroUsageRetry(_, _) => p.(announced := Some(e))
    case Wait(_) => p.(announced := None, waited := true)
    case _ => p
  }

  /** The call answered by `reply` may be followed by another attempt or by a transient retry. */
  ghost predicate MayRecover(reply: Reply, e: ModelError) {
    FailsWith(reply, e) && Recoverable(e) && Silent(reply.events)
  }

  /** The first call of an attempt comes at once, unless the run was aborted or has no budget; every other one comes
      after a wait that was not aborted. */
  ghost predicate CallDue(s: Setup, env: Env, p: Place, r: Request) {
    && IsRequest(s, p.attempt, r) && p.announced.None?
    && if p.tries == 0 then !env.abortedBefore(p.calls) && !Exceeds(s, r.messages)
       else p.waited && p.calls > 0 && !env.abortedInDelay(p.calls - 1)
  }

  ghost predicate Due(s: Setup, env: Env, p: Place, e: Effect) {
    if e.Call? then CallDue(s, env, p, e.request)
    else if e.Emit? then p.calls > 0 && p.tries > 0 ==> Next(env.reply(p.calls - 1).events, p.shown, e.event)
    else p.calls > 0 && p.tries > 0 && DueAfter(s, env.reply(p.calls - 1), env.jitter(p.calls - 1), p, e)
  }

  /** The events of an answer are shown in their order. */
  predicate Next(events: seq<Event>, shown: nat, e: Event) { shown < |events| ==> e == events[shown] }

  /** What may follow an answer: a fallback or a retry if nothing of it was shown, a record once all of it was. */
  ghost predicate DueAfter(s: Setup, reply: Reply, jitter: int, p: Place, e: Effect)
    requires !e.Call? && !e.Emit?
  {
    match e
    case FallbackTaken(n, from, to, error) =>
      && n == p.attempt + 1 && IsAttempt(s, p.attempt, from) && IsAttempt(s, n, to)
      && MayRecover(reply, error) && p.announced.None? && p.shown == 0
    case TransientRetry(n, on, code) =>
      && n == p.transients + 1 && IsAttempt(s, p.attempt, on) && IsLastAttempt(s, p.attempt)
      && !TransientOff(s.config) && BelowTransientLimit(s.config, p.transients)
      && (exists error :: MayRecover(reply, error) && error.code == code) && p.announced.None? && p.shown == 0
    case ZeroUsageRetry(n, on) =>
      && n == p.tries && IsAttempt(s, p.attempt, on)
      && !ZeroUsageOff(s.config) && BelowZeroUsageLimit(s.config, p.tries)
      && Succeeds(reply) && Blank(reply.events) && p.announced.None? && p.shown == 0
    case Wait(ms) =>
      (match p.announced
       case Some(TransientRetry(n, _, _)) => n > 0 && ms == BackOff(s.config, n - 1, jitter)
       case Some(ZeroUsageRetry(n, _)) => ms == 500 * n
       case _ => false)
    case UsageCached(u) => Succeeds(reply) && p.shown == |reply.events|
    case StatsRecorded(d, _) => IsRecordOf(s, p.attempt, d) && p.shown == |reply.events|
    case ExecuteFailed(d, error) =>
      IsRecordOf(s, p.attempt, d) && FailsWith(reply, error) && p.shown == |reply.events|
  }

  /** A run may end here with this result: it has no other way to go on. */
  ghost predicate MayEnd(s: Setup, env: Env, p: Place, result: Result) {
    match result
    case Stopped => p.tries == 0 && env.abortedBefore(p.calls)
    case BudgetExceeded =>
      p.tries == 0 && !env.abortedBefore(p.calls)
      && exists r :: IsRequest(s, p.attempt, r) && Exceeds(s, r.messages)
    case AbortThrown =>
      p.calls > 0
      && if p.waited then env.abortedInDelay(p.calls - 1) else env.reply(p.calls - 1).ending.AbortedByCaller?
    case Succeeded =>
      p.calls > 0 && MayAccept(s, env.reply(p.calls - 1), p)
    case Failed =>
      p.calls > 0 && MayGiveUp(s, env.reply(p.calls - 1), p)
  }

  ghost predicate MayAccept(s: Setup, reply: Reply, p: Place) {
    && Succeeds(reply)
    && (Blank(reply.events) ==> ZeroUsageOff(s.config) || !BelowZeroUsageLimit(s.config, p.tries))
  }

  ghost predicate MayGiveUp(s: Setup, reply: Reply, p: Place) {
    exists error ::
      && FailsWith(reply, error)
      && (MayRecover(reply, error) ==>
            IsLastAttempt(s, p.attempt)
            && (TransientOff(s.config) || !BelowTransientLimit(s.config, p.transients)))
  }

  /** Every effect is due in its place, and the run ends where it may. */
  ghost predicate Accepts(s: Setup, env: Env, p: Place, trace: seq<Effect>, result: Result)
    decreases trace
  {
    if trace == [] then MayEnd(s, env, p, result)
    else Due(s, env, p, trace[0]) && Accepts(s, env, Move(p, trace[0]), trace[1..], result)
  }

  // ---- The two accounts agree on what they read

  lemma SilentIff(events: seq<Event>)
    ensures Silent(events) <==> !HasContent(events)
  {
  }

  lemma ErrorOneMore(front: seq<Event>, last: Event, i: int)
    ensures LastErrorAt(front + [last], i) <==> if last.ErrorEvent? then i == |front| else LastErrorAt(front, i)
    ensures LastErrorAt(front, i) ==> 0 <= i < |front| && (front + [last])[i] == front[i]
    ensures (front + [last])[|front|] == last
  {
    var all := front + [last];
    assert all[|front|] == last && forall j :: 0 <= j < |front| ==> all[j] == front[j];
  }

  lemma LastErrorIsOneMore(front: seq<Event>, last: Event, e: ModelError)
    ensures LastErrorIs(front + [last], e) <==>
            if last.ErrorEvent? then last.error == e else LastErrorIs(front, e)
  {
    var all := front + [last];
    ErrorOneMore(front, last, |front|);
    forall i
      ensures LastErrorAt(all, i) <==> if last.ErrorEvent? then i == |front| else LastErrorAt(front, i)
      ensures LastErrorAt(front, i) ==> 0 <= i < |front| && all[i] == front[i]
    {
      ErrorOneMore(front, last, i);
    }
    hide LastErrorAt;
    if !last.ErrorEvent? && LastErrorIs(front, e) {
      var i :| LastErrorAt(front, i) && front[i] == ErrorEvent(e);
      assert LastErrorAt(all, i) && all[i] == ErrorEvent(e);
    }
  }

  lemma {:induction false} LastErrorMeaning(events: seq<Event>, e: ModelError)
    ensures LastError(events) == Some(e) <==> LastErrorIs(events, e)
  {
    if events != [] {
      hide LastErrorIs, HasErrorEvent;
      var front, last := events[..|events| - 1], events[|events| - 1];
      assert events == front + [last];
      LastErrorMeaning(front, e);
      LastErrorIsOneMore(front, last, e);
    }
  }

  lemma FailsIff(reply: Reply, e: ModelError)
    requires !reply.ending.AbortedByCaller?
    ensures FailsWith(reply, e) <==> ErrorOf(reply) == Some(e)
  {
    LastErrorMeaning(reply.events, e);
    hide LastError, LastErrorIs;
  }

  lemma RecoverableIff(e: ModelError)
    ensures Recoverable(e) <==> IsFallbackEligible(e)
  {
  }

  lemma ZeroTokensIff(u: Usage)
    ensures ZeroTokens(u) <==> TotalTokens(u) == 0
  {
  }

  lemma BlankIff(events: seq<Event>)
    requires !HasErrorEvent(events)
    ensures Blank(events) <==> !HasContent(events) && ShouldRetryZeroUsage(ObserveAll(events))
  {
    SilentIff(events);
    ZeroUsageMeaning(events);
    forall i | LastUsageAt(events, i)
      ensures ZeroTokens(events[i].usage) <==> TotalTokens(events[i].usage) == 0
    {
      ZeroTokensIff(events[i].usage);
    }
    assert !HasContent(events) ==> forall i :: 0 <= i < |events| ==> !Visible(events[i]);
    hide Silent, HasContent, ZeroTokens, TotalTokens, ObserveAll, ShouldRetryZeroUsage, Visible;
  }

  lemma AttemptIff(s: Setup, n: int, m: ModelRef)
    ensures IsAttempt(s, n, m) <==> 0 <= n < |Attempts(s)| && Attempts(s)[n] == m
  {
  }

  lemma LastAttemptIff(s: Setup, n: nat)
    requires n < |Attempts(s)|
    ensures IsLastAttempt(s, n) <==> n == |Attempts(s)| - 1
  {
    forall later, m
      ensures IsAttempt(s, later, m) <==> 0 <= later < |Attempts(s)| && Attempts(s)[later] == m
    {
      AttemptIff(s, later, m);
    }
    hide Attempts, IsAttempt;
    if n + 1 < |Attempts(s)| {
      assert IsAttempt(s, n + 1, Attempts(s)[n + 1]);
    }
  }

  lemma RequestIs(s: Setup, n: nat)
    requires n < |Attempts(s)|
    ensures IsRequest(s, n, AttemptRequest(s, n)) && IsRecordOf(s, n, AttemptDecision(s, n))
    ensures Exceeds(s, AttemptRequest(s, n).messages) <==> OverBudget(s, n)
  {
    AttemptIff(s, n, Attempts(s)[n]);
    hide IsAttempt, Attempts;
  }

  lemma ZeroUsageIff(c: Config, n: nat)
    requires n > 0
    ensures !ZeroUsageOff(c) && BelowZeroUsageLimit(c, n) <==> ZeroUsageEnabled(c) && n < ZeroUsageMax(c)
  {
  }

  lemma {:induction false} DoubledIs(ms: int, times: nat)
    ensures Doubled(ms, times) == ms * Pow2(times)
    decreases times
  {
    if times > 0 {
      DoubledIs(ms + ms, times - 1);
      assert (ms + ms) * Pow2(times - 1) == ms * (2 * Pow2(times - 1));
    }
  }

  lemma TransientIff(c: Config, n: nat, jitter: int)
    ensures !TransientOff(c) && BelowTransientLimit(c, n) <==> TransientEnabled(c) && n < TransientMax(c)
    ensures BackOff(c, n, jitter) == TransientDelay(c, n, jitter)
  {
    DoubledIs(BaseDelay(c), n);
    hide Pow2, Doubled;
  }

  // ---- Every run is accepted

  function MoveAll(p: Place, trace: seq<Effect>): Place
    decreases trace
  {
    if trace == [] then p else MoveAll(Move(p, trace[0]), trace[1..])
  }

  ghost predicate AllDue(s: Setup, env: Env, p: Place, trace: seq<Effect>)
    decreases trace
  {
    trace == [] || (Due(s, env, p, trace[0]) && AllDue(s, env, Move(p, trace[0]), trace[1..]))
  }

  lemma {:induction false} AcceptsAppend(s: Setup, env: Env, p: Place, a: seq<Effect>, b: seq<Effect>, result: Result)
    requires AllDue(s, env, p, a) && Accepts(s, env, MoveAll(p, a), b, result)
    ensures Accepts(s, env, p, a + b, result)
    decreases a
  {
    hide Due, Move, MayEnd;
    if a == [] {
      assert a + b == b;
    } else {
      assert (a + b)[1..] == a[1..] + b;
      AcceptsAppend(s, env, Move(p, a[0]), a[1..], b, result);
    }
  }

  lemma {:induction false} AllDueAppend(s: Setup, env: Env, p: Place, a: seq<Effect>, b: seq<Effect>)
    requires AllDue(s, env, p, a) && AllDue(s, env, MoveAll(p, a), b)
    ensures AllDue(s, env, p, a + b) && MoveAll(p, a + b) == MoveAll(MoveAll(p, a), b)
    decreases a
  {
    hide Due, Move;
    if a == [] {
      assert a + b == b;
    } else {
      assert (a + b)[1..] == a[1..] + b;
      AllDueAppend(s, env, Move(p, a[0]), a[1..], b);
    }
  }

  lemma DueOne(s: Setup, env: Env, p: Place, e: Effect)
    requires Due(s, env, p, e)
    ensures AllDue(s, env, p, [e]) && MoveAll(p, [e]) == Move(p, e)
  {
    hide Due, Move;
    assert [e][1..] == [];
  }

  lemma DueTwo(s: Setup, env: Env, p: Place, e: Effect, f: Effect)
    requires Due(s, env, p, e) && Due(s, env, Move(p, e), f)
    ensures AllDue(s, env, p, [e, f]) && MoveAll(p, [e, f]) == Move(Move(p, e), f)
  {
    hide Due, Move;
    DueOne(s, env, p, e);
    DueOne(s, env, Move(p, e), f);
    AllDueAppend(s, env, p, [e], [f]);
    assert [e] + [f] == [e, f];
  }

  lemma {:induction false} DueEmits(s: Setup, env: Env, p: Place, events: seq<Event>)
    requires p.calls > 0 && p.tries > 0 ==>
      forall j :: 0 <= j < |events| ==> Next(env.reply(p.calls - 1).events, p.shown + j, events[j])
    ensures AllDue(s, env, p, Emits(events)) && MoveAll(p, Emits(events)) == p.(shown := p.shown + |events|)
    decreases events
  {
    hide Next;
    if events != [] {
      assert Emits(events)[1..] == Emits(events[1..]);
      if p.calls > 0 && p.tries > 0 {
        forall j | 0 <= j < |events| - 1
          ensures Next(env.reply(p.calls - 1).events, p.shown + 1 + j, events[1..][j])
        {
          assert Next(env.reply(p.calls - 1).events, p.shown + (j + 1), events[j + 1]);
        }
      }
      DueEmits(s, env, p.(shown := p.shown + 1), events[1..]);
    }
  }

  /** The place of a run after call number `k`, of whose answer `shown` events were shown. */
  function Called(i: nat, tries: nat, transients: nat, k: nat, shown: nat): Place {
    Place(i, k + 1, tries + 1, transients, None, false, shown)
  }

  lemma ShownOrHeld(events: seq<Event>)
    ensures Shown(events) + Held(events) == events
    ensures !HasContent(events) ==> Shown(events) == []
    ensures forall j :: 0 <= j < |Shown(events)| ==> Next(events, j, Shown(events)[j])
    ensures forall j :: 0 <= j < |Held(events)| ==> Next(events, |Shown(events)| + j, Held(events)[j])
  {
    hide HasContent;
  }

  /** The place of a run that is about to make call number `k`. */
  function PlaceOf(i: nat, tries: nat, transients: nat, k: nat): Place {
    Place(i, k, tries, transients, None, tries > 0, 0)
  }

  /** The run comes to its next call by a wait that was not aborted, unless it is the first of its attempt. */
  predicate Waited(env: Env, tries: nat, k: nat) { tries > 0 ==> k > 0 && !env.abortedInDelay(k - 1) }

  lemma CallIsDue(s: Setup, env: Env, i: nat, tries: nat, transients: nat, k: nat)
    requires i < |Attempts(s)| && !StopsBeforeCall(s, env, i, tries, k) && Waited(env, tries, k)
    ensures var p, call := PlaceOf(i, tries, transients, k), [Call(AttemptRequest(s, i))];
      AllDue(s, env, p, call) && MoveAll(p, call) == Called(i, tries, transients, k, 0)
  {
    RequestIs(s, i);
    hide AllDue, MoveAll, IsRequest, IsRecordOf, Exceeds, OverBudget, AttemptRequest, AttemptDecision, Attempts;
    DueOne(s, env, PlaceOf(i, tries, transients, k), Call(AttemptRequest(s, i)));
  }

  /** The events shown at once, and after them those held back. */
  lemma EventsDue(s: Setup, env: Env, i: nat, tries: nat, transients: nat, k: nat)
    ensures var events, called := env.reply(k).events, Called(i, tries, transients, k, 0);
      var later := Called(i, tries, transients, k, |Shown(events)|);
      && AllDue(s, env, called, Emits(Shown(events))) && MoveAll(called, Emits(Shown(events))) == later
      && AllDue(s, env, later, Emits(Held(events)))
      && MoveAll(later, Emits(Held(events))) == Called(i, tries, transients, k, |events|)
  {
    var events := env.reply(k).events;
    ShownOrHeld(events);
    hide AllDue, MoveAll, Shown, Held, Emits, Next;
    assert |Shown(events)| + |Held(events)| == |events|;
    DueEmits(s, env, Called(i, tries, transients, k, 0), Shown(events));
    DueEmits(s, env, Called(i, tries, transients, k, |Shown(events)|), Held(events));
  }

  lemma HeadDue(s: Setup, env: Env, i: nat, tries: nat, transients: nat, k: nat)
    requires i < |Attempts(s)| && !StopsBeforeCall(s, env, i, tries, k) && Waited(env, tries, k)
    ensures var p, events := PlaceOf(i, tries, transients, k), env.reply(k).events;
      && AllDue(s, env, p, Head(s, env, i, k))
      && MoveAll(p, Head(s, env, i, k)) == Called(i, tries, transients, k, |Shown(events)|)
      && AllDue(s, env, p, Head(s, env, i, k) + Emits(Held(events)))
      && MoveAll(p, Head(s, env, i, k) + Emits(Held(events))) == Called(i, tries, transients, k, |events|)
  {
    var p, call, events := PlaceOf(i, tries, transients, k), Call(AttemptRequest(s, i)), env.reply(k).events;
    assert Head(s, env, i, k) == [call] + Emits(Shown(events));
    hide *;
    CallIsDue(s, env, i, tries, transients, k);
    EventsDue(s, env, i, tries, transients, k);
    AllDueAppend(s, env, p, [call], Emits(Shown(events)));
    AllDueAppend(s, env, p, Head(s, env, i, k), Emits(Held(events)));
  }

  lemma FallbackDue(s: Setup, env: Env, i: nat, tries: nat, transients: nat, k: nat, e: Effect)
    requires i < |Attempts(s)| && Judge(s, env.reply(k), i, tries + 1, transients).NextAttempt?
    requires var error := Judge(s, env.reply(k), i, tries + 1, transients).error;
      i + 1 < |Attempts(s)| && e == FallbackTaken(i + 1, Attempts(s)[i], Attempts(s)[i + 1], error)
    ensures Due(s, env, Called(i, tries, transients, k, 0), e)
  {
    var reply := env.reply(k);
    AttemptIff(s, i, Attempts(s)[i]);
    AttemptIff(s, i + 1, Attempts(s)[i + 1]);
    SilentIff(reply.events);
    FailsIff(reply, e.error);
    RecoverableIff(e.error);
    hide Attempts, IsAttempt, HasContent, Silent, FailsWith, ErrorOf, IsFallbackEligible, Recoverable, TransientEnabled,
         TransientMax;
  }

  lemma TransientDue(s: Setup, env: Env, i: nat, tries: nat, transients: nat, k: nat, e: Effect, wait: Effect)
    requires i < |Attempts(s)| && Judge(s, env.reply(k), i, tries + 1, transients).RetryTransient?
    requires var error := Judge(s, env.reply(k), i, tries + 1, transients).error;
      e == TransientRetry(transients + 1, Attempts(s)[i], error.code)
      && wait == Wait(TransientDelay(s.config, transients, env.jitter(k)))
    ensures var p := Called(i, tries, transients, k, 0);
      Due(s, env, p, e) && Due(s, env, Move(p, e), wait)
  {
    var reply, error := env.reply(k), Judge(s, env.reply(k), i, tries + 1, transients).error;
    AttemptIff(s, i, Attempts(s)[i]);
    LastAttemptIff(s, i);
    SilentIff(reply.events);
    FailsIff(reply, error);
    RecoverableIff(error);
    TransientIff(s.config, transients, env.jitter(k));
    hide Attempts, IsAttempt, IsLastAttempt, HasContent, Silent, FailsWith, ErrorOf, IsFallbackEligible, Recoverable,
         TransientEnabled, TransientMax, TransientOff, BelowTransientLimit, BackOff, TransientDelay;
    assert MayRecover(reply, error);
  }

  lemma ZeroUsageDue(s: Setup, env: Env, i: nat, tries: nat, transients: nat, k: nat, e: Effect, wait: Effect)
    requires i < |Attempts(s)| && Judge(s, env.reply(k), i, tries + 1, transients).RetryZeroUsage?
    requires e == ZeroUsageRetry(tries + 1, Attempts(s)[i]) && wait == Wait(500 * (tries + 1))
    ensures var p := Called(i, tries, transients, k, 0);
      Due(s, env, p, e) && Due(s, env, Move(p, e), wait)
  {
    var reply := env.reply(k);
    AttemptIff(s, i, Attempts(s)[i]);
    SucceedsIff(reply);
    BlankIff(reply.events);
    ZeroUsageIff(s.config, tries + 1);
    hide Attempts, IsAttempt, HasContent, ErrorOf, Blank, ZeroUsageEnabled, ZeroUsageMax, ZeroUsageOff,
         BelowZeroUsageLimit, ShouldRetryZeroUsage, ObserveAll, HasErrorEvent;
  }

  /** A call that is followed by another one. */
  lemma AgainDue(s: Setup, env: Env, i: nat, tries: nat, transients: nat, k: nat)
    requires i < |Attempts(s)| && !StopsBeforeCall(s, env, i, tries, k) && Waited(env, tries, k)
    requires OneTry(s, env, i, tries, transients, k).Again?
    ensures var step, p := OneTry(s, env, i, tries, transients, k), PlaceOf(i, tries, transients, k);
      && AllDue(s, env, p, step.effects) && Waited(env, step.tries, k + 1)
      && MoveAll(p, step.effects) == PlaceOf(step.i, step.tries, step.transients, k + 1)
  {
    var verdict := Judge(s, env.reply(k), i, tries + 1, transients);
    if verdict.NextAttempt? {
      NextAttemptDue(s, env, i, tries, transients, k);
    } else {
      RetryDue(s, env, i, tries, transients, k);
    }
    hide AllDue, MoveAll, Judge, Head, TransientDelay, Attempts, Due, Move;
  }

  lemma NextAttemptDue(s: Setup, env: Env, i: nat, tries: nat, transients: nat, k: nat)
    requires i < |Attempts(s)| && !StopsBeforeCall(s, env, i, tries, k) && Waited(env, tries, k)
    requires Judge(s, env.reply(k), i, tries + 1, transients).NextAttempt? && i + 1 < |Attempts(s)|
    ensures var error := Judge(s, env.reply(k), i, tries + 1, transients).error;
      var effects := Head(s, env, i, k) + [FallbackTaken(i + 1, Attempts(s)[i], Attempts(s)[i + 1], error)];
      var p := PlaceOf(i, tries, transients, k);
      AllDue(s, env, p, effects) && MoveAll(p, effects) == PlaceOf(i + 1, 0, 0, k + 1)
  {
    HeadDue(s, env, i, tries, transients, k);
    var error := Judge(s, env.reply(k), i, tries + 1, transients).error;
    var e := FallbackTaken(i + 1, Attempts(s)[i], Attempts(s)[i + 1], error);
    RetryShowsNothing(s, env, i, tries, transients, k);
    hide Due, AllDue, MoveAll, Judge, Head, Attempts, Shown, Held;
    FallbackDue(s, env, i, tries, transients, k, e);
    DueOne(s, env, Called(i, tries, transients, k, 0), e);
    AllDueAppend(s, env, PlaceOf(i, tries, transients, k), Head(s, env, i, k), [e]);
  }

  /** The announcement of a retry and the wait for it. */
  function RetryEffects(s: Setup, env: Env, i: nat, tries: nat, transients: nat, k: nat): seq<Effect>
    requires i < |Attempts(s)|
  {
    match Judge(s, env.reply(k), i, tries + 1, transients)
    case RetryTransient(error) =>
      [TransientRetry(transients + 1, Attempts(s)[i], error.code),
       Wait(TransientDelay(s.config, transients, env.jitter(k)))]
    case RetryZeroUsage => [ZeroUsageRetry(tries + 1, Attempts(s)[i]), Wait(500 * (tries + 1))]
    case _ => []
  }

  lemma RetryPairDue(s: Setup, env: Env, i: nat, tries: nat, transients: nat, k: nat)
    requires i < |Attempts(s)|
    requires var verdict := Judge(s, env.reply(k), i, tries + 1, transients);
      verdict.RetryTransient? || verdict.RetryZeroUsage?
    ensures var effects, called := RetryEffects(s, env, i, tries, transients, k), Called(i, tries, transients, k, 0);
      var retries := if Judge(s, env.reply(k), i, tries + 1, transients).RetryTransient? then transients + 1
                     else transients;
      AllDue(s, env, called, effects) && MoveAll(called, effects) == PlaceOf(i, tries + 1, retries, k + 1)
  {
    var verdict := Judge(s, env.reply(k), i, tries + 1, transients);
    var effects := RetryEffects(s, env, i, tries, transients, k);
    assert effects == [effects[0], effects[1]];
    hide Due, AllDue, MoveAll, Judge, TransientDelay, Attempts;
    if verdict.RetryTransient? {
      TransientDue(s, env, i, tries, transients, k, effects[0], effects[1]);
    } else {
      ZeroUsageDue(s, env, i, tries, transients, k, effects[0], effects[1]);
    }
    DueTwo(s, env, Called(i, tries, transients, k, 0), effects[0], effects[1]);
  }

  lemma RetryShowsNothing(s: Setup, env: Env, i: nat, tries: nat, transients: nat, k: nat)
    requires i < |Attempts(s)|
    requires var verdict := Judge(s, env.reply(k), i, tries + 1, transients);
      verdict.NextAttempt? || verdict.RetryTransient? || verdict.RetryZeroUsage?
    ensures |Shown(env.reply(k).events)| == 0
  {
    hide ErrorOf, HasContent, ObserveAll, ShouldRetryZeroUsage, IsFallbackEligible, Attempts;
  }

  lemma RetryDue(s: Setup, env: Env, i: nat, tries: nat, transients: nat, k: nat)
    requires i < |Attempts(s)| && !StopsBeforeCall(s, env, i, tries, k) && Waited(env, tries, k)
    requires var verdict := Judge(s, env.reply(k), i, tries + 1, transients);
      verdict.RetryTransient? || verdict.RetryZeroUsage?
    ensures var effects := Head(s, env, i, k) + RetryEffects(s, env, i, tries, transients, k);
      var p, verdict := PlaceOf(i, tries, transients, k), Judge(s, env.reply(k), i, tries + 1, transients);
      var retries := if verdict.RetryTransient? then transients + 1 else transients;
      AllDue(s, env, p, effects) && MoveAll(p, effects) == PlaceOf(i, tries + 1, retries, k + 1)
  {
    hide *;
    HeadDue(s, env, i, tries, transients, k);
    RetryPairDue(s, env, i, tries, transients, k);
    RetryShowsNothing(s, env, i, tries, transients, k);
    var effects := RetryEffects(s, env, i, tries, transients, k);
    AllDueAppend(s, env, PlaceOf(i, tries, transients, k), Head(s, env, i, k), effects);
  }

  /** What is left to say about the last call of a run. */
  lemma EndDue(s: Setup, env: Env, i: nat, tries: nat, transients: nat, k: nat)
    requires i < |Attempts(s)| && !StopsBeforeCall(s, env, i, tries, k) && Waited(env, tries, k)
    requires OneTry(s, env, i, tries, transients, k).Halt?
    ensures var step, p := OneTry(s, env, i, tries, transients, k), PlaceOf(i, tries, transients, k);
      Accepts(s, env, p, step.effects, step.result)
  {
    HeadDue(s, env, i, tries, transients, k);
    var reply, p := env.reply(k), PlaceOf(i, tries, transients, k);
    var head, front := Head(s, env, i, k), Head(s, env, i, k) + Emits(Held(env.reply(k).events));
    var verdict := Judge(s, reply, i, tries + 1, transients);
    hide Due, AllDue, Accepts, MoveAll, Judge, Head, TransientDelay, Emits, Held, Shown, HasContent, ReportFailure,
         ReportSuccess, Attempts;
    match verdict
    case AbortedMidStream =>
      AbortEnds(s, env, i, tries, transients, k, |Shown(reply.events)|);
      AcceptsAppend(s, env, p, head, [], AbortThrown);
      assert head + [] == head;
    case GiveUp(error) =>
      FailureEnds(s, env, i, tries, transients, k);
      AcceptsAppend(s, env, p, front, ReportFailure(s, LastOf(s, i, reply, error)), Failed);
    case Accept =>
      SuccessEnds(s, env, i, tries, transients, k);
      AcceptsAppend(s, env, p, front, ReportSuccess(s, i, reply), Succeeded);
    case NextAttempt(error) =>
    case _ => AnnouncedEnds(s, env, i, tries, transients, k);
  }

  lemma AbortEnds(s: Setup, env: Env, i: nat, tries: nat, transients: nat, k: nat, shown: nat)
    requires i < |Attempts(s)| && env.reply(k).ending.AbortedByCaller?
    ensures Accepts(s, env, Called(i, tries, transients, k, shown), [], AbortThrown)
  {
  }

  /** A retry is announced and waited for, and the run is aborted meanwhile. */
  lemma AnnouncedEnds(s: Setup, env: Env, i: nat, tries: nat, transients: nat, k: nat)
    requires i < |Attempts(s)| && !StopsBeforeCall(s, env, i, tries, k) && Waited(env, tries, k)
    requires var verdict := Judge(s, env.reply(k), i, tries + 1, transients);
      verdict.RetryTransient? || verdict.RetryZeroUsage?
    requires env.abortedInDelay(k)
    ensures var effects := Head(s, env, i, k) + RetryEffects(s, env, i, tries, transients, k);
      Accepts(s, env, PlaceOf(i, tries, transients, k), effects, AbortThrown)
  {
    RetryDue(s, env, i, tries, transients, k);
    hide Due, AllDue, MoveAll, Head, RetryEffects, Judge;
    var p := PlaceOf(i, tries, transients, k);
    var effects := Head(s, env, i, k) + RetryEffects(s, env, i, tries, transients, k);
    assert Accepts(s, env, MoveAll(p, effects), [], AbortThrown);
    hide Accepts;
    AcceptsAppend(s, env, p, effects, [], AbortThrown);
    assert effects + [] == effects;
  }

  lemma SuccessEnds(s: Setup, env: Env, i: nat, tries: nat, transients: nat, k: nat)
    requires i < |Attempts(s)| && Judge(s, env.reply(k), i, tries + 1, transients).Accept?
    ensures var called := Called(i, tries, transients, k, |env.reply(k).events|);
      Accepts(s, env, called, ReportSuccess(s, i, env.reply(k)), Succeeded)
  {
    var reply := env.reply(k);
    var called := Called(i, tries, transients, k, |reply.events|);
    SucceedsIff(reply);
    BlankIff(reply.events);
    ZeroUsageIff(s.config, tries + 1);
    RequestIs(s, i);
    hide ErrorOf, HasContent, Blank, Succeeds, ObserveAll, ShouldRetryZeroUsage, HasErrorEvent, ZeroUsageEnabled,
         ZeroUsageMax, ZeroUsageOff, BelowZeroUsageLimit, IsRecordOf, IsRequest, AttemptRequest, AttemptDecision,
         Exceeds, OverBudget, UsageOrEstimate;
    var report := ReportSuccess(s, i, reply);
    assert Succeeds(reply);
    DueTwo(s, env, called, report[0], report[1]);
    assert Accepts(s, env, called, [], Succeeded);
    hide Accepts, ReportSuccess, Due, AllDue, MoveAll;
    AcceptsAppend(s, env, called, report, [], Succeeded);
    assert report + [] == report;
  }

  lemma MayFail(s: Setup, i: nat, tries: nat, transients: nat, reply: Reply, p: Place)
    requires i < |Attempts(s)| && Judge(s, reply, i, tries + 1, transients).GiveUp?
    requires p.attempt == i && p.transients == transients
    ensures MayGiveUp(s, reply, p) && FailsWith(reply, Judge(s, reply, i, tries + 1, transients).error)
  {
    var error := Judge(s, reply, i, tries + 1, transients).error;
    FailsIff(reply, error);
    SilentIff(reply.events);
    RecoverableIff(error);
    LastAttemptIff(s, i);
    TransientIff(s.config, transients, 0);
    hide ErrorOf, HasContent, Silent, FailsWith, Recoverable, IsFallbackEligible, Attempts, IsLastAttempt,
         TransientEnabled, TransientMax, TransientOff, BelowTransientLimit, BackOff, TransientDelay;
  }

  /** The failure is announced and recorded, once the answer was passed on. */
  lemma ReportDue(s: Setup, env: Env, i: nat, tries: nat, transients: nat, k: nat, error: ModelError, usage: Usage)
    requires i < |Attempts(s)| && FailsWith(env.reply(k), error)
    ensures var called := Called(i, tries, transients, k, |env.reply(k).events|);
      var report := [ExecuteFailed(AttemptDecision(s, i), error), StatsRecorded(AttemptDecision(s, i), usage)];
      AllDue(s, env, called, report) && MoveAll(called, report) == called
  {
    RequestIs(s, i);
    hide FailsWith, IsRecordOf, IsRequest, AttemptRequest, AttemptDecision, Exceeds, OverBudget, AllDue, MoveAll,
         Attempts;
    DueTwo(s, env, Called(i, tries, transients, k, |env.reply(k).events|),
           ExecuteFailed(AttemptDecision(s, i), error), StatsRecorded(AttemptDecision(s, i), usage));
  }

  lemma FailureEnds(s: Setup, env: Env, i: nat, tries: nat, transients: nat, k: nat)
    requires i < |Attempts(s)| && Judge(s, env.reply(k), i, tries + 1, transients).GiveUp?
    ensures var reply := env.reply(k);
      var called := Called(i, tries, transients, k, |reply.events|);
      var error := Judge(s, reply, i, tries + 1, transients).error;
      Accepts(s, env, called, ReportFailure(s, LastOf(s, i, reply, error)), Failed)
  {
    var reply := env.reply(k);
    var called := Called(i, tries, transients, k, |reply.events|);
    var error := Judge(s, reply, i, tries + 1, transients).error;
    var last := LastOf(s, i, reply, error);
    var replayed := WithoutErrors(if last.hasYieldedContent then [] else last.buffered);
    var usage := UsageOrEstimate(s, last.usage, s.request.messages, last.buffered);
    var report := [ExecuteFailed(last.decision, error), StatsRecorded(last.decision, usage)];
    var end := [Emit(ErrorEvent(error))];
    assert ReportFailure(s, last) == report + (Emits(replayed) + end);
    assert last.decision == AttemptDecision(s, i);
    hide *;
    MayFail(s, i, tries, transients, reply, called);
    ReportDue(s, env, i, tries, transients, k, error, usage);
    ReplayEnds(s, env, i, tries, transients, k, replayed, error);
    AcceptsAppend(s, env, called, report, Emits(replayed) + end, Failed);
  }

  /** What is replayed after the answer, and the error. */
  lemma ReplayEnds(
    s: Setup, env: Env, i: nat, tries: nat, transients: nat, k: nat, replayed: seq<Event>, error: ModelError)
    requires var called := Called(i, tries, transients, k, |env.reply(k).events|); MayGiveUp(s, env.reply(k), called)
    ensures var called := Called(i, tries, transients, k, |env.reply(k).events|);
      Accepts(s, env, called, Emits(replayed) + [Emit(ErrorEvent(error))], Failed)
  {
    var called := Called(i, tries, transients, k, |env.reply(k).events|);
    var all := replayed + [ErrorEvent(error)];
    assert Emits(replayed) + [Emit(ErrorEvent(error))] == Emits(all);
    LaterMayEnd(s, env, i, tries, transients, k, |env.reply(k).events| + |all|);
    hide Accepts, AllDue, MoveAll, Emits, MayGiveUp;
    DueEmits(s, env, called, all);
    AcceptsAppend(s, env, called, Emits(all), [], Failed);
    assert Emits(all) + [] == Emits(all);
  }

  lemma LaterMayEnd(s: Setup, env: Env, i: nat, tries: nat, transients: nat, k: nat, shown: nat)
    requires MayGiveUp(s, env.reply(k), Called(i, tries, transients, k, |env.reply(k).events|))
    ensures Accepts(s, env, Called(i, tries, transients, k, shown), [], Failed)
  {
    hide FailsWith, MayRecover, IsLastAttempt;
  }

  lemma StopAccepted(s: Setup, env: Env, i: nat, tries: nat, transients: nat, k: nat)
    requires i < |Attempts(s)| && StopsBeforeCall(s, env, i, tries, k)
    ensures var run := RunFrom(s, env, i, tries, transients, k);
      Accepts(s, env, PlaceOf(i, tries, transients, k), run.trace, run.result)
  {
    RequestIs(s, i);
    var p := PlaceOf(i, tries, transients, k);
    hide IsRequest, IsRecordOf, Exceeds, OverBudget, AttemptRequest, AttemptDecision, Attempts, OneTry;
    if !env.abortedBefore(k) {
      var r := AttemptRequest(s, i);
      assert IsRequest(s, i, r) && Exceeds(s, r.messages);
      var stop := BudgetStop(s, i);
      var shown := [stop[0].event, stop[1].event];
      assert stop == Emits(shown) && stop + [] == stop;
      assert Accepts(s, env, p, [], BudgetExceeded);
      hide Accepts, BudgetStop, Emits;
      DueEmits(s, env, p, shown);
      AcceptsAppend(s, env, p, stop, [], BudgetExceeded);
    }
  }

  lemma {:induction false} AcceptedFrom(s: Setup, env: Env, i: nat, tries: nat, transients: nat, k: nat)
    requires i < |Attempts(s)| && Waited(env, tries, k)
    ensures var run := RunFrom(s, env, i, tries, transients, k);
      Accepts(s, env, PlaceOf(i, tries, transients, k), run.trace, run.result)
    decreases |Attempts(s)| - i, RetriesLeft(s, tries, transients)
  {
    hide OneTry, BudgetStop, Accepts, AllDue, MoveAll, Waited;
    if StopsBeforeCall(s, env, i, tries, k) {
      StopAccepted(s, env, i, tries, transients, k);
    } else {
      var step := OneTry(s, env, i, tries, transients, k);
      var p := PlaceOf(i, tries, transients, k);
      if step.Again? {
        AgainDue(s, env, i, tries, transients, k);
        AcceptedFrom(s, env, step.i, step.tries, step.transients, k + 1);
        var rest := RunFrom(s, env, step.i, step.tries, step.transients, k + 1);
        AcceptsAppend(s, env, p, step.effects, rest.trace, rest.result);
      } else {
        EndDue(s, env, i, tries, transients, k);
      }
    }
  }

  /**
   The monitor accepts every run: each call goes to the model and carries the request that are due; each fallback and
   each retry has its reason in the last answer and stays within its limit; each wait is as long as it has to be; and
   the run ends only where no fallback or retry is left.
   */
  lemma EveryRunIsAccepted(s: Setup, env: Env)
    ensures var run := Buffered(s, env); Accepts(s, env, START, run.trace, run.result)
  {
    hide *;
    StartPlace(env);
    AcceptedFrom(s, env, 0, 0, 0, 0);
    BufferedFrom(s, env);
  }

  lemma StartPlace(env: Env)
    ensures PlaceOf(0, 0, 0, 0) == START && Waited(env, 0, 0)
  {
  }

  lemma BufferedFrom(s: Setup, env: Env)
    ensures 0 < |Attempts(s)| && Buffered(s, env) == RunFrom(s, env, 0, 0, 0, 0)
  {
  }

  // ---- What is replayed, and what a sub-agent without budget is told

  lemma {:induction false} WithoutErrorsAppend(a: seq<Event>, b: seq<Event>)
    ensures WithoutErrors(a + b) == WithoutErrors(a) + WithoutErrors(b)
  {
    if a == [] {
      assert a + b == b;
    } else {
      assert (a + b)[1..] == a[1..] + b;
      WithoutErrorsAppend(a[1..], b);
    }
  }

  lemma WithoutErrorsOne(e: Event)
    ensures WithoutErrors([e]) == match e case ErrorEvent(_) => [] case _ => [e]
  {
    assert [e][1..] == [];
  }

  /** What a failed answer shows before the error: all of it, and once more, if it is silent, all but its errors: these
      are added one by one as the answer goes on. */
  lemma FailedOutputMeaning(reply: Reply, front: seq<Event>, last: Event)
    requires ErrorOf(reply).Some? && reply.events == front + [last]
    ensures FailsWith(reply, ErrorOf(reply).value) || reply.ending.AbortedByCaller?
    ensures var error, again := [ErrorEvent(ErrorOf(reply).value)], WithoutErrors(front);
      FailedOutput(reply) == reply.events
        + (if Silent(reply.events) then again + (if last.ErrorEvent? then [] else [last]) else [])
        + error
  {
    if !reply.ending.AbortedByCaller? {
      FailsIff(reply, ErrorOf(reply).value);
    }
    SilentIff(reply.events);
    WithoutErrorsAppend(front, [last]);
    WithoutErrorsOne(last);
    assert WithoutErrors([]) == [];
    hide FailsWith, ErrorOf, Silent, HasContent, WithoutErrors;
  }

  /** A run over budget says so, with the tokens counted and the budget, ends the message, and does nothing else. */
  lemma BudgetNotice(s: Setup, env: Env)
    requires Buffered(s, env).result == BudgetExceeded
    ensures exists r ::
      (IsRequest(s, 0, r) && Exceeds(s, r.messages)
       && var tokens, budget := s.helpers.countMessages(r.messages), s.config.subagentMaxTokens.value;
          Buffered(s, env).trace == [Emit(TextDelta(s.helpers.budgetNotice(tokens, budget))), Emit(MessageEnd)])
  {
    BudgetStopsFirst(s, env);
    RequestIs(s, 0);
    hide OneTry, IsRequest, IsRecordOf;
    var r := AttemptRequest(s, 0);
    assert IsRequest(s, 0, r) && Exceeds(s, r.messages);
  }
}
