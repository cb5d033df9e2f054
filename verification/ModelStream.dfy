/**
 What one provider call can answer, and how the router reads the answer: content events, the error
 of the stream, and whether an empty answer should be retried
 (streamAttempt and isContentEvent of src/router/RouterRuntime.ts, src/router/retry/zeroUsageRetry.ts,
 isFallbackEligible of src/router/fallback/runFallbackChain.ts).
 */
module ModelStream {
  import opened Options

  datatype ModelError = ModelError(code: string, retryable: bool, viaCompact: bool, viaImageStrip: bool)

  datatype Usage = Usage(input: Option<nat>, output: Option<nat>, total: Option<nat>,
                         cacheRead: Option<nat>, cacheWrite: Option<nat>)

  datatype Event =
    | RequestStarted
    | MessageStart
    | TextDelta(text: string)
    | ThinkingDelta(text: string)
    | ToolCallStart(id: string)
    | ToolCallDelta(id: string, delta: string)
    | ToolCallEnd(id: string)
    | MessageEnd
    | UsageReport(usage: Usage)
    | ErrorEvent(error: ModelError)

  /** How the event stream of one call ends: normally, by an exception, or because the caller aborted. */
  datatype Ending = Finished | Threw(thrown: ModelError) | AbortedByCaller

  datatype Reply = Reply(events: seq<Event>, ending: Ending)

  predicate IsContentEvent(e: Event) {
    e.TextDelta? || e.ThinkingDelta? || e.ToolCallStart? || e.ToolCallDelta? || e.ToolCallEnd?
  }

  predicate HasContent(events: seq<Event>) {
    exists i :: 0 <= i < |events| && IsContentEvent(events[i])
  }

  predicate HasErrorEvent(events: seq<Event>) {
    exists i :: 0 <= i < |events| && events[i].ErrorEvent?
  }

  /** The error of the last error event. */
  function LastError(events: seq<Event>): (r: Option<ModelError>)
    ensures r.Some? <==> HasErrorEvent(events)
  {
    if events == [] then None
    else
      var last := events[|events| - 1];
      if last.ErrorEvent? then Some(last.error)
      else
        var rest := events[..|events| - 1];
        assert HasErrorEvent(events) ==> HasErrorEvent(rest);
        LastError(rest)
  }

  /** An exception replaces whatever error the stream had reported. */
  function ErrorOf(reply: Reply): Option<ModelError> {
    if reply.ending.Threw? then Some(reply.ending.thrown) else LastError(reply.events)
  }

  function WithoutErrors(events: seq<Event>): seq<Event> {
    if events == [] then []
    else (if events[0].ErrorEvent? then [] else [events[0]]) + WithoutErrors(events[1..])
  }

  predicate IsFallbackEligible(e: ModelError) {
    e.code == "invalid_tool_arguments" ||
    (e.retryable && !e.viaCompact && !e.viaImageStrip &&
     e.code != "prompt_too_long" && e.code != "request_too_large")
  }

  // ---- Zero-usage detection

  datatype ZeroUsageState = ZeroUsageState(anyText: bool, finish: bool, usage: Option<Usage>, error: bool)

  const FRESH_STATE := ZeroUsageState(false, false, None, false)

  function Observe(s: ZeroUsageState, e: Event): ZeroUsageState {
    match e
    case TextDelta(text) => if |text| > 0 then s.(anyText := true) else s
    case ToolCallDelta(_, delta) => if |delta| > 0 then s.(anyText := true) else s
    case ToolCallEnd(_) => s.(anyText := true)
    case MessageEnd => s.(finish := true)
    case UsageReport(u) => s.(usage := Some(u))
    case ErrorEvent(_) => s.(error := true)
    case _ => s
  }

  function ObserveAll(events: seq<Event>): ZeroUsageState {
    if events == [] then FRESH_STATE
    else Observe(ObserveAll(events[..|events| - 1]), events[|events| - 1])
  }

  function TotalTokens(u: Usage): nat {
    u.total.GetOr(0) + u.input.GetOr(0) + u.output.GetOr(0) + u.cacheRead.GetOr(0) + u.cacheWrite.GetOr(0)
  }

  predicate ShouldRetryZeroUsage(s: ZeroUsageState) {
    !s.error && s.finish && !s.anyText && (s.usage.Some? ==> TotalTokens(s.usage.value) == 0)
  }

  predicate Visible(e: Event) {
    (e.TextDelta? && |e.text| > 0) || (e.ToolCallDelta? && |e.delta| > 0) || e.ToolCallEnd?
  }

  /** Position `i` holds the last usage report. */
  predicate LastUsageAt(events: seq<Event>, i: int) {
    0 <= i < |events| && events[i].UsageReport? && forall j :: i < j < |events| ==> !events[j].UsageReport?
  }

  lemma {:induction false} ObservedFlags(events: seq<Event>)
    ensures ObserveAll(events).anyText <==> exists i :: 0 <= i < |events| && Visible(events[i])
    ensures ObserveAll(events).finish <==> exists i :: 0 <= i < |events| && events[i].MessageEnd?
    ensures ObserveAll(events).error <==> HasErrorEvent(events)
  {
    if events != [] {
      var front, last := events[..|events| - 1], events[|events| - 1];
      ObservedFlags(front);
      assert forall i :: 0 <= i < |front| ==> front[i] == events[i];
    }
  }

  predicate AnyUsage(events: seq<Event>) { exists i :: 0 <= i < |events| && events[i].UsageReport? }

  lemma UsageOneMore(front: seq<Event>, last: Event, i: int)
    ensures AnyUsage(front + [last]) <==> AnyUsage(front) || last.UsageReport?
    ensures LastUsageAt(front + [last], i) <==> if last.UsageReport? then i == |front| else LastUsageAt(front, i)
    ensures LastUsageAt(front, i) ==> 0 <= i < |front|
  {
    var all := front + [last];
    assert all[|front|] == last && forall j :: 0 <= j < |front| ==> all[j] == front[j];
  }

  lemma ObserveOneMore(front: seq<Event>, last: Event)
    ensures ObserveAll(front + [last]).usage == if last.UsageReport? then Some(last.usage) else ObserveAll(front).usage
  {
    assert (front + [last])[..|front|] == front;
  }

  lemma {:induction false} ObservedUsage(events: seq<Event>, i: int)
    ensures LastUsageAt(events, i) ==> ObserveAll(events).usage == Some(events[i].usage)
    ensures ObserveAll(events).usage.Some? <==> AnyUsage(events)
    decreases |events|
  {
    if events == [] {
      hide Observe;
    } else {
      hide *;
      var front, last := events[..|events| - 1], events[|events| - 1];
      assert events == front + [last];
      ObservedUsage(front, i);
      UsageOneMore(front, last, i);
      ObserveOneMore(front, last);
    }
  }

  /**
   An answer is retried for zero usage exactly when it finished without an error event, showed no text
   or tool input, and its last usage report, if there is one, counts no tokens.
   */
  lemma ZeroUsageMeaning(events: seq<Event>)
    ensures ShouldRetryZeroUsage(ObserveAll(events)) <==>
            && !HasErrorEvent(events)
            && (exists i :: 0 <= i < |events| && events[i].MessageEnd?)
            && (forall i :: 0 <= i < |events| ==> !Visible(events[i]))
            && (forall i :: LastUsageAt(events, i) ==> TotalTokens(events[i].usage) == 0)
  {
    ObservedFlags(events);
    ObservedUsage(events, 0);
    forall i | LastUsageAt(events, i)
      ensures ObserveAll(events).usage == Some(events[i].usage)
    {
      ObservedUsage(events, i);
    }
    hide ObserveAll, TotalTokens, Visible;
    if ObserveAll(events).usage.Some? {
      var i := LastUsageIndex(events);
    }
  }

  lemma LastUsageIndex(events: seq<Event>) returns (i: int)
    requires exists j :: 0 <= j < |events| && events[j].UsageReport?
    ensures LastUsageAt(events, i)
  {
    i := |events| - 1;
    while !events[i].UsageReport?
      invariant 0 <= i < |events|
      invariant forall j :: i < j < |events| ==> !events[j].UsageReport?
      decreases i
    {
      i := i - 1;
    }
  }
}
