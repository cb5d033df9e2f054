/**
 Tool calls and their results in a conversation: src/agent/loop/collectToolCalls.ts,
 decideLoopContinuation.ts, ensureToolResultPairing.ts, projectToolResults.ts, the head and tail
 truncations of AgentLoop.ts, and toolPairSafeSlice of src/context/NullContextRuntime.ts.
 */
module Transcript {
  import opened Options

  datatype Role = User | Assistant

  datatype Block =
    | TextBlock(text: string)
    | MediaBlock(data: string)
    | CallBlock(call: ToolCall)
    | ResultBlock(callId: string, isError: bool, content: seq<string>)

  datatype ToolCall = ToolCall(id: string, name: string, input: string)

  datatype Message = Message(role: Role, content: seq<Block>)

  /** Content of a supplemental message; it never becomes a call or a result. */
  datatype Supplement = Media(data: string) | Words(text: string)

  datatype ToolResult =
    ToolResult(callId: string, isError: bool, content: seq<string>, supplements: seq<seq<Supplement>>)

  const NO_OUTPUT := "Tool completed with no output."
  const NO_RESULT := "Tool execution did not produce a result."

  function CollectToolCalls(m: Message): seq<ToolCall> {
    CallsIn(m.content)
  }

  function CallsIn(content: seq<Block>): seq<ToolCall> {
    if content == [] then []
    else (if content[0].CallBlock? then [content[0].call] else []) + CallsIn(content[1..])
  }

  /** Whether the loop goes on after an assistant message. */
  predicate Continues(m: Message) { |CollectToolCalls(m)| > 0 }

  function MissingResult(call: ToolCall, message: string): ToolResult {
    ToolResult(call.id, true, [message], [])
  }

  function LastResult(results: seq<ToolResult>, id: string): Option<ToolResult> {
    if results == [] then None
    else if results[|results| - 1].callId == id then Some(results[|results| - 1])
    else LastResult(results[..|results| - 1], id)
  }

  function Pairing(calls: seq<ToolCall>, results: seq<ToolResult>): seq<ToolResult> {
    seq(|calls|, i requires 0 <= i < |calls| =>
          LastResult(results, calls[i].id).GetOr(MissingResult(calls[i], NO_RESULT)))
  }

  method EnsureToolResultPairing(calls: seq<ToolCall>, results: seq<ToolResult>) returns (paired: seq<ToolResult>)
    ensures paired == Pairing(calls, results)
  {
    var byCallId: map<string, ToolResult> := map[];
    for k := 0 to |results|
      invariant forall id :: id in byCallId <==> LastResult(results[..k], id).Some?
      invariant forall id :: id in byCallId ==> LastResult(results[..k], id) == Some(byCallId[id])
    {
      assert results[..k + 1][..k] == results[..k];
      byCallId := byCallId[results[k].callId := results[k]];
    }
    assert results[..|results|] == results;
    paired := [];
    for i := 0 to |calls|
      invariant paired == Pairing(calls, results)[..i]
    {
      var result := if calls[i].id in byCallId then byCallId[calls[i].id] else MissingResult(calls[i], NO_RESULT);
      paired := paired + [result];
    }
  }

  /** `r` is the last of `results` for the call with this id. */
  ghost predicate LastFor(results: seq<ToolResult>, id: string, r: ToolResult) {
    exists i :: 0 <= i < |results| && results[i] == r && r.callId == id
      && forall j :: i < j < |results| ==> results[j].callId != id
  }

  lemma {:induction false} LastResultMeaning(results: seq<ToolResult>, id: string)
    ensures match LastResult(results, id)
      case Some(r) => LastFor(results, id, r)
      case None => forall r :: r in results ==> r.callId != id
  {
    if results != [] {
      var front, last := results[..|results| - 1], results[|results| - 1];
      LastResultMeaning(front, id);
      assert results == front + [last];
      LastForOneMore(front, last, id, last);
      if last.callId != id && LastResult(front, id).Some? {
        LastForOneMore(front, last, id, LastResult(front, id).value);
      }
      hide LastFor;
    }
  }

  lemma LastForOneMore(front: seq<ToolResult>, last: ToolResult, id: string, r: ToolResult)
    ensures last.callId == id ==> LastFor(front + [last], id, last)
    ensures last.callId != id && LastFor(front, id, r) ==> LastFor(front + [last], id, r)
  {
    var more := front + [last];
    assert more[|front|] == last;
    if last.callId != id && LastFor(front, id, r) {
      var i :| 0 <= i < |front| && front[i] == r && r.callId == id
               && forall j :: i < j < |front| ==> front[j].callId != id;
      assert more[i] == r;
      assert forall j :: i < j < |front| ==> more[j] == front[j];
    }
  }

  /** Every call is paired with one result for its id: the last one returned, or the error result if there is none. */
  lemma PairingMeaning(calls: seq<ToolCall>, results: seq<ToolResult>, i: nat)
    requires i < |calls|
    ensures |Pairing(calls, results)| == |calls| && Pairing(calls, results)[i].callId == calls[i].id
    ensures var r := Pairing(calls, results)[i];
      if exists x :: x in results && x.callId == calls[i].id then LastFor(results, calls[i].id, r)
      else r == MissingResult(calls[i], NO_RESULT)
  {
    LastResultMeaning(results, calls[i].id);
    hide LastResult;
  }

  function ToResultBlock(r: ToolResult): Block {
    ResultBlock(r.callId, r.isError, if |r.content| > 0 then r.content else [NO_OUTPUT])
  }

  function ToSupplementBlock(s: Supplement): Block {
    match s
    case Media(data) => MediaBlock(data)
    case Words(text) => TextBlock(text)
  }

  /** A user message that holds neither calls nor results. */
  predicate Plain(m: Message) {
    m.role == User && forall b :: b in m.content ==> !b.CallBlock? && !b.ResultBlock?
  }

  function SupplementMessage(supplements: seq<Supplement>): Message {
    Message(User, seq(|supplements|, k requires 0 <= k < |supplements| => ToSupplementBlock(supplements[k])))
  }

  function SupplementMessages(supplements: seq<seq<Supplement>>): seq<Message> {
    seq(|supplements|, j requires 0 <= j < |supplements| => SupplementMessage(supplements[j]))
  }

  function AllSupplements(results: seq<ToolResult>): seq<Message> {
    if results == [] then []
    else AllSupplements(results[..|results| - 1]) + SupplementMessages(results[|results| - 1].supplements)
  }

  function ResultMessage(results: seq<ToolResult>): Message {
    Message(User, seq(|results|, i requires 0 <= i < |results| => ToResultBlock(results[i])))
  }

  /** One message with all results, in order, and after it the supplemental messages. */
  function Projection(results: seq<ToolResult>): seq<Message> { [ResultMessage(results)] + AllSupplements(results) }

  method ProjectToolResults(results: seq<ToolResult>) returns (messages: seq<Message>)
    ensures messages == Projection(results)
  {
    var content: seq<Block> := [];
    for i := 0 to |results|
      invariant content == ResultMessage(results).content[..i]
    {
      content := content + [ToResultBlock(results[i])];
    }
    messages := [Message(User, content)];
    assert content == ResultMessage(results).content;
    assert results[..0] == [] && messages + [] == messages;
    for i := 0 to |results|
      invariant messages == [ResultMessage(results)] + AllSupplements(results[..i])
    {
      var supplements := results[i].supplements;
      ghost var before := messages;
      assert results[..i + 1][..i] == results[..i];
      assert before + SupplementMessages(supplements)[..0] == before;
      for j := 0 to |supplements|
        invariant messages == before + SupplementMessages(supplements)[..j]
      {
        messages := messages + [SupplementMessage(supplements[j])];
      }
    }
    assert results[..|results|] == results;
  }

  lemma {:induction false} SupplementsArePlain(results: seq<ToolResult>)
    ensures forall m :: m in AllSupplements(results) ==> Plain(m)
  {
    if results != [] {
      SupplementsArePlain(results[..|results| - 1]);
    }
  }

  // ---- The invariant

  predicate HasResult(m: Message) { exists i :: 0 <= i < |m.content| && m.content[i].ResultBlock? }

  /** `m` holds exactly one result for each call, in order, and nothing else. */
  predicate Answers(m: Message, calls: seq<ToolCall>) {
    m.role == User && |m.content| == |calls| > 0 &&
    forall i :: 0 <= i < |calls| ==> m.content[i].ResultBlock? && m.content[i].callId == calls[i].id
  }

  /** Calls of the message before an index are answered in the message at the index. */
  predicate PairedAt(messages: seq<Message>, i: int)
    requires 0 <= i < |messages|
  {
    && (Continues(messages[i]) ==>
          messages[i].role == Assistant && i + 1 < |messages|
          && Answers(messages[i + 1], CollectToolCalls(messages[i])))
    && (HasResult(messages[i]) ==> i > 0 && Continues(messages[i - 1]))
  }

  /** Every call has exactly one result, in order, in the next message, and there are no other results. */
  predicate Paired(messages: seq<Message>) {
    forall i :: 0 <= i < |messages| ==> PairedAt(messages, i)
  }

  lemma {:induction false} NoCallsIn(content: seq<Block>)
    requires forall b :: b in content ==> !b.CallBlock?
    ensures CallsIn(content) == []
  {
    if content != [] {
      assert content[0] in content;
      NoCallsIn(content[1..]);
    }
  }

  /** A message without calls, put after a transcript that has no open call, keeps the invariant. */
  lemma AppendOther(messages: seq<Message>, m: Message)
    requires Paired(messages) && !Continues(m) && !HasResult(m)
    ensures Paired(messages + [m])
  {
    forall i | 0 <= i < |messages| + 1
      ensures PairedAt(messages + [m], i)
    {
      if i < |messages| {
        assert PairedAt(messages, i);
      }
    }
  }

  /** An assistant message with calls together with a message that answers it keeps the invariant. */
  lemma AppendPair(messages: seq<Message>, m: Message, answer: Message)
    requires Paired(messages) && m.role == Assistant && !HasResult(m) && Answers(answer, CollectToolCalls(m))
    ensures Paired(messages + [m, answer])
  {
    AnswerHasNoCalls(answer, CollectToolCalls(m));
    var all := messages + [m, answer];
    forall i | 0 <= i < |all|
      ensures PairedAt(all, i)
    {
      if i < |messages| {
        assert PairedAt(messages, i);
      }
    }
  }

  lemma AnswerHasNoCalls(answer: Message, calls: seq<ToolCall>)
    requires Answers(answer, calls)
    ensures !Continues(answer) && HasResult(answer) && IsToolResultOnly(answer)
  {
    NoCallsIn(answer.content);
    assert answer.content[0].ResultBlock?;
  }

  lemma {:induction false} AppendPlain(messages: seq<Message>, more: seq<Message>)
    requires Paired(messages) && forall m :: m in more ==> Plain(m)
    ensures Paired(messages + more)
    decreases more
  {
    if more == [] {
      assert messages + more == messages;
    } else {
      var m := more[0];
      assert m in more;
      NoCallsIn(m.content);
      AppendOther(messages, m);
      AppendPlain(messages + [m], more[1..]);
      assert messages + [m] + more[1..] == messages + more;
    }
  }

  /** One turn of the loop: the assistant message, and, if it calls tools, what their paired results become. */
  function Turn(messages: seq<Message>, assistant: Message, results: seq<ToolResult>): seq<Message> {
    messages + [assistant]
    + (if Continues(assistant) then Projection(Pairing(CollectToolCalls(assistant), results)) else [])
  }

  method AppendTurn(messages: seq<Message>, assistant: Message, results: seq<ToolResult>) returns (after: seq<Message>)
    ensures after == Turn(messages, assistant, results)
  {
    hide Pairing, Projection, CallsIn;
    after := messages + [assistant];
    var calls := CollectToolCalls(assistant);
    if |calls| > 0 {
      var paired := EnsureToolResultPairing(calls, results);
      var projected := ProjectToolResults(paired);
      after := after + projected;
    }
  }

  /** Whatever results came back, a turn keeps the transcript paired. */
  lemma TurnKeepsPaired(messages: seq<Message>, assistant: Message, results: seq<ToolResult>)
    requires Paired(messages) && assistant.role == Assistant && !HasResult(assistant)
    ensures Paired(Turn(messages, assistant, results))
  {
    if Continues(assistant) {
      var calls := CollectToolCalls(assistant);
      var paired := Pairing(calls, results);
      forall i | 0 <= i < |calls|
        ensures paired[i].callId == calls[i].id
      {
        PairingMeaning(calls, results, i);
      }
      var answer, more := ResultMessage(paired), AllSupplements(paired);
      assert Answers(answer, calls);
      SupplementsArePlain(paired);
      hide Paired, Answers, Plain, Pairing, AllSupplements, ResultMessage, HasResult;
      AppendPair(messages, assistant, answer);
      AppendPlain(messages + [assistant, answer], more);
      assert messages + [assistant, answer] + more == messages + [assistant] + ([answer] + more);
    } else {
      AppendOther(messages, assistant);
      assert messages + [assistant] + [] == messages + [assistant];
    }
  }

  // ---- Slicing

  predicate IsToolResultOnly(m: Message) {
    m.role == User && |m.content| > 0 && forall i :: 0 <= i < |m.content| ==> m.content[i].ResultBlock?
  }

  /** The code reads `messages[-1]` and throws if it finds no place to cut. */
  datatype Slice = Sliced(messages: seq<Message>) | ReadsBeforeStart

  /** `c` is the last place at or before `last` that does not start with a message of results. */
  predicate CutsAt(messages: seq<Message>, last: int, c: int) {
    0 <= c <= last < |messages| && !IsToolResultOnly(messages[c]) &&
    forall j :: c < j <= last ==> IsToolResultOnly(messages[j])
  }

  function CutFrom(messages: seq<Message>, cut: nat): Slice
    requires cut < |messages|
  {
    if !IsToolResultOnly(messages[cut]) then Sliced(messages[cut..])
    else if cut == 0 then ReadsBeforeStart
    else CutFrom(messages, cut - 1)
  }

  function SafeSlice(messages: seq<Message>, max: int): Slice {
    if |messages| <= max then Sliced(messages)
    else if max <= 0 then Sliced([])
    else CutFrom(messages, |messages| - max)
  }

  method ToolPairSafeSlice(messages: seq<Message>, max: int) returns (r: Slice)
    ensures r == SafeSlice(messages, max)
  {
    if |messages| <= max {
      return Sliced(messages);
    }
    var cut := |messages| - max;
    while cut < |messages| && IsToolResultOnly(messages[cut])
      invariant 0 <= cut <= |messages| - max && (max <= 0 ==> cut == |messages| - max)
      invariant max > 0 ==> CutFrom(messages, cut) == SafeSlice(messages, max)
      decreases cut
    {
      if cut == 0 {
        return ReadsBeforeStart;
      }
      cut := cut - 1;
    }
    if cut < |messages| {
      return Sliced(messages[cut..]);
    }
    return Sliced([]);
  }

  lemma {:induction false} CutFromMeaning(messages: seq<Message>, last: nat)
    requires last < |messages|
    ensures match CutFrom(messages, last)
      case Sliced(kept) => exists c :: CutsAt(messages, last, c) && kept == messages[c..]
      case ReadsBeforeStart => forall j :: 0 <= j <= last ==> IsToolResultOnly(messages[j])
  {
    hide IsToolResultOnly;
    if !IsToolResultOnly(messages[last]) {
      assert CutsAt(messages, last, last);
    } else if last > 0 {
      CutFromMeaning(messages, last - 1);
      if CutFrom(messages, last).Sliced? {
        var c :| CutsAt(messages, last - 1, c) && CutFrom(messages, last).messages == messages[c..];
        assert CutsAt(messages, last, c);
      }
    }
  }

  /** The slice is the shortest suffix of at least `max` messages that does not start with a message of results; the
      code reads before the start of the transcript iff there is no such place. */
  lemma SafeSliceMeaning(messages: seq<Message>, max: int)
    requires 0 < max < |messages|
    ensures match SafeSlice(messages, max)
      case Sliced(kept) => exists c :: CutsAt(messages, |messages| - max, c) && kept == messages[c..]
      case ReadsBeforeStart => forall j :: 0 <= j <= |messages| - max ==> IsToolResultOnly(messages[j])
  {
    CutFromMeaning(messages, |messages| - max);
  }

  /** A suffix of a paired transcript is paired exactly if it does not start with a message of results. */
  lemma SuffixPairedIff(messages: seq<Message>, c: nat)
    requires Paired(messages) && c <= |messages|
    ensures Paired(messages[c..]) <==> c == |messages| || c == 0 || !IsToolResultOnly(messages[c])
  {
    var kept := messages[c..];
    if 0 < c < |messages| && IsToolResultOnly(messages[c]) {
      assert kept[0] == messages[c] && messages[c].content[0].ResultBlock?;
      assert HasResult(kept[0]);
      assert !PairedAt(kept, 0);
    } else {
      forall i | 0 <= i < |kept|
        ensures PairedAt(kept, i)
      {
        assert PairedAt(messages, c + i);
        if i == 0 && c > 0 && HasResult(messages[c]) {
          assert PairedAt(messages, c - 1);
          AnswerHasNoCalls(messages[c], CollectToolCalls(messages[c - 1]));
        }
      }
    }
  }

  lemma StartsWithoutResults(messages: seq<Message>)
    requires Paired(messages) && messages != []
    ensures !IsToolResultOnly(messages[0])
  {
    assert PairedAt(messages, 0);
    if |messages[0].content| > 0 && messages[0].content[0].ResultBlock? {
      assert HasResult(messages[0]);
    }
  }

  /** Slicing a paired transcript always works and leaves it paired. */
  lemma SlicePaired(messages: seq<Message>, max: int)
    requires Paired(messages)
    ensures var r := SafeSlice(messages, max);
      r.Sliced? && Paired(r.messages) && |r.messages| <= |messages|
      && r.messages == messages[|messages| - |r.messages|..]
      && (|messages| >= max > 0 ==> |r.messages| >= max)
  {
    if 0 < max < |messages| {
      StartsWithoutResults(messages);
      SafeSliceMeaning(messages, max);
      hide IsToolResultOnly, CutFrom, Paired;
      var r := SafeSlice(messages, max);
      assert r.Sliced?;
      var c :| CutsAt(messages, |messages| - max, c) && r.messages == messages[c..];
      SuffixPairedIff(messages, c);
    }
  }

  // ---- The other truncations of the loop

  /** `truncateHeadKeepRatio`, once the number of messages to keep has been computed. */
  function TruncateHead(messages: seq<Message>, keep: nat): seq<Message>
    requires 1 <= keep
  {
    if keep >= |messages| then messages else messages[|messages| - keep..]
  }

  /** Unlike the safe slice, cutting by ratio leaves results without their calls whenever it cuts just before them. */
  lemma TruncateHeadPairedIff(messages: seq<Message>, keep: nat)
    requires Paired(messages) && 1 <= keep
    ensures Paired(TruncateHead(messages, keep)) <==>
            keep >= |messages| || !IsToolResultOnly(messages[|messages| - keep])
  {
    if keep < |messages| {
      SuffixPairedIff(messages, |messages| - keep);
    }
  }

  const CALL := Message(Assistant, [CallBlock(ToolCall("c", "bash", "ls"))])
  const ANSWER := Message(User, [ResultBlock("c", false, ["done"])])

  lemma OnePair()
    ensures Paired([CALL, ANSWER]) && IsToolResultOnly(ANSWER)
  {
    assert CALL.content[1..] == [];
    assert CollectToolCalls(CALL) == [ToolCall("c", "bash", "ls")];
    assert !HasResult(CALL) && Answers(ANSWER, CollectToolCalls(CALL));
    hide CallsIn, Answers, HasResult;
    AppendPair([], CALL, ANSWER);
    assert [] + [CALL, ANSWER] == [CALL, ANSWER];
  }

  /** Keeping half of a call and its result keeps the result alone. */
  lemma HalfAPairIsUnpaired()
    ensures Paired([CALL, ANSWER]) && TruncateHead([CALL, ANSWER], 1) == [ANSWER] && !Paired([ANSWER])
  {
    OnePair();
    TruncateHeadPairedIff([CALL, ANSWER], 1);
    hide Paired, IsToolResultOnly;
    assert [CALL, ANSWER][1..] == [ANSWER];
  }

  /** The last message of two that hold nothing but results cannot be cut off safely. */
  lemma ResultsOnlyReadBeforeStart()
    ensures SafeSlice([ANSWER, ANSWER], 1) == ReadsBeforeStart
  {
    OnePair();
    SafeSliceMeaning([ANSWER, ANSWER], 1);
  }

  predicate AllResults(m: Message) { forall i :: 0 <= i < |m.content| ==> m.content[i].ResultBlock? }

  /** Drops the assistant message of a failed call together with the results made up for it. */
  function StripTrailingErrorPair(messages: seq<Message>): seq<Message> {
    var n := |messages|;
    var out := if n > 0 && messages[n - 1].role == User && AllResults(messages[n - 1]) then messages[..n - 1]
               else messages;
    if |out| > 0 && out[|out| - 1].role == Assistant then out[..|out| - 1] else out
  }

  /** A prefix of a paired transcript is paired exactly if it does not end with a call. */
  lemma PrefixPairedIff(messages: seq<Message>, n: nat)
    requires Paired(messages) && n <= |messages|
    ensures Paired(messages[..n]) <==> n == 0 || !Continues(messages[n - 1])
  {
    var kept := messages[..n];
    if n > 0 && Continues(messages[n - 1]) {
      assert !PairedAt(kept, n - 1);
    } else {
      forall i | 0 <= i < n
        ensures PairedAt(kept, i)
      {
        assert PairedAt(messages, i);
      }
    }
  }

  lemma StripKeepsPaired(messages: seq<Message>)
    requires Paired(messages)
    ensures Paired(StripTrailingErrorPair(messages)) && StripTrailingErrorPair(messages) <= messages
  {
    var kept := StripTrailingErrorPair(messages);
    var n := |kept|;
    PrefixPairedIff(messages, n);
    assert n > 0 ==> PairedAt(messages, n - 1);
    assert kept == messages[..n];
  }

  // ---- Whole conversations

  /** What happens to the messages of a session: the user speaks, the model takes a turn, a failed call is dropped,
      or the head is cut to `keep` messages. */
  datatype Event =
    | UserSpeaks(message: Message)
    | ModelTurn(assistant: Message, results: seq<ToolResult>)
    | DropErrorPair
    | CutHead(keep: nat)

  predicate Possible(e: Event) {
    match e
    case UserSpeaks(m) => Plain(m)
    case ModelTurn(m, _) => m.role == Assistant && !HasResult(m)
    case DropErrorPair => true
    case CutHead(keep) => keep >= 1
  }

  function Do(messages: seq<Message>, e: Event): seq<Message>
    requires Possible(e)
  {
    match e
    case UserSpeaks(m) => messages + [m]
    case ModelTurn(m, results) => Turn(messages, m, results)
    case DropErrorPair => StripTrailingErrorPair(messages)
    case CutHead(keep) => TruncateHead(messages, keep)
  }

  /** Cutting the head does not hit a message of results. */
  predicate CutsCleanly(messages: seq<Message>, e: Event) {
    e.CutHead? && 1 <= e.keep < |messages| ==> !IsToolResultOnly(messages[|messages| - e.keep])
  }

  function Talk(messages: seq<Message>, events: seq<Event>): seq<Message>
    requires forall e :: e in events ==> Possible(e)
    decreases events
  {
    if events == [] then messages else Talk(Do(messages, events[0]), events[1..])
  }

  ghost predicate AllCutsClean(messages: seq<Message>, events: seq<Event>)
    requires forall e :: e in events ==> Possible(e)
    decreases events
  {
    events != [] ==> CutsCleanly(messages, events[0]) && AllCutsClean(Do(messages, events[0]), events[1..])
  }

  /** A step keeps a paired transcript paired iff it is not a cut that hits a message of results. */
  lemma StepKeepsPairedIff(messages: seq<Message>, e: Event)
    requires Paired(messages) && Possible(e)
    ensures Paired(Do(messages, e)) <==> CutsCleanly(messages, e)
  {
    hide Paired, IsToolResultOnly, Turn, StripTrailingErrorPair;
    match e
    case UserSpeaks(m) => AppendPlain(messages, [m]);
    case ModelTurn(m, results) => TurnKeepsPaired(messages, m, results);
    case DropErrorPair => StripKeepsPaired(messages);
    case CutHead(keep) => TruncateHeadPairedIff(messages, keep);
  }

  lemma {:induction false} TalkStaysPaired(messages: seq<Message>, events: seq<Event>)
    requires Paired(messages) && (forall e :: e in events ==> Possible(e)) && AllCutsClean(messages, events)
    ensures Paired(Talk(messages, events))
    decreases events
  {
    hide Paired, CutsCleanly, Do, Possible;
    if events != [] {
      assert events[0] in events;
      StepKeepsPairedIff(messages, events[0]);
      TalkStaysPaired(Do(messages, events[0]), events[1..]);
    }
  }

  // ---- No conversation reads before its start

  /** Never two messages of results side by side. */
  predicate ResultsApart(messages: seq<Message>) {
    forall i :: 0 <= i && i + 1 < |messages| ==> !IsToolResultOnly(messages[i]) || !IsToolResultOnly(messages[i + 1])
  }

  lemma PlainIsNotResults(m: Message)
    requires Plain(m)
    ensures !IsToolResultOnly(m)
  {
    if |m.content| > 0 {
      assert m.content[0] in m.content;
    }
  }

  /** Other messages may follow anything, and a message of results what is no such message itself. */
  lemma ApartAppend(a: seq<Message>, b: seq<Message>)
    requires ResultsApart(a) && ResultsApart(b)
    requires a != [] && b != [] ==> !IsToolResultOnly(a[|a| - 1]) || !IsToolResultOnly(b[0])
    ensures ResultsApart(a + b)
  {
    hide IsToolResultOnly;
    var all := a + b;
    forall i | 0 <= i && i + 1 < |all|
      ensures !IsToolResultOnly(all[i]) || !IsToolResultOnly(all[i + 1])
    {
      if i + 1 < |a| {
        assert all[i] == a[i] && all[i + 1] == a[i + 1];
      } else if i >= |a| {
        assert all[i] == b[i - |a|] && all[i + 1] == b[i - |a| + 1];
      }
    }
  }

  lemma NoneAreResults(messages: seq<Message>)
    requires forall m :: m in messages ==> !IsToolResultOnly(m)
    ensures ResultsApart(messages)
  {
    hide IsToolResultOnly;
    assert forall i :: 0 <= i < |messages| ==> messages[i] in messages;
  }

  lemma TurnKeepsApart(messages: seq<Message>, assistant: Message, results: seq<ToolResult>)
    requires ResultsApart(messages) && assistant.role == Assistant
    ensures ResultsApart(Turn(messages, assistant, results))
  {
    assert !IsToolResultOnly(assistant);
    hide IsToolResultOnly;
    ApartAppend(messages, [assistant]);
    if Continues(assistant) {
      var paired := Pairing(CollectToolCalls(assistant), results);
      hide Pairing, ResultMessage, AllSupplements;
      var more := AllSupplements(paired);
      SupplementsArePlain(paired);
      forall m | m in more
        ensures !IsToolResultOnly(m)
      {
        PlainIsNotResults(m);
      }
      NoneAreResults(more);
      ApartAppend([ResultMessage(paired)], more);
      ApartAppend(messages + [assistant], Projection(paired));
    } else {
      assert messages + [assistant] + [] == messages + [assistant];
    }
  }

  /** Every step keeps results apart, cuts of the head anywhere included. */
  lemma StepKeepsApart(messages: seq<Message>, e: Event)
    requires ResultsApart(messages) && Possible(e)
    ensures ResultsApart(Do(messages, e))
  {
    match e
    case UserSpeaks(m) =>
      PlainIsNotResults(m);
      hide IsToolResultOnly;
      ApartAppend(messages, [m]);
    case ModelTurn(m, results) => TurnKeepsApart(messages, m, results);
    case DropErrorPair => hide IsToolResultOnly, AllResults;
    case CutHead(keep) => hide IsToolResultOnly;
  }

  lemma {:induction false} TalkStaysApart(messages: seq<Message>, events: seq<Event>)
    requires ResultsApart(messages) && forall e :: e in events ==> Possible(e)
    ensures ResultsApart(Talk(messages, events))
    decreases events
  {
    hide ResultsApart, Do, Possible;
    if events != [] {
      assert events[0] in events;
      StepKeepsApart(messages, events[0]);
      TalkStaysApart(Do(messages, events[0]), events[1..]);
    }
  }

  /** With results apart, slicing to any number of messages finds a place to cut. */
  lemma ApartIsSliced(messages: seq<Message>, max: int)
    requires ResultsApart(messages)
    ensures SafeSlice(messages, max).Sliced?
  {
    hide IsToolResultOnly;
    if 0 < max < |messages| {
      var cut := |messages| - max;
      if IsToolResultOnly(messages[cut]) {
        assert IsToolResultOnly(messages[cut - 1 + 1]);
        assert CutFrom(messages, cut - 1) == Sliced(messages[cut - 1..]);
      }
    }
  }

  /**
   In every conversation, at every moment, what the model is shown can be sliced to any length. If no cut of the head
   hits a message of results, every call has exactly one result, in order, in the next message, there are no others,
   and so it is in the slice.
   */
  lemma ConversationsArePaired(events: seq<Event>, max: int)
    requires forall e :: e in events ==> Possible(e)
    ensures SafeSlice(Talk([], events), max).Sliced?
    ensures AllCutsClean([], events) ==>
      Paired(Talk([], events)) && Paired(SafeSlice(Talk([], events), max).messages)
  {
    assert ResultsApart([]) && Paired([]);
    hide *;
    TalkStaysApart([], events);
    ApartIsSliced(Talk([], events), max);
    if AllCutsClean([], events) {
      TalkStaysPaired([], events);
      SlicePaired(Talk([], events), max);
    }
  }
}
