/**
 What the model gets to read of tool results: which output stands in which block of which message
 (src/agent/loop/projectToolResults.ts, src/agent/loop/ensureToolResultPairing.ts, src/tool/protocol/result.ts).
 */
module TranscriptContent {
  import opened Transcript

  /** The block holds the output of `r`, or says that there was none. */
  predicate ShowsOutput(b: Block, r: ToolResult) {
    b.ResultBlock? && b.callId == r.callId && b.isError == r.isError &&
    if |r.content| == 0 then b.content == ["Tool completed with no output."] else b.content == r.content
  }

  /** The block holds a piece of supplemental content as it is. */
  predicate ShowsPiece(b: Block, s: Supplement) {
    match s
    case Media(data) => b == MediaBlock(data)
    case Words(text) => b == TextBlock(text)
  }

  predicate ShowsSupplement(m: Message, pieces: seq<Supplement>) {
    m.role == User && |m.content| == |pieces| && forall k :: 0 <= k < |pieces| ==> ShowsPiece(m.content[k], pieces[k])
  }

  predicate ShowsOutputs(m: Message, results: seq<ToolResult>) {
    m.role == User && |m.content| == |results|
    && forall i :: 0 <= i < |results| ==> ShowsOutput(m.content[i], results[i])
  }

  /** How many supplemental messages the first `n` results bring. */
  function Supplemental(results: seq<ToolResult>, n: nat): nat
    requires n <= |results|
  {
    if n == 0 then 0 else Supplemental(results, n - 1) + |results[n - 1].supplements|
  }

  predicate InRange(results: seq<ToolResult>, i: int, j: int) {
    0 <= i < |results| && 0 <= j < |results[i].supplements|
  }

  /** Where message `j` of result `i` stands among the messages. */
  function Position(results: seq<ToolResult>, i: int, j: int): nat
    requires InRange(results, i, j)
  {
    1 + Supplemental(results, i) + j
  }

  /** The first message holds the outputs, in order; the supplemental messages follow, result by result. */
  ghost predicate ShowsResults(messages: seq<Message>, results: seq<ToolResult>) {
    && |messages| == 1 + Supplemental(results, |results|) && ShowsOutputs(messages[0], results)
    && forall i, j :: InRange(results, i, j) ==>
         Position(results, i, j) < |messages|
         && ShowsSupplement(messages[Position(results, i, j)], results[i].supplements[j])
  }

  lemma {:induction false} SupplementalFront(results: seq<ToolResult>, last: ToolResult, n: nat)
    requires n <= |results|
    ensures Supplemental(results + [last], n) == Supplemental(results, n)
  {
    if n > 0 {
      SupplementalFront(results, last, n - 1);
    }
  }

  lemma {:induction false} SupplementalGrows(results: seq<ToolResult>, n: nat, m: nat)
    requires n <= m <= |results|
    ensures Supplemental(results, n) <= Supplemental(results, m)
  {
    if n < m {
      SupplementalGrows(results, n, m - 1);
    }
  }

  /** Message `j` of result `i` is the one at its position among the supplements. */
  lemma {:induction false} SupplementAt(results: seq<ToolResult>, i: int, j: int)
    requires InRange(results, i, j)
    ensures |AllSupplements(results)| == Supplemental(results, |results|)
    ensures Supplemental(results, i) + j < |AllSupplements(results)|
    ensures ShowsSupplement(AllSupplements(results)[Supplemental(results, i) + j], results[i].supplements[j])
  {
    var front, last := results[..|results| - 1], results[|results| - 1];
    assert results == front + [last];
    SupplementCount(front);
    SupplementalFront(front, last, |front|);
    var more := SupplementMessages(last.supplements);
    assert AllSupplements(results) == AllSupplements(front) + more;
    if i < |front| {
      SupplementalFront(front, last, i);
      SupplementAt(front, i, j);
    } else {
      assert AllSupplements(results)[Supplemental(results, i) + j] == more[j];
    }
  }

  lemma {:induction false} SupplementCount(results: seq<ToolResult>)
    ensures |AllSupplements(results)| == Supplemental(results, |results|)
  {
    if results != [] {
      var front, last := results[..|results| - 1], results[|results| - 1];
      assert results == front + [last];
      SupplementCount(front);
      SupplementalFront(front, last, |front|);
    }
  }

  /** Every output reaches the model, in the block of its call and with its error flag, and so does every piece of
      supplemental content. */
  lemma ProjectionShowsResults(results: seq<ToolResult>)
    ensures ShowsResults(Projection(results), results)
  {
    SupplementCount(results);
    var messages, all := Projection(results), AllSupplements(results);
    assert messages[0] == ResultMessage(results);
    assert forall n :: 0 <= n < |all| ==> messages[1 + n] == all[n];
    assert ShowsOutputs(messages[0], results);
    hide Projection, ResultMessage, AllSupplements, ShowsOutputs, ShowsSupplement;
    forall i, j | InRange(results, i, j)
      ensures Position(results, i, j) < |messages|
      ensures ShowsSupplement(messages[Position(results, i, j)], results[i].supplements[j])
    {
      SupplementAt(results, i, j);
    }
  }

  // ---- A whole turn

  /** The block answers the call: with the output of the last result for its id, or with an error if there is none. */
  ghost predicate AnswersCall(b: Block, call: ToolCall, results: seq<ToolResult>) {
    if exists r :: r in results && r.callId == call.id then
      exists r :: LastFor(results, call.id, r) && ShowsOutput(b, r)
    else b == ResultBlock(call.id, true, ["Tool execution did not produce a result."])
  }

  /** The calls of a message are its call blocks, in order. */
  lemma {:induction false} CallsAppend(a: seq<Block>, b: seq<Block>)
    ensures CallsIn(a + b) == CallsIn(a) + CallsIn(b)
    ensures forall x: Block :: CallsIn([x]) == match x case CallBlock(call) => [call] case _ => []
  {
    forall x: Block
      ensures CallsIn([x]) == match x case CallBlock(call) => [call] case _ => []
    {
      assert [x][1..] == [];
    }
    if a == [] {
      assert a + b == b;
    } else {
      assert (a + b)[1..] == a[1..] + b;
      CallsAppend(a[1..], b);
    }
  }

  lemma CallAnswered(calls: seq<ToolCall>, results: seq<ToolResult>, i: nat, b: Block)
    requires i < |calls| == |Pairing(calls, results)| && ShowsOutput(b, Pairing(calls, results)[i])
    ensures AnswersCall(b, calls[i], results)
  {
    PairingMeaning(calls, results, i);
    var r := Pairing(calls, results)[i];
    hide Pairing, LastFor;
  }

  /**
   After a turn that calls tools, the message that follows the assistant's answers every call in its order: with the
   output of the last result for its id, or with an error; everything before it is as it was.
   */
  lemma TurnAnswersCalls(messages: seq<Message>, assistant: Message, results: seq<ToolResult>)
    ensures var after, calls := Turn(messages, assistant, results), CollectToolCalls(assistant);
      && messages + [assistant] <= after
      && (calls == [] ==> after == messages + [assistant])
      && (calls != [] ==>
            var n := |messages| + 1;
            && |after| > n && after[n].role == User && |after[n].content| == |calls|
            && forall i :: 0 <= i < |calls| ==> AnswersCall(after[n].content[i], calls[i], results))
  {
    var after, calls := Turn(messages, assistant, results), CollectToolCalls(assistant);
    if calls != [] {
      var paired := Pairing(calls, results);
      assert |paired| == |calls|;
      ProjectionShowsResults(paired);
      assert after == messages + [assistant] + Projection(paired);
      hide Pairing, Projection, CallsIn, Turn, ShowsOutput, AnswersCall;
      var m := Projection(paired)[0];
      assert after[|messages| + 1] == m && ShowsOutputs(m, paired);
      forall i | 0 <= i < |calls|
        ensures AnswersCall(m.content[i], calls[i], results)
      {
        CallAnswered(calls, results, i, m.content[i]);
      }
    }
  }

  /** Dropping a failed pair drops a last message of nothing but results, and then a last one of the assistant's. */
  lemma StrippedIs(messages: seq<Message>)
    ensures var n, after := |messages|, StripTrailingErrorPair(messages);
      var failed := n > 0 && messages[n - 1].role == User
                    && forall b :: b in messages[n - 1].content ==> b.ResultBlock?;
      var rest := if failed then n - 1 else n;
      after == messages[..if rest > 0 && messages[rest - 1].role == Assistant then rest - 1 else rest]
  {
    var n := |messages|;
    if n > 0 {
      var content := messages[n - 1].content;
      assert (forall b :: b in content ==> b.ResultBlock?) <==> AllResults(messages[n - 1]) by {
        assert forall i :: 0 <= i < |content| ==> content[i] in content;
      }
    }
    assert messages[..n] == messages;
  }
}
