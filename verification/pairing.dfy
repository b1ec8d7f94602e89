/**
 * Pairing of tool calls with tool-role answers in the history sent to the second round.
 *
 * A chat-completion backend expects every tool call recorded in an assistant message to be
 * answered by a later tool-role message carrying its id. As written, a call whose arguments fail
 * to parse is skipped without an answer, so such a history is sent whenever a parse fails.
 * `CorrectedTurn` answers the failed call with its parse-error text and keeps everything else.
 */
module Pairing {
  import opened Wrappers
  import opened Protocol
  import opened Normalise
  import opened Orchestration
  import opened TurnProperties

  /** Some tool-role message after position `after` answers the call `id`. */
  predicate AnsweredAfter(messages: seq<Message>, after: nat, id: string)
  {
    exists k :: after < k < |messages| && messages[k].ToolMessage? && messages[k].toolCallId == id
  }

  /** Every tool call recorded in an assistant message has a later tool-role message with its id. */
  predicate EveryCallAnswered(messages: seq<Message>)
  {
    forall i, j :: 0 <= i < |messages| && messages[i].AssistantMessage? && 0 <= j < |messages[i].toolCalls| ==>
      AnsweredAfter(messages, i, messages[i].toolCalls[j].id)
  }

  /** The backend mints ids that are unique within one reply. */
  predicate DistinctIds(calls: seq<ToolCall>)
  {
    forall a, b :: 0 <= a < b < |calls| ==> calls[a].id != calls[b].id
  }

  /** A user message, an assistant message, then one answer per recorded call in the same order. */
  lemma AnsweredInOrder(messages: seq<Message>, tail: seq<Message>)
    requires |messages| >= 2 && messages[0].UserMessage? && messages[1].AssistantMessage?
    requires messages[2..] == tail && |tail| == |messages[1].toolCalls|
    requires forall k :: 0 <= k < |tail| ==> tail[k].ToolMessage? && tail[k].toolCallId == messages[1].toolCalls[k].id
    ensures EveryCallAnswered(messages)
  {
    assert forall i :: 2 <= i < |messages| ==> messages[i] == tail[i - 2];
    forall i, j | 0 <= i < |messages| && messages[i].AssistantMessage? && 0 <= j < |messages[i].toolCalls|
      ensures AnsweredAfter(messages, i, messages[i].toolCalls[j].id)
    {
      assert i == 1;
      assert messages[2 + j] == tail[j];
    }
  }

  lemma {:induction false} ParsedCallsWhenAllParse(calls: seq<ToolCall>, ext: Externals)
    requires forall k :: 0 <= k < |calls| ==> Parses(calls[k], ext)
    ensures ParsedCalls(calls, ext) == calls
  {
    if calls != [] {
      ParsedCallsWhenAllParse(calls[..|calls| - 1], ext);
      assert calls[..|calls| - 1] + [calls[|calls| - 1]] == calls;
    }
  }

  /** The history sent to the second round when the first reply had `content` and the tool calls `calls`. */
  ghost function BatchHistory(query: string, content: Option<string>, calls: seq<ToolCall>, ext: Externals): seq<Message>
  {
    [UserMessage(query), AssistantMessage(content, ToolCallEntries(calls))] + Dispatch(calls, ext).messages
  }

  /** As written, the history of a turn answers every recorded call exactly when every call's arguments parse. */
  lemma TurnAnswersEveryCallIff(query: string, ext: Externals)
    requires DistinctIds(FirstReply(query, ext).toolCalls)
    ensures var calls := FirstReply(query, ext).toolCalls;
            EveryCallAnswered(Turn(query, ext).messages) <==> forall k :: 0 <= k < |calls| ==> Parses(calls[k], ext)
  {
    var reply := FirstReply(query, ext);
    var calls := reply.toolCalls;
    TurnMessages(query, ext);
    if calls != [] {
      assert Turn(query, ext).messages == BatchHistory(query, reply.content, calls, ext);
      if forall k :: 0 <= k < |calls| ==> Parses(calls[k], ext) {
        AnsweredWhenAllParse(query, reply.content, calls, ext);
      } else {
        var j :| 0 <= j < |calls| && !Parses(calls[j], ext);
        UnansweredWhenOneFails(query, reply.content, calls, ext, j);
      }
    }
  }

  lemma AnsweredWhenAllParse(query: string, content: Option<string>, calls: seq<ToolCall>, ext: Externals)
    requires forall k :: 0 <= k < |calls| ==> Parses(calls[k], ext)
    ensures EveryCallAnswered(BatchHistory(query, content, calls, ext))
  {
    var messages := BatchHistory(query, content, calls, ext);
    var d := Dispatch(calls, ext);
    ParsedCallsWhenAllParse(calls, ext);
    DispatchAnswersParsedCalls(calls, ext);
    assert messages[2..] == d.messages;
    AnsweredInOrder(messages, d.messages);
  }

  lemma UnansweredWhenOneFails(query: string, content: Option<string>, calls: seq<ToolCall>, ext: Externals, j: nat)
    requires DistinctIds(calls)
    requires j < |calls| && !Parses(calls[j], ext)
    ensures !AnsweredAfter(BatchHistory(query, content, calls, ext), 1, calls[j].id)
    ensures !EveryCallAnswered(BatchHistory(query, content, calls, ext))
  {
    var messages := BatchHistory(query, content, calls, ext);
    var parsed := ParsedCalls(calls, ext);
    var d := Dispatch(calls, ext);
    DispatchAnswersParsedCalls(calls, ext);
    var entries := messages[1].toolCalls;
    forall k | 1 < k < |messages| && messages[k].ToolMessage?
      ensures messages[k].toolCallId != entries[j].id
    {
      assert messages[k] == d.messages[k - 2];
      var c := parsed[k - 2];
      assert c in calls && Parses(c, ext);
      var m :| 0 <= m < |calls| && calls[m] == c;
      assert m != j;
    }
    assert !AnsweredAfter(messages, 1, entries[j].id);
  }

  /** One call with unparsable arguments: the history sent to the second round leaves it unanswered. */
  lemma ParseFailureLeavesCallUnanswered()
    ensures var ext := Externals(
              [],
              request => Reply(None, [ToolCall("call_0", FunctionCall("get_weather", "not-json"))]),
              raw => Err("Expecting value: line 1 column 1 (char 0)"),
              (name, args) => Ok(WithoutContent("")),
              args => "");
            var t := Turn("What's the weather in Paris?", ext);
            && |t.requests| == 2
            && !EveryCallAnswered(t.requests[1].messages)
  {
    var ext := Externals(
      [],
      request => Reply(None, [ToolCall("call_0", FunctionCall("get_weather", "not-json"))]),
      raw => Err("Expecting value: line 1 column 1 (char 0)"),
      (name, args) => Ok(WithoutContent("")),
      args => "");
    var query := "What's the weather in Paris?";
    var calls := FirstReply(query, ext).toolCalls;
    assert calls == [ToolCall("call_0", FunctionCall("get_weather", "not-json"))];
    assert !Parses(calls[0], ext);
    TurnAnswersEveryCallIff(query, ext);
    TurnWithToolCalls(query, ext);
  }

  /** The corrected effect of one call: a parse failure is answered with its error text as the tool result. */
  function CorrectedCallOutcome(call: ToolCall, ext: Externals): Outcome
  {
    match ext.parseArguments(call.func.arguments)
    case Err(error) =>
      var line := ParseErrorLine(call.func.name, error);
      Outcome([ToolMessage(call.id, line)], [line], [])
    case Ok(_) => CallOutcome(call, ext)
  }

  function CorrectedDispatch(calls: seq<ToolCall>, ext: Externals): Outcome
  {
    if calls == [] then Outcome([], [], [])
    else Concat(CorrectedDispatch(calls[..|calls| - 1], ext), CorrectedCallOutcome(calls[|calls| - 1], ext))
  }

  /** The turn with the corrected dispatch; rounds, requests and answer assembly are unchanged. */
  function CorrectedTurn(query: string, ext: Externals): TurnResult
  {
    var reply := FirstReply(query, ext);
    Assemble(query, ext, reply, CorrectedDispatch(reply.toolCalls, ext))
  }

  /** The corrected dispatch answers every call exactly once, in emission order. */
  lemma {:induction false} CorrectedDispatchAnswersEveryCall(calls: seq<ToolCall>, ext: Externals)
    ensures var msgs := CorrectedDispatch(calls, ext).messages;
            && |msgs| == |calls|
            && forall k :: 0 <= k < |calls| ==> msgs[k].ToolMessage? && msgs[k].toolCallId == calls[k].id
  {
    if calls != [] {
      CorrectedDispatchAnswersEveryCall(calls[..|calls| - 1], ext);
    }
  }

  /** With the correction every recorded call is answered, whatever the arguments and the tool outcomes. */
  lemma CorrectedTurnAnswersEveryCall(query: string, ext: Externals)
    ensures EveryCallAnswered(CorrectedTurn(query, ext).messages)
  {
    var t := CorrectedTurn(query, ext);
    var reply := FirstReply(query, ext);
    if reply.toolCalls != [] {
      var d := CorrectedDispatch(reply.toolCalls, ext);
      CorrectedDispatchAnswersEveryCall(reply.toolCalls, ext);
      assert t.messages == [UserMessage(query), AssistantEntry(reply)] + d.messages;
      assert t.messages[1].toolCalls == ToolCallEntries(reply.toolCalls);
      AnsweredInOrder(t.messages, d.messages);
    }
  }

  lemma {:induction false} CorrectedDispatchWhenAllParse(calls: seq<ToolCall>, ext: Externals)
    requires forall k :: 0 <= k < |calls| ==> Parses(calls[k], ext)
    ensures CorrectedDispatch(calls, ext) == Dispatch(calls, ext)
  {
    if calls != [] {
      CorrectedDispatchWhenAllParse(calls[..|calls| - 1], ext);
      assert Parses(calls[|calls| - 1], ext);
    }
  }

  /** The correction changes nothing for a turn in which every call's arguments parse. */
  lemma CorrectedTurnAgreesWhenAllParse(query: string, ext: Externals)
    requires forall k :: 0 <= k < |FirstReply(query, ext).toolCalls| ==> Parses(FirstReply(query, ext).toolCalls[k], ext)
    ensures CorrectedTurn(query, ext) == Turn(query, ext)
  {
    CorrectedDispatchWhenAllParse(FirstReply(query, ext).toolCalls, ext);
  }
}
