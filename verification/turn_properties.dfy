/**
 * What the turn specification promises: per-call isolation, the tool-role messages and tool
 * invocations of a batch, the two shapes of a turn, and the append-only history.
 */
module TurnProperties {
  import opened Wrappers
  import opened Text
  import opened Protocol
  import opened Normalise
  import opened Orchestration

  /** The calls of a batch whose arguments parse, in emission order. */
  function ParsedCalls(calls: seq<ToolCall>, ext: Externals): (parsed: seq<ToolCall>)
    ensures |parsed| <= |calls|
    ensures forall c :: c in parsed ==> c in calls && Parses(c, ext)
  {
    if calls == [] then []
    else
      var last := calls[|calls| - 1];
      ParsedCalls(calls[..|calls| - 1], ext) + (if Parses(last, ext) then [last] else [])
  }

  /** No call that parses is dropped: the kept calls are exactly the batch's calls that parse. */
  lemma {:induction false} ParsedCallsKeepsParsing(calls: seq<ToolCall>, ext: Externals)
    ensures forall c :: c in calls ==> (c in ParsedCalls(calls, ext) <==> Parses(c, ext))
  {
    if calls != [] {
      var init, last := calls[..|calls| - 1], calls[|calls| - 1];
      ParsedCallsKeepsParsing(init, ext);
      assert calls == init + [last];
    }
  }

  /** Filtering a concatenated batch is filtering each part: the kept calls keep their emission order. */
  lemma {:induction false} ParsedCallsConcat(a: seq<ToolCall>, b: seq<ToolCall>, ext: Externals)
    ensures ParsedCalls(a + b, ext) == ParsedCalls(a, ext) + ParsedCalls(b, ext)
  {
    if b == [] {
      assert a + b == a;
    } else {
      var init, last := b[..|b| - 1], b[|b| - 1];
      assert (a + b)[..|a + b| - 1] == a + init;
      assert (a + b)[|a + b| - 1] == last;
      ParsedCallsConcat(a, init, ext);
    }
  }

  /** A single call is kept exactly when its arguments parse. */
  lemma ParsedCallsOfOne(c: ToolCall, ext: Externals)
    ensures ParsedCalls([c], ext) == if Parses(c, ext) then [c] else []
  {
    assert [c][..0] == [];
  }

  /** Dispatching two batches one after the other is dispatching their concatenation. */
  lemma {:induction false} DispatchConcat(a: seq<ToolCall>, b: seq<ToolCall>, ext: Externals)
    ensures Dispatch(a + b, ext) == Concat(Dispatch(a, ext), Dispatch(b, ext))
  {
    if b == [] {
      assert a + b == a;
    } else {
      var init, last := b[..|b| - 1], b[|b| - 1];
      assert (a + b)[..|a + b| - 1] == a + init;
      assert (a + b)[|a + b| - 1] == last;
      DispatchConcat(a, init, ext);
      var da, di, dl := Dispatch(a, ext), Dispatch(init, ext), CallOutcome(last, ext);
      calc == {
        Dispatch(a + b, ext);
        Concat(Concat(da, di), dl);
        { ConcatAssociative(da, di, dl); }
        Concat(da, Concat(di, dl));
        Concat(da, Dispatch(b, ext));
      }
    }
  }

  lemma ConcatAssociative(x: Outcome, y: Outcome, z: Outcome)
    ensures Concat(Concat(x, y), z) == Concat(x, Concat(y, z))
  {
  }

  /**
   * A call whose arguments do not parse contributes only its error line: no tool message and no
   * invocation; the calls before and after it are dispatched exactly as they would be without it.
   */
  lemma ParseFailureIsolated(calls: seq<ToolCall>, k: nat, ext: Externals)
    requires k < |calls|
    requires ext.parseArguments(calls[k].func.arguments).Err?
    ensures Dispatch(calls, ext) == Concat(Concat(Dispatch(calls[..k], ext),
      Outcome([], [ParseErrorLine(calls[k].func.name, ext.parseArguments(calls[k].func.arguments).error)], [])),
      Dispatch(calls[k + 1..], ext))
  {
    assert calls == calls[..k] + [calls[k]] + calls[k + 1..];
    DispatchConcat(calls[..k] + [calls[k]], calls[k + 1..], ext);
    DispatchConcat(calls[..k], [calls[k]], ext);
    assert Dispatch([calls[k]], ext) == CallOutcome(calls[k], ext) by {
      assert [calls[k]][..0] == [];
    }
  }

  /**
   * One call's effect: it is invoked and answered exactly when its arguments parse, and then its
   * tool message carries the call's id and the text that follows its trace line.
   */
  lemma CallOutcomeShape(call: ToolCall, ext: Externals)
    ensures var o := CallOutcome(call, ext);
            && |o.messages| == |o.invocations| <= 1
            && (o.messages == [] <==> !Parses(call, ext))
            && |o.parts| == 1 + |o.messages|
            && (o.messages != [] ==>
                  && o.messages[0].ToolMessage? && o.messages[0].toolCallId == call.id
                  && o.parts[1] == o.messages[0].toolContent
                  && o.invocations[0].name == call.func.name)
  {
  }

  /**
   * A call whose arguments parse and whose execution succeeds: one tool message and the second
   * output part both carry the normalised result, after the trace line; the tool was invoked once.
   */
  lemma SuccessfulCallRecorded(call: ToolCall, ext: Externals)
    requires ext.parseArguments(call.func.arguments).Ok?
    requires ext.callTool(call.func.name, ext.parseArguments(call.func.arguments).value).Ok?
    ensures var args := ext.parseArguments(call.func.arguments).value;
            var text := ResultText(ext.callTool(call.func.name, args).value);
            CallOutcome(call, ext) == Outcome(
              [ToolMessage(call.id, text)],
              ["[Called tool '" + call.func.name + "' with args " + ext.showArgs(args) + "]", text],
              [Invocation(call.func.name, args)])
  {
  }

  /**
   * A call whose arguments parse but whose execution raises is still recorded: one tool message
   * and a trace line, both carrying the execution-error text, and one invocation.
   */
  lemma ExecutionFailureRecorded(call: ToolCall, ext: Externals)
    requires ext.parseArguments(call.func.arguments).Ok?
    requires ext.callTool(call.func.name, ext.parseArguments(call.func.arguments).value).Err?
    ensures var args := ext.parseArguments(call.func.arguments).value;
            var text := "[Tool execution error: " + ext.callTool(call.func.name, args).error + "]";
            CallOutcome(call, ext) == Outcome(
              [ToolMessage(call.id, text)],
              ["[Called tool '" + call.func.name + "' with args " + ext.showArgs(args) + "]", text],
              [Invocation(call.func.name, args)])
  {
  }

  /**
   * The tool messages of a batch answer exactly the calls whose arguments parse, one each, in
   * emission order, and exactly those calls' tools are invoked, with their parsed arguments.
   */
  lemma {:induction false} DispatchAnswersParsedCalls(calls: seq<ToolCall>, ext: Externals)
    ensures var d := Dispatch(calls, ext);
            var parsed := ParsedCalls(calls, ext);
            && |d.messages| == |parsed| && |d.invocations| == |parsed|
            && forall k :: 0 <= k < |parsed| ==>
                 && d.messages[k].ToolMessage?
                 && d.messages[k].toolCallId == parsed[k].id
                 && Parses(parsed[k], ext)
                 && d.invocations[k] == Invocation(parsed[k].func.name,
                                                   ext.parseArguments(parsed[k].func.arguments).value)
                 && d.messages[k].toolContent
                      == CallResultText(parsed[k], ext.parseArguments(parsed[k].func.arguments).value, ext)
  {
    if calls != [] {
      DispatchAnswersParsedCalls(calls[..|calls| - 1], ext);
    }
  }

  /** Every call of a batch gets a tool message exactly when every call's arguments parse. */
  lemma {:induction false} AllAnsweredIffAllParse(calls: seq<ToolCall>, ext: Externals)
    ensures |Dispatch(calls, ext).messages| == |calls| <==> forall k :: 0 <= k < |calls| ==> Parses(calls[k], ext)
  {
    DispatchAnswersParsedCalls(calls, ext);
    AllParsedIff(calls, ext);
  }

  lemma {:induction false} AllParsedIff(calls: seq<ToolCall>, ext: Externals)
    ensures |ParsedCalls(calls, ext)| == |calls| <==> forall k :: 0 <= k < |calls| ==> Parses(calls[k], ext)
  {
    if calls != [] {
      var init := calls[..|calls| - 1];
      AllParsedIff(init, ext);
      assert forall k :: 0 <= k < |init| ==> init[k] == calls[k];
    }
  }

  /**
   * A first reply without tool calls ends the turn: only the user message in the history, one
   * completion request, no tool invoked, and the answer is the reply's content or "".
   */
  lemma TurnWithoutToolCalls(query: string, ext: Externals)
    requires FirstReply(query, ext).toolCalls == []
    ensures var content := FirstReply(query, ext).content;
            Turn(query, ext) == TurnResult(
              if content.Some? then content.value else "",
              [UserMessage(query)],
              [FirstRequest(query, ext)],
              [])
  {
  }

  /**
   * A first reply with tool calls: the history is the user message, the assistant message
   * recording the reply, then the batch's tool messages; exactly one more request is made, with the
   * whole history and no tools, whatever the calls' outcomes; the answer joins the reply's content,
   * the batch's output and the second reply's content with newlines.
   */
  lemma TurnWithToolCalls(query: string, ext: Externals)
    requires FirstReply(query, ext).toolCalls != []
    ensures var reply := FirstReply(query, ext);
            var d := Dispatch(reply.toolCalls, ext);
            var t := Turn(query, ext);
            && t.messages == [UserMessage(query), AssistantEntry(reply)] + d.messages
            && |t.requests| == 2
            && t.requests[1].messages == t.messages
            && t.requests[1].tools.None? && t.requests[1].toolChoice.None?
            && t.invocations == d.invocations
            && t.answer == Join(ContentParts(reply.content) + d.parts
                                + ContentParts(ext.complete(t.requests[1]).content), "\n")
  {
  }

  /**
   * The second reply's non-empty content is the last line of the answer, after a newline that
   * follows everything the first round and the batch produced.
   */
  lemma SecondRoundContentIsLastLine(query: string, ext: Externals)
    requires FirstReply(query, ext).toolCalls != []
    requires var t := Turn(query, ext);
             ContentParts(ext.complete(t.requests[1]).content) != []
    ensures var reply := FirstReply(query, ext);
            var d := Dispatch(reply.toolCalls, ext);
            var t := Turn(query, ext);
            t.answer == Join(ContentParts(reply.content) + d.parts, "\n") + "\n"
                        + ext.complete(t.requests[1]).content.value
  {
    var reply := FirstReply(query, ext);
    var d := Dispatch(reply.toolCalls, ext);
    var t := Turn(query, ext);
    TurnWithToolCalls(query, ext);
    var last := ext.complete(t.requests[1]).content.value;
    assert ContentParts(ext.complete(t.requests[1]).content) == [last];
    JoinSnoc(ContentParts(reply.content) + d.parts, last, Newline);
  }

  /** The final history: the user message, then, if the first reply asked for tools, its record and the batch's tool messages. */
  lemma TurnMessages(query: string, ext: Externals)
    ensures var reply := FirstReply(query, ext);
            Turn(query, ext).messages
              == if reply.toolCalls == [] then [UserMessage(query)]
                 else [UserMessage(query), AssistantEntry(reply)] + Dispatch(reply.toolCalls, ext).messages
  {
  }

  /** The recorded assistant message copies the reply's content and each call's id, name and arguments in order. */
  lemma AssistantEntryCopiesCalls(reply: Reply)
    ensures var m := AssistantEntry(reply);
            && m.assistantContent == reply.content
            && |m.toolCalls| == |reply.toolCalls|
            && forall i :: 0 <= i < |m.toolCalls| ==>
                 m.toolCalls[i] == ToolCallEntry(reply.toolCalls[i].id, "function", reply.toolCalls[i].func)
  {
  }

  /** The first request advertises the whole catalog, in order, with automatic tool choice. */
  lemma FirstRequestAdvertisesCatalog(query: string, ext: Externals)
    ensures var r := FirstRequest(query, ext);
            && r.messages == [UserMessage(query)]
            && r.tools.Some? && Descriptors(r.tools.value) == ext.catalog
            && r.toolChoice == Some("auto")
  {
    ToolSpecsRoundTrip(ext.catalog);
  }

  /** The history only grows: every request's history is a prefix of the turn's final history. */
  lemma HistoryAppendOnly(query: string, ext: Externals)
    ensures var t := Turn(query, ext);
            forall i :: 0 <= i < |t.requests| ==>
              |t.requests[i].messages| <= |t.messages| && t.messages[..|t.requests[i].messages|] == t.requests[i].messages
  {
  }

  /**
   * Every tool message of the final history answers a call recorded in the assistant message right
   * after the user message, and these answers follow the parsed calls in emission order.
   */
  lemma ToolMessagesAnswerRecordedCalls(query: string, ext: Externals)
    ensures var t := Turn(query, ext);
            var calls := FirstReply(query, ext).toolCalls;
            var parsed := ParsedCalls(calls, ext);
            calls != [] ==>
              && |t.messages| == 2 + |parsed|
              && t.messages[1].AssistantMessage?
              && forall k :: 2 <= k < |t.messages| ==>
                   && t.messages[k].ToolMessage?
                   && t.messages[k].toolCallId == parsed[k - 2].id
                   && exists j :: 0 <= j < |t.messages[1].toolCalls| && t.messages[1].toolCalls[j].id == t.messages[k].toolCallId
  {
    var reply := FirstReply(query, ext);
    if reply.toolCalls != [] {
      TurnMessages(query, ext);
      BatchAnswersRecordedCalls(query, reply, ext);
    }
  }

  /** The history of a tool-calling turn, built from its first reply, answers parsed calls only, in order. */
  lemma BatchAnswersRecordedCalls(query: string, reply: Reply, ext: Externals)
    ensures var messages := [UserMessage(query), AssistantEntry(reply)] + Dispatch(reply.toolCalls, ext).messages;
            var parsed := ParsedCalls(reply.toolCalls, ext);
            && |messages| == 2 + |parsed|
            && messages[1].AssistantMessage?
            && forall k :: 2 <= k < |messages| ==>
                 && messages[k].ToolMessage?
                 && messages[k].toolCallId == parsed[k - 2].id
                 && exists j :: 0 <= j < |messages[1].toolCalls| && messages[1].toolCalls[j].id == messages[k].toolCallId
  {
    var calls := reply.toolCalls;
    var d := Dispatch(calls, ext);
    var messages := [UserMessage(query), AssistantEntry(reply)] + d.messages;
    assert messages[2..] == d.messages;
    var parsed := ParsedCalls(calls, ext);
    DispatchAnswersParsedCalls(calls, ext);
    var entries := messages[1].toolCalls;
    assert entries == ToolCallEntries(calls);
    ParsedCallsRecorded(calls, ext, parsed, entries);
    forall k | 2 <= k < |messages|
      ensures exists j :: 0 <= j < |entries| && entries[j].id == messages[k].toolCallId
    {
      assert messages[k] == messages[2..][k - 2];
    }
  }

  /** Each parsed call's id is the id of some entry recorded for the batch. */
  lemma ParsedCallsRecorded(calls: seq<ToolCall>, ext: Externals, parsed: seq<ToolCall>, entries: seq<ToolCallEntry>)
    requires parsed == ParsedCalls(calls, ext) && entries == ToolCallEntries(calls)
    ensures forall k :: 0 <= k < |parsed| ==> exists j :: 0 <= j < |entries| && entries[j].id == parsed[k].id
  {
    forall k | 0 <= k < |parsed|
      ensures exists j :: 0 <= j < |entries| && entries[j].id == parsed[k].id
    {
      assert parsed[k] in calls;
      var j :| 0 <= j < |calls| && calls[j] == parsed[k];
      assert entries[j].id == parsed[k].id;
    }
  }

  /** A weather tool host and a backend that asks for it once, then answers in prose. */
  function WeatherExternals(): Externals
  {
    Externals(
      [ToolDescriptor("get_weather", Some("Get the weather for a city"), JObject([]))],
      (request: Request) => if request.tools.Some?
                            then Reply(None, [ToolCall("call_0", FunctionCall("get_weather", "{\"city\": \"Paris\"}"))])
                            else Reply(Some("It is sunny in Paris."), []),
      raw => Ok(JObject([("city", JString("Paris"))])),
      (name, args) => Ok(WithContent(ItemList([TextItem("Sunny, 18C")]))),
      args => "{'city': 'Paris'}")
  }

  const WeatherQuery := "What's the weather in Paris?"

  const WeatherCall := ToolCall("call_0", FunctionCall("get_weather", "{\"city\": \"Paris\"}"))
  const ParisArgs := JObject([("city", JString("Paris"))])
  /** `[Called tool 'get_weather' with args {'city': 'Paris'}]` */
  const WeatherTrace := TraceLine("get_weather", "{'city': 'Paris'}")

  lemma WeatherFirstReply()
    ensures FirstReply(WeatherQuery, WeatherExternals()) == Reply(None, [WeatherCall])
  {
  }

  lemma WeatherCallOutcome()
    ensures CallOutcome(WeatherCall, WeatherExternals())
         == Outcome([ToolMessage("call_0", "Sunny, 18C")], [WeatherTrace, "Sunny, 18C"], [Invocation("get_weather", ParisArgs)])
  {
    var ext := WeatherExternals();
    assert ext.parseArguments(WeatherCall.func.arguments) == Ok(ParisArgs);
    assert ItemTexts([TextItem("Sunny, 18C")]) == ["Sunny, 18C"];
    assert CallResultText(WeatherCall, ParisArgs, ext) == "Sunny, 18C";
  }

  lemma WeatherDispatch()
    ensures Dispatch([WeatherCall], WeatherExternals())
         == Outcome([ToolMessage("call_0", "Sunny, 18C")], [WeatherTrace, "Sunny, 18C"], [Invocation("get_weather", ParisArgs)])
  {
    assert [WeatherCall][..0] == [];
    WeatherCallOutcome();
  }

  /**
   * The weather query end to end: the answer is the trace line, the tool's text, then the second
   * round's prose, and the history answers the one call.
   */
  lemma WeatherScenario()
    ensures var t := Turn(WeatherQuery, WeatherExternals());
            && t.answer == WeatherTrace + "\n" + "Sunny, 18C" + "\n" + "It is sunny in Paris."
            && t.invocations == [Invocation("get_weather", ParisArgs)]
            && |t.messages| == 3 && t.messages[2] == ToolMessage("call_0", "Sunny, 18C")
  {
    var ext := WeatherExternals();
    WeatherFirstReply();
    WeatherDispatch();
    TurnWithToolCalls(WeatherQuery, ext);
    var t := Turn(WeatherQuery, ext);
    assert t.requests[1].tools.None?;
    assert ext.complete(t.requests[1]).content == Some("It is sunny in Paris.");
    var parts := [WeatherTrace, "Sunny, 18C", "It is sunny in Paris."];
    assert ContentParts(None) + [WeatherTrace, "Sunny, 18C"] + ContentParts(Some("It is sunny in Paris.")) == parts;
    WeatherJoin(parts);
  }

  lemma WeatherJoin(parts: seq<string>)
    requires |parts| == 3
    ensures Join(parts, "\n") == parts[0] + "\n" + parts[1] + "\n" + parts[2]
  {
    var rest := parts[1..];
    assert rest[1..] == [parts[2]];
    assert Join(rest, "\n") == parts[1] + "\n" + parts[2];
    assert Join(parts, "\n") == parts[0] + "\n" + Join(rest, "\n");
  }
}
