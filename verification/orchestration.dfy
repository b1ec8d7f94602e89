/**
 * One query turn of the client: the first completion round with the tool catalog, sequential
 * dispatch of the reply's tool calls with per-call error handling, and the second round that is
 * issued only when the first reply asked for tools.
 *
 * Everything the turn talks to is a parameter (`Externals`); the turn's own logic is specified by
 * the functions `CallOutcome`, `Dispatch` and `Turn`, and `ProcessQuery` computes it with a loop.
 */
module Orchestration {
  import opened Wrappers
  import opened Text
  import opened Protocol
  import opened Normalise

  /**
   * The collaborators of one turn.
   * - catalog: the tools listed by the tool host for this turn;
   * - complete: the backend's assistant reply to a completion request;
   * - parseArguments: `json.loads` of a call's argument text, `Err(str(e))` when it raises;
   * - callTool: the tool host's `call_tool`, `Err(str(e))` when it raises;
   * - showArgs: `str()` of parsed arguments, as printed in a trace line.
   */
  datatype Externals = Externals(
    catalog: seq<ToolDescriptor>,
    complete: Request -> Reply,
    parseArguments: string -> Result<Json, string>,
    callTool: (string, Json) -> Result<ToolResult, string>,
    showArgs: Json -> string)

  /** One `call_tool` issued to the tool host. */
  datatype Invocation = Invocation(name: string, args: Json)

  /** What dispatching some tool calls adds: tool-role messages, output parts, tool invocations. */
  datatype Outcome = Outcome(messages: seq<Message>, parts: seq<string>, invocations: seq<Invocation>)

  /** Everything one turn produces: the answer, the final history, the completion requests, the tool invocations. */
  datatype TurnResult = TurnResult(
    answer: string,
    messages: seq<Message>,
    requests: seq<Request>,
    invocations: seq<Invocation>)

  const ModelName := "qwen-max"
  const ToolChoiceAuto := "auto"
  const MaxTokens: nat := 1000

  function ParseErrorLine(name: string, error: string): string
  {
    "[Error parsing arguments for " + name + ": " + error + "]"
  }

  function ExecutionErrorText(error: string): string
  {
    "[Tool execution error: " + error + "]"
  }

  function TraceLine(name: string, shownArgs: string): string
  {
    "[Called tool '" + name + "' with args " + shownArgs + "]"
  }

  /** The output part for a reply's content: the content when it is present and non-empty. */
  function ContentParts(content: Option<string>): seq<string>
  {
    if content.Some? && content.value != "" then [content.value] else []
  }

  predicate Parses(call: ToolCall, ext: Externals)
  {
    ext.parseArguments(call.func.arguments).Ok?
  }

  /** The result text of a call whose arguments parsed to `args`: the normalised result, or the error text. */
  function CallResultText(call: ToolCall, args: Json, ext: Externals): string
  {
    match ext.callTool(call.func.name, args)
    case Ok(result) => ResultText(result)
    case Err(error) => ExecutionErrorText(error)
  }

  /**
   * The effect of one tool call of the batch: a call whose arguments do not parse adds one output
   * line and nothing else; a call that parses is invoked once and answered by one tool message,
   * and adds a trace line followed by the text that message carries.
   */
  function CallOutcome(call: ToolCall, ext: Externals): Outcome
  {
    match ext.parseArguments(call.func.arguments)
    case Err(error) => Outcome([], [ParseErrorLine(call.func.name, error)], [])
    case Ok(args) =>
      var text := CallResultText(call, args, ext);
      Outcome([ToolMessage(call.id, text)],
              [TraceLine(call.func.name, ext.showArgs(args)), text],
              [Invocation(call.func.name, args)])
  }

  function Concat(a: Outcome, b: Outcome): Outcome
  {
    Outcome(a.messages + b.messages, a.parts + b.parts, a.invocations + b.invocations)
  }

  /**
   * The effect of dispatching the calls one after another, in emission order: at most one tool
   * message and one invocation per call, one output line per call plus one per tool message.
   */
  function Dispatch(calls: seq<ToolCall>, ext: Externals): Outcome
  {
    if calls == [] then Outcome([], [], [])
    else Concat(Dispatch(calls[..|calls| - 1], ext), CallOutcome(calls[|calls| - 1], ext))
  }

  /** At most one tool message and one invocation per call; one output line per call plus one per tool message. */
  lemma {:induction false} DispatchCounts(calls: seq<ToolCall>, ext: Externals)
    ensures var d := Dispatch(calls, ext);
            && |d.messages| == |d.invocations| <= |calls|
            && |d.parts| == |calls| + |d.messages|
  {
    if calls != [] {
      DispatchCounts(calls[..|calls| - 1], ext);
    }
  }

  lemma DispatchStep(calls: seq<ToolCall>, i: nat, ext: Externals)
    requires i < |calls|
    ensures Dispatch(calls[..i + 1], ext) == Concat(Dispatch(calls[..i], ext), CallOutcome(calls[i], ext))
  {
    assert calls[..i + 1][..i] == calls[..i];
  }

  /** The first completion request: the user message, the catalog as tool specs, automatic tool choice. */
  function FirstRequest(query: string, ext: Externals): Request
  {
    Request(ModelName, [UserMessage(query)], Some(ToolSpecs(ext.catalog)), Some(ToolChoiceAuto), MaxTokens)
  }

  /** The second completion request: the whole history and no tools. */
  function SecondRequest(messages: seq<Message>): Request
  {
    Request(ModelName, messages, None, None, MaxTokens)
  }

  /** Completes a turn whose first reply is `reply`, given the outcome `d` of dispatching its calls. */
  function Assemble(query: string, ext: Externals, reply: Reply, d: Outcome): TurnResult
  {
    var first := FirstRequest(query, ext);
    var head := ContentParts(reply.content);
    if reply.toolCalls == [] then
      TurnResult(Join(head, Newline), [UserMessage(query)], [first], [])
    else
      var messages := [UserMessage(query), AssistantEntry(reply)] + d.messages;
      var second := SecondRequest(messages);
      var tail := ContentParts(ext.complete(second).content);
      TurnResult(Join(head + d.parts + tail, Newline), messages, [first, second], d.invocations)
  }

  /** The reply to the first completion request of the turn. */
  function FirstReply(query: string, ext: Externals): Reply
  {
    ext.complete(FirstRequest(query, ext))
  }

  /**
   * What one turn of the client produces: the history starts with the user message, the first
   * request advertises the tools, and a second request, carrying the final history, is made
   * exactly when the first reply has tool calls.
   */
  function Turn(query: string, ext: Externals): (t: TurnResult)
    ensures |t.messages| >= 1 && t.messages[0] == UserMessage(query)
    ensures 1 <= |t.requests| <= 2 && t.requests[0] == FirstRequest(query, ext)
    ensures |t.requests| == 2 <==> FirstReply(query, ext).toolCalls != []
    ensures |t.requests| == 2 ==> t.requests[1] == SecondRequest(t.messages)
    ensures |t.invocations| <= |FirstReply(query, ext).toolCalls|
  {
    var reply := FirstReply(query, ext);
    DispatchCounts(reply.toolCalls, ext);
    Assemble(query, ext, reply, Dispatch(reply.toolCalls, ext))
  }

  /**
   * Runs the batch of tool calls in emission order, appending to the history and the output
   * buffer handed in: the `for tool_call in message.tool_calls` loop of a turn.
   */
  method DispatchBatch(calls: seq<ToolCall>, ext: Externals, history: seq<Message>, output: seq<string>)
    returns (messages: seq<Message>, parts: seq<string>, invocations: seq<Invocation>)
    ensures messages == history + Dispatch(calls, ext).messages
    ensures parts == output + Dispatch(calls, ext).parts
    ensures invocations == Dispatch(calls, ext).invocations
  {
    messages, parts, invocations := history, output, [];
    for i := 0 to |calls|
      invariant messages == history + Dispatch(calls[..i], ext).messages
      invariant parts == output + Dispatch(calls[..i], ext).parts
      invariant invocations == Dispatch(calls[..i], ext).invocations
    {
      DispatchStep(calls, i, ext);
      ghost var done := Dispatch(calls[..i], ext);
      var call := calls[i];
      var name := call.func.name;
      var parsed := ext.parseArguments(call.func.arguments);
      if parsed.Err? {
        assert CallOutcome(call, ext) == Outcome([], [ParseErrorLine(name, parsed.error)], []);
        parts := parts + [ParseErrorLine(name, parsed.error)];
        assert parts == output + (done.parts + [ParseErrorLine(name, parsed.error)]);
        continue;
      }
      var args := parsed.value;
      invocations := invocations + [Invocation(name, args)];
      var outcome := ext.callTool(name, args);
      var resultContent: string;
      if outcome.Ok? {
        resultContent := NormaliseResult(outcome.value);
      } else {
        resultContent := ExecutionErrorText(outcome.error);
      }
      assert resultContent == CallResultText(call, args, ext);
      messages := messages + [ToolMessage(call.id, resultContent)];
      parts := parts + [TraceLine(name, ext.showArgs(args))];
      parts := parts + [resultContent];
      assert CallOutcome(call, ext).parts == [TraceLine(name, ext.showArgs(args)), resultContent];
      assert parts == output + (done.parts + [TraceLine(name, ext.showArgs(args)), resultContent]);
    }
    assert calls[..|calls|] == calls;
  }

  /** Runs one query turn: the body of the client's query processing. */
  method ProcessQuery(query: string, ext: Externals)
    returns (answer: string, messages: seq<Message>, requests: seq<Request>, invocations: seq<Invocation>)
    ensures TurnResult(answer, messages, requests, invocations) == Turn(query, ext)
    ensures |messages| >= 1 && messages[0] == UserMessage(query)
    ensures 1 <= |requests| <= 2 && requests[0] == FirstRequest(query, ext)
    ensures |requests| == 2 <==> FirstReply(query, ext).toolCalls != []
    ensures |requests| == 2 ==> requests[1] == SecondRequest(messages)
  {
    messages := [UserMessage(query)];
    var tools := ToolSpecs(ext.catalog);
    var request := Request(ModelName, messages, Some(tools), Some(ToolChoiceAuto), MaxTokens);
    requests := [request];
    var message := ext.complete(request);
    assert message == FirstReply(query, ext);
    var parts: seq<string> := [];
    invocations := [];
    if message.content.Some? && message.content.value != "" {
      parts := parts + [message.content.value];
    }
    assert parts == ContentParts(message.content);
    if message.toolCalls != [] {
      ghost var d := Dispatch(message.toolCalls, ext);
      messages := messages + [AssistantMessage(message.content, ToolCallEntries(message.toolCalls))];
      messages, parts, invocations := DispatchBatch(message.toolCalls, ext, messages, parts);
      assert messages == [UserMessage(query), AssistantEntry(message)] + d.messages;
      assert parts == ContentParts(message.content) + d.parts;
      var finalRequest := Request(ModelName, messages, None, None, MaxTokens);
      requests := requests + [finalRequest];
      var finalMessage := ext.complete(finalRequest);
      if finalMessage.content.Some? && finalMessage.content.value != "" {
        parts := parts + [finalMessage.content.value];
      }
      assert parts == ContentParts(message.content) + d.parts + ContentParts(finalMessage.content);
    }
    answer := Join(parts, Newline);
    assert Turn(query, ext) == Assemble(query, ext, message, Dispatch(message.toolCalls, ext));
  }
}
