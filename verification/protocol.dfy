/**
 * The values the client exchanges with the tool host (MCP) and the chat-completion backend
 * (OpenAI-compatible): tool descriptors, the function-calling tool specs built from them,
 * tool calls, conversation messages and completion requests.
 */
module Protocol {
  import opened Wrappers

  /** A parsed JSON value: a tool's input schema, or a tool call's parsed arguments. */
  datatype Json =
    | JNull
    | JBool(b: bool)
    | JNumber(n: int)
    | JString(s: string)
    | JArray(elements: seq<Json>)
    | JObject(members: seq<(string, Json)>)

  /** One entry of the tool host's catalog (`list_tools().tools`). */
  datatype ToolDescriptor = ToolDescriptor(name: string, description: Option<string>, inputSchema: Json)

  /** The `function` part of a function-calling tool spec. */
  datatype FunctionSpec = FunctionSpec(name: string, description: Option<string>, parameters: Json)

  /** `{"type": kind, "function": func}` as sent in a request's `tools`. */
  datatype ToolSpec = ToolSpec(kind: string, func: FunctionSpec)

  /** The `function` part of a tool call: the tool's name and the raw argument text. */
  datatype FunctionCall = FunctionCall(name: string, arguments: string)

  /** A tool call as the backend emits it in a reply. */
  datatype ToolCall = ToolCall(id: string, func: FunctionCall)

  /** A tool call as recorded in the history: `{"id", "type", "function": {"name", "arguments"}}`. */
  datatype ToolCallEntry = ToolCallEntry(id: string, kind: string, func: FunctionCall)

  /** One conversation entry. */
  datatype Message =
    | UserMessage(userContent: string)
    | AssistantMessage(assistantContent: Option<string>, toolCalls: seq<ToolCallEntry>)
    | ToolMessage(toolCallId: string, toolContent: string)

  /** The assistant message of a completion (`choices[0].message`); no tool calls is the empty list. */
  datatype Reply = Reply(content: Option<string>, toolCalls: seq<ToolCall>)

  /** The arguments of one `chat.completions.create` call. */
  datatype Request = Request(
    model: string,
    messages: seq<Message>,
    tools: Option<seq<ToolSpec>>,
    toolChoice: Option<string>,
    maxTokens: nat)

  const FunctionKind := "function"

  function ToolSpecOf(tool: ToolDescriptor): ToolSpec
  {
    ToolSpec(FunctionKind, FunctionSpec(tool.name, tool.description, tool.inputSchema))
  }

  /** The catalog in the backend's function-calling schema, one spec per tool in catalog order. */
  function ToolSpecs(catalog: seq<ToolDescriptor>): (specs: seq<ToolSpec>)
    ensures |specs| == |catalog|
    ensures forall i :: 0 <= i < |specs| ==>
      && specs[i].kind == "function"
      && specs[i].func.name == catalog[i].name
      && specs[i].func.description == catalog[i].description
      && specs[i].func.parameters == catalog[i].inputSchema
  {
    if catalog == [] then [] else [ToolSpecOf(catalog[0])] + ToolSpecs(catalog[1..])
  }

  /** Reads a descriptor back out of a tool spec. */
  function DescriptorOf(spec: ToolSpec): ToolDescriptor
  {
    ToolDescriptor(spec.func.name, spec.func.description, spec.func.parameters)
  }

  function Descriptors(specs: seq<ToolSpec>): seq<ToolDescriptor>
  {
    if specs == [] then [] else [DescriptorOf(specs[0])] + Descriptors(specs[1..])
  }

  /** The translation loses nothing: the catalog can be read back from the specs. */
  lemma {:induction false} ToolSpecsRoundTrip(catalog: seq<ToolDescriptor>)
    ensures Descriptors(ToolSpecs(catalog)) == catalog
  {
    if catalog != [] {
      var specs := ToolSpecs(catalog);
      assert specs[1..] == ToolSpecs(catalog[1..]);
      ToolSpecsRoundTrip(catalog[1..]);
      assert [catalog[0]] + catalog[1..] == catalog;
    }
  }

  function ToolCallEntryOf(call: ToolCall): ToolCallEntry
  {
    ToolCallEntry(call.id, FunctionKind, call.func)
  }

  /** The `tool_calls` of the recorded assistant message: every call, in emission order. */
  function ToolCallEntries(calls: seq<ToolCall>): (entries: seq<ToolCallEntry>)
    ensures |entries| == |calls|
    ensures forall i :: 0 <= i < |entries| ==>
      && entries[i].id == calls[i].id
      && entries[i].kind == "function"
      && entries[i].func.name == calls[i].func.name
      && entries[i].func.arguments == calls[i].func.arguments
  {
    if calls == [] then [] else [ToolCallEntryOf(calls[0])] + ToolCallEntries(calls[1..])
  }

  function CallsOf(entries: seq<ToolCallEntry>): seq<ToolCall>
  {
    if entries == [] then [] else [ToolCall(entries[0].id, entries[0].func)] + CallsOf(entries[1..])
  }

  /** The recorded entries copy the calls verbatim: the calls can be read back from them. */
  lemma {:induction false} ToolCallEntriesRoundTrip(calls: seq<ToolCall>)
    ensures CallsOf(ToolCallEntries(calls)) == calls
  {
    if calls != [] {
      var entries := ToolCallEntries(calls);
      assert entries[1..] == ToolCallEntries(calls[1..]);
      ToolCallEntriesRoundTrip(calls[1..]);
      assert [calls[0]] + calls[1..] == calls;
    }
  }

  /** The assistant message appended to the history when the reply carries tool calls. */
  function AssistantEntry(reply: Reply): (m: Message)
    ensures m.AssistantMessage? && m.assistantContent == reply.content
    ensures CallsOf(m.toolCalls) == reply.toolCalls
  {
    ToolCallEntriesRoundTrip(reply.toolCalls);
    AssistantMessage(reply.content, ToolCallEntries(reply.toolCalls))
  }
}
