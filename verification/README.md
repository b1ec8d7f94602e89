# MCP client query turn, modelled in Dafny

This project models one query turn of an MCP client (`MCPClient.process_query` in `client.py`).
The client gets the tool host's catalog and turns it into function-calling tool specs. It asks an
OpenAI-compatible chat backend for a reply. When that reply asks for tools, the client runs each
tool call in emission order, normalises each tool result to text, and records everything in an
append-only history. It then asks the backend once more, with no tools. The answer is every
collected output part joined with newlines. The project also models the rule that picks `python`
or `node` for the tool host's script (`connect_to_server`).

Everything outside the client's own logic is a parameter, bundled in `Orchestration.Externals`:

- the catalog returned by `list_tools`;
- the backend (`Request -> Reply`), so the model records each request it makes;
- `json.loads` of a call's argument text, as `Ok(json)` or `Err(str(e))`;
- the tool host's `call_tool`, as `Ok(response)` or `Err(str(e))`;
- Python's `str()` of the parsed arguments, as printed in the trace line.

Files and modules:

- `wrappers.dfy` (`Wrappers`): `Option` and `Result`.
- `text.dfy` (`Text`): `Join` (Python's `sep.join`), `EndsWith`, and `Split`, which undoes a join.
- `protocol.dfy` (`Protocol`): the JSON, tool, message and request values; the tool-spec translation; the recorded assistant message.
- `normalise.dfy` (`Normalise`): the response shapes as a tagged union; `ResultText`; the loop `NormaliseResult`.
- `orchestration.dfy` (`Orchestration`): the spec functions `CallOutcome`, `Dispatch` and `Turn`; the methods `DispatchBatch` (the tool-call loop) and `ProcessQuery` (the turn), proved equal to them.
- `turn_properties.dfy` (`TurnProperties`): lemmas about a turn.
- `pairing.dfy` (`Pairing`): how tool calls pair with tool-role answers, and the finding below.
- `server.dfy` (`ServerLaunch`): the script-extension rule.

A call whose arguments do not parse adds only an error line to the output. It adds no tool-role
message, no trace line and no invocation. `ProcessQuery` keeps that behaviour, and the pairing
property of a tool-calling history ("every recorded call has a tool-role answer") holds only for
calls that parse. The consequence is under "## Findings".

## Model

| member | source | states |
|---|---|---|
| `Protocol.ToolSpecs` | client.py:56-66 | one spec per catalog tool, in catalog order, each of type `"function"`, with name, description and parameters copied from name, description and inputSchema |
| `Protocol.ToolSpecsRoundTrip` | client.py:56-66 | the translation loses nothing: reading descriptors back out of the specs gives the catalog |
| `Protocol.ToolCallEntries` | client.py:90-100 | one recorded entry per tool call, in emission order, of type `"function"`, with id, name and arguments copied verbatim |
| `Protocol.ToolCallEntriesRoundTrip` | client.py:90-100 | the calls can be read back unchanged from the recorded entries |
| `Protocol.AssistantEntry` | client.py:87-101 | the appended assistant message keeps the reply's content (possibly None) and exactly the reply's tool calls |
| `TurnProperties.AssistantEntryCopiesCalls` | client.py:87-101 | entry i of the assistant message is `{id_i, "function", {name_i, arguments_i}}` of call i, for every i |
| `Normalise.ResultText` | client.py:116-132 | a list content with no items gives `""`; a list with one item gives that item's text, with no separator |
| `Normalise.ItemTexts` | client.py:122-127 | one text per list item, in list order: the item's `.text`, otherwise its `str()` |
| `Normalise.NormaliseResult` | client.py:116-132 | the loop computes `ResultText`: text content verbatim, list content joined by newlines, other content or a response without `content` by `str()` |
| `Normalise.ResultTextOfScalar` | client.py:116-132 | text content is returned verbatim; other content gives `str(content)`; no `content` attribute gives `str(tool_result)` |
| `Normalise.ResultTextLines` | client.py:120-128 | when a non-empty item list's texts hold no newline, splitting the result on newlines gives back the item texts in list order |
| `Normalise.ItemListConcat` | client.py:120-128 | the text of two concatenated non-empty item lists is the two texts with one newline between them |
| `Text.JoinConcat` | client.py:158 | joining two non-empty part lists equals joining each and putting one separator between |
| `Text.JoinSnoc` | client.py:158 | appending a part to a non-empty buffer adds the separator and that part at the end of the joined text |
| `Text.SplitJoin` | client.py:158 | for a non-empty list of parts none of which contains the separator character, splitting the joined text gives back exactly the parts |
| `Orchestration.DispatchBatch` | client.py:104-146 | the loop's new history, output buffer and invocations are the inputs extended by `Dispatch` of the calls; nothing is removed or reordered |
| `Orchestration.ProcessQuery` | client.py:48-158 | the turn's answer, history, requests and invocations equal `Turn`; the history starts with the user message; two requests happen exactly when the first reply has tool calls, and the second one carries the final history |
| `TurnProperties.ParsedCalls` | client.py:106-110 | the calls that reach the tool host are calls of the batch, each of which parses, and there are no more of them than calls |
| `TurnProperties.ParsedCallsKeepsParsing` | client.py:104-110 | a call of the batch reaches the tool host if and only if its arguments parse |
| `TurnProperties.ParsedCallsConcat` | client.py:104-110 | the calls kept from a split batch are the calls kept from each part, in the same order |
| `TurnProperties.ParsedCallsOfOne` | client.py:106-110 | a single call is kept exactly when its arguments parse; with `ParsedCallsConcat` this makes the kept calls the order-preserving filter of the batch |
| `TurnProperties.DispatchConcat` | client.py:104-146 | dispatching a batch is dispatching any split of it in sequence: the client carries nothing from one call to the next except the appends |
| `Orchestration.DispatchCounts` | client.py:104-146 | a batch adds at most one tool message and one invocation per call, and one output line per call plus one per tool message |
| `TurnProperties.CallOutcomeShape` | client.py:104-146 | one call adds a tool message and an invocation exactly when its arguments parse; that message carries the call's id and the same text as the output line after the trace line, and the invocation names the call's tool |
| `TurnProperties.SuccessfulCallRecorded` | client.py:112-146 | a call that parses and whose execution succeeds adds one tool message with the normalised result, the trace line `[Called tool '<name>' with args <args>]` then that result, and one invocation with the parsed arguments |
| `TurnProperties.ParseFailureIsolated` | client.py:106-110 | a call that fails to parse adds only `[Error parsing arguments for <name>: <err>]`, with no tool message and no invocation; the calls before and after it are dispatched unchanged |
| `TurnProperties.ExecutionFailureRecorded` | client.py:112-146 | a call that parses but whose execution raises still adds one tool message and one trace line; both carry `[Tool execution error: <msg>]`; the tool was invoked once |
| `TurnProperties.DispatchAnswersParsedCalls` | client.py:104-146 | the tool messages answer exactly the calls that parse, one each, in emission order, with `tool_call_id` equal to the call's id and as content the call's normalised result or execution-error text; exactly those tools are invoked, with their parsed arguments |
| `TurnProperties.AllAnsweredIffAllParse` | client.py:104-143 | the batch adds one tool message per call if and only if every call's arguments parse |
| `Orchestration.Turn` | client.py:48-158 | the history starts with the user message; the first request advertises the tools; a second request, carrying the final history, is made exactly when the first reply has tool calls; no more tools are invoked than the reply asked for |
| `TurnProperties.TurnWithoutToolCalls` | client.py:78-158 | a first reply without tool calls ends the turn: only the user message in the history, one request, no invocation, and the answer is the reply's content or "" |
| `TurnProperties.TurnWithToolCalls` | client.py:85-158 | with tool calls: the history is user, assistant record, then the tool messages; exactly one more request is made, with the whole history, no tools and no tool choice, whatever the calls' outcomes; the answer joins the first content, the batch output and the second content with newlines |
| `TurnProperties.SecondRoundContentIsLastLine` | client.py:149-158 | a non-empty second-round content is the answer's last line, after a newline that follows the first-round content and the batch's output |
| `TurnProperties.TurnMessages` | client.py:50-143 | the final history in both cases: only the user message, or user, assistant record and the batch's tool messages |
| `TurnProperties.FirstRequestAdvertisesCatalog` | client.py:50-75 | the first request holds only the user message, advertises the whole catalog in order, and asks for automatic tool choice |
| `TurnProperties.HistoryAppendOnly` | client.py:50-153 | the history only grows: every request's history is a prefix of the turn's final history |
| `TurnProperties.ToolMessagesAnswerRecordedCalls` | client.py:87-143 | every tool message after the assistant message answers, in order, a parsed call, and its id is one of the recorded call ids |
| `TurnProperties.BatchAnswersRecordedCalls` | client.py:87-143 | the same for the history built from any first reply: user, assistant record, then one tool message per parsed call, in order, each with a recorded id |
| `TurnProperties.WeatherScenario` | client.py:104-158 | the weather example: the answer is the trace line, `Sunny, 18C`, then the second round's prose; one invocation; one tool message for `call_0` |
| `Pairing.TurnAnswersEveryCallIff` | client.py:104-153 | as written, and with ids unique in the reply, the history sent to round 2 answers every recorded call if and only if every call's arguments parse |
| `Pairing.AnsweredWhenAllParse` | client.py:104-143 | when every call parses, every recorded call has a later tool message with its id |
| `Pairing.UnansweredWhenOneFails` | client.py:106-110 | a call that fails to parse, with ids unique, has no tool message with its id after the assistant message, so not every recorded call is answered |
| `Pairing.ParseFailureLeavesCallUnanswered` | client.py:106-110 | one call with arguments `not-json`: the history of the second request leaves that call unanswered |
| `Pairing.CorrectedDispatchAnswersEveryCall` | client.py:106-110 | the corrected dispatch adds one tool message per call, in emission order, with the call's id |
| `Pairing.CorrectedTurnAnswersEveryCall` | client.py:106-110 | with the correction every recorded call is answered, whatever the arguments and tool outcomes |
| `Pairing.CorrectedTurnAgreesWhenAllParse` | client.py:106-110 | the correction changes nothing in a turn where every call's arguments parse |
| `ServerLaunch.ServerParameters` | client.py:28-31 | a path is accepted if and only if it ends in `.py` or `.js`; an accepted path is the only argument, and the command is `python` exactly for `.py` and `node` exactly for `.js`; a refused path gets the extension error |
| `ServerLaunch.PythonScript` | client.py:28-31 | a path ending in `.py` is launched with `python`, the path as the only argument |
| `ServerLaunch.NodeScript` | client.py:28-31 | a path ending in `.js` is launched with `node`, the path as the only argument |
| `ServerLaunch.AcceptedPaths` | client.py:28-31 | an accepted path is a stem followed by `.py` or `.js`; every other path gets the error `Server script must be a .py or .js file` |

## Left out

- The async/await machinery, `AsyncExitStack` and `cleanup` (client.py:19, 38-40, 177-179): resource and concurrency plumbing with no effect on a turn's values.
- The stdio transport to the tool host, the `initialize` handshake and the catalog printed on connection (client.py:38-46): subprocess I/O. The catalog of a turn is an input.
- The backend client and its network calls (client.py:21-24, 69-75, 149-153): each call is the function `complete`. The model records the request it receives.
- `json.loads`, Python's `str()` of arguments, items, content and responses, and exception messages: these are oracles or given strings. JSON syntax and Python formatting are not re-specified.
- JSON numbers are integers in `Protocol.Json`. Schemas and arguments are only passed through, so floats are not modelled.
- `callTool` is a function of the tool name and arguments, so a tool host whose answers depend on earlier calls is not modelled.
- Exceptions outside the two caught boundaries are not modelled, since the turn does not handle them. Examples: `json.loads` raising something other than `JSONDecodeError`, a `BaseException` from `call_tool`, a failing backend call.
- Normalisation itself cannot fail in the model. In the code, a `str()` that raises, or an item `.text` that is not a string, is caught and becomes `[Tool execution error: ...]`.
- A reply's `tool_calls` of `None` and `[]` are both the empty list, since the code treats both alike.
- The history passed to round 1 is modelled as a snapshot (`[user]`). The code passes the list object that it later appends to; the backend call has completed by then.
- `chat_loop`, `main` and `load_dotenv` (client.py:13, 160-196): interactive and environment I/O.
- `Pairing.EveryCallAnswered` asks for a later tool message with each recorded id. It does not ask that the answers come immediately after the assistant message. In the modelled histories they do (`TurnMessages`).

## Findings

| source | as written | input that shows it | evidently intended | confidence | as-written member | corrected member |
|---|---|---|---|---|---|---|
| client.py:106-110 | A call whose arguments fail to parse skips ahead (`continue`) without a tool-role message. Its entry still stays in the recorded assistant message's `tool_calls`, and round 2 receives that history. OpenAI-compatible backends reject such a history, and the failure then escapes the turn. | One tool call `get_weather` with arguments `not-json` | Every recorded call is answered by a tool-role message. A parse failure's answer is its error text. | not executed; medium: the backend's rejection is documented backend behaviour, not part of this code | `Pairing.ParseFailureLeavesCallUnanswered` | `Pairing.CorrectedTurnAnswersEveryCall` |

`ProcessQuery` and `Turn` model the code as written. The corrected definition is
`Pairing.CorrectedCallOutcome`, `CorrectedDispatch` and `CorrectedTurn`. It changes only the
parse-failure branch. `Pairing.CorrectedTurnAgreesWhenAllParse` shows that every turn without a
parse failure is unchanged.
