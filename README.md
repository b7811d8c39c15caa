# MCP-enabled chat client, modelled in Dafny

This project models `MCPClient`, the TypeScript client that answers a user's
query with an OpenAI chat model and tools discovered from an MCP tool host.
The model covers:

- the check on the tool-host script's name and the choice of the command that runs it;
- the mapping of the listed tools onto the function-tool schemas offered to the model;
- `trimMessages`, the context window that keeps every system message and the
  ten most recent others;
- the two ways a tool result is used: the text items shown to the user, and a
  serialised copy capped at 1000 UTF-16 code units that goes back into the history;
- `processQuery`, the loop over the tool calls the model asks for. It appends
  the assistant message and the capped tool message, re-trims the history,
  makes a follow-up model call, and joins the output lines with newlines.

The model, the tool host and `JSON.stringify` / `JSON.parse` are outside the
client. They appear as an `Environment` of functions:

- `chat(k, request)` is the reply to the k-th model call of a query;
- `callTool(k, invocation)` is the content of the k-th tool result;
- `stringify` and `parse` are opaque, and `parse` returns `None` where
  `JSON.parse` would throw.

Modules, one per concern:

- `Wrappers`: `Option` and `Result`.
- `Json`: JSON values and JavaScript's `String(...)` of them.
- `Chat`: tool calls, replies, messages, tool schemas and requests.
- `Window`: `trimMessages`.
- `ToolOutput`: text extraction and capped serialisation.
- `Query`: `processQuery` as a pure function of its environment, plus the
  lemmas about it.
- `Client`: the `MCPClient` class. Its `ConnectToServer` updates the
  `transport` and `tools` fields. Its `ProcessQuery` is written with the
  source's loops and is proved to equal `Query.QueryAnswer`.

Behaviour of the code worth knowing about:

- Tool-call arguments that do not parse are not recovered. `JSON.parse`
  throws and the whole query fails. Only an empty arguments string becomes
  `"{}"` (`Query.MalformedArgumentsFail`, `Query.ScenarioMalformedArguments`).
- A failing tool call is not reported inline. Its error ends the query
  (`Query.ToolTurnsFailureFinal`).
- A long serialisation becomes its first 1000 code units plus the 15-unit
  marker `"... [truncated]"`. That is 1015 code units, not 1001 plus the marker
  (`ToolOutput.Cap`).
- `length` and `slice` count UTF-16 code units, not characters. A serialisation
  of 600 characters outside the Basic Multilingual Plane is 1200 units long and
  is cut (`ToolOutput.CapCountsCodeUnits`). The cut may split a surrogate pair.
- A missing tool description is copied through as missing, not replaced by an
  empty string (`Chat.ToolSchemas`).
- The assistant message is appended again for every tool call of a turn, as
  the code does.

Further facts about the code that the model makes explicit:

- `slice(-maxMessages)` with `maxMessages = 0` is `slice(0)`, so a bound of 0
  keeps every message (`Window.TrimZeroKeepsAll`).
- An empty `tool_calls` array is truthy, so a reply that carries one and also
  has text yields an empty answer (`Query.EmptyToolCallArrayAnswer`).
- The window stays consistent across trims. Messages are appended in
  (assistant, tool) pairs and the bound of 10 is even. So every tool message
  in every window sent to the model follows the assistant message that holds
  its call id (`Query.ToolTurnsWindow`).

## Model

| member | source | states |
|---|---|---|
| `Client.ServerCommand` | mcp-client-typescript/index.ts:34-43 | fails, with the source's error message, exactly when the path ends in neither `.js` nor `.py`; a `.py` script runs with `python` on `win32` and with `python3` elsewhere; a `.js` script runs with the Node executable |
| `Client.MCPClient.constructor` | mcp-client-typescript/index.ts:23-31 | a new client has no transport and no tools |
| `Client.MCPClient.ConnectToServer` | mcp-client-typescript/index.ts:33-59 | a bad script name fails and leaves transport and tools unchanged; otherwise the transport becomes the chosen command with the script path as its only argument; then either the tools become the schemas of the listed tools, or a connection failure is reported and the tools are left as they were |
| `Chat.ToolSchemas` | mcp-client-typescript/index.ts:52-59 | one schema per listed tool, in the same order, each of type "function" with the tool's name, description and input schema copied unchanged |
| `Chat.ToolSchemasLossless` | mcp-client-typescript/index.ts:52-59 | the listed tools can be read back from the schema list: nothing is dropped, reordered or altered |
| `Chat.ToolSchemasInjective` | mcp-client-typescript/index.ts:52-59 | different tool lists give different schema lists |
| `Window.TrimMessages` | mcp-client-typescript/index.ts:67-71 | computes the system messages in their order, followed by `slice(-maxMessages)` of the others; its properties are the lemmas `TrimKeepsSystemMessages`, `TrimKeepsRecent`, `TrimZeroKeepsAll`, `TrimNegativeDropsOldest`, `TrimFixpoint`, `TrimIdempotent` and `TrimNoSystem` below |
| `Window.SliceFromFacts` | mcp-client-typescript/index.ts:69 | JavaScript's `slice(start)` keeps the last `-start` elements for a negative start, everything for 0, and drops `start` elements for a positive one; it never adds elements |
| `Window.TrimKeepsSystemMessages` | mcp-client-typescript/index.ts:67-70 | every system message is kept, in its original order, all system messages come before all others, and the result is a sub-multiset of the input |
| `Window.TrimKeepsRecent` | mcp-client-typescript/index.ts:67-70 | for a positive bound, the non-system messages kept are exactly the last min(n, bound) of them, in order, and the length is the number of system messages plus that amount |
| `Window.TrimZeroKeepsAll` | mcp-client-typescript/index.ts:69-70 | a bound of 0 keeps every message, because `slice(-0)` is `slice(0)` |
| `Window.TrimNegativeDropsOldest` | mcp-client-typescript/index.ts:69-70 | a negative bound -k drops the oldest k non-system messages |
| `Window.TrimFixpoint` | mcp-client-typescript/index.ts:67-71 | for a positive bound, trimming leaves a list unchanged if and only if its system messages already come first and it has at most the bound of other messages |
| `Window.TrimIdempotent` | mcp-client-typescript/index.ts:67-71 | for a bound of 0 or more, trimming an already-trimmed list returns it unchanged |
| `Window.TrimNoSystem` | mcp-client-typescript/index.ts:67-70 | for a positive bound and without system messages, trimming keeps exactly the last min(n, bound) messages |
| `ToolOutput.TextsOf` | mcp-client-typescript/index.ts:104-108 | computes the texts of the items whose `type` is "text", in order; its properties are the lemmas `TextsOfConcat`, `TextsOfMembers`, `TextsOfAllText` and `TextsOfNoText` below, and the loop `Client.PushTextItems` is proved to append exactly it |
| `ToolOutput.Extracted` | mcp-client-typescript/index.ts:103-111 | computes the lines a tool result adds after its marker: `TextsOf` of an array, the `String(...)` of anything else (`ExtractedNonArray`) |
| `Json.JsString` | mcp-client-typescript/index.ts:110 | computes JavaScript's `String(...)` of a JSON value: `null`, `true`/`false`, decimal integers, strings unchanged, arrays as their comma-joined elements with null shown empty, objects as `[object Object]`; used by `ExtractedNonArray` |
| `ToolOutput.TextsOfConcat` | mcp-client-typescript/index.ts:104-108 | the lines taken from two item arrays in sequence are those of the first followed by those of the second |
| `ToolOutput.TextsOfMembers` | mcp-client-typescript/index.ts:104-108 | a line comes out of an item array if and only if it is the text of one of its items whose `type` is "text" |
| `ToolOutput.TextsOfAllText` | mcp-client-typescript/index.ts:104-108 | when every item is a text item, the output is their texts one for one, in order |
| `ToolOutput.TextsOfNoText` | mcp-client-typescript/index.ts:104-108 | items of other kinds add no line |
| `ToolOutput.ExtractedNonArray` | mcp-client-typescript/index.ts:109-111 | content that is not an array adds exactly one line, its `String(...)` |
| `Client.PushTextItems` | mcp-client-typescript/index.ts:103-108 | the inner loop appends exactly the texts of the text items, in order, after the lines already there |
| `Json.Utf16` | mcp-client-typescript/index.ts:115-118 | a string's UTF-16 encoding, which `length` and `slice` count: between one and two code units per character |
| `Json.Utf16Bmp` | mcp-client-typescript/index.ts:115-118 | a string whose characters all lie in the Basic Multilingual Plane has one code unit per character, each equal to its character's code point |
| `Json.Utf16Astral` | mcp-client-typescript/index.ts:115-118 | a string whose characters all lie outside the Basic Multilingual Plane has two code units per character |
| `ToolOutput.TruncationMarkerText` | mcp-client-typescript/index.ts:117 | the marker's code units are exactly the UTF-16 encoding of `"... [truncated]"` |
| `ToolOutput.Cap` | mcp-client-typescript/index.ts:115-118 | a serialisation of at most 1000 code units is used unchanged; a longer one becomes its first 1000 code units followed by the marker, 1015 code units in all; the copy is never longer than 1015 |
| `ToolOutput.CapIdempotent` | mcp-client-typescript/index.ts:115-118 | capping a capped copy changes nothing |
| `ToolOutput.CapFixpoint` | mcp-client-typescript/index.ts:115-118 | capping leaves a serialisation unchanged if and only if it is at most 1000 code units long, or is 1015 code units long and already ends in the marker |
| `ToolOutput.CapCountsCodeUnits` | mcp-client-typescript/index.ts:115-118 | 600 characters outside the Basic Multilingual Plane are 1200 code units, so they are cut to 1015 code units, although they are only 600 characters |
| `Query.ArgumentsText` | mcp-client-typescript/index.ts:95 | the text given to `JSON.parse` is never empty: an empty arguments string becomes `"{}"` and any other is passed unchanged |
| `Query.ToolTurn` | mcp-client-typescript/index.ts:93-137 | computes one iteration of the tool-call loop: the failure it throws, or the new window and output lines; its effect is stated by `ToolTurnsCallEffect`, and `Client.RunToolCall` is proved to equal it |
| `Query.ToolTurns` | mcp-client-typescript/index.ts:93-137 | computes the whole loop, stopping at the first failure; its properties are `ToolTurnsWindow`, `ToolTurnsFailureFinal`, `ToolTurnsCallEffect`, `ToolTurnsOutputOrder` and `ToolTurnsLineCount` below |
| `Query.Join` | mcp-client-typescript/index.ts:143 | computes `lines.join(sep)`; `JoinThree` states how the separator is placed |
| `Query.QueryAnswer` | mcp-client-typescript/index.ts:73-143 | computes the answer of `processQuery`, or the failure it throws; its properties are `NoToolCallsAnswer`, `EmptyToolCallArrayAnswer`, `FirstCallFailure`, `MalformedArgumentsFail` and the three scenarios below, and `Client.MCPClient.ProcessQuery` is proved to equal it |
| `Query.WindowShapeAnswered` | mcp-client-typescript/index.ts:114-126 | in a window made of (assistant, tool) pairs, possibly after the user's query, there is no system message and every tool message follows the assistant message holding its call id |
| `Query.TurnKeepsWindowShape` | mcp-client-typescript/index.ts:114-126 | appending one call's pair and trimming to 10 keeps that window shape, keeps at most 10 messages, and leaves the new assistant and tool messages last |
| `Query.ToolTurnsWindow` | mcp-client-typescript/index.ts:92-132 | after every tool call, the window sent to the follow-up call has at most 10 messages and no system message; every tool message in it follows the assistant message that asked for it; it ends with the assistant message and the tool message for that call's id |
| `Query.ToolTurnsFailureFinal` | mcp-client-typescript/index.ts:93-137 | a failure at one tool call (unparsable arguments, tool error, follow-up model error) is the failure of the whole loop |
| `Query.ToolTurnsCallEffect` | mcp-client-typescript/index.ts:93-137 | for the i-th call of a successful loop: the arguments (an empty string read as `"{}"`) parse, the tool answers, and the follow-up call, made over the re-trimmed window, answers; the history gains the assistant message and a `tool` message with this call's id and the capped serialisation, then is trimmed to 10; the output gains `[Tool: <name>]`, the extracted text and the follow-up text only when it is non-empty |
| `Query.ToolTurnsOutputOrder` | mcp-client-typescript/index.ts:102-137 | output is only appended to: the lines produced by the first i calls stay, and are followed directly by the `[Tool: <name>]` line of call i |
| `Query.ToolTurnsLineCount` | mcp-client-typescript/index.ts:102 | a successful loop adds at least one line per tool call |
| `Query.NoToolCallsAnswer` | mcp-client-typescript/index.ts:139-143 | a first reply without tool calls is answered by its text if that is non-empty, and by the empty string otherwise |
| `Query.EmptyToolCallArrayAnswer` | mcp-client-typescript/index.ts:92-93 | a reply carrying an empty `tool_calls` array yields the empty answer, whatever its text |
| `Query.FirstCallFailure` | mcp-client-typescript/index.ts:81-89 | a failing first model call fails the query |
| `Query.MalformedArgumentsFail` | mcp-client-typescript/index.ts:95 | if the first tool call's arguments (an empty string read as `"{}"`) do not parse, the query fails with that text, whatever the tool host would answer |
| `Query.JoinThree` | mcp-client-typescript/index.ts:143 | joining three lines puts the separator between each neighbouring pair |
| `Query.ScenarioDirectAnswer` | mcp-client-typescript/index.ts:139-143 | a model answering "It's sunny." without tool calls gives exactly that answer |
| `Query.ScenarioOneToolCall` | mcp-client-typescript/index.ts:92-143 | one `get_weather` call, a tool result with one text item "Sunny, 22C", and a follow-up reply give `[Tool: get_weather]`, the text and the follow-up, joined by newlines |
| `Query.ScenarioMalformedArguments` | mcp-client-typescript/index.ts:95 | arguments `"{"` make the query fail; they are not replaced by `{}` |
| `Client.RunToolCall` | mcp-client-typescript/index.ts:94-137 | one iteration of the loop, written with the source's statements, returns exactly what `Query.ToolTurn` gives for the same call and state |
| `Client.MCPClient.ProcessQuery` | mcp-client-typescript/index.ts:73-143 | the query's answer, or the failure it throws, is exactly the one the pure `Query.QueryAnswer` gives for the same environment and tools |

## Left out

- The OpenAI `chat.completions.create` calls and the MCP `Client` and `StdioClientTransport` (index.ts:27-30, 45-51, 81-87, 97-100, 128-132, 152) are network and subprocess boundaries. They are the `Environment` oracles and the `session` parameter of `ConnectToServer`. Connecting and listing tools are one outcome there, because either failure has the same effect on the client. `cleanup` (closing the connection) is not modelled.
- `process.platform` and `process.execPath` are parameters.
- `async`/`await`: the flow is sequential and is modelled as such.
- `JSON.stringify` and `JSON.parse` are opaque functions. Nothing is assumed about them, in particular not that bad arguments are recovered.
- Configuration and glue: `dotenv`, the `OPENAI_API_KEY` check, `console.log`, `chatLoop`, `main` (index.ts:13-18, 61-64, 146-173), the Express relay in `mcp-web/server.ts`, and the browser page `mcp-web/public/script.js`.
- `Client.MCPClient.ProcessQuery`: a tool result without `content` is not modelled. The client would push `"undefined"` and then throw on `JSON.stringify(undefined).length`. A completion with no `choices[0]` is not modelled either.
- `Json.JsString`: numbers are integers, printed with all their digits. JavaScript numbers are doubles, so this is exact only up to 2^53 in magnitude. Above that, JavaScript prints the shortest digits that round-trip, padded with zeros: 18446744073709551616 prints as "18446744073709552000". Such integers, fractional numbers, and the exponent notation from 1e21 upwards are not modelled.
- Strings other than the serialisation that is capped (queries, script paths, tool names, output lines) are sequences of Unicode characters, not of UTF-16 code units. The only length and index the model takes of them is the suffix test on the script path in `Client.EndsWith`. The suffixes `.js` and `.py` are ASCII, and an ASCII code unit is never half of a surrogate pair, so that test gives the same answer on characters and on code units.
- `ToolOutput.ItemText`: the model stores each output line already rendered the way `join` would render it (null or missing as empty, anything else after `String(...)`), not as the raw value pushed.
- `Json.Json`: an object is a map, so the order of its keys is not kept. `JSON.stringify` prints keys in insertion order, which decides which keys fall within the first 1000 code units of the capped copy; `stringify` is opaque here, so no stated property depends on that order.
- `Chat.Message`: user and system content is plain text, not an array of content parts.
- The history is modelled by value. That the same reply object is pushed by reference for every tool call (so aliasing) is not captured.
- `Window.TrimMessages`: the bound is an integer. A non-integer bound is not modelled; the client only uses the default of 10.
