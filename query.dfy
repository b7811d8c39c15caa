/** `processQuery` as a function of its environment: the first model call,
    then, for each tool call the model asks for, the tool invocation, the
    history update and the follow-up model call, and the answer assembled
    from the output lines. */
module Query {

  import opened Wrappers
  import opened Json
  import opened Chat
  import opened Window
  import opened ToolOutput

  /** Why a query fails: the exceptions `processQuery` lets escape. */
  datatype Failure =
    | ModelCallFailed(reason: string)   // a chat-completion call was rejected
    | InvalidArguments(text: string)    // `JSON.parse` threw on a tool call's arguments
    | ToolCallFailed(reason: string)    // the tool host rejected an invocation

  /** What lies outside the client. `chat(k, request)` is the model's answer
      to the k-th chat-completion call of the query (0 is the first call,
      k + 1 the follow-up after the k-th tool call); `callTool(k, invocation)`
      is the `content` of the tool host's result for the k-th tool call;
      `stringify` and `parse` stand for `JSON.stringify` (which yields a
      string of UTF-16 code units) and `JSON.parse` (`None` when it throws). */
  datatype Environment = Environment(
    chat: (nat, ChatRequest) -> Result<Reply, string>,
    callTool: (nat, ToolInvocation) -> Result<Json, string>,
    stringify: Json -> JsText,
    parse: string -> Option<Json>)

  /** The first request: the user's query alone, all tools offered, tool choice "auto". */
  function FirstRequest(query: string, tools: seq<FunctionTool>): ChatRequest {
    ChatRequest(ModelName, [UserMessage(query)], Some(tools), MaxTokens, Some("auto"))
  }

  /** A follow-up request: the current window, no tools offered. */
  function FollowUpRequest(window: seq<Message>): ChatRequest {
    ChatRequest(ModelName, window, None, MaxTokens, None)
  }

  function ToolMarker(name: string): string {
    "[Tool: " + name + "]"
  }

  /** `toolCall.function.arguments || "{}"`: only the empty string is replaced. */
  function ArgumentsText(call: ToolCall): (r: string)
    ensures r != ""
    ensures call.arguments == "" ==> r == "{}"
    ensures call.arguments != "" ==> r == call.arguments
  {
    if call.arguments == "" then "{}" else call.arguments
  }

  /** The line a reply's text contributes, when it is truthy. */
  function ContentLines(reply: Reply): seq<string> {
    if Truthy(reply.content) then [reply.content.value] else []
  }

  /** The state the loop over the tool calls carries: `messages` and `finalText`. */
  datatype Progress = Progress(window: seq<Message>, lines: seq<string>)

  function InitialProgress(query: string): Progress {
    Progress([UserMessage(query)], [])
  }

  /** The two messages one tool call appends to the history before trimming. */
  function TurnMessages(reply: Reply, call: ToolCall, capped: JsText): seq<Message> {
    [AssistantMessage(reply), ToolMessage(call.id, capped)]
  }

  /** One iteration of the loop, for the k-th tool call `call` of `reply`. */
  function ToolTurn(env: Environment, reply: Reply, k: nat, call: ToolCall, p: Progress): Result<Progress, Failure> {
    var argText := ArgumentsText(call);
    match env.parse(argText)
    case None => Err(InvalidArguments(argText))
    case Some(args) =>
      match env.callTool(k, ToolInvocation(call.name, args))
      case Err(e) => Err(ToolCallFailed(e))
      case Ok(content) =>
        var lines := p.lines + [ToolMarker(call.name)] + Extracted(content);
        var capped := Cap(env.stringify(content));
        var window := TrimMessages(p.window + TurnMessages(reply, call, capped), DefaultMaxMessages);
        match env.chat(k + 1, FollowUpRequest(window))
        case Err(e) => Err(ModelCallFailed(e))
        case Ok(follow) => Ok(Progress(window, lines + ContentLines(follow)))
  }

  /** The loop over `calls`, in order, stopping at the first failure. */
  function ToolTurns(env: Environment, reply: Reply, calls: seq<ToolCall>, p0: Progress): Result<Progress, Failure>
    decreases |calls|
  {
    if calls == [] then Ok(p0)
    else
      match ToolTurns(env, reply, calls[..|calls| - 1], p0)
      case Err(e) => Err(e)
      case Ok(p) => ToolTurn(env, reply, |calls| - 1, calls[|calls| - 1], p)
  }

  /** The output lines of a query. A present `tool_calls` array, even an
      empty one, is truthy in JavaScript and takes the tool branch. */
  function QueryLines(env: Environment, tools: seq<FunctionTool>, query: string): Result<seq<string>, Failure> {
    match env.chat(0, FirstRequest(query, tools))
    case Err(e) => Err(ModelCallFailed(e))
    case Ok(reply) =>
      if reply.toolCalls.Some? then
        match ToolTurns(env, reply, reply.toolCalls.value, InitialProgress(query))
        case Err(e) => Err(e)
        case Ok(p) => Ok(p.lines)
      else Ok(ContentLines(reply))
  }

  /** `lines.join(sep)`. */
  function Join(lines: seq<string>, sep: string): string
    decreases |lines|
  {
    if |lines| == 0 then ""
    else if |lines| == 1 then lines[0]
    else lines[0] + sep + Join(lines[1..], sep)
  }

  /** The answer `processQuery` resolves to, or the failure it throws. */
  function QueryAnswer(env: Environment, tools: seq<FunctionTool>, query: string): Result<string, Failure> {
    match QueryLines(env, tools, query)
    case Err(e) => Err(e)
    case Ok(lines) => Ok(Join(lines, "\n"))
  }

  // ---------------------------------------------------------------------
  // Shape of the window sent to the follow-up calls

  /** `t` is a tool message answering one of the tool calls of the assistant message `a`. */
  predicate Answers(a: Message, t: Message) {
    && a.AssistantMessage?
    && t.ToolMessage?
    && a.reply.toolCalls.Some?
    && exists j :: 0 <= j < |a.reply.toolCalls.value| && a.reply.toolCalls.value[j].id == t.toolCallId
  }

  /** Every tool message is directly preceded by the assistant message whose tool call it answers. */
  predicate ToolMessagesAnswered(w: seq<Message>) {
    forall i :: 0 <= i < |w| && w[i].ToolMessage? ==> 0 < i && Answers(w[i - 1], w[i])
  }

  /** A list of (assistant message, tool message answering it) pairs. */
  predicate Paired(w: seq<Message>)
    decreases |w|
  {
    w == [] || (|w| >= 2 && Answers(w[0], w[1]) && Paired(w[2..]))
  }

  /** The windows `processQuery` builds: pairs, possibly after the user's query. */
  predicate WindowShape(w: seq<Message>) {
    Paired(w) || (|w| > 0 && w[0].UserMessage? && Paired(w[1..]))
  }

  lemma {:induction false} PairedFacts(w: seq<Message>)
    requires Paired(w)
    ensures |w| % 2 == 0 && NoSystem(w) && ToolMessagesAnswered(w)
    ensures forall i :: 0 <= i < |w| ==> (w[i].AssistantMessage? <==> i % 2 == 0)
    decreases |w|
  {
    if w != [] {
      var rest := w[2..];
      PairedFacts(rest);
      forall i | 2 <= i < |w|
        ensures w[i] == rest[i - 2]
      {
      }
    }
  }

  lemma {:induction false} PairedAppend(w: seq<Message>, a: Message, t: Message)
    requires Paired(w) && Answers(a, t)
    ensures Paired(w + [a, t])
    decreases |w|
  {
    if w == [] {
      assert ([a, t])[2..] == [];
    } else {
      PairedAppend(w[2..], a, t);
      assert (w + [a, t])[2..] == w[2..] + [a, t];
    }
  }

  lemma {:induction false} PairedSuffix(w: seq<Message>, d: nat)
    requires Paired(w) && d <= |w| && d % 2 == 0
    ensures Paired(w[d..])
    decreases d
  {
    if d > 0 {
      PairedSuffix(w[2..], d - 2);
      assert w[2..][d - 2..] == w[d..];
    }
  }

  /** The window shape gives the invariant that every tool message follows
      the assistant message carrying its call id. */
  lemma WindowShapeAnswered(w: seq<Message>)
    requires WindowShape(w)
    ensures NoSystem(w) && ToolMessagesAnswered(w)
  {
    if Paired(w) {
      PairedFacts(w);
    } else {
      var rest := w[1..];
      PairedFacts(rest);
      forall i | 1 <= i < |w|
        ensures w[i] == rest[i - 1]
      {
      }
    }
  }

  /** Appending one turn's pair to a window of this shape and trimming it
      keeps the shape, the bound, and puts the new pair last. */
  lemma TurnKeepsWindowShape(w: seq<Message>, a: Message, t: Message)
    requires WindowShape(w) && Answers(a, t)
    ensures var w' := TrimMessages(w + [a, t], DefaultMaxMessages);
      && WindowShape(w')
      && 2 <= |w'| <= DefaultMaxMessages
      && w'[|w'| - 2] == a && w'[|w'| - 1] == t
  {
    var ext := w + [a, t];
    WindowShapeAnswered(w);
    assert NoSystem(ext);
    TrimNoSystem(ext, DefaultMaxMessages);
    var d := |ext| - Min(DefaultMaxMessages, |ext|);
    var w' := ext[d..];
    if Paired(w) {
      PairedAppend(w, a, t);
      PairedFacts(ext);
      PairedSuffix(ext, d);
    } else {
      PairedAppend(w[1..], a, t);
      assert ext[1..] == w[1..] + [a, t];
      PairedFacts(ext[1..]);
      if d > 0 {
        PairedSuffix(ext[1..], d - 1);
        assert ext[1..][d - 1..] == w';
      } else {
        assert w' == ext;
      }
    }
  }

  /** After every tool call the window is bounded by the default of 10,
      holds no system message, pairs every tool message with the assistant
      message that asked for it, and ends with the last call's pair. */
  lemma {:induction false} ToolTurnsWindow(env: Environment, reply: Reply, calls: seq<ToolCall>, query: string)
    requires reply.toolCalls.Some?
    requires forall c :: c in calls ==> c in reply.toolCalls.value
    ensures ToolTurns(env, reply, calls, InitialProgress(query)).Ok? ==>
      var w := ToolTurns(env, reply, calls, InitialProgress(query)).value.window;
      && WindowShape(w)
      && NoSystem(w) && ToolMessagesAnswered(w)
      && 0 < |w| <= DefaultMaxMessages
      && (calls == [] ==> w == [UserMessage(query)])
      && (calls != [] ==>
            && |w| >= 2
            && w[|w| - 2] == AssistantMessage(reply)
            && w[|w| - 1].ToolMessage? && w[|w| - 1].toolCallId == calls[|calls| - 1].id)
    decreases |calls|
  {
    var r := ToolTurns(env, reply, calls, InitialProgress(query));
    if calls == [] {
      assert Paired([UserMessage(query)][1..]);
      WindowShapeAnswered([UserMessage(query)]);
    } else if r.Ok? {
      var init := calls[..|calls| - 1];
      var call := calls[|calls| - 1];
      assert forall c :: c in init ==> c in calls;
      ToolTurnsWindow(env, reply, init, query);
      var p := ToolTurns(env, reply, init, InitialProgress(query)).value;
      var args := env.parse(ArgumentsText(call)).value;
      var content := env.callTool(|calls| - 1, ToolInvocation(call.name, args)).value;
      var a := AssistantMessage(reply);
      var t := ToolMessage(call.id, Cap(env.stringify(content)));
      assert call in reply.toolCalls.value;
      var j :| 0 <= j < |reply.toolCalls.value| && reply.toolCalls.value[j] == call;
      assert Answers(a, t);
      TurnKeepsWindowShape(p.window, a, t);
      WindowShapeAnswered(r.value.window);
    }
  }

  // ---------------------------------------------------------------------
  // Output lines

  /** A failure at some call ends the loop: the whole loop fails with it. */
  lemma {:induction false} ToolTurnsFailureFinal(env: Environment, reply: Reply, calls: seq<ToolCall>, p0: Progress, i: nat)
    requires i <= |calls| && ToolTurns(env, reply, calls[..i], p0).Err?
    ensures ToolTurns(env, reply, calls, p0) == ToolTurns(env, reply, calls[..i], p0)
    decreases |calls|
  {
    if i < |calls| {
      var init := calls[..|calls| - 1];
      assert init[..i] == calls[..i];
      ToolTurnsFailureFinal(env, reply, init, p0, i);
    } else {
      assert calls[..i] == calls;
    }
  }

  /** One more call: the loop over the first i + 1 calls is call i run on
      what the first i calls produced. */
  lemma ToolTurnsStep(env: Environment, reply: Reply, calls: seq<ToolCall>, p0: Progress, i: nat, p: Progress)
    requires i < |calls| && ToolTurns(env, reply, calls[..i], p0) == Ok(p)
    ensures ToolTurns(env, reply, calls[..i + 1], p0) == ToolTurn(env, reply, i, calls[i], p)
  {
    assert calls[..i + 1][..i] == calls[..i];
  }

  /** Output is only ever appended to: whatever the first i calls produced
      stays, followed directly by the marker line of call i. */
  lemma {:induction false} ToolTurnsOutputOrder(env: Environment, reply: Reply, calls: seq<ToolCall>, p0: Progress, i: nat)
    requires i < |calls| && ToolTurns(env, reply, calls, p0).Ok?
    ensures ToolTurns(env, reply, calls[..i], p0).Ok?
    ensures ToolTurns(env, reply, calls[..i], p0).value.lines + [ToolMarker(calls[i].name)]
            <= ToolTurns(env, reply, calls, p0).value.lines
    decreases |calls|
  {
    var init := calls[..|calls| - 1];
    var last := ToolTurns(env, reply, calls, p0).value;
    if ToolTurns(env, reply, init, p0).Err? {
      assert false;
    }
    var before := ToolTurns(env, reply, init, p0).value;
    assert last.lines[..|before.lines| + 1] == before.lines + [ToolMarker(calls[|calls| - 1].name)];
    if i < |calls| - 1 {
      assert init[..i] == calls[..i];
      ToolTurnsOutputOrder(env, reply, init, p0, i);
      assert init[i] == calls[i];
    } else {
      assert calls[..i] == init;
    }
  }

  /** What the i-th tool call of a successful loop does. Its arguments parse,
      the tool answers, and the follow-up call answers. The history gains the
      assistant message and a tool message carrying this call's id and the
      capped serialisation, and is then re-trimmed. The output gains the
      marker line, the extracted text and the follow-up text if it is truthy. */
  lemma ToolTurnsCallEffect(env: Environment, reply: Reply, calls: seq<ToolCall>, p0: Progress, i: nat)
    requires i < |calls| && ToolTurns(env, reply, calls, p0).Ok?
    ensures ToolTurns(env, reply, calls[..i], p0).Ok? && ToolTurns(env, reply, calls[..i + 1], p0).Ok?
    ensures env.parse(ArgumentsText(calls[i])).Some?
    ensures var args := env.parse(ArgumentsText(calls[i])).value;
      env.callTool(i, ToolInvocation(calls[i].name, args)).Ok?
    ensures
      var before := ToolTurns(env, reply, calls[..i], p0).value;
      var after := ToolTurns(env, reply, calls[..i + 1], p0).value;
      var args := env.parse(ArgumentsText(calls[i])).value;
      var content := env.callTool(i, ToolInvocation(calls[i].name, args)).value;
      && after.window == TrimMessages(
           before.window + [AssistantMessage(reply), ToolMessage(calls[i].id, Cap(env.stringify(content)))],
           DefaultMaxMessages)
      && env.chat(i + 1, FollowUpRequest(after.window)).Ok?
      && after.lines == before.lines + [ToolMarker(calls[i].name)] + Extracted(content)
                        + ContentLines(env.chat(i + 1, FollowUpRequest(after.window)).value)
  {
    var prefix := calls[..i + 1];
    assert prefix[..i] == calls[..i] && prefix[i] == calls[i];
    if ToolTurns(env, reply, prefix, p0).Err? {
      ToolTurnsFailureFinal(env, reply, calls, p0, i + 1);
      assert false;
    }
  }

  /** A successful loop leaves at least one line per tool call. */
  lemma ToolTurnsLineCount(env: Environment, reply: Reply, calls: seq<ToolCall>, p0: Progress)
    requires ToolTurns(env, reply, calls, p0).Ok?
    ensures |ToolTurns(env, reply, calls, p0).value.lines| >= |p0.lines| + |calls|
    decreases |calls|
  {
    if calls != [] {
      var init := calls[..|calls| - 1];
      ToolTurnsOutputOrder(env, reply, calls, p0, |calls| - 1);
      assert calls[..|calls| - 1] == init;
      ToolTurnsLineCount(env, reply, init, p0);
    }
  }

  // ---------------------------------------------------------------------
  // The answer

  /** A first reply without tool calls is answered by its text, or by nothing. */
  lemma NoToolCallsAnswer(env: Environment, tools: seq<FunctionTool>, query: string)
    requires env.chat(0, FirstRequest(query, tools)).Ok?
    requires env.chat(0, FirstRequest(query, tools)).value.toolCalls.None?
    ensures var reply := env.chat(0, FirstRequest(query, tools)).value;
      QueryAnswer(env, tools, query) == Ok(if Truthy(reply.content) then reply.content.value else "")
  {
  }

  /** An empty `tool_calls` array is truthy in JavaScript: the reply's text is
      dropped and the answer is empty. */
  lemma EmptyToolCallArrayAnswer(env: Environment, tools: seq<FunctionTool>, query: string)
    requires env.chat(0, FirstRequest(query, tools)).Ok?
    requires env.chat(0, FirstRequest(query, tools)).value.toolCalls == Some([])
    ensures QueryAnswer(env, tools, query) == Ok("")
  {
  }

  /** A failing first model call fails the query. */
  lemma FirstCallFailure(env: Environment, tools: seq<FunctionTool>, query: string)
    requires env.chat(0, FirstRequest(query, tools)).Err?
    ensures QueryAnswer(env, tools, query) == Err(ModelCallFailed(env.chat(0, FirstRequest(query, tools)).error))
  {
  }

  /** Arguments that do not parse are not recovered: the query fails, whatever
      the tool host would have answered. */
  lemma MalformedArgumentsFail(env: Environment, tools: seq<FunctionTool>, query: string)
    requires env.chat(0, FirstRequest(query, tools)).Ok?
    requires var calls := env.chat(0, FirstRequest(query, tools)).value.toolCalls;
      calls.Some? && |calls.value| > 0 && env.parse(ArgumentsText(calls.value[0])).None?
    ensures var call := env.chat(0, FirstRequest(query, tools)).value.toolCalls.value[0];
      QueryAnswer(env, tools, query) == Err(InvalidArguments(ArgumentsText(call)))
  {
    var reply := env.chat(0, FirstRequest(query, tools)).value;
    var calls := reply.toolCalls.value;
    assert calls[..1][..0] == [];
    assert ToolTurns(env, reply, calls[..1], InitialProgress(query)).Err?;
    ToolTurnsFailureFinal(env, reply, calls, InitialProgress(query), 1);
  }

  // ---------------------------------------------------------------------
  // Worked scenarios

  /** The model answers directly: the answer is its text. */
  lemma ScenarioDirectAnswer(stringify: Json -> JsText, parse: string -> Option<Json>,
                             host: (nat, ToolInvocation) -> Result<Json, string>, tools: seq<FunctionTool>)
    ensures var env := Environment((k, r) => Ok(Reply(Some("It's sunny."), None)), host, stringify, parse);
      QueryAnswer(env, tools, "What's the weather in Paris?") == Ok("It's sunny.")
  {
  }

  const WeatherCall := ToolCall("call_1", "get_weather", "{\"city\":\"Paris\"}")
  const WeatherItem := JObject(map["type" := JString("text"), "text" := JString("Sunny, 22C")])
  const WeatherFollowUp := Reply(Some("The weather in Paris is sunny and 22°C."), None)

  /** A model that asks for the weather tool, then answers from its result. */
  function WeatherChat(k: nat, r: ChatRequest): Result<Reply, string> {
    if k == 0 then Ok(Reply(None, Some([WeatherCall]))) else Ok(WeatherFollowUp)
  }

  /** A tool host that answers with one text item. */
  function WeatherHost(k: nat, inv: ToolInvocation): Result<Json, string> {
    Ok(JArray([WeatherItem]))
  }

  function WeatherParse(s: string): Option<Json> {
    Some(JObject(map["city" := JString("Paris")]))
  }

  lemma WeatherExtracted()
    ensures Extracted(WeatherHost(0, ToolInvocation("get_weather", JNull)).value) == ["Sunny, 22C"]
  {
    assert IsTextItem(WeatherItem) && ItemText(WeatherItem) == "Sunny, 22C";
    assert [WeatherItem][..0] == [];
    assert TextsOf([WeatherItem]) == ["Sunny, 22C"];
  }

  const WeatherLines := ["[Tool: get_weather]", "Sunny, 22C", "The weather in Paris is sunny and 22°C."]

  lemma WeatherQueryLines(stringify: Json -> JsText, tools: seq<FunctionTool>)
    ensures QueryLines(Environment(WeatherChat, WeatherHost, stringify, WeatherParse), tools, "What's the weather in Paris?")
      == Ok(WeatherLines)
  {
    var env := Environment(WeatherChat, WeatherHost, stringify, WeatherParse);
    var query := "What's the weather in Paris?";
    var reply := Reply(None, Some([WeatherCall]));
    var p0 := InitialProgress(query);
    assert ToolTurn(env, reply, 0, WeatherCall, p0).Ok? && ToolTurn(env, reply, 0, WeatherCall, p0).value.lines == WeatherLines by {
      WeatherExtracted();
      assert ToolMarker(WeatherCall.name) == WeatherLines[0];
      assert ContentLines(WeatherFollowUp) == [WeatherLines[2]];
    }
    assert [WeatherCall][..0] == [];
    assert ToolTurns(env, reply, [], p0) == Ok(p0);
    assert ToolTurns(env, reply, [WeatherCall], p0) == ToolTurn(env, reply, 0, WeatherCall, p0);
    assert env.chat(0, FirstRequest(query, tools)) == Ok(reply);
  }

  lemma JoinThree(a: string, b: string, c: string, sep: string)
    ensures Join([a, b, c], sep) == a + sep + b + sep + c
  {
    assert [a, b, c][1..] == [b, c];
    assert [b, c][1..] == [c];
    assert Join([b, c], sep) == b + sep + c;
    assert a + sep + (b + sep + c) == a + sep + b + sep + c;
  }

  /** One tool call answered with one text item, then a follow-up answer. */
  lemma ScenarioOneToolCall(stringify: Json -> JsText, tools: seq<FunctionTool>)
    ensures QueryAnswer(Environment(WeatherChat, WeatherHost, stringify, WeatherParse), tools, "What's the weather in Paris?")
      == Ok("[Tool: get_weather]" + "\n" + "Sunny, 22C" + "\n" + "The weather in Paris is sunny and 22°C.")
  {
    WeatherQueryLines(stringify, tools);
    JoinThree(WeatherLines[0], WeatherLines[1], WeatherLines[2], "\n");
    assert [WeatherLines[0], WeatherLines[1], WeatherLines[2]] == WeatherLines;
  }

  /** The arguments "{" do not parse, so the query fails instead of calling the tool with `{}`. */
  lemma ScenarioMalformedArguments(stringify: Json -> JsText, host: (nat, ToolInvocation) -> Result<Json, string>,
                                   tools: seq<FunctionTool>)
    ensures
      var call := ToolCall("call_1", "get_weather", "{");
      var chat := (k: nat, r: ChatRequest) => Ok(Reply(None, Some([call])));
      var parse := (s: string) => if s == "{" then None else Some(JObject(map[]));
      var env := Environment(chat, host, stringify, parse);
      QueryAnswer(env, tools, "What's the weather in Paris?") == Err(InvalidArguments("{"))
  {
    var call := ToolCall("call_1", "get_weather", "{");
    assert [call][..0] == [];
  }
}
