/** The `MCPClient` object: the transport it opens to the tool host, the tool
    schemas it offers the model, and `processQuery`, which drives one user
    query through the model and the tools. */
module Client {

  import opened Wrappers
  import opened Json
  import opened Chat
  import opened Window
  import opened ToolOutput
  import opened Query

  /** The stdio transport: the command that launches the tool host and its arguments. */
  datatype StdioTransport = StdioTransport(command: string, args: seq<string>)

  datatype ConnectError =
    | UnsupportedScript(message: string)  // the script is neither `.js` nor `.py`
    | ConnectionFailed(reason: string)    // connecting or listing the tools failed

  const UnsupportedScriptMessage := "Server script must be a .js or .py file"

  predicate EndsWith(s: string, suffix: string) {
    |suffix| <= |s| && s[|s| - |suffix|..] == suffix
  }

  /** The command that runs a tool-host script: `python` on Windows or
      `python3` elsewhere for a `.py` script, the running Node executable
      `execPath` for a `.js` script, and an error for anything else. */
  function ServerCommand(path: string, platform: string, execPath: string): (r: Result<string, ConnectError>)
    ensures r.Err? <==> !EndsWith(path, ".js") && !EndsWith(path, ".py")
    ensures r.Err? ==> r.error == UnsupportedScript(UnsupportedScriptMessage)
    ensures EndsWith(path, ".py") ==> r == Ok(if platform == "win32" then "python" else "python3")
    ensures EndsWith(path, ".js") ==> r == Ok(execPath)
  {
    var isJs := EndsWith(path, ".js");
    var isPy := EndsWith(path, ".py");
    if !isJs && !isPy then Err(UnsupportedScript(UnsupportedScriptMessage))
    else if isPy then Ok(if platform == "win32" then "python" else "python3")
    else Ok(execPath)
  }

  /** The inner loop of `processQuery` over an array of content items: it
      pushes the text of every item whose `type` is "text", in order. */
  method PushTextItems(finalText: seq<string>, items: seq<Json>) returns (out: seq<string>)
    ensures out == finalText + TextsOf(items)
  {
    out := finalText;
    var j := 0;
    while j < |items|
      invariant 0 <= j <= |items|
      invariant out == finalText + TextsOf(items[..j])
    {
      var item := items[j];
      assert items[..j + 1][..j] == items[..j];
      if IsTextItem(item) {
        out := out + [ItemText(item)];
      }
      j := j + 1;
    }
    assert items[..j] == items;
  }

  /** One iteration of the loop over the tool calls in `processQuery`, for
      the k-th call `toolCall` of `responseMessage`, given the current
      `messages` and `finalText`: the new pair, or the exception it throws. */
  method RunToolCall(env: Environment, responseMessage: Reply, k: nat, toolCall: ToolCall,
                     messages: seq<Message>, finalText: seq<string>)
    returns (r: Result<Progress, Failure>)
    ensures r == ToolTurn(env, responseMessage, k, toolCall, Progress(messages, finalText))
  {
    ghost var p := Progress(messages, finalText);
    var argText := if toolCall.arguments == "" then "{}" else toolCall.arguments;
    assert argText == ArgumentsText(toolCall);
    var args := env.parse(argText);
    if args.None? {
      return Err(InvalidArguments(argText));
    }
    var result := env.callTool(k, ToolInvocation(toolCall.name, args.value));
    if result.Err? {
      return Err(ToolCallFailed(result.error));
    }
    var content := result.value;

    var lines := finalText + [ToolMarker(toolCall.name)];
    if content.JArray? {
      lines := PushTextItems(lines, content.elements);
    } else {
      lines := lines + [JsString(content)];
    }
    assert lines == p.lines + [ToolMarker(toolCall.name)] + Extracted(content);

    var window := messages + [AssistantMessage(responseMessage)];
    var truncatedToolContent := Cap(env.stringify(content));
    window := window + [ToolMessage(toolCall.id, truncatedToolContent)];
    assert window == p.window + TurnMessages(responseMessage, toolCall, truncatedToolContent);
    window := TrimMessages(window, DefaultMaxMessages);

    var secondResponse := env.chat(k + 1, FollowUpRequest(window));
    if secondResponse.Err? {
      return Err(ModelCallFailed(secondResponse.error));
    }
    var finalResponse := secondResponse.value;
    ghost var before := lines;
    if Truthy(finalResponse.content) {
      lines := lines + [finalResponse.content.value];
    }
    assert lines == before + ContentLines(finalResponse);
    return Ok(Progress(window, lines));
  }

  class MCPClient {
    var transport: Option<StdioTransport>
    var tools: seq<FunctionTool>

    constructor ()
      ensures transport == None && tools == []
    {
      transport := None;
      tools := [];
    }

    /** `connectToServer(serverScriptPath)`. `platform` and `execPath` stand
        for `process.platform` and `process.execPath`; `session` is what
        connecting and `listTools` yield: the listed tools, or the error
        either of them raised. A bad script name fails before the transport
        is touched; a connection failure leaves the transport assigned and
        the tools as they were. */
    method ConnectToServer(serverScriptPath: string, platform: string, execPath: string,
                           session: Result<seq<ToolDescriptor>, string>)
      returns (r: Result<(), ConnectError>)
      modifies this
      ensures ServerCommand(serverScriptPath, platform, execPath).Err? ==>
        && r == Err(UnsupportedScript(UnsupportedScriptMessage))
        && transport == old(transport) && tools == old(tools)
      ensures ServerCommand(serverScriptPath, platform, execPath).Ok? ==>
        && transport == Some(StdioTransport(ServerCommand(serverScriptPath, platform, execPath).value, [serverScriptPath]))
        && (session.Ok? ==> r == Ok(()) && tools == ToolSchemas(session.value))
        && (session.Err? ==> r == Err(ConnectionFailed(session.error)) && tools == old(tools))
    {
      var command := ServerCommand(serverScriptPath, platform, execPath);
      if command.Err? {
        return Err(command.error);
      }
      transport := Some(StdioTransport(command.value, [serverScriptPath]));
      match session {
        case Err(e) =>
          r := Err(ConnectionFailed(e));
        case Ok(listed) =>
          tools := ToolSchemas(listed);
          r := Ok(());
      }
    }

    /** `processQuery(query)`, against the model, tool host and JSON codec in
        `env`: the answer is the specification's, failures included. */
    method ProcessQuery(query: string, env: Environment) returns (answer: Result<string, Failure>)
      ensures answer == QueryAnswer(env, tools, query)
    {
      var messages := [UserMessage(query)];
      var completion := env.chat(0, FirstRequest(query, tools));
      if completion.Err? {
        return Err(ModelCallFailed(completion.error));
      }
      var responseMessage := completion.value;
      var finalText: seq<string> := [];

      if responseMessage.toolCalls.Some? {
        var calls := responseMessage.toolCalls.value;
        ghost var p0 := InitialProgress(query);
        var i := 0;
        while i < |calls|
          invariant 0 <= i <= |calls|
          invariant ToolTurns(env, responseMessage, calls[..i], p0) == Ok(Progress(messages, finalText))
        {
          var round := RunToolCall(env, responseMessage, i, calls[i], messages, finalText);
          ToolTurnsStep(env, responseMessage, calls, p0, i, Progress(messages, finalText));
          if round.Err? {
            ToolTurnsFailureFinal(env, responseMessage, calls, p0, i + 1);
            return Err(round.error);
          }
          messages, finalText := round.value.window, round.value.lines;
          i := i + 1;
        }
        assert calls[..i] == calls;
      } else if Truthy(responseMessage.content) {
        finalText := finalText + [responseMessage.content.value];
      }

      answer := Ok(Join(finalText, "\n"));
    }
  }
}
