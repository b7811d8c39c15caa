/** The chat-completion vocabulary the client exchanges with the model: tool
    calls, assistant replies, conversation messages, the function-tool schema
    it offers and the requests it sends. */
module Chat {

  import opened Wrappers
  import opened Json

  /** A tool call the model asks for: its id, the tool's name and the tool's
      arguments as serialized JSON text. */
  datatype ToolCall = ToolCall(id: string, name: string, arguments: string)

  /** The assistant message a chat completion returns (`choices[0].message`):
      optional text and an optional array of tool calls. */
  datatype Reply = Reply(content: Option<string>, toolCalls: Option<seq<ToolCall>>)

  /** A message of the conversation history, tagged by its role. */
  datatype Message =
    | SystemMessage(content: string)
    | UserMessage(content: string)
    | AssistantMessage(reply: Reply)
    | ToolMessage(toolCallId: string, capped: JsText)

  predicate IsSystem(m: Message) {
    m.SystemMessage?
  }

  /** JavaScript truthiness of an optional string: present and not empty. */
  predicate Truthy(s: Option<string>) {
    s.Some? && s.value != ""
  }

  /** A tool as the tool host lists it. The description is optional. */
  datatype ToolDescriptor = ToolDescriptor(name: string, description: Option<string>, inputSchema: Json)

  /** A tool as the model is offered it: `{type, function: {name, description, parameters}}`. */
  datatype FunctionTool = FunctionTool(kind: string, name: string, description: Option<string>, parameters: Json)

  function ToFunctionTool(d: ToolDescriptor): FunctionTool {
    FunctionTool("function", d.name, d.description, d.inputSchema)
  }

  /** The descriptor a function tool was made from. */
  function ToDescriptor(t: FunctionTool): ToolDescriptor {
    ToolDescriptor(t.name, t.description, t.parameters)
  }

  /** The schema list built from the listed tools, one entry per tool. */
  function ToolSchemas(ds: seq<ToolDescriptor>): (r: seq<FunctionTool>)
    ensures |r| == |ds|
    ensures forall i :: 0 <= i < |ds| ==>
      && r[i].kind == "function"
      && r[i].name == ds[i].name
      && r[i].description == ds[i].description
      && r[i].parameters == ds[i].inputSchema
  {
    seq(|ds|, i requires 0 <= i < |ds| => ToFunctionTool(ds[i]))
  }

  function ToDescriptors(ts: seq<FunctionTool>): (r: seq<ToolDescriptor>)
    ensures |r| == |ts|
  {
    seq(|ts|, i requires 0 <= i < |ts| => ToDescriptor(ts[i]))
  }

  /** No tool is dropped, reordered or altered: the listed tools can be read
      back from the schema list. */
  lemma ToolSchemasLossless(ds: seq<ToolDescriptor>)
    ensures ToDescriptors(ToolSchemas(ds)) == ds
  {
    var back := ToDescriptors(ToolSchemas(ds));
    forall i | 0 <= i < |ds|
      ensures back[i] == ds[i]
    {
    }
  }

  /** Distinct tool lists give distinct schema lists. */
  lemma ToolSchemasInjective(a: seq<ToolDescriptor>, b: seq<ToolDescriptor>)
    ensures ToolSchemas(a) == ToolSchemas(b) ==> a == b
  {
    if ToolSchemas(a) == ToolSchemas(b) {
      ToolSchemasLossless(a);
      ToolSchemasLossless(b);
    }
  }

  /** A chat-completion request: model, messages, the offered tools (absent
      on follow-up calls), the response-length cap and the tool-choice policy. */
  datatype ChatRequest = ChatRequest(
    model: string,
    messages: seq<Message>,
    tools: Option<seq<FunctionTool>>,
    maxTokens: nat,
    toolChoice: Option<string>)

  /** A tool invocation sent to the tool host: the tool's name and its parsed arguments. */
  datatype ToolInvocation = ToolInvocation(name: string, arguments: Json)

  const ModelName := "gpt-4o-mini"
  const MaxTokens := 500
}
