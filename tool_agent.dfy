/**
 * The single-round tool agent the three information agents run: one decision call to
 * the model, at most one round of tool calls, then one summary call.  The model, the
 * tools and `json.loads` are parameters.
 */
module ToolAgent {
  import opened Wrappers
  import opened PyValues

  /** One entry of `response.tool_calls`: the tool's name, its raw arguments and the call id. */
  datatype ToolCall = ToolCall(name: string, args: PyValue, id: string)

  /** What the model answers: text and the tool calls it asks for. */
  datatype AIReply = AIReply(content: string, toolCalls: seq<ToolCall>)

  datatype ChatMessage =
    | Human(content: string)
    | Assistant(reply: AIReply)
    | ToolMessage(content: string, toolCallId: string)

  /** A tool call either returns a value or raises an exception with a message. */
  datatype ToolResult = Returned(value: PyValue) | Raised(error: string)

  /** A tool: its name, its asynchronous entry point when it has one, and its synchronous one. */
  datatype Tool = Tool(name: string, ainvoke: Option<PyValue -> ToolResult>, invoke: PyValue -> ToolResult)

  const ToolNotFound: string := "Tool not found."
  const ToolErrorPrefix: string := "Tool execution error: "

  /**
   * String arguments are decoded as JSON when they parse and kept as the raw string
   * when they do not; arguments of any other type are used as they are.
   */
  function ParseArgs(args: PyValue, loads: string -> Option<PyValue>): (r: PyValue)
    ensures !args.PyStr? ==> r == args
    ensures args.PyStr? && loads(args.s).Some? ==> r == loads(args.s).value
    ensures args.PyStr? && loads(args.s).None? ==> r == args
  {
    if args.PyStr? then
      match loads(args.s)
      case Some(v) => v
      case None => args
    else args
  }

  /** The position of the first tool named `name`, or `|tools|` when there is none. */
  function FirstMatch(tools: seq<Tool>, name: string): (k: nat)
    ensures k <= |tools|
    ensures forall j :: 0 <= j < k ==> tools[j].name != name
    ensures k < |tools| ==> tools[k].name == name
  {
    if tools == [] then 0
    else if tools[0].name == name then 0
    else 1 + FirstMatch(tools[1..], name)
  }

  /** `next((t for t in tools_list if t.name == tool_name), None)`. */
  function FindTool(tools: seq<Tool>, name: string): (r: Option<Tool>)
    ensures r.None? <==> forall i :: 0 <= i < |tools| ==> tools[i].name != name
    ensures r.Some? ==> exists i :: 0 <= i < |tools| && tools[i] == r.value && r.value.name == name
                                    && forall j :: 0 <= j < i ==> tools[j].name != name
  {
    var k := FirstMatch(tools, name);
    if k < |tools| then Some(tools[k]) else None
  }

  /** Awaiting `ainvoke` when the tool has it, calling `invoke` otherwise. */
  function Call(t: Tool, args: PyValue): ToolResult
  {
    match t.ainvoke
    case Some(f) => f(args)
    case None => t.invoke(args)
  }

  /** The text of the tool message answering one call. */
  function ToolOutput(tc: ToolCall, tools: seq<Tool>, loads: string -> Option<PyValue>): (out: string)
    ensures (forall i :: 0 <= i < |tools| ==> tools[i].name != tc.name) ==> out == ToolNotFound
    ensures FindTool(tools, tc.name).Some? ==>
      match Call(FindTool(tools, tc.name).value, ParseArgs(tc.args, loads))
      case Returned(v) => out == Str(v)
      case Raised(e) => out == ToolErrorPrefix + e
  {
    match FindTool(tools, tc.name)
    case None => ToolNotFound
    case Some(t) =>
      match Call(t, ParseArgs(tc.args, loads))
      case Returned(v) => Str(v)
      case Raised(e) => ToolErrorPrefix + e
  }

  /** The tool messages for `calls`, one per call in call order, each with its call's id. */
  function ToolMessages(calls: seq<ToolCall>, tools: seq<Tool>, loads: string -> Option<PyValue>): (ms: seq<ChatMessage>)
    ensures |ms| == |calls|
    ensures forall i :: 0 <= i < |calls| ==>
      ms[i] == ToolMessage(ToolOutput(calls[i], tools, loads), calls[i].id)
  {
    if calls == [] then []
    else
      var n := |calls| - 1;
      ToolMessages(calls[..n], tools, loads) + [ToolMessage(ToolOutput(calls[n], tools, loads), calls[n].id)]
  }

  lemma ToolMessagesSnoc(calls: seq<ToolCall>, i: nat, tools: seq<Tool>, loads: string -> Option<PyValue>)
    requires i < |calls|
    ensures ToolMessages(calls[..i + 1], tools, loads)
            == ToolMessages(calls[..i], tools, loads) + [ToolMessage(ToolOutput(calls[i], tools, loads), calls[i].id)]
  {
    assert calls[..i + 1][..i] == calls[..i];
  }

  /** The body of the loop over tool calls: decode the arguments, find the tool, run it. */
  method AnswerCall(tc: ToolCall, tools: seq<Tool>, loads: string -> Option<PyValue>) returns (content: string)
    ensures content == ToolOutput(tc, tools, loads)
  {
    var toolArgs := tc.args;
    if toolArgs.PyStr? {
      match loads(toolArgs.s)
      case Some(v) => toolArgs := v;
      case None =>
    }
    var selected := FindTool(tools, tc.name);
    var toolOutput := PyStr(ToolNotFound);
    if selected.Some? {
      var result := Call(selected.value, toolArgs);
      match result
      case Returned(v) => toolOutput := v;
      case Raised(e) => toolOutput := PyStr(ToolErrorPrefix + e);
    }
    content := Str(toolOutput);
  }

  /** The loop over `response.tool_calls`: one tool message per call, appended in call order. */
  method AppendToolMessages(start: seq<ChatMessage>, calls: seq<ToolCall>, tools: seq<Tool>,
                            loads: string -> Option<PyValue>)
    returns (messages: seq<ChatMessage>)
    ensures messages == start + ToolMessages(calls, tools, loads)
  {
    messages := start;
    var i := 0;
    while i < |calls|
      invariant 0 <= i <= |calls|
      invariant messages == start + ToolMessages(calls[..i], tools, loads)
    {
      var tc := calls[i];
      var content := AnswerCall(tc, tools, loads);
      ToolMessagesSnoc(calls, i, tools, loads);
      messages := messages + [ToolMessage(content, tc.id)];
      i := i + 1;
    }
    assert calls[..i] == calls;
  }

  /**
   * `run_simple_tool_agent`.  `llm` stands for the model with the tools bound; `sent`
   * lists the message lists it was called with, in order.  Only the tool calls are
   * guarded: an `Err` from either model call is an exception that leaves the agent,
   * and `answer` is then that `Err`.
   */
  method RunSimpleToolAgent(prompt: string, tools: seq<Tool>, llm: seq<ChatMessage> -> Result<AIReply>,
                            loads: string -> Option<PyValue>)
    returns (answer: Result<string>, messages: seq<ChatMessage>, sent: seq<seq<ChatMessage>>)
    ensures var first := llm([Human(prompt)]);
      && |sent| >= 1 && sent[0] == [Human(prompt)]
      && (first.Err? ==>
            && sent == [[Human(prompt)]]
            && messages == [Human(prompt)]
            && answer == Err(first.error))
      && (first.Ok? && first.value.toolCalls == [] ==>
            && sent == [[Human(prompt)]]
            && messages == [Human(prompt), Assistant(first.value)]
            && answer == Ok(first.value.content))
      && (first.Ok? && first.value.toolCalls != [] ==>
            && messages == [Human(prompt), Assistant(first.value)] + ToolMessages(first.value.toolCalls, tools, loads)
            && sent == [[Human(prompt)], messages]
            && (llm(messages).Ok? ==> answer == Ok(llm(messages).value.content))
            && (llm(messages).Err? ==> answer == Err(llm(messages).error)))
  {
    messages := [Human(prompt)];
    var first := llm(messages);
    sent := [messages];
    if first.Err? {
      return Err(first.error), messages, sent;
    }
    var response := first.value;
    messages := messages + [Assistant(response)];
    if response.toolCalls != [] {
      messages := AppendToolMessages(messages, response.toolCalls, tools, loads);
      var finalResponse := llm(messages);
      sent := sent + [messages];
      match finalResponse
      case Err(e) => answer := Err(e);
      case Ok(r) => answer := Ok(r.content);
    } else {
      answer := Ok(response.content);
    }
  }

  /** A later tool with the same name is never used: the first one shadows it. */
  lemma FirstToolShadows(tools: seq<Tool>, t: Tool, later: Tool)
    ensures FindTool([t] + tools + [later], t.name) == Some(t)
  {
    assert ([t] + tools + [later])[0] == t;
  }
}
