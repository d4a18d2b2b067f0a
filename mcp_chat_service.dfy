/**
 * The chat service of the Blazor front end: the conversation history it
 * keeps for the chat model, and the MCP tools it offers that model.
 *
 * The chat model is a parameter: the reply it gives to one request, or
 * the stream of update texts it produces. The HTTP call that lists the
 * MCP tools is a parameter too: the response it gives, if any.
 */
module McpChat {
  import opened Wrappers
  import opened Strings

  datatype ChatRole = System | User | Assistant

  datatype ChatMessage = ChatMessage(role: ChatRole, text: string)

  /** A tool as the MCP server lists it; the input schema is its JSON text. */
  datatype McpTool = McpTool(name: string, description: string, inputSchema: string)

  /** The model-side function AIFunctionFactory.Create builds for a tool: its name and description. */
  datatype AITool = AITool(name: string, description: string)

  /** The body of `GET api/mcp/tools`; its tool list may be null in the JSON. */
  datatype McpToolsResponse = McpToolsResponse(tools: Option<seq<McpTool>>)

  /** What the chat model does with one request. */
  datatype ChatReply = Replied(text: string) | ChatThrew(message: string)

  const SystemPrompt := "You are an intelligent OData reporting assistant. You have access to MCP (Model Context Protocol) tools that allow you to query and explore OData data sources.\n"
    + "\n"
    + "When users ask questions about their data:\n"
    + "1. Use the GetData tool to execute OData queries against the reporting database\n"
    + "2. Always use GetODataMetadata first to understand available entity sets if needed\n"
    + "3. Format your queries using proper OData syntax with $filter, $select, $orderby, etc.\n"
    + "4. Present results in a clear, readable format\n"
    + "5. Explain what data you retrieved and what it means\n"
    + "\n"
    + "Always try to be helpful and provide insights from the data. If a query fails, explain why and suggest alternatives."

  const SystemMessage := ChatMessage(System, SystemPrompt)

  /**
   * The shape every history keeps: the system prompt first, no other
   * system message, and every assistant reply right after a user message.
   */
  ghost predicate WellFormed(history: seq<ChatMessage>) {
    && (|history| > 0 ==> history[0] == SystemMessage)
    && (forall i :: 0 < i < |history| ==> history[i].role != System)
    && (forall i :: 0 <= i < |history| && history[i].role == Assistant ==> i > 0 && history[i - 1].role == User)
  }

  /** The history a request is sent with: the system prompt first if the history was empty, then the user message. */
  function WithUserMessage(history: seq<ChatMessage>, userMessage: string): (r: seq<ChatMessage>)
    ensures |r| > 0 && r[|r| - 1] == ChatMessage(User, userMessage)
    ensures |history| == 0 ==> r == [SystemMessage, ChatMessage(User, userMessage)]
    ensures |history| > 0 ==> r == history + [ChatMessage(User, userMessage)]
  {
    (if |history| == 0 then [SystemMessage] else history) + [ChatMessage(User, userMessage)]
  }

  /** The history after one SendMessageAsync: the reply appended as an assistant message, unless the call threw. */
  function AfterSend(history: seq<ChatMessage>, userMessage: string, reply: ChatReply): seq<ChatMessage> {
    var sent := WithUserMessage(history, userMessage);
    match reply
    case Replied(text) => sent + [ChatMessage(Assistant, text)]
    case ChatThrew(_) => sent
  }

  /** The tools passed with a request: the list when it is non-empty, otherwise none. */
  function ToolsOption(tools: seq<AITool>): (r: Option<seq<AITool>>)
    ensures r.Some? <==> |tools| > 0
    ensures r.Some? ==> r.value == tools
  {
    if |tools| > 0 then Some(tools) else None
  }

  /** Texts concatenated in order. */
  function Concat(texts: seq<string>): string
    decreases |texts|
  {
    if |texts| == 0 then "" else Concat(texts[..|texts| - 1]) + texts[|texts| - 1]
  }

  /** The streamed history: the user message, then, once the stream has ended, the concatenated reply. */
  function AfterStream(history: seq<ChatMessage>, userMessage: string, updates: seq<string>, completed: bool): seq<ChatMessage> {
    var sent := WithUserMessage(history, userMessage);
    if completed then sent + [ChatMessage(Assistant, Concat(updates))] else sent
  }

  /** Sending keeps the shape of the history and only ever adds to it. */
  lemma WithUserMessageKeepsShape(history: seq<ChatMessage>, userMessage: string)
    requires WellFormed(history)
    ensures WellFormed(WithUserMessage(history, userMessage))
    ensures |history| > 0 ==> WithUserMessage(history, userMessage)[..|history|] == history
  {
    var r := WithUserMessage(history, userMessage);
    assert r[|r| - 1].role == User;
    if |history| > 0 {
      assert r[..|history|] == history;
    }
  }

  lemma AppendReplyKeepsShape(sent: seq<ChatMessage>, text: string)
    requires WellFormed(sent) && |sent| > 0 && sent[|sent| - 1].role == User
    ensures WellFormed(sent + [ChatMessage(Assistant, text)])
  {
  }

  /**
   * A send adds the system prompt only to an empty history, then the user
   * message, then the reply when there is one; the history keeps its shape.
   */
  lemma AfterSendShape(history: seq<ChatMessage>, userMessage: string, reply: ChatReply)
    requires WellFormed(history)
    ensures WellFormed(AfterSend(history, userMessage, reply))
    ensures var h := AfterSend(history, userMessage, reply);
      && h[0] == SystemMessage
      && (reply.Replied? ==>
            && |h| == |WithUserMessage(history, userMessage)| + 1
            && h[|h| - 2] == ChatMessage(User, userMessage)
            && h[|h| - 1] == ChatMessage(Assistant, reply.text))
      && (reply.ChatThrew? ==> h[|h| - 1] == ChatMessage(User, userMessage))
  {
    WithUserMessageKeepsShape(history, userMessage);
    if reply.Replied? {
      AppendReplyKeepsShape(WithUserMessage(history, userMessage), reply.text);
    }
  }

  /** After clearing, the next send starts again from the system prompt. */
  lemma SendAfterClear(userMessage: string, reply: ChatReply)
    ensures AfterSend([], userMessage, reply)[..2] == [SystemMessage, ChatMessage(User, userMessage)]
  {
  }

  /** A streamed exchange keeps the shape of the history as well. */
  lemma AfterStreamShape(history: seq<ChatMessage>, userMessage: string, updates: seq<string>, completed: bool)
    requires WellFormed(history)
    ensures WellFormed(AfterStream(history, userMessage, updates, completed))
  {
    WithUserMessageKeepsShape(history, userMessage);
    if completed {
      AppendReplyKeepsShape(WithUserMessage(history, userMessage), Concat(updates));
    }
  }

  /** Concatenating a stream in two pieces and joining the results gives the concatenation of the whole. */
  lemma {:induction false} ConcatAppend(a: seq<string>, b: seq<string>)
    ensures Concat(a + b) == Concat(a) + Concat(b)
    decreases |b|
  {
    if |b| == 0 {
      assert a + b == a;
    } else {
      var b0 := b[..|b| - 1];
      assert (a + b)[..|a + b| - 1] == a + b0;
      assert (a + b)[|a + b| - 1] == b[|b| - 1];
      ConcatAppend(a, b0);
      ConcatAssoc(Concat(a), Concat(b0), b[|b| - 1]);
    }
  }

  /** The AITool for an MCP tool: CreateFunctionFromMcpTool keeps its name and description. */
  function AsAITool(tool: McpTool): AITool {
    AITool(tool.name, tool.description)
  }

  /** The converted tools: every tool whose conversion does not fail, in input order. */
  function Converted(tools: seq<McpTool>, fails: McpTool -> bool): (r: seq<AITool>)
    ensures |r| <= |tools|
    decreases |tools|
  {
    if |tools| == 0 then []
    else
      var init := tools[..|tools| - 1];
      var last := tools[|tools| - 1];
      Converted(init, fails) + (if fails(last) then [] else [AsAITool(last)])
  }

  /** Exactly the tools whose conversion succeeds are converted. */
  lemma {:induction false} ConvertedMembers(tools: seq<McpTool>, fails: McpTool -> bool)
    ensures forall a :: a in Converted(tools, fails) ==> exists t :: t in tools && !fails(t) && a == AsAITool(t)
    ensures forall t :: t in tools && !fails(t) ==> AsAITool(t) in Converted(tools, fails)
    decreases |tools|
  {
    if |tools| > 0 {
      var init := tools[..|tools| - 1];
      var last := tools[|tools| - 1];
      assert tools == init + [last];
      ConvertedMembers(init, fails);
    }
  }

  /** Converting a list piece by piece gives the conversion of the whole, so input order is kept. */
  lemma {:induction false} ConvertedAppend(a: seq<McpTool>, b: seq<McpTool>, fails: McpTool -> bool)
    ensures Converted(a + b, fails) == Converted(a, fails) + Converted(b, fails)
    decreases |b|
  {
    if |b| == 0 {
      assert a + b == a;
    } else {
      assert (a + b)[..|a + b| - 1] == a + b[..|b| - 1];
      ConvertedAppend(a, b[..|b| - 1], fails);
    }
  }

  /** When no conversion fails, every tool is converted, at its own position. */
  lemma {:induction false} ConvertedAll(tools: seq<McpTool>, fails: McpTool -> bool)
    requires forall t :: t in tools ==> !fails(t)
    ensures |Converted(tools, fails)| == |tools|
    ensures forall i :: 0 <= i < |tools| ==> Converted(tools, fails)[i] == AsAITool(tools[i])
    decreases |tools|
  {
    if |tools| > 0 {
      var init := tools[..|tools| - 1];
      assert forall t :: t in init ==> t in tools;
      ConvertedAll(init, fails);
    }
  }

  /**
   * ConvertToolsToAITools: convert tool by tool, skipping a tool whose
   * conversion throws. `fails` says which ones do.
   */
  method ConvertToolsToAITools(tools: seq<McpTool>, fails: McpTool -> bool) returns (aiTools: seq<AITool>)
    ensures aiTools == Converted(tools, fails)
  {
    aiTools := [];
    for i := 0 to |tools|
      invariant aiTools == Converted(tools[..i], fails)
    {
      assert tools[..i + 1] == tools[..i] + [tools[i]];
      assert tools[..i + 1][..i] == tools[..i];
      if !fails(tools[i]) {
        aiTools := aiTools + [AsAITool(tools[i])];
      }
    }
    assert tools[..|tools|] == tools;
  }

  class McpChatService {
    var conversationHistory: seq<ChatMessage>
    var availableTools: seq<AITool>

    ghost predicate Valid()
      reads this
    {
      WellFormed(conversationHistory)
    }

    constructor ()
      ensures Valid()
      ensures conversationHistory == [] && availableTools == []
    {
      conversationHistory := [];
      availableTools := [];
    }

    /**
     * InitializeToolsAsync with the tools listing `toolsResponse` (none
     * when the request failed): the tools are replaced only when the
     * listing has a tool list.
     */
    method InitializeToolsAsync(toolsResponse: Option<McpToolsResponse>, fails: McpTool -> bool)
      modifies this
      ensures conversationHistory == old(conversationHistory)
      ensures toolsResponse.Some? && toolsResponse.value.tools.Some? ==>
        availableTools == Converted(toolsResponse.value.tools.value, fails)
      ensures !(toolsResponse.Some? && toolsResponse.value.tools.Some?) ==> availableTools == old(availableTools)
    {
      if toolsResponse.Some? && toolsResponse.value.tools.Some? {
        availableTools := ConvertToolsToAITools(toolsResponse.value.tools.value, fails);
      }
    }

    /**
     * SendMessageAsync: record the user message (after the system prompt
     * when the history is empty), send the history with the tools, and
     * record the reply. Returns the reply text, none when the call threw,
     * with the history and the tools the request carried.
     */
    method SendMessageAsync(userMessage: string, reply: ChatReply)
      returns (response: Option<string>, sentHistory: seq<ChatMessage>, tools: Option<seq<AITool>>)
      requires Valid()
      modifies this
      ensures Valid()
      ensures sentHistory == WithUserMessage(old(conversationHistory), userMessage)
      ensures tools == ToolsOption(availableTools)
      ensures conversationHistory == AfterSend(old(conversationHistory), userMessage, reply)
      ensures response.Some? <==> reply.Replied?
      ensures response.Some? ==> response.value == reply.text
      ensures availableTools == old(availableTools)
    {
      AfterSendShape(conversationHistory, userMessage, reply);
      if |conversationHistory| == 0 {
        conversationHistory := conversationHistory + [SystemMessage];
      }
      conversationHistory := conversationHistory + [ChatMessage(User, userMessage)];
      tools := if |availableTools| > 0 then Some(availableTools) else None;
      sentHistory := conversationHistory;
      match reply
      case Replied(text) =>
        conversationHistory := conversationHistory + [ChatMessage(Assistant, text)];
        response := Some(text);
      case ChatThrew(_) =>
        response := None;
    }

    /**
     * StreamMessageAsync: record the user message as a send does, yield
     * every update of the stream and accumulate its text; once the stream
     * has ended (`completed`), record the accumulated text as the reply.
     * A stream that breaks off propagates its exception and records none.
     */
    method StreamMessageAsync(userMessage: string, updates: seq<string>, completed: bool)
      returns (yielded: seq<string>, sentHistory: seq<ChatMessage>, tools: Option<seq<AITool>>)
      requires Valid()
      modifies this
      ensures Valid()
      ensures yielded == updates
      ensures sentHistory == WithUserMessage(old(conversationHistory), userMessage)
      ensures tools == ToolsOption(availableTools)
      ensures conversationHistory == AfterStream(old(conversationHistory), userMessage, updates, completed)
      ensures availableTools == old(availableTools)
    {
      AfterStreamShape(conversationHistory, userMessage, updates, completed);
      if |conversationHistory| == 0 {
        conversationHistory := conversationHistory + [SystemMessage];
      }
      conversationHistory := conversationHistory + [ChatMessage(User, userMessage)];
      sentHistory := conversationHistory;
      var responseText := "";
      tools := if |availableTools| > 0 then Some(availableTools) else None;
      yielded := [];
      for i := 0 to |updates|
        invariant responseText == Concat(updates[..i])
        invariant yielded == updates[..i]
      {
        assert updates[..i + 1][..i] == updates[..i];
        responseText := responseText + updates[i];
        yielded := yielded + [updates[i]];
      }
      assert updates[..|updates|] == updates;
      if completed {
        conversationHistory := conversationHistory + [ChatMessage(Assistant, responseText)];
      }
    }

    /** ClearConversationHistory: the history is emptied; the tools stay. */
    method ClearConversationHistory()
      requires Valid()
      modifies this
      ensures Valid()
      ensures conversationHistory == []
      ensures availableTools == old(availableTools)
    {
      conversationHistory := [];
    }
  }
}
