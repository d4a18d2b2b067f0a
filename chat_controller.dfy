/**
 * The chat API controller of the Blazor front end: which MCP tools a chat
 * message suggests, the canned reply built from those suggestions, and
 * the request validation of the `process` and `execute-tool` endpoints.
 *
 * Messages and tool names arrive as JSON, so each may be null: they are
 * `Option<string>` here. The MCP server behind `ExecuteToolAsync` is a
 * parameter: what that call gives back.
 */
module ChatController {
  import opened Wrappers
  import opened Strings

  const MetadataTool := "GetODataMetadata"
  const DataTool := "GetData"

  /** The words that make a message ask about the available data. */
  const MetadataKeywords: seq<string> := ["metadata", "what data", "available", "entities", "schema"]

  /** The words that make a message ask for data. */
  const DataKeywords: seq<string> := ["show", "get", "fetch", "query", "data", "list"]

  const Greeting := "I'll help you with your OData query. "
  const MetadataSentence := "I'm retrieving the available metadata to show you what data entities are available. "
  const DataSentence := "I'm executing a query to fetch the data you're looking for. "
  const NoSuggestionClosing := "Please ask me about the available data, or request specific information from the OData API."
  const SuggestionClosing := "Processing your request..."

  const EmptyMessageError := "Message cannot be empty"
  const MissingToolNameError := "Tool name is required"
  const ToolFailedError := "Failed to execute tool"

  /** `text` contains at least one of `words`. */
  predicate MentionsAny(text: string, words: seq<string>) {
    exists i :: 0 <= i < |words| && Contains(text, words[i])
  }

  predicate NoDuplicates(xs: seq<string>) {
    forall i, j :: 0 <= i < j < |xs| ==> xs[i] != xs[j]
  }

  /** Enumerable.Distinct: every element once; a list without duplicates comes back unchanged. */
  function Distinct(xs: seq<string>): (r: seq<string>)
    ensures forall x :: x in r <==> x in xs
    ensures NoDuplicates(r)
    ensures NoDuplicates(xs) ==> r == xs
    decreases |xs|
  {
    if |xs| == 0 then []
    else
      var init := xs[..|xs| - 1];
      var last := xs[|xs| - 1];
      assert xs == init + [last];
      var d := Distinct(init);
      if last in d then d else d + [last]
  }

  /** The list the two keyword tests build: the metadata tool if the first holds, then the data tool if the second does. */
  function Picked(metadata: bool, data: bool): seq<string> {
    (if metadata then [MetadataTool] else []) + (if data then [DataTool] else [])
  }

  /** The tools a message suggests, as AnalyzeSuggestedTools computes them. */
  function SuggestedTools(message: string): seq<string> {
    var lower := ToLower(message);
    Distinct(Picked(MentionsAny(lower, MetadataKeywords), MentionsAny(lower, DataKeywords)))
  }

  /** The picked list holds each tool exactly when its test held, once, metadata first. */
  lemma PickedShape(metadata: bool, data: bool)
    ensures var s := Distinct(Picked(metadata, data));
      && s == Picked(metadata, data)
      && (MetadataTool in s <==> metadata)
      && (DataTool in s <==> data)
      && (forall x :: x in s ==> x == MetadataTool || x == DataTool)
      && NoDuplicates(s)
      && |s| <= 2
      && (forall i, j :: 0 <= i < |s| && 0 <= j < |s| && s[i] == MetadataTool && s[j] == DataTool ==> i < j)
  {
    var p := Picked(metadata, data);
    assert MetadataTool != DataTool by {
      assert |MetadataTool| != |DataTool|;
    }
    if metadata && data {
      assert p == [MetadataTool, DataTool];
    } else if metadata {
      assert p == [MetadataTool];
    } else if data {
      assert p == [DataTool];
    } else {
      assert p == [];
    }
    assert NoDuplicates(p);
  }

  /**
   * The metadata tool is suggested exactly when the lower-cased message
   * names one of the metadata words, the data tool exactly when it names
   * one of the data words; nothing else is suggested, nothing twice, and
   * the metadata tool comes first.
   */
  lemma SuggestionRules(message: string)
    ensures var s := SuggestedTools(message);
      && (MetadataTool in s <==> MentionsAny(ToLower(message), MetadataKeywords))
      && (DataTool in s <==> MentionsAny(ToLower(message), DataKeywords))
      && (forall x :: x in s ==> x == MetadataTool || x == DataTool)
      && NoDuplicates(s)
      && |s| <= 2
      && (forall i, j :: 0 <= i < |s| && 0 <= j < |s| && s[i] == MetadataTool && s[j] == DataTool ==> i < j)
  {
    var lower := ToLower(message);
    PickedShape(MentionsAny(lower, MetadataKeywords), MentionsAny(lower, DataKeywords));
  }

  /** AnalyzeSuggestedTools: lower-case the message, test the two keyword lists, then Distinct. */
  method AnalyzeSuggestedTools(message: string) returns (suggestedTools: seq<string>)
    ensures suggestedTools == SuggestedTools(message)
  {
    var tools: seq<string> := [];
    var lowerMessage := ToLower(message);
    if Contains(lowerMessage, "metadata") ||
       Contains(lowerMessage, "what data") ||
       Contains(lowerMessage, "available") ||
       Contains(lowerMessage, "entities") ||
       Contains(lowerMessage, "schema")
    {
      tools := tools + [MetadataTool];
    }
    MentionsMetadataKeywords(lowerMessage);
    ghost var metadata := MentionsAny(lowerMessage, MetadataKeywords);
    assert tools == Picked(metadata, false);
    if Contains(lowerMessage, "show") ||
       Contains(lowerMessage, "get") ||
       Contains(lowerMessage, "fetch") ||
       Contains(lowerMessage, "query") ||
       Contains(lowerMessage, "data") ||
       Contains(lowerMessage, "list")
    {
      tools := tools + [DataTool];
    }
    MentionsDataKeywords(lowerMessage);
    assert tools == Picked(metadata, MentionsAny(lowerMessage, DataKeywords));
    suggestedTools := Distinct(tools);
  }

  /** The chain of Contains tests over the metadata words is MentionsAny of that list. */
  lemma MentionsMetadataKeywords(text: string)
    ensures MentionsAny(text, MetadataKeywords) <==>
      (Contains(text, "metadata") || Contains(text, "what data") || Contains(text, "available")
       || Contains(text, "entities") || Contains(text, "schema"))
  {
    var w := MetadataKeywords;
    assert w[0] == "metadata" && w[1] == "what data" && w[2] == "available" && w[3] == "entities" && w[4] == "schema";
  }

  /** The chain of Contains tests over the data words is MentionsAny of that list. */
  lemma MentionsDataKeywords(text: string)
    ensures MentionsAny(text, DataKeywords) <==>
      (Contains(text, "show") || Contains(text, "get") || Contains(text, "fetch")
       || Contains(text, "query") || Contains(text, "data") || Contains(text, "list"))
  {
    var w := DataKeywords;
    assert w[0] == "show" && w[1] == "get" && w[2] == "fetch" && w[3] == "query" && w[4] == "data" && w[5] == "list";
  }

  /** The reply GenerateAiResponse composes for a list of suggested tools. */
  function Reply(suggestedTools: seq<string>): string {
    Greeting
    + (if MetadataTool in suggestedTools then MetadataSentence else "")
    + (if DataTool in suggestedTools then DataSentence else "")
    + (if |suggestedTools| == 0 then NoSuggestionClosing else SuggestionClosing)
  }

  /** GenerateAiResponse: start from the greeting and append sentence by sentence. */
  method GenerateAiResponse(userMessage: string, suggestedTools: seq<string>) returns (response: string)
    ensures response == Reply(suggestedTools)
  {
    ghost var metadata := if MetadataTool in suggestedTools then MetadataSentence else "";
    ghost var data := if DataTool in suggestedTools then DataSentence else "";
    response := Greeting;
    if MetadataTool in suggestedTools {
      response := response + MetadataSentence;
    }
    assert response == Greeting + metadata;
    if DataTool in suggestedTools {
      response := response + DataSentence;
    }
    assert response == Greeting + metadata + data;
    if |suggestedTools| == 0 {
      response := response + NoSuggestionClosing;
    } else {
      response := response + SuggestionClosing;
    }
  }

  /** The two closing sentences differ in their last-but-one character, so neither ends with the other. */
  lemma ClosingsDiffer()
    ensures !EndsWith(SuggestionClosing, NoSuggestionClosing)
    ensures !EndsWith(NoSuggestionClosing, SuggestionClosing)
  {
    var n := NoSuggestionClosing;
    var p := SuggestionClosing;
    assert |p| < |n|;
    assert n[|n| - |p|..][|p| - 2] == n[|n| - 2] != p[|p| - 2];
  }

  /** A text closed by one of two endings, neither a suffix of the other, ends with exactly that one. */
  lemma EndsWithOneOf(body: string, closing: string, p: string, n: string)
    requires closing == p || closing == n
    requires |p| <= |n| && !EndsWith(n, p)
    ensures EndsWith(body + closing, p) <==> closing == p
    ensures EndsWith(body + closing, n) <==> closing == n
  {
    EndsWithItself(closing);
    EndsWithAppended(body, closing, p);
    if closing == p {
      EndsWithLonger(body, closing, n);
    } else {
      EndsWithAppended(body, closing, n);
    }
  }

  /**
   * The reply opens with the greeting and closes with "Processing your
   * request..." exactly when something was suggested, with the "Please
   * ask me..." sentence exactly when nothing was.
   */
  lemma ReplyFrame(suggestedTools: seq<string>)
    ensures StartsWith(Reply(suggestedTools), Greeting)
    ensures EndsWith(Reply(suggestedTools), SuggestionClosing) <==> |suggestedTools| > 0
    ensures EndsWith(Reply(suggestedTools), NoSuggestionClosing) <==> |suggestedTools| == 0
  {
    var m := if MetadataTool in suggestedTools then MetadataSentence else "";
    var d := if DataTool in suggestedTools then DataSentence else "";
    var closing := if |suggestedTools| == 0 then NoSuggestionClosing else SuggestionClosing;
    assert Reply(suggestedTools) == Greeting + m + d + closing;
    ClosingsDiffer();
    EndsWithOneOf(Greeting + m + d, closing, SuggestionClosing, NoSuggestionClosing);
    ConcatAssoc(Greeting, m, d);
    ConcatAssoc(Greeting, m + d, closing);
    StartsWithConcat(Greeting, m + d + closing);
  }

  /**
   * The reply tells which sentences it was built from: two suggestion
   * lists with the same reply agree on whether the metadata tool, the
   * data tool, or anything at all was suggested.
   */
  lemma ReplyDeterminesSuggestions(s1: seq<string>, s2: seq<string>)
    requires Reply(s1) == Reply(s2)
    ensures MetadataTool in s1 <==> MetadataTool in s2
    ensures DataTool in s1 <==> DataTool in s2
    ensures |s1| == 0 <==> |s2| == 0
  {
    assert |Reply(s1)| == |Reply(s2)|;
  }

  datatype ChatMessageResponse = ChatMessageResponse(response: string, suggestedTools: seq<string>)

  datatype ToolExecutionResponse = ToolExecutionResponse(success: bool, result: string, error: Option<string>)

  /** What an endpoint answers: 400 with an error object, 200 with a body, or 500 with a body. */
  datatype ActionResult<T> =
    | BadRequest(error: string)
    | Ok(body: T)
    | ServerError(body: T)

  /** POST process: reject a blank message, otherwise suggest tools and reply. */
  method ProcessMessage(message: Option<string>) returns (result: ActionResult<ChatMessageResponse>)
    ensures IsNullOrWhiteSpace(message) <==> result == BadRequest(EmptyMessageError)
    ensures !IsNullOrWhiteSpace(message) ==>
      result == Ok(ChatMessageResponse(Reply(SuggestedTools(message.value)), SuggestedTools(message.value)))
  {
    if IsNullOrWhiteSpace(message) {
      return BadRequest(EmptyMessageError);
    }
    var suggestedTools := AnalyzeSuggestedTools(message.value);
    var response := GenerateAiResponse(message.value, suggestedTools);
    result := Ok(ChatMessageResponse(response, suggestedTools));
  }

  /** What McpChatService.ExecuteToolAsync gives: a response (null when the call failed) or an exception. */
  datatype ToolCallOutcome =
    | Returned(response: Option<ToolExecutionResponse>)
    | CallThrew(message: string)

  /** The tool call ExecuteTool makes: the tool name and input it forwards. */
  datatype ToolCall = ToolCall(toolName: string, input: string)

  /**
   * POST execute-tool: reject a blank tool name without calling the
   * service; otherwise forward the call and answer 200 with its response,
   * or 500 with an unsuccessful response when it gave none or threw.
   */
  method ExecuteTool(toolName: Option<string>, input: string, outcome: ToolCallOutcome)
    returns (result: ActionResult<ToolExecutionResponse>, call: Option<ToolCall>)
    ensures IsNullOrWhiteSpace(toolName) <==> call == None
    ensures IsNullOrWhiteSpace(toolName) ==> result == BadRequest(MissingToolNameError)
    ensures call.Some? ==> call.value == ToolCall(toolName.value, input)
    ensures call.Some? && outcome == Returned(None) ==>
      result == ServerError(ToolExecutionResponse(false, "", Some(ToolFailedError)))
    ensures call.Some? && outcome.Returned? && outcome.response.Some? ==>
      result == Ok(outcome.response.value)
    ensures call.Some? && outcome.CallThrew? ==>
      result == ServerError(ToolExecutionResponse(false, "", Some(outcome.message)))
  {
    if IsNullOrWhiteSpace(toolName) {
      return BadRequest(MissingToolNameError), None;
    }
    call := Some(ToolCall(toolName.value, input));
    match outcome
    case CallThrew(message) =>
      result := ServerError(ToolExecutionResponse(false, "", Some(message)));
    case Returned(None) =>
      result := ServerError(ToolExecutionResponse(false, "", Some(ToolFailedError)));
    case Returned(Some(toolResponse)) =>
      result := Ok(toolResponse);
  }
}
