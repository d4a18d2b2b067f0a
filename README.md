# McpODataReporting core, modelled in Dafny

McpODataReporting lets a chat assistant report on an OData API. It is built from two parts:

- **MCP function app.** It offers two tools:
  - `GetData` forwards an OData query to the API and returns the answer as text;
  - `GetODataMetadata` returns a text summary of the API's CSDL metadata. That summary is cached for thirty minutes.
- **Blazor front end.** It keeps a conversation history for a chat model and suggests tools from keywords in the message.

This project models the logic those parts implement themselves. One module per source file:

| module | file | what it models |
|---|---|---|
| `MetadataSummary` | `MCP/Services/ODataMetadataService.cs` | the text summary built from a parsed CSDL schema |
| `MetadataCache` | `MCP/Services/ODataMetadataService.cs` | the one-slot, thirty-minute cache around that summary |
| `ChatController` | `mcpODataReporting.Blazor/Controllers/ChatController.cs` | tool suggestion, reply composition, request validation |
| `Registry` | `MCP/Services/ToolRegistry.cs` | the append-only tool registry |
| `DataAccess` | `MCP/Tools/OdataTool.cs` | the `GetData` and `GetODataMetadata` tools |
| `ODataQueryService` | `Services/ODataQueryService.cs` | the split-on-`?` query parser |
| `McpChat` | `mcpODataReporting.Blazor/Services/McpChatService.cs` | the conversation history and the tools offered to the model |

Two shared modules support them:

- `Wrappers` holds the `Option` type.
- `Strings` holds the ordinal .NET string operations the core uses: `StartsWith`, `Contains`, ASCII `ToLower`, `IsNullOrWhiteSpace`, `Join`, `Split(char)`, `Trim(char)`, and `Split('.').Last()`.

The metadata document follows OData Version 4.01 CSDL XML:

- section 6, Entity Type and Key;
- section 7, Structural Property;
- section 8, Navigation Property;
- section 13, Entity Container and Entity Set.

It arrives already parsed, as datatypes of optionally-named records.

Everything outside the program is a parameter of the operation that uses it:

- the clock, as DateTime ticks;
- each HTTP response or exception;
- each chat-model reply or stream of update texts;
- which tool conversions throw.

Where the source updates state, the model is imperative Dafny:

- The cache, the registry and the chat service are classes with the source's fields.
- The `foreach` loops and `StringBuilder` appends are methods with loops and invariants.
- Each method is proved equal to a specification function (`Describe`, `Group`, `SuggestedTools`, `Reply`, `Converted`, `AfterSend`, `AfterStream`, `CacheStep`). The lemmas state the source's promises about that function.

## Model

| member | source | states |
|---|---|---|
| `Strings.StartsWith` | MCP/Tools/OdataTool.cs:33 | the ordinal prefix test holds iff the prefix is no longer than the text and matches it character by character; the text is then the prefix followed by the rest |
| `Strings.IsNullOrWhiteSpace` | mcpODataReporting.Blazor/Controllers/ChatController.cs:36 | null and the empty text are blank; any other text is blank iff every character is white space |
| `Strings.Join` | MCP/Services/ODataMetadataService.cs:171 | no items give the empty text, one item gives itself, two items give the first, the separator and the second |
| `Strings.JoinEnds` | MCP/Services/ODataMetadataService.cs:189 | a joined list starts with its first item and ends with its last |
| `Strings.JoinSnoc` | MCP/Services/ODataMetadataService.cs:200 | joining one more item adds the separator and that item at the end |
| `Strings.ContainsIff` | mcpODataReporting.Blazor/Controllers/ChatController.cs:103-118 | `Contains(s, sub)` holds exactly when `sub` occurs at some index of `s` |
| `Strings.ToLowerNormalises` | mcpODataReporting.Blazor/Controllers/ChatController.cs:100 | lower-casing leaves no ASCII capital and is idempotent |
| `Strings.Split` | Services/ODataQueryService.cs:47 | `Split(c)` gives one piece more than there are `c`s, no piece contains `c`, and joining the pieces with `c` gives the text back |
| `Strings.AfterLastIsSuffix` | MCP/Services/ODataMetadataService.cs:147 | the last `.`-piece is a `.`-free suffix: the whole text when there is no `.`, otherwise preceded by a `.` |
| `Strings.TrimCutsBothEnds` | Services/ODataQueryService.cs:53 | `Trim('/')` is the infix left after cutting off the runs of `/` at both ends; it neither starts nor ends with `/` |
| `MetadataSummary.Group` | MCP/Services/ODataMetadataService.cs:94-105 | each group holds only entity sets of the document that have the group's kind (view when the name starts with `V`) |
| `MetadataSummary.GroupKeepsOrder` | MCP/Services/ODataMetadataService.cs:94-105 | grouping distributes over concatenation, so document order is kept within each group |
| `MetadataSummary.GroupsPartition` | MCP/Services/ODataMetadataService.cs:94-105 | the core group and the view group together are a permutation of the entity sets: each set is in exactly one |
| `MetadataSummary.GroupMembership` | MCP/Services/ODataMetadataService.cs:96-97 | a set is in a group iff it is in the document and has that kind; a missing name counts as `""`, which is core |
| `MetadataSummary.Present` | MCP/Services/ODataMetadataService.cs:165-166 | dropping null names keeps exactly the names that are present, never more entries than there were |
| `MetadataSummary.PresentAppend` | MCP/Services/ODataMetadataService.cs:165-166 | dropping null names works piece by piece, so the present names keep their document order; a present name by itself is kept and a null one dropped |
| `MetadataSummary.FlattenAppend` | MCP/Services/ODataMetadataService.cs:163-164 | the PropertyRef lists are concatenated Key by Key, in document order |
| `MetadataSummary.FlattenMembers` | MCP/Services/ODataMetadataService.cs:163-164 | a name is in the PropertyRef list iff it is under one of the Key elements |
| `MetadataSummary.KeyNamesMembers` | MCP/Services/ODataMetadataService.cs:163-167 | a name is a key name iff some Key element has a PropertyRef with that name |
| `MetadataSummary.KeyNamesInOrder` | MCP/Services/ODataMetadataService.cs:163-167 | the key names are those of the first Keys followed by those of the rest, each Key contributing its present PropertyRef names in order |
| `MetadataSummary.NonKey` | MCP/Services/ODataMetadataService.cs:176 | every kept entry is a property of the type that is not a key, and every such property is kept |
| `MetadataSummary.NonKeyAppend` | MCP/Services/ODataMetadataService.cs:176 | the filter works piece by piece, so the kept properties keep their document order |
| `MetadataSummary.NonKeySingle` | MCP/Services/ODataMetadataService.cs:176 | one property is kept iff it is unnamed or its name is not a key name |
| `MetadataSummary.Take` | MCP/Services/ODataMetadataService.cs:177 | `Take(n)` gives the first n entries, or all of them when there are fewer |
| `MetadataSummary.ListedPropertiesBounded` | MCP/Services/ODataMetadataService.cs:175-184 | at most ten properties are listed, each a named, non-key property of the type |
| `MetadataSummary.ListsFirstTenInOrder` | MCP/Services/ODataMetadataService.cs:175-184 | when every property is named, the listing is the names of the first min(m, 10) non-key properties, in document order, where m is how many non-key properties there are |
| `MetadataSummary.KeyPropertyNotListed` | MCP/Services/ODataMetadataService.cs:175-184 | a type whose first property is its key lists the names of the properties after it, at most ten, in order |
| `MetadataSummary.NonKeyDropsLeadingKey` | MCP/Services/ODataMetadataService.cs:176 | a key property in front followed only by non-key ones is filtered out and the rest is kept whole |
| `MetadataSummary.NavigationNamesInOrder` | MCP/Services/ODataMetadataService.cs:193-196 | the navigation names keep document order: splitting the declarations splits the names there, and with every declaration named the k-th name is that of the k-th one |
| `MetadataSummary.UnnamedPropertiesUseUpTheLimit` | MCP/Services/ODataMetadataService.cs:177-183 | the limit of ten applies before unnamed properties are dropped: ten unnamed ones first leave the list empty |
| `MetadataSummary.EntityTypeNameUnqualified` | MCP/Services/ODataMetadataService.cs:147 | the referenced type name is a `.`-free suffix of the EntityType attribute |
| `MetadataSummary.FirstTypeNamed` | MCP/Services/ODataMetadataService.cs:157-158 | the index found is that of the first entity type with the name, or past the end when none has it |
| `MetadataSummary.FindEntityType` | MCP/Services/ODataMetadataService.cs:157-160 | the type found is in the schema and has the name; none is found only when no type has it |
| `MetadataSummary.KeyLineIffKeys` | MCP/Services/ODataMetadataService.cs:169-172 | the details start with the key line exactly when the type has a key name |
| `MetadataSummary.ParagraphShape` | MCP/Services/ODataMetadataService.cs:146-204 | a skipped set (missing or empty name or type name) gives nothing; an unresolved type gives only the bold name line and a blank line; otherwise the paragraph starts with the bold name line and ends with a newline |
| `MetadataSummary.ParagraphsAppend` | MCP/Services/ODataMetadataService.cs:113-116 | the paragraphs of two runs of sets are those of each run, in order |
| `MetadataSummary.ParagraphAt` | MCP/Services/ODataMetadataService.cs:113-116 | the k-th set's paragraph sits between the paragraphs of the sets before it and after it |
| `MetadataSummary.ParagraphInOwnSection` | MCP/Services/ODataMetadataService.cs:94-129 | every entity set's paragraph appears in the section of its own group |
| `MetadataSummary.Describe` | MCP/Services/ODataMetadataService.cs:65-142 | a malformed document or one without a schema gives the fallback text; otherwise the summary starts with the intro and the entity-sets heading and ends with the capabilities section |
| `MetadataSummary.EmptyContainerSummary` | MCP/Services/ODataMetadataService.cs:86-133 | with no entity sets (or no container) the summary is only the header and the footer |
| `MetadataSummary.SectionHeadingIffNonEmpty` | MCP/Services/ODataMetadataService.cs:108-129 | a group heading is printed iff the group is non-empty |
| `MetadataSummary.AppendEntitySetDescription` | MCP/Services/ODataMetadataService.cs:144-205 | appends exactly the entity set's paragraph to the text so far |
| `MetadataSummary.AppendTypeDetails` | MCP/Services/ODataMetadataService.cs:162-201 | appends the key, property and navigation lines, each only when its list is non-empty, joined with ", " |
| `MetadataSummary.AppendGroup` | MCP/Services/ODataMetadataService.cs:108-129 | appends the heading, a blank line and each set's paragraph in order: the group's section |
| `MetadataSummary.PartitionEntitySets` | MCP/Services/ODataMetadataService.cs:91-105 | the loop's two lists are the core group and the view group |
| `MetadataSummary.ParseMetadataToDescription` | MCP/Services/ODataMetadataService.cs:65-142 | the text built equals `Describe` of the document |
| `MetadataCache.CacheStepKeepsSummary` | MCP/Services/ODataMetadataService.cs:51-54 | the slot only ever holds text the summariser produced |
| `MetadataCache.CacheStepAnswers` | MCP/Services/ODataMetadataService.cs:31-63 | each call is a hit (cached text, no fetch, slot unchanged), a failed fetch (fallback, slot unchanged) or a fetch that stores its summary; it fetches iff the slot is not fresh |
| `MetadataCache.SecondCallWithinWindowHits` | MCP/Services/ODataMetadataService.cs:34-37 | after a stored summary, a call within thirty minutes of storing returns it without fetching, whatever the upstream would say |
| `MetadataCache.FailedFetchKeepsSlot` | MCP/Services/ODataMetadataService.cs:44-62 | a non-success status or an exception leaves both fields untouched and returns the fallback on a miss |
| `MetadataCache.ODataMetadataService.constructor` | MCP/Services/ODataMetadataService.cs:21-22 | no cached text, last fetch at `DateTime.MinValue` |
| `MetadataCache.ODataMetadataService.GetToolDescriptionAsync` | MCP/Services/ODataMetadataService.cs:31-63 | the call is one `CacheStep`: hit, failure and success cases, with the slot set to the parser's output and the later clock reading |
| `ChatController.Distinct` | mcpODataReporting.Blazor/Controllers/ChatController.cs:123 | the same elements without duplicates, and the list itself when it had none |
| `ChatController.SuggestionRules` | mcpODataReporting.Blazor/Controllers/ChatController.cs:97-124 | `GetODataMetadata` is suggested iff the lower-cased message contains a metadata word, `GetData` iff it contains a data word; no other entries, no duplicates, at most two, metadata first |
| `ChatController.MentionsMetadataKeywords` | mcpODataReporting.Blazor/Controllers/ChatController.cs:103-107 | the chain of five `Contains` tests is "mentions one of the metadata words" |
| `ChatController.MentionsDataKeywords` | mcpODataReporting.Blazor/Controllers/ChatController.cs:113-118 | the chain of six `Contains` tests is "mentions one of the data words" |
| `ChatController.AnalyzeSuggestedTools` | mcpODataReporting.Blazor/Controllers/ChatController.cs:97-124 | the list built equals `SuggestedTools` of the message |
| `ChatController.GenerateAiResponse` | mcpODataReporting.Blazor/Controllers/ChatController.cs:126-150 | the text built is greeting, metadata sentence iff suggested, data sentence iff suggested, then the closing |
| `ChatController.ReplyFrame` | mcpODataReporting.Blazor/Controllers/ChatController.cs:128-147 | the reply starts with the greeting and ends with "Processing your request..." iff something was suggested, with the "Please ask me..." sentence iff nothing was |
| `ChatController.ReplyDeterminesSuggestions` | mcpODataReporting.Blazor/Controllers/ChatController.cs:128-147 | equal replies agree on whether each tool, and anything at all, was suggested |
| `ChatController.ProcessMessage` | mcpODataReporting.Blazor/Controllers/ChatController.cs:32-52 | a null or blank message gives BadRequest "Message cannot be empty" (and only then); otherwise 200 with the reply and the suggestions |
| `ChatController.ExecuteTool` | mcpODataReporting.Blazor/Controllers/ChatController.cs:62-95 | a blank tool name gives BadRequest and no service call; otherwise the call is forwarded and a null response gives 500 "Failed to execute tool", an exception 500 with its message, a response 200 |
| `Registry.FirstNamed` | MCP/Services/ToolRegistry.cs:28 | the position found holds the name and no earlier one does; none only when no entry has the name |
| `Registry.FirstNamedAfterAppend` | MCP/Services/ToolRegistry.cs:16-28 | registering a tool never changes an existing first match; the new one is found only when its name was not registered before |
| `Registry.ToolRegistry.constructor` | MCP/Services/ToolRegistry.cs:14 | the registry starts empty |
| `Registry.ToolRegistry.RegisterTool` | MCP/Services/ToolRegistry.cs:16-24 | exactly one entry is appended; the count grows by one and earlier entries are unchanged |
| `Registry.ToolRegistry.GetAllTools` | MCP/Services/ToolRegistry.cs:26 | all registered entries, in registration order; reads the registry without changing it |
| `Registry.ToolRegistry.GetTool` | MCP/Services/ToolRegistry.cs:28 | the first entry with the name, even among duplicates; none iff no entry has it; reads without changing |
| `DataAccess.NormalizeQuery` | MCP/Tools/OdataTool.cs:33-36 | the result starts with `/`; it is the query itself iff that already starts with `/`, otherwise `/` + query |
| `DataAccess.NormalizeIdempotent` | MCP/Tools/OdataTool.cs:33-36 | normalising twice is normalising once |
| `DataAccess.RequestPathShape` | MCP/Tools/OdataTool.cs:29-39 | the path starts with `/odata/`, a null query gives `/odata/`, and removing the `/odata` root gives the normalised query |
| `DataAccess.ShapeResultCases` | MCP/Tools/OdataTool.cs:41-62 | a 2xx body is returned verbatim; a failure is "Error: Query failed with status {name}. Details: {body}"; an exception "Error: {message}" |
| `DataAccess.GetData` | MCP/Tools/OdataTool.cs:17-63 | a missing `query` argument or non-dictionary arguments give the fixed error and no request; otherwise the request is `/odata` + normalised query and the result is shaped from the answer |
| `DataAccess.GetODataMetadata` | MCP/Tools/OdataTool.cs:66-82 | the metadata service's description, unchanged, with the service's cache step |
| `ODataQueryService.ParseAndExecuteODataQuery` | Services/ODataQueryService.cs:42-69 | invalid-format message iff the query does not have exactly one `?`; otherwise query = before + "?" + parameters, the entity set is `before` trimmed of `/`, and the message follows the template |
| `ODataQueryService.ParseBuiltQuery` | Services/ODataQueryService.cs:47-62 | parsing a query built from a `?`-free entity part and parameters gives back those parameters and the trimmed entity part |
| `ODataQueryService.SplitAtOnlySeparator` | Services/ODataQueryService.cs:47-54 | a text with a single `?` splits around it in only one way |
| `ODataQueryService.EntitySetHasNoOuterSlash` | Services/ODataQueryService.cs:53 | the entity set neither starts nor ends with `/` |
| `ODataQueryService.ExecuteQueryAsync` | Services/ODataQueryService.cs:24-40 | the exception of a null query is caught and becomes "Error: " + its message; any other query gets the parser's answer |
| `McpChat.WithUserMessage` | mcpODataReporting.Blazor/Services/McpChatService.cs:120-127 | an empty history gets the system prompt and then the user message; a non-empty one only the user message at the end |
| `McpChat.ToolsOption` | mcpODataReporting.Blazor/Services/McpChatService.cs:130-133 | tools are passed iff the list is non-empty |
| `McpChat.WithUserMessageKeepsShape` | mcpODataReporting.Blazor/Services/McpChatService.cs:120-127 | adding the user message keeps the history well formed (system prompt at index 0 and nowhere else, each assistant message after a user message) and keeps the old history as a prefix |
| `McpChat.AfterSendShape` | mcpODataReporting.Blazor/Services/McpChatService.cs:114-147 | after a send the system prompt is at index 0; a reply adds user then assistant; a failed call leaves the user message with no reply |
| `McpChat.SendAfterClear` | mcpODataReporting.Blazor/Services/McpChatService.cs:179-183 | after clearing, the next send starts again with the system prompt |
| `McpChat.AfterStreamShape` | mcpODataReporting.Blazor/Services/McpChatService.cs:149-177 | a streamed exchange keeps the history well formed |
| `McpChat.ConcatAppend` | mcpODataReporting.Blazor/Services/McpChatService.cs:169-172 | the accumulated text of a stream is the in-order concatenation of its parts, however it is split |
| `McpChat.Converted` | mcpODataReporting.Blazor/Services/McpChatService.cs:74-93 | never more AI tools than MCP tools |
| `McpChat.ConvertedMembers` | mcpODataReporting.Blazor/Services/McpChatService.cs:74-93 | exactly the tools whose conversion succeeds are converted |
| `McpChat.ConvertedAppend` | mcpODataReporting.Blazor/Services/McpChatService.cs:78-90 | converting distributes over concatenation, so input order is kept |
| `McpChat.ConvertedAll` | mcpODataReporting.Blazor/Services/McpChatService.cs:78-90 | when no conversion fails every tool is converted at its own position |
| `McpChat.ConvertToolsToAITools` | mcpODataReporting.Blazor/Services/McpChatService.cs:74-93 | the loop's list equals `Converted`: input order, failing tools dropped |
| `McpChat.McpChatService.constructor` | mcpODataReporting.Blazor/Services/McpChatService.cs:14-15 | empty history and empty tool list |
| `McpChat.McpChatService.InitializeToolsAsync` | mcpODataReporting.Blazor/Services/McpChatService.cs:35-52 | the tools are replaced by the converted list only when the listing and its tool list are non-null; otherwise they stay; the history is untouched |
| `McpChat.McpChatService.SendMessageAsync` | mcpODataReporting.Blazor/Services/McpChatService.cs:114-147 | the history becomes `AfterSend`; the request carries the history with the user message and the tools option; the result is the reply text, none when the call threw |
| `McpChat.McpChatService.StreamMessageAsync` | mcpODataReporting.Blazor/Services/McpChatService.cs:149-177 | every update is yielded in order and, once the stream ends, the concatenation of their texts is recorded as the reply |
| `McpChat.McpChatService.ClearConversationHistory` | mcpODataReporting.Blazor/Services/McpChatService.cs:179-183 | the history is emptied; the tools stay |

## Left out

- XML parsing. `XDocument.Parse` and the namespace-qualified `Descendants` lookups are library calls, so the document arrives parsed and a rejected text is the `Malformed` variant. `Descendants` searches the whole subtree; the model takes the elements as the direct lists of each record.
- The `Type` attribute of a property. It is read (`MCP/Services/ODataMetadataService.cs:181`) but never printed.
- Fallback and capabilities texts. The static texts from `MCP/Services/ODataMetadataService.cs:207-367` are kept only as their opening lines. They are documentation, and their wording is not reasoned about.
- Newlines. The newline `AppendLine` writes, and the line breaks inside the verbatim system prompt, are `"\n"`.
- `MetadataCache.ODataMetadataService.GetToolDescriptionAsync`: the HTTP fetch and the clock are parameters. A single fetch outcome stands for both the response and reading its body, and `DateTime.UtcNow` is two tick values: the one compared and the one stored.
- Logging, `HttpClient` and `IHttpClientFactory` are left out everywhere.
- Culture-sensitive behaviour. `ToLower` is ASCII lower-casing. `StartsWith("V")` is an ordinal prefix test.
- `ChatController.GetTools`, `McpChatService.GetAvailableToolsAsync` and `McpChatService.ExecuteToolAsync` are HTTP wrappers and are not modelled. What the last two return enters as a parameter of `InitializeToolsAsync` and `ExecuteTool`.
- `ChatController.ProcessMessage`: its `catch` branch cannot be reached in the model, because nothing in it throws.
- `ChatController.ExecuteTool`: the 200, 400 and 500 status codes are the variants of the result type.
- `CreateFunctionFromMcpTool` is reduced to the name and description it passes to `AIFunctionFactory.Create`. Whether a conversion throws is the `fails` parameter, and the placeholder delegate is not modelled.
- The chat model (`IChatClient`) is an oracle, and so are function invocation and the async streaming machinery. `McpChat.McpChatService.SendMessageAsync` returns the reply's text rather than the whole `ChatResponse`. `McpChat.McpChatService.StreamMessageAsync` takes the updates delivered as a sequence, plus whether the stream ended normally.
- `_availableTools` is declared nullable but is never set to null, so it is a plain list.
- The JSON serialisation of the `ODataQueryService` response is left out, and so is its `timestamp`. `ODataQueryService.ParseAndExecuteODataQuery` returns the record before serialisation.
- The input schema of a tool (a `JsonElement` or an `object`) is its JSON text, which is stored and never inspected.
- Concurrency. The cache slot has no locking in the source, and calls are modelled one after another.
