/**
 * The two MCP tools of the function app: GetData, which forwards an
 * OData query to the OData API and shapes its answer into text, and
 * GetODataMetadata, which hands back the metadata service's description.
 *
 * The HTTP call is a parameter: the response it would give, or the
 * exception it would raise.
 */
module DataAccess {
  import opened Wrappers
  import opened Strings
  import opened MetadataCache

  /** A value of the tool arguments, as its ToString() text; `NullValue` for a JSON null. */
  datatype ArgumentValue = NullValue | Value(text: string)

  /** `context.Arguments`: a string-keyed dictionary, or anything else. */
  datatype Arguments = NotADictionary | Dictionary(entries: map<string, ArgumentValue>)

  /** What `GET /odata{query}` and reading its body give. */
  datatype Upstream =
    | Response(statusCode: int, statusName: string, body: string) // statusName: the HttpStatusCode member name
    | RequestThrew(message: string)

  const MissingQueryError := "Error: 'query' parameter not provided. Expected format: /EntitySet?$filter=...&$select=..."

  const QueryFailedPrefix := "Error: Query failed with status "
  const DetailsSeparator := ". Details: "
  const ErrorPrefix := "Error: "
  const ODataRoot := "/odata"

  predicate IsSuccessStatusCode(statusCode: int) {
    200 <= statusCode <= 299
  }

  /** `queryValue?.ToString() ?? string.Empty`. */
  function QueryText(v: ArgumentValue): string {
    match v
    case NullValue => ""
    case Value(text) => text
  }

  /** A query that does not start with '/' gets one in front. */
  function NormalizeQuery(query: string): (r: string)
    ensures StartsWith(r, "/")
    ensures StartsWith(query, "/") <==> r == query
    ensures !StartsWith(query, "/") <==> r == "/" + query
  {
    if StartsWith(query, "/") then query else "/" + query
  }

  /** Normalising a normalised query changes nothing. */
  lemma NormalizeIdempotent(query: string)
    ensures NormalizeQuery(NormalizeQuery(query)) == NormalizeQuery(query)
  {
  }

  /** The request path for a query argument. */
  function RequestPath(v: ArgumentValue): string {
    ODataRoot + NormalizeQuery(QueryText(v))
  }

  /**
   * Every request goes below "/odata/"; a null query asks for "/odata/"
   * itself, and removing the "/odata" root gives back the query text, with
   * the slash that was added when it had none.
   */
  lemma RequestPathShape(v: ArgumentValue)
    ensures StartsWith(RequestPath(v), ODataRoot + "/")
    ensures v == NullValue ==> RequestPath(v) == "/odata/"
    ensures RequestPath(v)[|ODataRoot|..] == NormalizeQuery(QueryText(v))
    ensures StartsWith(QueryText(v), "/") ==> RequestPath(v) == ODataRoot + QueryText(v)
  {
    var q := NormalizeQuery(QueryText(v));
    assert (ODataRoot + q)[..|ODataRoot| + 1] == ODataRoot + q[..1];
    assert (ODataRoot + q)[|ODataRoot|..] == q;
  }

  /** The text GetData answers for an upstream outcome. */
  function ShapeResult(upstream: Upstream): string {
    match upstream
    case Response(code, name, body) =>
      if IsSuccessStatusCode(code) then body
      else QueryFailedPrefix + name + DetailsSeparator + body
    case RequestThrew(message) => ErrorPrefix + message
  }

  /**
   * A 2xx body comes back verbatim; a failed status is reported with its
   * name and the body; an exception with its message.
   */
  lemma ShapeResultCases(upstream: Upstream)
    ensures upstream.Response? && IsSuccessStatusCode(upstream.statusCode) ==> ShapeResult(upstream) == upstream.body
    ensures upstream.Response? && !IsSuccessStatusCode(upstream.statusCode) ==>
      StartsWith(ShapeResult(upstream), QueryFailedPrefix + upstream.statusName + DetailsSeparator)
      && EndsWith(ShapeResult(upstream), upstream.body)
    ensures upstream.RequestThrew? ==>
      StartsWith(ShapeResult(upstream), ErrorPrefix)
      && ShapeResult(upstream)[|ErrorPrefix|..] == upstream.message
  {
    match upstream
    case Response(code, name, body) =>
      if !IsSuccessStatusCode(code) {
        var head := QueryFailedPrefix + name + DetailsSeparator;
        assert (head + body)[..|head|] == head;
        assert (head + body)[|head + body| - |body|..] == body;
      }
    case RequestThrew(message) =>
      assert (ErrorPrefix + message)[..|ErrorPrefix|] == ErrorPrefix;
      assert (ErrorPrefix + message)[|ErrorPrefix|..] == message;
  }

  /**
   * GetData: find the "query" argument, make it start with '/', send
   * `GET /odata{query}` and shape the answer. `request` is the path sent,
   * `None` when no request was made.
   */
  method GetData(arguments: Arguments, upstream: Upstream) returns (result: string, request: Option<string>)
    ensures (arguments.NotADictionary? || "query" !in arguments.entries) <==> request == None
    ensures request == None ==> result == MissingQueryError
    ensures request.Some? ==> request.value == RequestPath(arguments.entries["query"])
    ensures request.Some? ==> result == ShapeResult(upstream)
  {
    if arguments.Dictionary? && "query" in arguments.entries {
      var queryValue := arguments.entries["query"];
      var query := QueryText(queryValue);
      if !StartsWith(query, "/") {
        query := "/" + query;
      }
      request := Some(ODataRoot + query);
      match upstream
      case Response(statusCode, statusName, body) =>
        if IsSuccessStatusCode(statusCode) {
          result := body;
        } else {
          result := QueryFailedPrefix + statusName + DetailsSeparator + body;
        }
      case RequestThrew(message) =>
        result := ErrorPrefix + message;
    } else {
      result, request := MissingQueryError, None;
    }
  }

  /** GetODataMetadata: the metadata service's description, unchanged. */
  method GetODataMetadata(metadataService: ODataMetadataService, now: int, fetch: FetchOutcome, completedAt: int)
    returns (description: string)
    requires metadataService.Valid()
    modifies metadataService
    ensures metadataService.Valid()
    ensures description == CacheStep(old(metadataService.Slot()), now, fetch, completedAt).description
    ensures metadataService.Slot() == CacheStep(old(metadataService.Slot()), now, fetch, completedAt).slot
  {
    var fetched;
    description, fetched := metadataService.GetToolDescriptionAsync(now, fetch, completedAt);
  }
}
