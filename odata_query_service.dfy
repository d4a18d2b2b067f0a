/**
 * The query service of the function app: it splits an OData query of the
 * form `/EntitySet?options` at its '?' and describes what it would run.
 *
 * The answer is serialised to indented JSON in the source; here it is
 * the record before serialisation, without its timestamp.
 */
module ODataQueryService {
  import opened Wrappers
  import opened Strings

  const InvalidFormatMessage := "Invalid OData query format. Expected: /EntitySet?$filter=..."
  const MessageHead := "OData query would execute against '"
  const MessageMiddle := "' with parameters: "
  const Note := "Connect your database schema and DbSet properties to execute actual queries"

  /** The message of the NullReferenceException that splitting a null query raises. */
  const NullReferenceMessage := "Object reference not set to an instance of an object."
  const ErrorPrefix := "Error: "

  datatype QueryAnswer =
    | InvalidFormat(text: string)
    | QueryInfo(entitySet: string, queryParams: string, message: string, note: string)

  /** The sentence describing what would run. */
  function Message(entitySet: string, queryParams: string): string {
    MessageHead + entitySet + MessageMiddle + queryParams
  }

  /**
   * ParseAndExecuteODataQuery: exactly one '?' is accepted; the entity set
   * is what comes before it with every leading and trailing '/' removed,
   * and the parameters are what comes after it, as they are.
   */
  function ParseAndExecuteODataQuery(query: string): (r: QueryAnswer)
    ensures r.InvalidFormat? <==> Count(query, '?') != 1
    ensures r.InvalidFormat? ==> r.text == InvalidFormatMessage
    ensures r.QueryInfo? ==> exists before ::
      && query == before + "?" + r.queryParams
      && '?' !in before && '?' !in r.queryParams
      && r.entitySet == Trim(before, '/')
    ensures r.QueryInfo? ==> r.message == Message(r.entitySet, r.queryParams) && r.note == Note
  {
    var parts := Split(query, '?');
    if |parts| != 2 then InvalidFormat(InvalidFormatMessage)
    else
      assert Join("?", parts) == parts[0] + "?" + parts[1] by {
        assert parts[1..] == [parts[1]];
      }
      var entitySet := Trim(parts[0], '/');
      var queryParams := parts[1];
      QueryInfo(entitySet, queryParams, Message(entitySet, queryParams), Note)
  }

  /** The number of '?' in a text made of two '?'-free pieces around one '?'. */
  lemma CountAroundSeparator(before: string, after: string)
    requires '?' !in before && '?' !in after
    ensures Count(before + "?" + after, '?') == 1
  {
    CountConcat(before + "?", after, '?');
    CountConcat(before, "?", '?');
    CountAbsent(before, '?');
    CountAbsent(after, '?');
  }

  lemma {:induction false} CountConcat(a: string, b: string, c: char)
    ensures Count(a + b, c) == Count(a, c) + Count(b, c)
    decreases |a|
  {
    if |a| > 0 {
      assert (a + b)[1..] == a[1..] + b;
      CountConcat(a[1..], b, c);
    } else {
      assert a + b == b;
    }
  }

  lemma {:induction false} CountAbsent(s: string, c: char)
    requires c !in s
    ensures Count(s, c) == 0
    decreases |s|
  {
    if |s| > 0 {
      assert c !in s[1..] by {
        forall k | 0 <= k < |s[1..]| ensures s[1..][k] != c {
          assert s[1..][k] == s[k + 1];
        }
      }
      CountAbsent(s[1..], c);
    }
  }

  /**
   * Building a query from an entity-set part and parameters, neither
   * holding '?', and parsing it gives back the parameters unchanged and
   * the entity-set part with its '/' characters trimmed.
   */
  lemma ParseBuiltQuery(before: string, queryParams: string)
    requires '?' !in before && '?' !in queryParams
    ensures ParseAndExecuteODataQuery(before + "?" + queryParams)
      == QueryInfo(Trim(before, '/'), queryParams, Message(Trim(before, '/'), queryParams), Note)
  {
    var query := before + "?" + queryParams;
    CountAroundSeparator(before, queryParams);
    var r := ParseAndExecuteODataQuery(query);
    var b :| query == b + "?" + r.queryParams && '?' !in b && '?' !in r.queryParams && r.entitySet == Trim(b, '/');
    SplitAtOnlySeparator(b, r.queryParams, before, queryParams);
  }

  /** A text with a single '?' splits around it in one way only. */
  lemma SplitAtOnlySeparator(b1: string, a1: string, b2: string, a2: string)
    requires b1 + "?" + a1 == b2 + "?" + a2
    requires '?' !in b1 && '?' !in a1 && '?' !in b2 && '?' !in a2
    ensures b1 == b2 && a1 == a2
  {
    var s := b1 + "?" + a1;
    assert forall k :: 0 <= k < |b1| ==> s[k] == b1[k];
    assert forall k :: 0 <= k < |b2| ==> s[k] == b2[k];
    assert s[|b1|] == '?' && s[|b2|] == '?';
    assert |b1| == |b2|;
    assert b1 == s[..|b1|] == b2;
    assert a1 == s[|b1| + 1..] == a2;
  }

  /** The entity set never starts or ends with '/'. */
  lemma EntitySetHasNoOuterSlash(query: string)
    ensures var r := ParseAndExecuteODataQuery(query);
      r.QueryInfo? && |r.entitySet| > 0 ==> r.entitySet[0] != '/' && r.entitySet[|r.entitySet| - 1] != '/'
  {
    var r := ParseAndExecuteODataQuery(query);
    if r.QueryInfo? {
      var before :| query == before + "?" + r.queryParams && r.entitySet == Trim(before, '/');
      TrimCutsBothEnds(before, '/');
    }
  }

  /** What ExecuteQueryAsync returns: the answer, or the text of the exception it caught. */
  datatype ExecuteResult = Answered(answer: QueryAnswer) | ErrorText(text: string)

  /** ExecuteQueryAsync: a null query makes the split throw, which is caught and reported. */
  function ExecuteQueryAsync(query: Option<string>): (r: ExecuteResult)
    ensures r.ErrorText? <==> query.None?
    ensures r.ErrorText? ==> r.text == ErrorPrefix + NullReferenceMessage
    ensures query.Some? ==> r == Answered(ParseAndExecuteODataQuery(query.value))
  {
    match query
    case None => ErrorText(ErrorPrefix + NullReferenceMessage)
    case Some(q) => Answered(ParseAndExecuteODataQuery(q))
  }
}
