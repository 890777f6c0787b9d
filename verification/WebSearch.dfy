/** The `web-search` tool: it answers any query with a prefix of two fixed
    mock results that quote the query. */
module WebSearch {
  import opened Wrappers
  import opened Js
  import Text

  /** The tool's input after validation: `maxResults` is any number. */
  datatype Input = Input(query: string, maxResults: real)

  /** The schema default of `maxResults`. */
  const DefaultMaxResults: real := 5.0

  /** `inputSchema`: a string query and an optional number, defaulting to
      5. */
  function ParseInput(v: Value): (r: Option<Input>)
    ensures r.Some? ==> Get(v, "maxResults").Undefined? || Get(v, "maxResults") == Num(r.value.maxResults)
  {
    var query := AsString(Get(v, "query"));
    var max := Get(v, "maxResults");
    if !v.Obj? || query.None? then None
    else
      match max
      case Undefined => Some(Input(query.value, DefaultMaxResults))
      case Num(n) => Some(Input(query.value, n))
      case _ => None
  }

  function EncodeInput(i: Input): Value {
    Obj(map["query" := Str(i.query), "maxResults" := Num(i.maxResults)])
  }

  /** Every input survives validation, and leaving `maxResults` out means
      5. */
  lemma InputRoundTrip(i: Input)
    ensures ParseInput(EncodeInput(i)) == Some(i)
    ensures ParseInput(Obj(map["query" := Str(i.query)])) == Some(Input(i.query, DefaultMaxResults))
  {
    assert Get(EncodeInput(i), "query") == Str(i.query);
    assert Get(EncodeInput(i), "maxResults") == Num(i.maxResults);
  }

  datatype SearchResult = SearchResult(title: string, url: string, snippet: string, relevance: real)

  datatype Output = Output(results: seq<SearchResult>, totalResults: nat, searchQuery: string)

  const FirstUrl := "https://example.com/search-result-1"
  const SecondUrl := "https://example.com/search-result-2"
  const FirstSnippetTail := ". In a real implementation, this would contain actual search results from a web"
                            + " search API."
  const SecondSnippetTail := " would appear here in actual search results."

  /** The two mock results; each title and snippet quotes the query. */
  function MockResults(query: string): (r: seq<SearchResult>)
    ensures |r| == 2
    ensures forall k :: 0 <= k < |r| ==>
              Text.Contains(r[k].title, query) && Text.Contains(r[k].snippet, query)
              && 0.0 <= r[k].relevance <= 1.0
  {
    var firstTitle := "Results for \"" + query + "\"";
    var firstSnippet := "This is a mock search result for the query: " + query + FirstSnippetTail;
    var secondTitle := "Related information about " + query;
    var secondSnippet := "Additional context and information related to " + query + SecondSnippetTail;
    Text.ContainsMiddle("Results for \"", query, "\"");
    Text.ContainsMiddle("This is a mock search result for the query: ", query, FirstSnippetTail);
    Text.ContainsAt(secondTitle, |"Related information about "|, query);
    Text.ContainsMiddle("Additional context and information related to ", query, SecondSnippetTail);
    [SearchResult(firstTitle, FirstUrl, firstSnippet, 0.9),
     SearchResult(secondTitle, SecondUrl, secondSnippet, 0.7)]
  }

  /** ECMAScript ToIntegerOrInfinity on a finite number: truncation toward
      zero. */
  function Truncate(x: real): (r: int)
    ensures x >= 0.0 ==> r as real <= x < r as real + 1.0
    ensures x < 0.0 ==> r as real - 1.0 < x <= r as real
  {
    if x >= 0.0 then x.Floor else -((-x).Floor)
  }

  /** The end index `Array.prototype.slice` uses for an `end` argument on an
      array of `len` elements: counted from the back when negative, and
      clamped to `[0, len]`. */
  function SliceEnd(len: nat, end: real): (r: nat)
    ensures r <= len
    ensures end >= 0.0 ==> r == if end.Floor < len then end.Floor else len
  {
    var k := Truncate(end);
    if k < 0 then (if len + k < 0 then 0 else len + k)
    else if k < len then k
    else len
  }

  /** `execute`: `maxResults || 5` turns 0 into 5 before the slice. */
  function Search(input: Input): (r: Output)
    ensures r.totalResults == 2
    ensures r.searchQuery == input.query
    ensures |r.results| == SliceEnd(2, if input.maxResults == 0.0 then 5.0 else input.maxResults)
    ensures r.results == MockResults(input.query)[..|r.results|]
  {
    var mocks := MockResults(input.query);
    var end := if input.maxResults == 0.0 then 5.0 else input.maxResults;
    Output(mocks[..SliceEnd(|mocks|, end)], |mocks|, input.query)
  }

  /** A positive integer limit `n` gives `min(n, 2)` results; a limit of 0
      or none gives both. */
  lemma ResultCount(input: Input, n: nat)
    requires input.maxResults == n as real
    ensures |Search(input).results| == if n == 0 || n >= 2 then 2 else n
  {
  }

  /** Every result quotes the query, whatever the limit. */
  lemma ResultsQuoteQuery(input: Input)
    ensures forall k :: 0 <= k < |Search(input).results| ==>
              Text.Contains(Search(input).results[k].title, input.query)
              && Text.Contains(Search(input).results[k].snippet, input.query)
  {
    var mocks := MockResults(input.query);
    var r := Search(input).results;
    forall k | 0 <= k < |r|
      ensures Text.Contains(r[k].title, input.query) && Text.Contains(r[k].snippet, input.query)
    {
      assert r[k] == mocks[k];
    }
  }

  /** `slice` counts a negative limit from the back: -1 keeps the first
      result only, and any limit between -1 and 1 but 0 keeps none. */
  lemma NegativeLimits(query: string, x: real)
    requires -1.0 < x < 1.0 && x != 0.0
    ensures |Search(Input(query, -1.0)).results| == 1
    ensures |Search(Input(query, x)).results| == 0
  {
  }
}
