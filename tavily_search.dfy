/**
 * The web-search edge function: the markdown report it builds from the search service's
 * answer and results, and the 400 replies for a missing query or a failed search. The HTTP
 * exchange itself is an input.
 */
module TavilySearch {
  import opened Wrappers
  import opened Text
  import opened Seqs

  /** One search hit. */
  datatype SearchResult = SearchResult(title: string, url: string, content: string)

  /** The parsed reply: an optional answer and an optional list of hits. */
  datatype SearchData = SearchData(answer: Option<string>, results: Option<seq<SearchResult>>)

  /** The request: a CORS preflight, or a POST whose body may carry a query. */
  datatype Request = Preflight | Post(query: Option<string>)

  /** What the search call gives: no reply, or a status with a body that may not parse. */
  datatype Body = Parsed(data: SearchData) | Unparsable(message: string)
  datatype Upstream = Unreachable(message: string) | Reply(status: nat, statusText: string, body: Body)

  /** The function's answer: "ok" to a preflight, the report, or a 400 with the error's message. */
  datatype Response = PreflightOk | Report(content: string) | Failure(status: nat, error: string)

  /** A JavaScript string value is truthy when it is present and non-empty. */
  predicate Truthy(v: Option<string>) {
    v.Some? && v.value != []
  }

  /** The report's first line and the blank line after it. */
  function Header(query: string): string {
    "# Research Results for: \"" + query + "\"\n\n"
  }

  /** The summary section. */
  function Summary(answer: string): string {
    "## Summary\n" + answer + "\n\n"
  }

  /** The heading of the sources section. */
  const SourcesHeading: string := "## Sources\n\n"

  /** The block for hit number `k` (counting from 1). */
  function Entry(k: nat, r: SearchResult): string {
    "### " + NatToString(k) + ". " + r.title + "\n"
    + "**URL:** " + r.url + "\n"
    + "**Content:** " + r.content + "\n\n"
  }

  /** The blocks of the first `n` hits, numbered 1 to `n`. */
  function Entries(rs: seq<SearchResult>, n: nat): string
    requires n <= |rs|
  {
    if n == 0 then [] else Entries(rs, n - 1) + Entry(n, rs[n - 1])
  }

  /** The hits, when there is a non-empty list of them. */
  function Hits(data: SearchData): seq<SearchResult> {
    if data.results.Some? then data.results.value else []
  }

  /** The report: the header, the summary when there is an answer, the sources when there are hits. */
  function Content(query: string, data: SearchData): string {
    Header(query)
    + (if Truthy(data.answer) then Summary(data.answer.value) else [])
    + (if |Hits(data)| > 0 then SourcesHeading + Entries(Hits(data), |Hits(data)|) else [])
  }

  /** The report, accumulated with `+=` as the function does, the hits in a loop. */
  method BuildContent(query: string, data: SearchData) returns (content: string)
    ensures content == Content(query, data)
  {
    content := Header(query);
    if Truthy(data.answer) {
      content := content + Summary(data.answer.value);
    }
    ghost var opening := content;
    var rs := Hits(data);
    if |rs| > 0 {
      content := content + SourcesHeading;
      for i := 0 to |rs|
        invariant content == opening + (SourcesHeading + Entries(rs, i))
      {
        AppendAssoc(opening, SourcesHeading + Entries(rs, i), Entry(i + 1, rs[i]));
        AppendAssoc(SourcesHeading, Entries(rs, i), Entry(i + 1, rs[i]));
        content := content + Entry(i + 1, rs[i]);
      }
    }
  }

  /** Concatenation regroups. */
  lemma AppendAssoc(a: string, b: string, c: string)
    ensures (a + b) + c == a + (b + c)
  {
  }

  /** The report starts with the header, and with no answer and no hits it is only the header. */
  lemma ContentStartsWithHeader(query: string, data: SearchData)
    ensures |Content(query, data)| >= |Header(query)|
    ensures Content(query, data)[..|Header(query)|] == Header(query)
    ensures !Truthy(data.answer) && Hits(data) == [] ==> Content(query, data) == Header(query)
  {
  }

  /**
   * After the header comes the summary exactly when the answer is truthy; otherwise the
   * sources heading follows directly when there are hits.
   */
  lemma SummaryAfterHeader(query: string, data: SearchData)
    ensures var c := Content(query, data); var h := |Header(query)|;
      Truthy(data.answer) ==>
        |c| >= h + |Summary(data.answer.value)|
        && c[h..h + |Summary(data.answer.value)|] == Summary(data.answer.value)
    ensures var c := Content(query, data); var h := |Header(query)|;
      !Truthy(data.answer) && Hits(data) != [] ==>
        |c| >= h + |SourcesHeading| && c[h..h + |SourcesHeading|] == SourcesHeading
  {
  }

  /**
   * The entries are the hits' blocks in input order, hit `i` (from 0) numbered `i + 1`: the
   * same as joining the blocks of the numbered hits.
   */
  lemma {:induction false} EntriesAreNumberedHits(rs: seq<SearchResult>, n: nat)
    requires n <= |rs|
    ensures Entries(rs, n) == Flatten(seq(n, i requires 0 <= i < n => Entry(i + 1, rs[i])))
  {
    var blocks := seq(n, i requires 0 <= i < n => Entry(i + 1, rs[i]));
    if n > 0 {
      EntriesAreNumberedHits(rs, n - 1);
      var shorter := seq(n - 1, i requires 0 <= i < n - 1 => Entry(i + 1, rs[i]));
      assert blocks[..n - 1] == shorter;
    }
  }

  /** The message thrown for a failed search. */
  function SearchErrorMessage(statusText: string): string {
    "Tavily API error: " + statusText
  }

  /**
   * The function's handler: "ok" to a preflight; for a POST, a missing query, a failed call, a
   * non-2xx status or a body that does not parse is a 400 with the error's message, and
   * otherwise the report is sent.
   */
  function HandleRequest(req: Request, upstream: Upstream): Response {
    if req.Preflight? then PreflightOk
    else if !Truthy(req.query) then Failure(400, "Query is required")
    else match upstream
      case Unreachable(m) => Failure(400, m)
      case Reply(status, statusText, body) =>
        if status < 200 || status >= 300 then Failure(400, SearchErrorMessage(statusText))
        else match body
          case Unparsable(m) => Failure(400, m)
          case Parsed(data) => Report(Content(req.query.value, data))
  }

  /**
   * A POST gets the report exactly when the query is present and the search succeeded with a
   * parsable body, and a 400 otherwise; a missing query is reported before any search result.
   */
  lemma HandleRequestSpec(req: Request, upstream: Upstream)
    ensures var r := HandleRequest(req, upstream);
      && (r.PreflightOk? <==> req.Preflight?)
      && (r.Report? <==>
            req.Post? && Truthy(req.query) && upstream.Reply?
            && 200 <= upstream.status < 300 && upstream.body.Parsed?)
      && (r.Failure? ==> r.status == 400)
      && (req.Post? && !Truthy(req.query) ==> r == Failure(400, "Query is required"))
      && (r.Report? ==> r.content[..|Header(req.query.value)|] == Header(req.query.value))
  {
    if req.Post? && Truthy(req.query) && upstream.Reply? && 200 <= upstream.status < 300
       && upstream.body.Parsed? {
      ContentStartsWithHeader(req.query.value, upstream.body.data);
    }
  }
}
