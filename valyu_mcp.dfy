/**
 * The context tool of the Valyu MCP server: the clamp on the requested
 * number of results, the wrapper that turns a failed client call into "no
 * response", the formatter that renders results as text, and the tool that
 * picks exactly one reply string for every outcome of the remote call.
 *
 * The Valyu client is not modelled; it is the parameter `client`, a function
 * from the request the server sends to what the call did.
 */
module ValyuMcp {
  import opened Wrappers
  import opened Strings

  // ---------------------------------------------------------------- constants

  const MinResults := 1
  const MaxResults := 5
  /** The price ceiling the tool always passes to the client. */
  const MaxPrice := 10
  /** The search breadth the request wrapper always asks for. */
  const SearchType := "all"

  const NoResultsText := "No results found."
  /** U+1FAE0 MELTING FACE, the emoji in the fetch-failure text. */
  const MeltingFace: char := '\U{1FAE0}'
  const FetchFailedText := "Unable to fetch context from Valyu " + [MeltingFace] + " Skill issue."
  const ErrorPrefix := "Error executing valyu_context: "
  /** What stands between two result blocks: one blank line. */
  const Separator := "\n\n"
  const TitleLabel := "Title: "
  const ContentLabel := "Content: "
  const UrlLabel := "URL: "

  // ---------------------------------------------------------------- data

  /** One retrieved item; `content` and `description` may be missing (`None`). */
  datatype SearchResult = SearchResult(
    title: string,
    content: Option<string>,
    description: Option<string>,
    url: string)

  /**
   * What the client handed back: a response whose result list the formatter
   * can read, or one whose reading raises an exception with `message`.
   */
  datatype SearchResponse =
    | SearchResponse(results: seq<SearchResult>)
    | Unreadable(message: string)

  /** The keyword arguments of the one call into the Valyu client. */
  datatype ContextRequest = ContextRequest(
    query: string,
    searchType: string,
    maxNumResults: int,
    maxPrice: int)

  /** What the client call did: raised, returned `None`, or returned a response. */
  datatype ClientOutcome =
    | Raised(message: string)
    | ReturnedNone
    | Returned(response: SearchResponse)

  // ---------------------------------------------------------------- clamp

  function Min(a: int, b: int): int { if a <= b then a else b }
  function Max(a: int, b: int): int { if a >= b then a else b }

  /** `min(max(1, n), 5)`: the requested count saturated into [1, 5]. */
  function Clamp(n: int): (r: int)
    ensures MinResults <= r <= MaxResults
    ensures MinResults <= n <= MaxResults ==> r == n
    ensures n < MinResults ==> r == MinResults
    ensures n > MaxResults ==> r == MaxResults
  {
    Min(Max(MinResults, n), MaxResults)
  }

  /** The clamped count is the point of [1, 5] nearest to the request. */
  lemma ClampIsNearest(n: int, m: int)
    requires MinResults <= m <= MaxResults
    ensures (if Clamp(n) >= n then Clamp(n) - n else n - Clamp(n)) <= (if m >= n then m - n else n - m)
  {
  }

  // ---------------------------------------------------------------- request

  /**
   * `make_valyu_request`: sends one request and maps every exception the
   * client raises to `None`.
   */
  function MakeValyuRequest(client: ContextRequest -> ClientOutcome, query: string, maxNumResults: int, maxPrice: int)
    : (data: Option<SearchResponse>)
    ensures var outcome := client(ContextRequest(query, "all", maxNumResults, maxPrice));
      && (data.None? <==> outcome.Raised? || outcome.ReturnedNone?)
      && (data.Some? ==> outcome == Returned(data.value))
  {
    match client(ContextRequest(query, SearchType, maxNumResults, maxPrice))
    case Raised(_) => None
    case ReturnedNone => None
    case Returned(response) => Some(response)
  }

  // ---------------------------------------------------------------- format

  /** Python's truth value of an optional string: present and non-empty. */
  predicate Truthy(s: Option<string>) {
    s.Some? && s.value != ""
  }

  /** How an f-string renders an optional string: `None` prints as "None". */
  function Render(s: Option<string>): string {
    match s
    case None => "None"
    case Some(v) => v
  }

  /** The text after "Content: ": `result.content or result.description`. */
  function ContentText(r: SearchResult): (c: string)
    ensures r.content.Some? && r.content.value != "" ==> c == r.content.value
    ensures (r.content.None? || r.content == Some("")) && r.description.Some? ==> c == r.description.value
    ensures (r.content.None? || r.content == Some("")) && r.description.None? ==> c == "None"
  {
    if Truthy(r.content) then Render(r.content) else Render(r.description)
  }

  /** The three-line block one result becomes. */
  function FormatBlock(r: SearchResult): (b: string)
    ensures IsPrefix(TitleLabel, b)
  {
    TitleLabel + r.title + "\n" + ContentLabel + ContentText(r) + "\n" + UrlLabel + r.url
  }

  /** The lines of a block, as a reader of the text sees them. */
  function BlockLines(r: SearchResult): seq<string> {
    [TitleLabel + r.title, ContentLabel + ContentText(r), UrlLabel + r.url]
  }

  function Blocks(rs: seq<SearchResult>): seq<string> {
    seq(|rs|, k requires 0 <= k < |rs| => FormatBlock(rs[k]))
  }

  /**
   * `format_valyu_results`: the fixed text for no results, otherwise the
   * blocks of the results in order, separated by blank lines.
   */
  function FormatResults(rs: seq<SearchResult>): (out: string)
    ensures out == NoResultsText <==> |rs| == 0
    ensures |rs| > 0 ==> IsPrefix(TitleLabel, out)
  {
    if |rs| == 0 then NoResultsText
    else
      var out := Join(Separator, Blocks(rs));
      assert IsPrefix(FormatBlock(rs[0]), out);
      assert out[..|TitleLabel|] == FormatBlock(rs[0])[..|TitleLabel|];
      assert NoResultsText[0] != TitleLabel[0];
      out
  }

  /**
   * `format_valyu_results` as written: builds the list of blocks in a loop
   * over the results, then joins it.
   */
  method FormatValyuResults(results: seq<SearchResult>) returns (formatted: string)
    ensures formatted == FormatResults(results)
  {
    if |results| == 0 {
      return NoResultsText;
    }
    var blocks: seq<string> := [];
    for i := 0 to |results|
      invariant |blocks| == i
      invariant forall k :: 0 <= k < i ==> blocks[k] == FormatBlock(results[k])
    {
      blocks := blocks + [FormatBlock(results[i])];
    }
    assert blocks == Blocks(results);
    formatted := Join(Separator, blocks);
  }

  /** A single result formats to its block alone. */
  lemma FormatSingle(r: SearchResult)
    ensures FormatResults([r]) == FormatBlock(r)
  {
  }

  /** Appending a result appends a separator and its block: order is kept. */
  lemma FormatAppend(rs: seq<SearchResult>, r: SearchResult)
    requires |rs| > 0
    ensures FormatResults(rs + [r]) == FormatResults(rs) + Separator + FormatBlock(r)
  {
    assert Blocks(rs + [r]) == Blocks(rs) + [FormatBlock(r)];
    JoinConcat(Separator, Blocks(rs), [FormatBlock(r)]);
  }

  /** Every field a block prints stays on its own line. */
  predicate SingleLineResult(r: SearchResult) {
    SingleLine(r.title) && SingleLine(ContentText(r)) && SingleLine(r.url)
  }

  /** A block is its three lines joined with line breaks. */
  lemma BlockIsJoinOfLines(r: SearchResult)
    ensures FormatBlock(r) == Join("\n", BlockLines(r))
  {
    var t, c, u := TitleLabel + r.title, ContentLabel + ContentText(r), UrlLabel + r.url;
    var ls := BlockLines(r);
    assert ls[1..] == [c, u] && ls[1..][1..] == [u];
    calc {
      Join("\n", ls);
      t + "\n" + Join("\n", [c, u]);
      t + "\n" + (c + "\n" + u);
      FormatBlock(r);
    }
  }

  /** A block of single-line fields reads back as exactly its three lines. */
  lemma BlockIsThreeLines(r: SearchResult)
    requires SingleLineResult(r)
    ensures Lines(FormatBlock(r)) == BlockLines(r)
  {
    BlockIsJoinOfLines(r);
    assert SingleLine(TitleLabel) && SingleLine(ContentLabel) && SingleLine(UrlLabel);
    LinesOfJoin(BlockLines(r));
  }

  /** The lines of the formatted text: each block, with an empty line between blocks. */
  function OutputLines(rs: seq<SearchResult>): seq<string>
    requires |rs| > 0
  {
    if |rs| == 1 then BlockLines(rs[0])
    else BlockLines(rs[0]) + [""] + OutputLines(rs[1..])
  }

  /** With more than one result, the first block comes first, then a blank line, then the rest. */
  lemma FormatCons(rs: seq<SearchResult>)
    requires |rs| > 1
    ensures FormatResults(rs) == FormatBlock(rs[0]) + Separator + FormatResults(rs[1..])
  {
    assert Blocks(rs) == [FormatBlock(rs[0])] + Blocks(rs[1..]);
    JoinCons(Separator, FormatBlock(rs[0]), Blocks(rs[1..]));
  }

  lemma {:induction false} FormatIsJoinOfLines(rs: seq<SearchResult>)
    requires |rs| > 0
    ensures FormatResults(rs) == Join("\n", OutputLines(rs))
  {
    if |rs| == 1 {
      BlockIsJoinOfLines(rs[0]);
    } else {
      var b, bl, tail := FormatBlock(rs[0]), BlockLines(rs[0]), OutputLines(rs[1..]);
      var x := Join("\n", tail);
      calc {
        FormatResults(rs);
        { FormatCons(rs); }
        b + Separator + FormatResults(rs[1..]);
        { FormatIsJoinOfLines(rs[1..]); }
        b + Separator + x;
        { assert b + "\n\n" + x == b + "\n" + ("" + "\n" + x); }
        b + "\n" + ("" + "\n" + x);
        { JoinCons("\n", "", tail); }
        b + "\n" + Join("\n", [""] + tail);
        { BlockIsJoinOfLines(rs[0]); }
        Join("\n", bl) + "\n" + Join("\n", [""] + tail);
        { JoinConcat("\n", bl, [""] + tail); }
        Join("\n", bl + ([""] + tail));
        { assert OutputLines(rs) == bl + ([""] + tail); }
        Join("\n", OutputLines(rs));
      }
    }
  }

  lemma SliceOfAppend(a: seq<string>, b: seq<string>, i: int, j: int)
    requires |a| <= i <= j <= |a| + |b|
    ensures (a + b)[i..j] == b[i - |a|..j - |a|]
  {
  }

  lemma {:induction false} OutputLinesLength(rs: seq<SearchResult>)
    requires |rs| > 0
    ensures |OutputLines(rs)| == 4 * |rs| - 1
  {
    if |rs| > 1 {
      OutputLinesLength(rs[1..]);
    }
  }

  /** Lines 4i..4i+2 are result i's block; line 4i+3 separates it from the next. */
  lemma {:induction false} OutputLinesAt(rs: seq<SearchResult>, i: int)
    requires 0 <= i < |rs|
    ensures |OutputLines(rs)| == 4 * |rs| - 1
    ensures OutputLines(rs)[4 * i .. 4 * i + 3] == BlockLines(rs[i])
    ensures i < |rs| - 1 ==> OutputLines(rs)[4 * i + 3] == ""
  {
    OutputLinesLength(rs);
    if |rs| > 1 {
      var head, tail := BlockLines(rs[0]) + [""], OutputLines(rs[1..]);
      assert OutputLines(rs) == head + tail;
      if i > 0 {
        OutputLinesAt(rs[1..], i - 1);
        SliceOfAppend(head, tail, 4 * i, 4 * i + 3);
        assert rs[1..][i - 1] == rs[i];
      }
    }
  }

  lemma {:induction false} OutputLinesSingle(rs: seq<SearchResult>)
    requires |rs| > 0
    requires forall i :: 0 <= i < |rs| ==> SingleLineResult(rs[i])
    ensures forall k :: 0 <= k < |OutputLines(rs)| ==> SingleLine(OutputLines(rs)[k])
  {
    assert SingleLine(TitleLabel) && SingleLine(ContentLabel) && SingleLine(UrlLabel);
    assert SingleLineResult(rs[0]);
    if |rs| > 1 {
      OutputLinesSingle(rs[1..]);
    }
  }

  /**
   * Read back line by line, the formatted text of results whose fields are
   * single lines has one block of three lines per result, in the order of
   * the results, and one empty separator line between neighbouring blocks.
   */
  lemma FormattedLayout(rs: seq<SearchResult>)
    requires |rs| > 0
    requires forall i :: 0 <= i < |rs| ==> SingleLineResult(rs[i])
    ensures var ls := Lines(FormatResults(rs));
      && |ls| == 4 * |rs| - 1
      && (forall i :: 0 <= i < |rs| ==> ls[4 * i .. 4 * i + 3] == BlockLines(rs[i]))
      && (forall i :: 0 <= i < |rs| - 1 ==> ls[4 * i + 3] == "")
  {
    FormatIsJoinOfLines(rs);
    OutputLinesSingle(rs);
    LinesOfJoin(OutputLines(rs));
    OutputLinesLength(rs);
    forall i | 0 <= i < |rs| {
      OutputLinesAt(rs, i);
    }
  }

  // ---------------------------------------------------------------- tool

  /**
   * `valyu_context`: clamps the count, asks the client once with a price
   * ceiling of 10, and turns the outcome into exactly one reply: the fixed
   * fetch-failure text when the wrapper saw an exception or `None`, the
   * error text with the exception's message when formatting raises, and
   * the formatted results otherwise. It never raises.
   */
  function ValyuContext(client: ContextRequest -> ClientOutcome, query: string, maxNumResults: int): (reply: string)
    ensures var outcome := client(ContextRequest(query, "all", Clamp(maxNumResults), 10));
      && (reply == FetchFailedText <==> outcome.Raised? || outcome.ReturnedNone?)
      && (IsPrefix(ErrorPrefix, reply) <==> outcome.Returned? && outcome.response.Unreadable?)
      && (outcome.Returned? && outcome.response.Unreadable? ==> reply == ErrorPrefix + outcome.response.message)
      && (outcome.Returned? && outcome.response.SearchResponse? ==> reply == FormatResults(outcome.response.results))
      && (reply == NoResultsText <==> outcome.Returned? && outcome.response == SearchResponse([]))
  {
    var data := MakeValyuRequest(client, query, Clamp(maxNumResults), MaxPrice);
    match data
    case None =>
      assert FetchFailedText[0] == 'U';
      FetchFailedText
    case Some(Unreadable(message)) =>
      assert (ErrorPrefix + message)[0] == 'E';
      ErrorPrefix + message
    case Some(SearchResponse(results)) =>
      var out := FormatResults(results);
      assert |results| > 0 ==> out[..|TitleLabel|] == TitleLabel;
      assert |results| > 0 ==> out[0] == 'T';
      assert FetchFailedText[0] == 'U' && NoResultsText[0] == 'N';
      out
  }

  /**
   * The client is asked exactly one thing: the caller's query, search type
   * "all", the clamped count and price ceiling 10. Two clients that agree on
   * that request give the tool the same reply, whatever the count asked for.
   */
  lemma ToolSendsClampedRequest(c1: ContextRequest -> ClientOutcome, c2: ContextRequest -> ClientOutcome, query: string, n: int)
    requires c1(ContextRequest(query, "all", Clamp(n), 10)) == c2(ContextRequest(query, "all", Clamp(n), 10))
    ensures ValyuContext(c1, query, n) == ValyuContext(c2, query, n)
    ensures 1 <= Clamp(n) <= 5
  {
  }

  /**
   * The worked example: two results, the second with empty content and a
   * description; its text is the two blocks with a blank line between.
   */
  lemma TwoResultsExample()
    ensures FormatResults([
      SearchResult("T1", Some("C1"), None, "U1"),
      SearchResult("T2", Some(""), Some("D2"), "U2")])
      == "Title: " + "T1" + "\n" + "Content: " + "C1" + "\n" + "URL: " + "U1"
         + "\n\n"
         + "Title: " + "T2" + "\n" + "Content: " + "D2" + "\n" + "URL: " + "U2"
  {
    var rs := [SearchResult("T1", Some("C1"), None, "U1"), SearchResult("T2", Some(""), Some("D2"), "U2")];
    assert ContentText(rs[0]) == "C1";
    assert ContentText(rs[1]) == "D2";
    FormatCons(rs);
    assert rs[1..] == [rs[1]];
  }
}
