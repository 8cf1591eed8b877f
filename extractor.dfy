/**
 * Exhibition-data extraction (src/extractor.ts): fetch a page, send a bounded
 * excerpt of it to the language model, take the first reply block, cut the
 * brace-delimited span out of its text and hand that span to the JSON parser.
 *
 * The page fetch, the completion call and JSON.parse are foreign code; they
 * are parameters here, and the result records which calls were issued.
 */
module Extractor {
  import opened Types

  /** The page body is cut to this many characters before it enters the prompt. */
  const MaxHtmlChars: nat := 50000

  /** What `fetch(url)` settles to: a response, or a rejected promise. */
  datatype FetchOutcome =
    | Response(ok: bool, statusText: string, body: string)
    | NetworkFailure(message: string)

  /**
   * One block of the language model's reply: a block whose `type` is `"text"`, carrying
   * its text, or a block of any other type (tool use, thinking, ...).
   */
  datatype ContentBlock = TextBlock(text: string) | OtherBlock

  /** What `client.messages.create(...)` settles to. */
  datatype CompletionOutcome =
    | Reply(content: seq<ContentBlock>)
    | ApiFailure(message: string)

  /**
   * The part of the single-turn prompt that depends on the input: the page
   * URL and the HTML excerpt. The fixed instruction wording, the language model id and
   * the output-token cap are constants around these two values.
   */
  datatype Prompt = Prompt(url: string, html: string)

  /** The fixed parts of the fetch-failure message around the URL. */
  const FetchPrefix: string := "Failed to fetch "
  const FetchSeparator: string := ": "

  /** Every way `extractExhibitionData` can reject, by the place that throws. */
  datatype ExtractError =
    | FetchFailed(url: string, statusText: string)
    | FetchRejected(message: string)
    | CompletionRejected(message: string)
    | MissingContentBlock
    | UnexpectedResponse
    | NoJsonFound
    | MalformedJson(detail: string)
  {
    /**
     * The message of the error the source throws (or lets through). A failed
     * fetch names the URL and the status text, in that order; the texts of the
     * three checks are fixed; a rejection from foreign code keeps its message.
     */
    function Message(): (m: string)
      ensures FetchFailed? ==>
        && |m| == |FetchPrefix| + |url| + |FetchSeparator| + |statusText|
        && m[..|FetchPrefix|] == FetchPrefix
        && m[|FetchPrefix|..|FetchPrefix| + |url|] == url
        && m[|FetchPrefix| + |url|..|m| - |statusText|] == FetchSeparator
        && m[|m| - |statusText|..] == statusText
      ensures UnexpectedResponse? ==> m == "Unexpected response type from Claude"
      ensures NoJsonFound? ==> m == "Could not extract JSON from Claude response"
      ensures FetchRejected? ==> m == message
      ensures CompletionRejected? ==> m == message
      ensures MalformedJson? ==> m == detail
    {
      match this
      case FetchFailed(url, statusText) => FetchPrefix + url + FetchSeparator + statusText
      case FetchRejected(m) => m
      case CompletionRejected(m) => m
      case MissingContentBlock => "Cannot read properties of undefined (reading 'type')"
      case UnexpectedResponse => "Unexpected response type from Claude"
      case NoJsonFound => "Could not extract JSON from Claude response"
      case MalformedJson(d) => d
    }
  }

  /** The result of one extraction together with the remote calls it issued. */
  datatype ExtractRun = ExtractRun(
    result: Result<Exhibition, ExtractError>,
    pageRequests: seq<string>,
    prompts: seq<Prompt>)

  // ---------------------------------------------------------------------------
  // The HTML excerpt

  /** `html.substring(0, 50000)`: the first 50 000 characters, or all of a shorter page. */
  function Truncate(html: string): (excerpt: string)
    ensures |excerpt| == if |html| <= MaxHtmlChars then |html| else MaxHtmlChars
    ensures excerpt <= html
  {
    if |html| <= MaxHtmlChars then html else html[..MaxHtmlChars]
  }

  // ---------------------------------------------------------------------------
  // The JSON span: the match of /\{[\s\S]*\}/

  /** A half-open span `[start, end)` of a string. */
  datatype Span = Span(start: nat, end: nat)

  /**
   * `text[i..j]` matches the pattern as a whole: it opens with `{`, closes
   * with a different `}` and anything (`[\s\S]*`) lies between.
   */
  ghost predicate PatternMatches(text: string, i: int, j: int)
  {
    0 <= i && i + 2 <= j <= |text| && text[i] == '{' && text[j - 1] == '}'
  }

  /**
   * The span a backtracking regular-expression search reports: the leftmost
   * start at which some match exists, and, because `[\s\S]*` is greedy, the
   * longest match from that start.
   */
  ghost predicate LeftmostLongest(text: string, span: Span)
  {
    && PatternMatches(text, span.start, span.end)
    && (forall i, j :: PatternMatches(text, i, j) ==> span.start <= i)
    && (forall j :: PatternMatches(text, span.start, j) ==> j <= span.end)
  }

  /** The first index at or after `from` holding `c`. */
  function IndexOf(text: string, c: char, from: nat): (r: Option<nat>)
    requires from <= |text|
    ensures r.Some? ==> from <= r.value < |text| && text[r.value] == c
    ensures r.Some? ==> forall k :: from <= k < r.value ==> text[k] != c
    ensures r.None? ==> forall k :: from <= k < |text| ==> text[k] != c
    decreases |text| - from
  {
    if from == |text| then None
    else if text[from] == c then Some(from)
    else IndexOf(text, c, from + 1)
  }

  /** The last index below `upto` holding `c`. */
  function LastIndexOf(text: string, c: char, upto: nat): (r: Option<nat>)
    requires upto <= |text|
    ensures r.Some? ==> r.value < upto && text[r.value] == c
    ensures r.Some? ==> forall k :: r.value < k < upto ==> text[k] != c
    ensures r.None? ==> forall k :: 0 <= k < upto ==> text[k] != c
  {
    if upto == 0 then None
    else if text[upto - 1] == c then Some(upto - 1)
    else LastIndexOf(text, c, upto - 1)
  }

  /**
   * `text.match(/\{[\s\S]*\}/)`: from the first `{` to the last `}`, provided
   * the last `}` comes after the first `{`; no match otherwise.
   */
  function FindJsonSpan(text: string): (r: Option<Span>)
    ensures r.Some? ==> LeftmostLongest(text, r.value)
    ensures r.None? ==> forall i, j :: !PatternMatches(text, i, j)
  {
    match IndexOf(text, '{', 0)
    case None => None
    case Some(open) =>
      match LastIndexOf(text, '}', |text|)
      case None => None
      case Some(close) => if open < close then Some(Span(open, close + 1)) else None
  }

  /** `jsonMatch[0]`: the matched substring, if any. */
  function MatchJson(text: string): (m: Option<string>)
    ensures m.Some? ==> |m.value| >= 2 && m.value[0] == '{' && m.value[|m.value| - 1] == '}'
    ensures m.Some? ==> exists span :: LeftmostLongest(text, span) && m.value == text[span.start..span.end]
    ensures m.None? <==> forall i, j :: !PatternMatches(text, i, j)
  {
    match FindJsonSpan(text)
    case None => None
    case Some(span) => Some(text[span.start..span.end])
  }

  /** A match exists exactly when some `{` has a `}` somewhere after it. */
  lemma JsonSpanExistsIff(text: string)
    ensures FindJsonSpan(text).Some? <==>
      exists i, j :: 0 <= i < j < |text| && text[i] == '{' && text[j] == '}'
  {
  }

  /**
   * A found span starts at the first `{` of the whole text and ends just after
   * its last `}`: it is greedy, and swallows every object and every stray
   * brace between those two characters.
   */
  lemma JsonSpanIsFirstOpenToLastClose(text: string)
    requires FindJsonSpan(text).Some?
    ensures var span := FindJsonSpan(text).value;
      && span.start < span.end - 1 < |text|
      && text[span.start] == '{' && text[span.end - 1] == '}'
      && (forall k :: 0 <= k < span.start ==> text[k] != '{')
      && (forall k :: span.end <= k < |text| ==> text[k] != '}')
  {
  }

  /** A reply that is one serialised object from its first to its last character is its own span. */
  lemma WholeObjectReplyIsItsOwnSpan(text: string)
    requires |text| >= 2 && text[0] == '{' && text[|text| - 1] == '}'
    ensures FindJsonSpan(text) == Some(Span(0, |text|))
    ensures MatchJson(text) == Some(text)
  {
    assert PatternMatches(text, 0, |text|);
    var span := FindJsonSpan(text).value;
    assert span.start <= 0;
    assert |text| <= span.end;
    assert text[0..|text|] == text;
  }

  // ---------------------------------------------------------------------------
  // The extraction pipeline

  /**
   * Everything after the completion call: the first content block must exist
   * and be text, its text must contain a span, and the span goes to `parse`.
   */
  function InterpretReply(
    outcome: CompletionOutcome,
    parse: string -> Result<Exhibition, string>): (r: Result<Exhibition, ExtractError>)
    ensures outcome.ApiFailure? ==> r == Err(CompletionRejected(outcome.message))
    ensures outcome.Reply? && |outcome.content| == 0 ==> r == Err(MissingContentBlock)
    ensures outcome.Reply? && |outcome.content| > 0 && outcome.content[0].OtherBlock? ==>
      r == Err(UnexpectedResponse)
    ensures outcome.Reply? && |outcome.content| > 0 && outcome.content[0].TextBlock? ==>
      var text := outcome.content[0].text;
      && ((forall i, j :: !PatternMatches(text, i, j)) ==> r == Err(NoJsonFound))
      && (forall span :: LeftmostLongest(text, span) ==>
            r == match parse(text[span.start..span.end])
                 case Ok(e) => Ok(e)
                 case Err(d) => Err(MalformedJson(d)))
  {
    match outcome
    case ApiFailure(m) => Err(CompletionRejected(m))
    case Reply(content) =>
      if |content| == 0 then Err(MissingContentBlock)
      else
        match content[0]
        case OtherBlock => Err(UnexpectedResponse)
        case TextBlock(text) =>
          match MatchJson(text)
          case None => Err(NoJsonFound)
          case Some(json) =>
            match parse(json)
            case Ok(exhibition) => Ok(exhibition)
            case Err(detail) => Err(MalformedJson(detail))
  }

  /**
   * `extractExhibitionData(client, url)`. `fetch` stands for the global page
   * fetch, `complete` for the language model's completion endpoint and `parse` for
   * JSON.parse; the run records the URLs fetched and the prompts sent.
   */
  function ExtractExhibitionData(
    url: string,
    fetch: string -> FetchOutcome,
    complete: Prompt -> CompletionOutcome,
    parse: string -> Result<Exhibition, string>): (run: ExtractRun)
    ensures run.pageRequests == [url]
    ensures |run.prompts| <= 1
    ensures fetch(url).NetworkFailure? ==>
      run.result == Err(FetchRejected(fetch(url).message)) && run.prompts == []
    ensures fetch(url).Response? && !fetch(url).ok ==>
      && run.result == Err(FetchFailed(url, fetch(url).statusText))
      && run.prompts == []
    ensures fetch(url).Response? && fetch(url).ok ==>
      && |run.prompts| == 1
      && run.prompts[0].url == url
      && run.prompts[0].html == Truncate(fetch(url).body)
      && run.result == InterpretReply(complete(run.prompts[0]), parse)
  {
    match fetch(url)
    case NetworkFailure(m) => ExtractRun(Err(FetchRejected(m)), [url], [])
    case Response(ok, statusText, body) =>
      if !ok then ExtractRun(Err(FetchFailed(url, statusText)), [url], [])
      else
        var prompt := Prompt(url, Truncate(body));
        ExtractRun(InterpretReply(complete(prompt), parse), [url], [prompt])
  }

  /**
   * A failed page fetch rejects with "Failed to fetch <url>: <statusText>" and
   * the language model is never called.
   */
  lemma FetchFailureMessage(
    url: string,
    fetch: string -> FetchOutcome,
    complete: Prompt -> CompletionOutcome,
    parse: string -> Result<Exhibition, string>)
    requires fetch(url).Response? && !fetch(url).ok
    ensures var run := ExtractExhibitionData(url, fetch, complete, parse);
      && run.result.Err?
      && run.result.error.Message() == "Failed to fetch " + url + ": " + fetch(url).statusText
      && run.prompts == []
  {
  }

  /**
   * The result is `NoJsonFound` exactly when the page was fetched, the reply's
   * first block is text, and that text has no `{` followed later by a `}`.
   */
  lemma NoJsonFoundIff(
    url: string,
    fetch: string -> FetchOutcome,
    complete: Prompt -> CompletionOutcome,
    parse: string -> Result<Exhibition, string>)
    ensures var run := ExtractExhibitionData(url, fetch, complete, parse);
      run.result == Err(NoJsonFound) <==>
        && fetch(url).Response? && fetch(url).ok
        && var reply := complete(Prompt(url, Truncate(fetch(url).body)));
        && reply.Reply? && |reply.content| > 0 && reply.content[0].TextBlock?
        && !exists i, j :: 0 <= i < j < |reply.content[0].text|
             && reply.content[0].text[i] == '{' && reply.content[0].text[j] == '}'
  {
  }

  /**
   * A successful extraction returns exactly what `parse` made of the span, and
   * that span is the whole first reply block when the block is one object.
   */
  lemma SuccessIsParsedSpan(
    url: string,
    fetch: string -> FetchOutcome,
    complete: Prompt -> CompletionOutcome,
    parse: string -> Result<Exhibition, string>)
    requires ExtractExhibitionData(url, fetch, complete, parse).result.Ok?
    ensures fetch(url).Response? && fetch(url).ok
    ensures var reply := complete(Prompt(url, Truncate(fetch(url).body)));
      && reply.Reply? && |reply.content| > 0 && reply.content[0].TextBlock?
      && var text := reply.content[0].text;
      && MatchJson(text).Some?
      && parse(MatchJson(text).value) == Ok(ExtractExhibitionData(url, fetch, complete, parse).result.value)
  {
  }
}
