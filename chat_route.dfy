/** The orchestrator of app/api/training/chat/route.ts: `POST`, from a chat message to a bundle of
    a summary, at most five videos and at most five articles.

    Every upstream is an oracle held in `Upstream`: the three model calls by invocation number (each
    wrapped in the retry executor with its defaults), `JSON.parse` of the two extracted spans, the
    YouTube page of each query, the `ytInitialData` parse, and the link preview of each URL. The
    prompts are opaque to the model, so the oracles do not see them. */
module ChatRoute {
  import opened Common
  import opened Text
  import opened Retry
  import opened ArticleFetcher
  import opened YouTube

  /** A grounding chunk, with `web?.title` and `web?.uri` read off ("" when missing). */
  datatype Web = Web(title: string, uri: string)
  datatype Chunk = Chunk(web: Option<Web>)

  /** A generated content response: its `text` ("" when undefined), and the grounding chunks of its
      first candidate, `None` when `candidates?.[0]?.groundingMetadata?.groundingChunks` is falsy. */
  datatype ModelResponse = ModelResponse(text: string, groundingChunks: Option<seq<Chunk>>)

  /** The two fields of a parsed query object, `None` when falsy (absent, `null` and so on, or when
      the parsed value is not an object at all). */
  datatype QueryFields = QueryFields(youtubeQueries: Option<seq<string>>, articleQueries: Option<seq<string>>)

  datatype Citation = Citation(title: string, url: string, index: nat)

  datatype Resource = Resource(kind: string, title: string, link: string, summary: string, image: Option<string>)

  datatype StructuredData = StructuredData(header: string, intro: string, youtubeVideos: seq<Video>, resources: seq<Resource>)

  /** The JSON body `POST` answers with: the success bundle, or one of its error replies. */
  datatype ChatResponse =
    | Ok(message: string, structuredData: StructuredData, citations: seq<Citation>)
    | ValidationFailed
    | ApiKeyMissing
    | QueryJsonUnparseable(responseText: string)
    | InvalidQueryFormat
    | InternalError(cause: Option<CallError>)

  datatype Upstream = Upstream(
    queryCall: nat -> Outcome<ModelResponse>,
    summaryCall: nat -> Outcome<ModelResponse>,
    articleCall: nat -> Outcome<ModelResponse>,
    parseQueries: string -> Option<QueryFields>,
    parseArticles: string -> Option<seq<Candidate>>,
    youtubePage: string -> Option<seq<string>>,
    parseYtData: string -> Option<InitialData>,
    preview: string -> Preview)

  const MaxVideoQueries: nat := 3
  const MaxResources: nat := 5
  const Header := "Recommended Resources"
  const DefaultIntro := "Here are the best resources I found to help you learn about this topic."
  const ArticleKind := "article"
  const CitationSummaryPrefix := "Learn more about "

  // ---------------------------------------------------------------------------------------------
  // Extracting a JSON span

  /** The match of the greedy `\{[\s\S]*\}` (or `\[[\s\S]*\]`): from the first `open` through the
      last `close`, provided that one comes after it. */
  function ExtractSpan(s: string, open: char, close: char): Option<string>
  {
    match FirstIndexOf(s, open)
    case None => None
    case Some(i) =>
      match LastIndexOf(s, close)
      case None => None
      case Some(k) => if i < k then Some(s[i..k + 1]) else None
  }

  /** A span exists exactly when some `open` precedes some `close`; it then runs from the first
      `open` through the last `close`, not to the end of the first balanced region. */
  lemma ExtractSpanSpec(s: string, open: char, close: char)
    ensures ExtractSpan(s, open, close).Some? <==>
      exists i, k :: 0 <= i < k < |s| && s[i] == open && s[k] == close
    ensures ExtractSpan(s, open, close).Some? ==>
      exists i, k :: 0 <= i < k < |s| && ExtractSpan(s, open, close).value == s[i..k + 1]
        && s[i] == open && s[k] == close
        && (forall j :: 0 <= j < i ==> s[j] != open)
        && (forall j :: k < j < |s| ==> s[j] != close)
  {
    var first := FirstIndexOf(s, open);
    var last := LastIndexOf(s, close);
    if first.Some? && last.Some? && first.value < last.value {
      assert s[first.value] == open && s[last.value] == close;
    }
  }

  // ---------------------------------------------------------------------------------------------
  // The query stage

  datatype QueryOutcome = QueriesParsed(youtubeQueries: seq<string>, articleQueries: seq<string>) | QueriesUnparseable | QueriesInvalid

  /** The query JSON: a span that fails to parse is one error; no span, or a falsy field, the other. */
  function QueryStage(text: string, parse: string -> Option<QueryFields>): QueryOutcome
  {
    match ExtractSpan(text, '{', '}')
    case None => QueriesInvalid
    case Some(span) =>
      match parse(span)
      case None => QueriesUnparseable
      case Some(f) =>
        if f.youtubeQueries.Some? && f.articleQueries.Some? then QueriesParsed(f.youtubeQueries.value, f.articleQueries.value)
        else QueriesInvalid
  }

  // ---------------------------------------------------------------------------------------------
  // Videos

  /** The results of `searchYouTube(q)`. */
  function Search(q: string, page: string -> Option<seq<string>>, parse: string -> Option<InitialData>): seq<Video>
  {
    YouTubeResults(page(q), parse)
  }

  /** The flattened results of searching each query, in query order. */
  function VideoFanIn(queries: seq<string>, page: string -> Option<seq<string>>, parse: string -> Option<InitialData>): seq<Video>
  {
    if queries == [] then [] else Search(queries[0], page, parse) + VideoFanIn(queries[1..], page, parse)
  }

  /** Results stay in query order: the fan-in of two query lists is the concatenation of theirs. */
  lemma {:induction false} VideoFanInAppend(a: seq<string>, b: seq<string>, page: string -> Option<seq<string>>, parse: string -> Option<InitialData>)
    ensures VideoFanIn(a + b, page, parse) == VideoFanIn(a, page, parse) + VideoFanIn(b, page, parse)
  {
    if a == [] {
      assert a + b == b;
    } else {
      assert (a + b)[0] == a[0];
      assert (a + b)[1..] == a[1..] + b;
      VideoFanInAppend(a[1..], b, page, parse);
    }
  }

  /** With three or more queries, the fan-in over the first three is the first query's results,
      then the second's, then the third's. */
  lemma FanInOfFirstThree(qs: seq<string>, page: string -> Option<seq<string>>, parse: string -> Option<InitialData>)
    requires |qs| >= 3
    ensures VideoFanIn(Take(qs, MaxVideoQueries), page, parse)
         == Search(qs[0], page, parse) + Search(qs[1], page, parse) + Search(qs[2], page, parse)
  {
    assert Take(qs, MaxVideoQueries) == [qs[0]] + [qs[1]] + [qs[2]];
    VideoFanInAppend([qs[0]] + [qs[1]], [qs[2]], page, parse);
    VideoFanInAppend([qs[0]], [qs[1]], page, parse);
  }

  // ---------------------------------------------------------------------------------------------
  // The summary

  /** The intro: the summary text when the call returns one, else the default sentence. */
  function Intro(summary: RetryResult<ModelResponse>): string
  {
    if summary.Returned? && summary.value.text != "" then summary.value.text else DefaultIntro
  }

  // ---------------------------------------------------------------------------------------------
  // Articles and citations

  /** The article list: the parsed array span, or nothing when there is no span or it fails to parse. */
  function ParsedArticles(text: string, parse: string -> Option<seq<Candidate>>): seq<Candidate>
  {
    match ExtractSpan(text, '[', ']')
    case None => []
    case Some(span) => if parse(span).Some? then parse(span).value else []
  }

  /** The citation of chunk `p` (0-based), whose `web` is present. */
  function CitationOf(w: Web, p: nat): Citation
  {
    Citation(OrDefault(w.title, DefaultTitle), w.uri, p + 1)
  }

  /** The citations of the chunks from position `from` on. */
  function CitationsFrom(chunks: seq<Chunk>, from: nat): seq<Citation>
    decreases |chunks| - from
  {
    if from >= |chunks| then []
    else (if chunks[from].web.Some? then [CitationOf(chunks[from].web.value, from)] else []) + CitationsFrom(chunks, from + 1)
  }

  /** The citations of a response, one per grounding chunk that has `web`. */
  function Citations(chunks: Option<seq<Chunk>>): seq<Citation>
  {
    if chunks.Some? then CitationsFrom(chunks.value, 0) else []
  }

  /** The `forEach` over the grounding chunks. */
  method CollectCitations(chunks: seq<Chunk>) returns (citations: seq<Citation>)
    ensures citations == CitationsFrom(chunks, 0)
  {
    citations := [];
    var index := 0;
    while index < |chunks|
      invariant 0 <= index <= |chunks|
      invariant CitationsFrom(chunks, 0) == citations + CitationsFrom(chunks, index)
    {
      var chunk := chunks[index];
      if chunk.web.Some? {
        citations := citations + [Citation(OrDefault(chunk.web.value.title, DefaultTitle), chunk.web.value.uri, index + 1)];
      }
      index := index + 1;
    }
  }

  /** Citations come in chunk order, one per chunk with `web`: each carries its chunk's 1-based
      position, its title or "Untitled", and its URI; the indices strictly increase. */
  lemma {:induction false} CitationsFromWellFormed(chunks: seq<Chunk>, from: nat)
    ensures var cs := CitationsFrom(chunks, from);
      && (forall c :: c in cs ==> from + 1 <= c.index <= |chunks| && chunks[c.index - 1].web.Some?
                                   && c == CitationOf(chunks[c.index - 1].web.value, c.index - 1))
      && (forall i, j :: 0 <= i < j < |cs| ==> cs[i].index < cs[j].index)
    decreases |chunks| - from
  {
    if from < |chunks| {
      CitationsFromWellFormed(chunks, from + 1);
    }
  }

  /** Every chunk with `web` at or after `from` has its citation. */
  lemma {:induction false} CitationsFromComplete(chunks: seq<Chunk>, from: nat, p: nat)
    requires from <= p < |chunks| && chunks[p].web.Some?
    ensures CitationOf(chunks[p].web.value, p) in CitationsFrom(chunks, from)
    decreases p - from
  {
    if from < p {
      CitationsFromComplete(chunks, from + 1, p);
    }
  }

  /** The URLs to validate: the article links when there are articles, else the citation URLs. */
  function CandidateUrls(articles: seq<Candidate>, citations: seq<Citation>): seq<string>
  {
    if |articles| > 0 then Links(articles) else if |citations| > 0 then CitationUrls(citations) else []
  }

  function Links(articles: seq<Candidate>): (r: seq<string>)
    ensures |r| == |articles| && forall i :: 0 <= i < |r| ==> r[i] == articles[i].link
  {
    if articles == [] then [] else [articles[0].link] + Links(articles[1..])
  }

  function CitationUrls(citations: seq<Citation>): (r: seq<string>)
    ensures |r| == |citations| && forall i :: 0 <= i < |r| ==> r[i] == citations[i].url
  {
    if citations == [] then [] else [citations[0].url] + CitationUrls(citations[1..])
  }

  /** Model-supplied articles as articles without an image. */
  function AsArticles(candidates: seq<Candidate>): (r: seq<Article>)
    ensures |r| == |candidates|
    ensures forall i :: 0 <= i < |r| ==> r[i] == Article(candidates[i].title, candidates[i].link, candidates[i].summary, None)
  {
    if candidates == [] then [] else [Article(candidates[0].title, candidates[0].link, candidates[0].summary, None)] + AsArticles(candidates[1..])
  }

  /** Citations as articles: "Learn more about <title>", without an image. */
  function CitationArticles(citations: seq<Citation>): (r: seq<Article>)
    ensures |r| == |citations|
    ensures forall i :: 0 <= i < |r| ==> r[i] == Article(citations[i].title, citations[i].url, CitationSummaryPrefix + citations[i].title, None)
  {
    if citations == [] then []
    else [Article(citations[0].title, citations[0].url, CitationSummaryPrefix + citations[0].title, None)] + CitationArticles(citations[1..])
  }

  /** The fallback ladder after validation. */
  function ResolveArticles(validated: seq<Article>, articles: seq<Candidate>, citations: seq<Citation>): seq<Article>
  {
    if |validated| == 0 && |articles| > 0 then AsArticles(Take(FilterErrorPages(articles), MaxResources))
    else if |validated| == 0 && |citations| > 0 then CitationArticles(Take(citations, MaxResources))
    else validated
  }

  /** Everything the article response decides: the articles that end up in the bundle. */
  function ArticleStage(response: ModelResponse, parse: string -> Option<seq<Candidate>>, preview: string -> Preview): seq<Article>
  {
    var articles := ParsedArticles(response.text, parse);
    var citations := Citations(response.groundingChunks);
    ResolveArticles(Validate(CandidateUrls(articles, citations), preview), articles, citations)
  }

  // ---------------------------------------------------------------------------------------------
  // The bundle and the whole request

  function AsResources(articles: seq<Article>): (r: seq<Resource>)
    ensures |r| == |articles|
    ensures forall i :: 0 <= i < |r| ==>
      r[i] == Resource(ArticleKind, articles[i].title, articles[i].link, articles[i].summary, articles[i].image)
  {
    if articles == [] then []
    else [Resource(ArticleKind, articles[0].title, articles[0].link, articles[0].summary, articles[0].image)] + AsResources(articles[1..])
  }

  function Bundle(responseText: string, intro: string, videos: seq<Video>, articles: seq<Article>): ChatResponse
  {
    Ok(responseText, StructuredData(Header, intro, Take(videos, MaxVideos), AsResources(Take(articles, MaxResources))), [])
  }

  /** The response of `POST` once the query model call has returned. */
  function AfterQueries(response: ModelResponse, u: Upstream): ChatResponse
  {
    match QueryStage(response.text, u.parseQueries)
    case QueriesUnparseable => QueryJsonUnparseable(response.text)
    case QueriesInvalid => InvalidQueryFormat
    case QueriesParsed(youtubeQueries, _) =>
      var videos := VideoFanIn(Take(youtubeQueries, MaxVideoQueries), u.youtubePage, u.parseYtData);
      var intro := Intro(Retry.Retry(u.summaryCall, DefaultMaxRetries, DefaultBaseDelay).result);
      match Retry.Retry(u.articleCall, DefaultMaxRetries, DefaultBaseDelay).result
      case Threw(e) => InternalError(e)
      case Returned(articleResponse) => Bundle(response.text, intro, videos, ArticleStage(articleResponse, u.parseArticles, u.preview))
  }

  /** The response of `POST` for a request carrying `message`. */
  function Chat(message: string, apiKeyConfigured: bool, u: Upstream): ChatResponse
  {
    if message == "" then ValidationFailed
    else if !apiKeyConfigured then ApiKeyMissing
    else
      match Retry.Retry(u.queryCall, DefaultMaxRetries, DefaultBaseDelay).result
      case Threw(e) => InternalError(e)
      case Returned(response) => AfterQueries(response, u)
  }

  // ---------------------------------------------------------------------------------------------
  // The handler, imperatively

  /** `POST`: the stages in order, each result held in the handler's own variables. */
  method Post(message: string, apiKeyConfigured: bool, u: Upstream) returns (resp: ChatResponse)
    ensures resp == Chat(message, apiKeyConfigured, u)
  {
    if message == "" {
      return ValidationFailed;
    }
    if !apiKeyConfigured {
      return ApiKeyMissing;
    }
    var response, _, _ := RetryWithBackoff(u.queryCall, DefaultMaxRetries, DefaultBaseDelay);
    if response.Threw? {
      return InternalError(response.error);
    }
    var responseText := response.value.text;
    var queries: Option<QueryFields> := None;
    var jsonMatch := ExtractSpan(responseText, '{', '}');
    if jsonMatch.Some? {
      queries := u.parseQueries(jsonMatch.value);
      if queries.None? {
        return QueryJsonUnparseable(responseText);
      }
    }
    if queries.None? || queries.value.youtubeQueries.None? || queries.value.articleQueries.None? {
      return InvalidQueryFormat;
    }
    var youtubeVideos := SearchAll(Take(queries.value.youtubeQueries.value, MaxVideoQueries), u);
    var aiSummary := Summarise(u);
    var articleResponse, _, _ := RetryWithBackoff(u.articleCall, DefaultMaxRetries, DefaultBaseDelay);
    if articleResponse.Threw? {
      return InternalError(articleResponse.error);
    }
    var validatedArticles := ResolveArticleResponse(articleResponse.value, u);
    resp := Ok(responseText, StructuredData(Header, aiSummary, Take(youtubeVideos, MaxVideos),
                                            AsResources(Take(validatedArticles, MaxResources))), []);
  }

  /** The `Promise.all` over the video queries, read as a sequential map, then `flat`. */
  method SearchAll(queries: seq<string>, u: Upstream) returns (videos: seq<Video>)
    ensures videos == VideoFanIn(queries, u.youtubePage, u.parseYtData)
  {
    videos := [];
    var i := 0;
    while i < |queries|
      invariant 0 <= i <= |queries|
      invariant VideoFanIn(queries, u.youtubePage, u.parseYtData) == videos + VideoFanIn(queries[i..], u.youtubePage, u.parseYtData)
    {
      assert queries[i..][1..] == queries[i + 1..];
      var found := SearchYouTube(u.youtubePage(queries[i]), u.parseYtData);
      videos := videos + found;
      i := i + 1;
    }
  }

  /** The best-effort summary: a failed call, or an empty text, keeps the default. */
  method Summarise(u: Upstream) returns (aiSummary: string)
    ensures aiSummary == Intro(Retry.Retry(u.summaryCall, DefaultMaxRetries, DefaultBaseDelay).result)
  {
    aiSummary := DefaultIntro;
    var summaryResponse, _, _ := RetryWithBackoff(u.summaryCall, DefaultMaxRetries, DefaultBaseDelay);
    if summaryResponse.Returned? {
      aiSummary := if summaryResponse.value.text != "" then summaryResponse.value.text else aiSummary;
    }
  }

  /** From the article response to the validated articles, with the fallbacks. */
  method ResolveArticleResponse(articleResponse: ModelResponse, u: Upstream) returns (validatedArticles: seq<Article>)
    ensures validatedArticles == ArticleStage(articleResponse, u.parseArticles, u.preview)
  {
    var articleResponseText := articleResponse.text;
    var articles: seq<Candidate> := [];
    var jsonMatch := ExtractSpan(articleResponseText, '[', ']');
    if jsonMatch.Some? {
      var parsed := u.parseArticles(jsonMatch.value);
      if parsed.Some? {
        articles := parsed.value;
      }
    }
    var citations: seq<Citation> := [];
    if articleResponse.groundingChunks.Some? {
      citations := CollectCitations(articleResponse.groundingChunks.value);
    }
    var allUrls: seq<string> := [];
    if |articles| > 0 {
      allUrls := Links(articles);
    } else if |citations| > 0 {
      allUrls := CitationUrls(citations);
    }
    var fetched;
    validatedArticles, fetched := ValidateAndFetchArticles(allUrls, u.preview);
    if |validatedArticles| == 0 && |articles| > 0 {
      validatedArticles := AsArticles(Take(FilterErrorPages(articles), MaxResources));
    } else if |validatedArticles| == 0 && |citations| > 0 {
      validatedArticles := CitationArticles(Take(citations, MaxResources));
    }
  }

  // ---------------------------------------------------------------------------------------------
  // Properties of the pipeline

  /** The query model call's response, when it returned one. */
  predicate QueryReturned(u: Upstream, response: ModelResponse)
  {
    Retry.Retry(u.queryCall, DefaultMaxRetries, DefaultBaseDelay).result == Returned(response)
  }

  /** The query stage's two error replies: a braced span that fails to parse gives "Failed to
      generate search queries" with the model's text, and no span, or a falsy field, gives "Invalid
      search queries format". */
  lemma QueryStageOutcomes(message: string, u: Upstream, response: ModelResponse)
    requires message != "" && QueryReturned(u, response)
    ensures var span := ExtractSpan(response.text, '{', '}');
      Chat(message, true, u) == QueryJsonUnparseable(response.text) <==>
        span.Some? && u.parseQueries(span.value).None?
    ensures var span := ExtractSpan(response.text, '{', '}');
      Chat(message, true, u) == InvalidQueryFormat <==>
        span.None? || (u.parseQueries(span.value).Some? &&
                       (u.parseQueries(span.value).value.youtubeQueries.None? || u.parseQueries(span.value).value.articleQueries.None?))
  {
  }

  /** Empty query arrays are truthy, so they pass the check: the request succeeds (if the article
      call returns) with no videos at all. */
  lemma EmptyQueryArraysAccepted(message: string, u: Upstream, response: ModelResponse, articleResponse: ModelResponse)
    requires message != "" && QueryReturned(u, response)
    requires var span := ExtractSpan(response.text, '{', '}');
      span.Some? && u.parseQueries(span.value) == Some(QueryFields(Some([]), Some([])))
    requires Retry.Retry(u.articleCall, DefaultMaxRetries, DefaultBaseDelay).result == Returned(articleResponse)
    ensures Chat(message, true, u).Ok?
    ensures Chat(message, true, u).structuredData.youtubeVideos == []
  {
  }

  /** Only the first three video queries are searched, and their results are concatenated in query
      order: with three or more, the videos are the first five of the first query's results, then
      the second's, then the third's; later queries have no effect. */
  lemma VideosFromFirstThreeQueries(message: string, u: Upstream, response: ModelResponse, qs: seq<string>, aq: seq<string>)
    requires message != "" && QueryReturned(u, response)
    requires QueryStage(response.text, u.parseQueries) == QueriesParsed(qs, aq)
    requires Chat(message, true, u).Ok?
    ensures var page, parse := u.youtubePage, u.parseYtData;
      |qs| >= 3 ==> Chat(message, true, u).structuredData.youtubeVideos
                    == Take(Search(qs[0], page, parse) + Search(qs[1], page, parse) + Search(qs[2], page, parse), MaxVideos)
    ensures |qs| < 3 ==> Chat(message, true, u).structuredData.youtubeVideos == Take(VideoFanIn(qs, u.youtubePage, u.parseYtData), MaxVideos)
  {
    if |qs| >= 3 {
      FanInOfFirstThree(qs, u.youtubePage, u.parseYtData);
    }
  }

  /** A response with the intro replaced; any other reply unchanged. */
  function WithIntro(resp: ChatResponse, intro: string): ChatResponse
  {
    if resp.Ok? then Ok(resp.message, resp.structuredData.(intro := intro), resp.citations) else resp
  }

  /** The summary stage never aborts the request: whatever the summary call does, the reply is the
      same except for the intro, which is the returned text when non-empty and else the default. */
  lemma SummaryNeverFatal(message: string, apiKeyConfigured: bool, u: Upstream, summaryCall: nat -> Outcome<ModelResponse>)
    ensures var u' := u.(summaryCall := summaryCall);
      Chat(message, apiKeyConfigured, u') == WithIntro(Chat(message, apiKeyConfigured, u), Intro(Retry.Retry(summaryCall, DefaultMaxRetries, DefaultBaseDelay).result))
  {
  }

  /** With the summary call failing, the intro is the fixed default sentence. */
  lemma IntroDefaultsWhenSummaryFails(summary: RetryResult<ModelResponse>)
    ensures summary.Threw? ==> Intro(summary) == DefaultIntro
    ensures summary.Returned? && summary.value.text != "" ==> Intro(summary) == summary.value.text
  {
  }

  /** The request ends in the generic internal error exactly when the query call or, after a valid
      query stage, the article call throws; no upstream failure besides those two is fatal. */
  lemma InternalErrorIff(message: string, apiKeyConfigured: bool, u: Upstream)
    ensures Chat(message, apiKeyConfigured, u).InternalError? <==>
      && message != "" && apiKeyConfigured
      && var q := Retry.Retry(u.queryCall, DefaultMaxRetries, DefaultBaseDelay).result;
         || q.Threw?
         || (QueryStage(q.value.text, u.parseQueries).QueriesParsed?
             && Retry.Retry(u.articleCall, DefaultMaxRetries, DefaultBaseDelay).result.Threw?)
  {
  }

  /** A thrown article call is the error that ends the request. */
  lemma ArticleCallFailureFatal(message: string, u: Upstream, response: ModelResponse, e: Option<CallError>)
    requires message != "" && QueryReturned(u, response)
    requires QueryStage(response.text, u.parseQueries).QueriesParsed?
    requires Retry.Retry(u.articleCall, DefaultMaxRetries, DefaultBaseDelay).result == Threw(e)
    ensures Chat(message, true, u) == InternalError(e)
  {
  }

  /** Citations are consulted only when the model returned no parseable articles: while it did,
      the grounding chunks make no difference to the articles in the bundle. */
  lemma CitationsUnusedWhenArticlesExist(text: string, chunks: Option<seq<Chunk>>, chunks': Option<seq<Chunk>>,
                                         parse: string -> Option<seq<Candidate>>, preview: string -> Preview)
    requires ParsedArticles(text, parse) != []
    ensures ArticleStage(ModelResponse(text, chunks), parse, preview) == ArticleStage(ModelResponse(text, chunks'), parse, preview)
  {
  }

  /** The fallback ladder. Validated articles are used when there are any. Otherwise, if the model
      returned articles, the first five that pass the error-page filter, with no image, and never
      the citations, even when the filter rejects them all. Otherwise the first five citations,
      each summarised "Learn more about <title>". */
  lemma FallbackLadder(validated: seq<Article>, articles: seq<Candidate>, citations: seq<Citation>)
    ensures var r := ResolveArticles(validated, articles, citations);
      && (validated != [] ==> r == validated)
      && (validated == [] && articles != [] ==>
            && r == AsArticles(Take(FilterErrorPages(articles), MaxResources))
            && |r| <= MaxResources
            && (forall a :: a in r ==> a.image == None && KeepArticle(a.title, a.summary)
                                        && Candidate(a.title, a.link, a.summary) in articles)
            && (FilterErrorPages(articles) == [] ==> r == []))
      && (validated == [] && articles == [] ==>
            && |r| == (if |citations| < MaxResources then |citations| else MaxResources)
            && forall i :: 0 <= i < |r| ==>
                 r[i] == Article(citations[i].title, citations[i].url, CitationSummaryPrefix + citations[i].title, None))
  {
    var r := ResolveArticles(validated, articles, citations);
    if validated == [] && articles != [] {
      var kept := Take(FilterErrorPages(articles), MaxResources);
      forall a | a in r
        ensures a.image == None && KeepArticle(a.title, a.summary) && Candidate(a.title, a.link, a.summary) in articles
      {
        var i :| 0 <= i < |r| && r[i] == a;
        assert kept[i] in FilterErrorPages(articles);
      }
    }
  }

  /** Articles that came out of validation link to candidate URLs and are not error pages. */
  lemma ValidatedArticlesAreKept(urls: seq<string>, preview: string -> Preview)
    ensures forall a :: a in Validate(urls, preview) ==>
      a.link in urls && KeepArticle(a.title, a.summary) && !IsErrorPage(a.title, a.summary)
  {
    MetasAreKeptPages(urls, preview);
  }

  /** With no articles and no citations nothing is validated and the bundle has no resources; the
      request still succeeds. */
  lemma NoCandidatesNoResources(text: string, chunks: Option<seq<Chunk>>, parse: string -> Option<seq<Candidate>>, preview: string -> Preview)
    requires ParsedArticles(text, parse) == [] && Citations(chunks) == []
    ensures ArticleStage(ModelResponse(text, chunks), parse, preview) == []
  {
  }

  /** A successful reply: the message is the query model's text, the header is fixed, at most five
      videos and five resources, each resource typed "article", and the top-level citations empty. */
  lemma OkShape(message: string, apiKeyConfigured: bool, u: Upstream)
    requires Chat(message, apiKeyConfigured, u).Ok?
    ensures var r := Chat(message, apiKeyConfigured, u);
      && r.message == Retry.Retry(u.queryCall, DefaultMaxRetries, DefaultBaseDelay).result.value.text
      && r.structuredData.header == Header
      && |r.structuredData.youtubeVideos| <= MaxVideos
      && |r.structuredData.resources| <= MaxResources
      && (forall x :: x in r.structuredData.resources ==> x.kind == ArticleKind)
      && r.citations == []
  {
  }
}
