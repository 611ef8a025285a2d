# Sakhi Seva resource pipeline, in Dafny

This project models the resource-resolution pipeline of the Sakhi Seva training chat. A chat
message is turned into a bundle: a summary sentence, at most five YouTube videos and at most five
validated articles. The model covers five pieces of code:

- the 503-aware retry loop `retryWithBackoff`;
- the article validator: the error-page classifier, `fetchArticleMeta`,
  `validateAndFetchArticles` and `filterErrorPages`;
- the YouTube scraper's result extraction (`searchYouTube`);
- the Google scraper's result extraction (`searchGoogle`);
- the `POST` handler of the training chat route, which ties everything together.

Every foreign call is replaced by an oracle, a plain function the caller supplies:

- `fn(k)` is the outcome of the k-th invocation of a retried operation;
- `JSON.parse` and `decodeURIComponent` are partial functions (`string -> Option<...>`);
- `getLinkPreview` maps a URL to its preview outcome;
- an HTTP page is `None` when the request failed, otherwise the script texts or the DOM element
  records the selectors would return.

Once those are fixed, every step is deterministic. Each module defines specification functions
(`Retry`, `Validate`, `YouTubeResults`, `GoogleResults`, `Chat`). The methods follow the source's
loops and are proved equal to those functions. The lemmas state what the source promises about the
functions.

Files:

| file | module | models |
|---|---|---|
| `common.dfy` | `Common` | `Option`, `Take` (`slice(0, n)`) |
| `text.dfy` | `Text` | ASCII case folding, `startsWith`, `includes`, `indexOf`, `lastIndexOf`, `replace`, `split(c)[0]` |
| `retry.dfy` | `Retry` | `lib/utils/retry.ts` |
| `article_fetcher.dfy` | `ArticleFetcher`, `ErrorPageExamples` | `lib/scrapers/article-fetcher.ts` |
| `youtube.dfy` | `YouTube` | `lib/scrapers/youtube.ts` |
| `google.dfy` | `Google` | `lib/scrapers/google.ts` |
| `chat_route.dfy` | `ChatRoute` | `app/api/training/chat/route.ts` |

Several behaviours differ from what a reader of the pipeline would expect; the model follows the code:

- Empty query arrays are truthy, so the query check accepts them (`ChatRoute.EmptyQueryArraysAccepted`).
  A reader might expect both query lists to be required to be non-empty.
- A thrown article-generation call is fatal: it ends in the generic internal error
  (`ChatRoute.InternalErrorIff`, `ChatRoute.ArticleCallFailureFatal`). One might expect only
  validation, configuration and query failures ending a run, with every later stage degrading.
- The article fallback ladder is not a list of tiers tried until one yields something. When the
  model returned articles and the error filter rejects all of them, the result is empty and the
  citations are not consulted (`ChatRoute.FallbackLadder`).
- The validator is invoked even on an empty URL list. It then returns nothing and fetches nothing.
- A Google pass that throws skips the broader pass: the throw leaves the whole `try` block.
- The `ytInitialData` capture group begins at the `{` that ends the literal
  `var ytInitialData = {`. It ends at the `}` of the first `};` that starts after that `{`.

## Model

| member | source | states |
|---|---|---|
| `Retry.IsOverloaded` | lib/utils/retry.ts:14 | Defines the overload test: the error's `status` or its `code` is 503. |
| `Retry.Delay` | lib/utils/retry.ts:15 | Defines the delay of attempt `k` as `baseDelay * 2^k`; `Retry.Delays` lists these in order. |
| `Retry.Delays` | lib/utils/retry.ts:15-19 | The list of delays for attempts `from .. from+n-1`: n entries, the i-th `baseDelay * 2^(from+i)`. |
| `Retry.Settle` | lib/utils/retry.ts:10-24 | Defines how the attempt that ends the loop settles it: a success returns its value, a failure throws its error. |
| `Retry.RunFrom` | lib/utils/retry.ts:8-28 | Defines the loop from a given attempt and `lastError`: return on success, wait and go on after a 503 that is not the last attempt, throw otherwise, and throw `lastError` once attempts run out. Its behaviour is stated by `Retry.RunFromStopsAt`. |
| `Retry.Retry` | lib/utils/retry.ts:1-29 | Defines the whole run of `retryWithBackoff`, starting at attempt 0 with no `lastError`. Its properties are `Retry.RetryStopsAt`, `Retry.RetryBounds` and `Retry.RetryNoAttempts`. |
| `Retry.RetryWithBackoff` | lib/utils/retry.ts:1-29 | The loop's result, its number of `fn` invocations and its log of waits are exactly those of the specification `Retry`. |
| `Retry.RunFromStopsAt` | lib/utils/retry.ts:8-26 | From attempt `a`, through 503 failures up to the first attempt `k` that is not one (or is the last), the loop makes `k-a+1` calls, waits `baseDelay*2^i` for `a <= i < k`, and settles as attempt `k` did. |
| `Retry.RetryStopsAt` | lib/utils/retry.ts:8-28 | The run stops at the first non-503 attempt or the last allowed one. It returns the first success unchanged, rethrows a non-503 error at once, or throws the last 503 after `maxRetries` calls, having waited `baseDelay*2^i` only before each retry. |
| `Retry.RetryBounds` | lib/utils/retry.ts:8-28 | For any outcomes and `maxRetries > 0`: between 1 and `maxRetries` invocations. The waits are `baseDelay*2^0 ..` in order, one fewer than the calls. The result is that of the last invocation. |
| `Retry.RetryNoAttempts` | lib/utils/retry.ts:6-28 | With `maxRetries <= 0`, `fn` is never invoked and the unassigned `lastError` (undefined) is thrown. |
| `Retry.RetryDefaultsTwoOverloadsThenSuccess` | lib/utils/retry.ts:3-20 | With the defaults, two 503 failures and then a success return that value after 3 calls, with waits 1000 and 2000. |
| `Retry.RetryDefaultsAllOverloaded` | lib/utils/retry.ts:3-24 | With the defaults and three 503 failures, the third error is thrown after 3 calls and waits 1000 and 2000. The 4000 computed on the last attempt is never waited. |
| `ArticleFetcher.StartsWithStatusCode` | lib/scrapers/article-fetcher.ts:12 | Defines `/^Error \d{3}/i`: at least nine characters, the first six "error " in any ASCII case, then three digits. |
| `ArticleFetcher.PatternTest` | lib/scrapers/article-fetcher.ts:12-23 | Defines `pattern.test(s)` for each entry of the table: the anchored status code, or the phrase anywhere ignoring ASCII case. |
| `ArticleFetcher.SomePatternMatches` | lib/scrapers/article-fetcher.ts:23 | Defines the `some` over a table: some pattern tests true on the title or on the summary. |
| `ArticleFetcher.IsErrorPage` | lib/scrapers/article-fetcher.ts:10-24 | Defines `isErrorPage` as `some` over its nine-entry table. Characterised by `ArticleFetcher.IsErrorPageIff`. |
| `ArticleFetcher.IsErrorPageExported` | lib/scrapers/article-fetcher.ts:57-71 | Defines `isErrorPageExported` as `some` over its own copy of the table. Shown equal to `isErrorPage` by `ArticleFetcher.ErrorPageClassifiersAgree`. |
| `ArticleFetcher.IsErrorText` | lib/scrapers/article-fetcher.ts:11-21 | The reference definition of one text's error test, pattern by pattern, used by `ArticleFetcher.IsErrorPageIff`. |
| `ArticleFetcher.IsErrorPageIff` | lib/scrapers/article-fetcher.ts:10-24 | A pair is an error page iff title or summary starts with "error " (any ASCII case) and three digits, or contains one of the eight phrases ignoring ASCII case. |
| `ArticleFetcher.IsErrorPageIgnoresCase` | lib/scrapers/article-fetcher.ts:12-20 | Two title/summary pairs that agree once lowered are classified alike. |
| `ArticleFetcher.ErrorPageClassifiersAgree` | lib/scrapers/article-fetcher.ts:57-71 | `isErrorPageExported` agrees with `isErrorPage` on every input. |
| `ArticleFetcher.OrDefault` | lib/scrapers/article-fetcher.ts:34-35 | Defines `s || default` on strings: an empty string is replaced by the default. |
| `ArticleFetcher.FetchArticleMeta` | lib/scrapers/article-fetcher.ts:26-55 | There is an article iff the preview resolved to an object whose defaulted title/summary is not an error page. Its link is the URL. Empty title or description become "Untitled" / "Learn more about this article". Its image is the first image when there is one. |
| `ArticleFetcher.KeepArticle` | lib/scrapers/article-fetcher.ts:90-91 | Defines the test of `filterErrorPages`: a non-empty title and summary that `isErrorPageExported` does not flag. |
| `ArticleFetcher.FetchedArticleSurvivesFilter` | lib/scrapers/article-fetcher.ts:33-47 | Every fetched article has a non-empty title and summary that `filterErrorPages` would keep. |
| `ArticleFetcher.Metas` | lib/scrapers/article-fetcher.ts:76-80 | The articles of every URL whose metadata fetch succeeds, in URL order and uncapped; never more than the URLs. Its structure is stated by `ArticleFetcher.MetasArePositions`. |
| `ArticleFetcher.MetaPositions` | lib/scrapers/article-fetcher.ts:76-80 | The input positions whose fetch yields an article, each within the input's bounds. |
| `ArticleFetcher.MetasAreKeptPages` | lib/scrapers/article-fetcher.ts:76-80 | Every article gathered from a URL list links to one of those URLs and is not an error page under either classifier. |
| `ArticleFetcher.MetasAppend` | lib/scrapers/article-fetcher.ts:76-80 | The articles of a concatenated URL list are the concatenation of each part's, so input order is kept. |
| `ArticleFetcher.MetaPositionsOrdered` | lib/scrapers/article-fetcher.ts:76-80 | The positions that yield an article strictly increase, one per gathered article. |
| `ArticleFetcher.MetaPositionsExact` | lib/scrapers/article-fetcher.ts:76-80 | A position is listed iff its preview yields an article. |
| `ArticleFetcher.MetaPositionsMatch` | lib/scrapers/article-fetcher.ts:76-80 | The k-th gathered article is the metadata of the k-th listed position. |
| `ArticleFetcher.MetasArePositions` | lib/scrapers/article-fetcher.ts:76-80 | The gathered articles are, in order, the non-null metadata of distinct, increasing input positions, and exactly those positions. |
| `ArticleFetcher.MetasSnoc` | lib/scrapers/article-fetcher.ts:77-80 | Fetching one more URL appends its article, if any, to those gathered so far. |
| `ArticleFetcher.ValidateStopsEarly` | lib/scrapers/article-fetcher.ts:82 | Once a prefix of the URLs has yielded five articles, the later URLs make no difference to the result. |
| `ArticleFetcher.Validate` | lib/scrapers/article-fetcher.ts:73-86 | Defines the result of `validateAndFetchArticles`: the first five of `Metas`. `ArticleFetcher.ValidateAndFetchArticles` is proved equal to it. |
| `ArticleFetcher.ValidateAndFetchArticles` | lib/scrapers/article-fetcher.ts:73-86 | At most five results: the first five of all URLs' articles, in order. The URLs fetched are a prefix of the input. With fewer than five results every URL was fetched once, in order. With five results the last URL fetched is one that yielded an article, so fetching stops right after the fifth valid URL and later URLs are never requested. |
| `ArticleFetcher.FilterErrorPages` | lib/scrapers/article-fetcher.ts:88-93 | The result is no longer than the input. Everything kept is an input article with a non-empty title and summary that is not an error page. |
| `ArticleFetcher.FilterErrorPagesKeepsAllThatPass` | lib/scrapers/article-fetcher.ts:88-93 | Every article that passes the test is kept. |
| `ArticleFetcher.FilterErrorPagesAppend` | lib/scrapers/article-fetcher.ts:88-93 | Filtering a concatenation is concatenating the filtered parts, so order is preserved. |
| `ArticleFetcher.FilterErrorPagesIdempotent` | lib/scrapers/article-fetcher.ts:88-93 | Filtering twice equals filtering once. |
| `ErrorPageExamples.UpperCaseStatusTitleIsErrorPage` | lib/scrapers/article-fetcher.ts:12 | "ERROR 404 Not Found" is flagged: the status pattern ignores case. |
| `ErrorPageExamples.PhrasesNeedOneOfFVYZ` | lib/scrapers/article-fetcher.ts:13-20 | None of the eight phrases occurs in a text that lacks 'f', 'v', 'y' and 'z' in either case. |
| `ErrorPageExamples.NotErrorPageWithoutFVYZ` | lib/scrapers/article-fetcher.ts:10-24 | A pair whose texts do not start with a status code and lack those letters is not an error page. |
| `ErrorPageExamples.StatusCodeInsideTitleIsNotErrorPage` | lib/scrapers/article-fetcher.ts:12 | "Understanding 404 Error Pages" is not flagged: the status pattern is anchored at the start. |
| `YouTube.LazyGroup` | lib/scrapers/youtube.ts:30 | Defines a lazy `lead(...)close` match: the first lead, then the first close that starts after it, cut from the last lead character through the first close character. Its meaning is stated by `YouTube.LazyGroupExists`, `YouTube.LazyGroupDelimited` and `YouTube.LazyGroupLeftmost`. |
| `YouTube.Capture` | lib/scrapers/youtube.ts:30 | Defines `match[1]` of `/var ytInitialData = ({[\s\S]*?});/` as the lazy group of `var ytInitialData = {` and `};`. Characterised by `YouTube.CaptureIsLazyMatch`. |
| `YouTube.LazyGroupExists` | lib/scrapers/youtube.ts:30 | A lazy lead/close match exists iff some close starts after some lead. |
| `YouTube.LazyGroupDelimited` | lib/scrapers/youtube.ts:30 | The group starts with the last character of the lead, ends with the first of the close, and holds no close after its first character. |
| `YouTube.LazyGroupLeftmost` | lib/scrapers/youtube.ts:30 | The group runs from the first lead through the first close after it. |
| `YouTube.CaptureIsLazyMatch` | lib/scrapers/youtube.ts:30 | A capture exists iff a "};" starts after some "var ytInitialData = {". It is then the `{...}` text from the first such assignment through the first "};" after it, with no "};" inside. |
| `YouTube.Qualifies` | lib/scrapers/youtube.ts:29-33 | Defines when a script supplies the data: it mentions `var ytInitialData`, its capture matches, and the capture parses. |
| `YouTube.SelectData` | lib/scrapers/youtube.ts:27-40 | Defines the script selection: the parse of the first qualifying script. Characterised by `YouTube.SelectDataIsFirstQualifying`. |
| `YouTube.VideoOf` | lib/scrapers/youtube.ts:49-59 | Defines the video of one renderer. Characterised by `YouTube.VideoOfShape`. |
| `YouTube.ItemVideo` | lib/scrapers/youtube.ts:48-60 | Defines what a non-null item pushes: its renderer's video, if it has a renderer with an id and a title run, else nothing. |
| `YouTube.ItemVideos` | lib/scrapers/youtube.ts:47-65 | Defines an item list's videos in order, and whether the scan met a null item (which throws). |
| `YouTube.SectionVideos` | lib/scrapers/youtube.ts:45-68 | Defines the uncapped videos of a section list, sections then items, up to the first null entry. Its order is stated by `YouTube.SectionVideosAppend`, its content by `YouTube.SectionVideosFromRenderers`. |
| `YouTube.SectionTail` | lib/scrapers/youtube.ts:45-67 | Defines what the rest of the search yields from inside a section. Related to `SectionVideos` by `YouTube.SectionTailSplits`. |
| `YouTube.YouTubeResults` | lib/scrapers/youtube.ts:10-75 | Defines what `searchYouTube` returns: nothing for a failed request, no qualifying script or no content path, else the first five of the sections' videos. Bounded and shaped by `YouTube.YouTubeResultsShape`. |
| `YouTube.SearchYouTube` | lib/scrapers/youtube.ts:10-75 | The returned videos are exactly those of the specification `YouTubeResults`. A failed request, or data with no script or no content path, gives nothing. |
| `YouTube.FindInitialData` | lib/scrapers/youtube.ts:27-40 | The script loop yields the data of the first script that mentions `ytInitialData`, whose capture matches and whose capture parses. |
| `YouTube.SelectDataIsFirstQualifying` | lib/scrapers/youtube.ts:27-40 | There is data iff some script meets all three conditions. It is then the parse of the first such script; a script that fails to parse is passed over. |
| `YouTube.CollectVideos` | lib/scrapers/youtube.ts:42-69 | The nested section/item loops yield the first five videos of all sections in order, up to the first null entry. |
| `YouTube.CollectItems` | lib/scrapers/youtube.ts:47-65 | The item loop continues the collection. It stops with the first five of everything when it meets a null item or the fifth video. Otherwise it hands on fewer than five with the rest of the search still to come. |
| `YouTube.SectionTailSplits` | lib/scrapers/youtube.ts:45-67 | From a section's items, the rest of the search is that section's videos, then the later sections' unless the section throws. |
| `YouTube.VideoOfShape` | lib/scrapers/youtube.ts:49-59 | An item contributes iff its renderer has a video id and a first title run. The link is the watch URL of the id. The summary is the description run, else "Learn from <channel> - <title>". |
| `YouTube.ItemVideosFromRenderers` | lib/scrapers/youtube.ts:47-60 | Every video of an item list is the video of one of its items' renderers. |
| `YouTube.SectionVideosFromRenderers` | lib/scrapers/youtube.ts:45-60 | Every video of a section list has a title and a watch link with a non-empty video id. |
| `YouTube.SectionVideosAppend` | lib/scrapers/youtube.ts:45-68 | Without a throw, videos follow section order: a concatenated section list yields the concatenation. |
| `YouTube.YouTubeResultsShape` | lib/scrapers/youtube.ts:49-67 | At most five videos, each with a non-empty title and linking to `https://www.youtube.com/watch?v=` plus a non-empty id. |
| `Google.NormaliseLink` | lib/scrapers/google.ts:38-40 | Defines the link rewriting: a `/url?q=` link loses the first `/url?q=` and everything from its first `&`. Characterised by `Google.NormaliseLinkSpec`. |
| `Google.Accepts` | lib/scrapers/google.ts:42 | Defines the acceptance test: non-empty title and link, link starting with "http" and containing none of "youtube.com", "youtu.be", "google.com". |
| `Google.Summary` | lib/scrapers/google.ts:46 | Defines the summary: the snippet when non-empty, else the title followed by " - learn more about this topic". |
| `Google.FromElement` | lib/scrapers/google.ts:42-47 | Defines when a result is the one an element pushes: accepted, decoded link, heading as title, summary rule. |
| `Google.Collected` | lib/scrapers/google.ts:31-49 | The uncapped reference scan: one result per accepted element in order, up to the first failing decode, which it flags. |
| `Google.Pass` | lib/scrapers/google.ts:31-49 | Defines one `.each` pass as the callback runs it, from the results already held. Related to `Collected` by `Google.PassIsCappedCollected`. |
| `Google.GoogleResults` | lib/scrapers/google.ts:10-84 | Defines what `searchGoogle` returns: nothing for a failed request, else the first pass, and the broader pass only after an empty first pass that did not throw. Characterised by `Google.GoogleResultsSpec`. |
| `Google.NormaliseLinkSpec` | lib/scrapers/google.ts:38-40 | A "/url?q=" link becomes the longest prefix of its remainder without "&". Any other link is unchanged. |
| `Google.EachElement` | lib/scrapers/google.ts:31-49 | One `.each` pass equals the specification `Pass`: cap checked before each element, rejected elements skipped, accepted ones pushed, a decode failure throws out. |
| `Google.SearchGoogle` | lib/scrapers/google.ts:10-84 | The results are exactly those of the specification `GoogleResults`: nothing for a failed request, else the first pass, then the broader pass only after an empty, non-throwing first pass. |
| `Google.PassIsCappedCollected` | lib/scrapers/google.ts:32-48 | A pass yields the first five of the uncapped element-by-element results. It throws iff the uncapped scan meets a failing decode before five are held. |
| `Google.GoogleResultsSpec` | lib/scrapers/google.ts:31-73 | The search is the first five of the first pass, or of the broader pass when the first yields nothing and does not throw. |
| `Google.SecondPassOnlyWhenFirstEmpty` | lib/scrapers/google.ts:51 | When the first pass yields anything, the broader pass has no effect. |
| `Google.CollectedAtMostOnePerElement` | lib/scrapers/google.ts:42-47 | Each element contributes at most one result. |
| `Google.CollectedFromElements` | lib/scrapers/google.ts:34-47 | Every result comes from an element that passes the acceptance test on its normalised link. Its title is the element's heading and its link the decoded link. Its summary is the snippet or the heading with " - learn more about this topic". |
| `Google.CollectedAppend` | lib/scrapers/google.ts:31-49 | Results follow element order: without a throw in the first part, a concatenation of elements yields the concatenation of results. |
| `Google.GoogleResultsShape` | lib/scrapers/google.ts:31-72 | At most five results, each coming from an accepted element of one of the two passes. |
| `ChatRoute.ExtractSpan` | app/api/training/chat/route.ts:63 | Defines the greedy `\{[\s\S]*\}` (and `\[[\s\S]*\]`) match: first opener through last closer, when the closer comes later. Characterised by `ChatRoute.ExtractSpanSpec`. |
| `ChatRoute.ExtractSpanSpec` | app/api/training/chat/route.ts:63 | A greedy span exists iff some opener precedes some closer. It runs from the first opener through the last closer. |
| `ChatRoute.QueryStage` | app/api/training/chat/route.ts:61-80 | Defines the query stage: no span or a falsy field is invalid, a span that fails to parse is unparseable, else the two query lists. |
| `ChatRoute.QueryStageOutcomes` | app/api/training/chat/route.ts:61-80 | "Failed to generate search queries" iff a span was found and failed to parse. "Invalid search queries format" iff there is no span or a field is falsy. |
| `ChatRoute.EmptyQueryArraysAccepted` | app/api/training/chat/route.ts:75-84 | Empty query arrays pass the check; the reply is a success with no videos. |
| `ChatRoute.Search` | app/api/training/chat/route.ts:83 | Defines one `searchYouTube(q)` call as the results for the page of `q`. |
| `ChatRoute.VideoFanIn` | app/api/training/chat/route.ts:82-84 | Defines the fan-in: each query's results, concatenated in query order. Stated by `ChatRoute.VideoFanInAppend` and `ChatRoute.FanInOfFirstThree`. |
| `ChatRoute.SearchAll` | app/api/training/chat/route.ts:82-84 | The fan-in is each query's results concatenated in query order. |
| `ChatRoute.VideoFanInAppend` | app/api/training/chat/route.ts:82-84 | The fan-in of concatenated query lists is the concatenation of their fan-ins. |
| `ChatRoute.FanInOfFirstThree` | app/api/training/chat/route.ts:83 | With three or more queries, the fan-in of the first three is the first's results, then the second's, then the third's. |
| `ChatRoute.VideosFromFirstThreeQueries` | app/api/training/chat/route.ts:82-84 | Only the first min(3, n) queries are searched. The bundle's videos are the first five of their results in query order; later queries have no effect. |
| `ChatRoute.Intro` | app/api/training/chat/route.ts:100-111 | Defines the intro: the summary text when the call returned a non-empty one, else the default sentence. Stated by `ChatRoute.IntroDefaultsWhenSummaryFails`. |
| `ChatRoute.Summarise` | app/api/training/chat/route.ts:100-114 | The intro is the summary text when the call returns a non-empty one, else the default sentence. |
| `ChatRoute.IntroDefaultsWhenSummaryFails` | app/api/training/chat/route.ts:100-111 | A thrown summary call gives the default sentence; a returned non-empty text is used as is. |
| `ChatRoute.SummaryNeverFatal` | app/api/training/chat/route.ts:100-114 | Whatever the summary call does, the reply is the same apart from its intro. |
| `ChatRoute.ParsedArticles` | app/api/training/chat/route.ts:140-150 | Defines the article list: the parsed array span, or nothing when there is no span or it fails to parse. |
| `ChatRoute.CitationOf` | app/api/training/chat/route.ts:160-164 | Defines the citation of the chunk at 0-based position p: web title or "Untitled", the URI, index p+1. |
| `ChatRoute.CitationsFrom` | app/api/training/chat/route.ts:158-166 | Defines the citations of the chunks from a position on. Stated by `ChatRoute.CitationsFromWellFormed` and `ChatRoute.CitationsFromComplete`. |
| `ChatRoute.Citations` | app/api/training/chat/route.ts:152-167 | Defines a response's citations: none without grounding chunks, else those of all chunks. |
| `ChatRoute.CollectCitations` | app/api/training/chat/route.ts:157-167 | The `forEach` over the grounding chunks yields the specification citation list. |
| `ChatRoute.CitationsFromWellFormed` | app/api/training/chat/route.ts:158-166 | Each citation comes from a chunk with `web`: its index is the chunk's 1-based position, its title the web title or "Untitled", its url the URI. Indices strictly increase. |
| `ChatRoute.CitationsFromComplete` | app/api/training/chat/route.ts:158-166 | Every chunk with `web` has its citation. |
| `ChatRoute.CandidateUrls` | app/api/training/chat/route.ts:171-177 | Defines the URL set: the article links when there are articles, else the citation URLs, else nothing. |
| `ChatRoute.Links` | app/api/training/chat/route.ts:174 | The URL list holds the articles' links, position by position. |
| `ChatRoute.CitationUrls` | app/api/training/chat/route.ts:176 | The URL list holds the citations' URLs, position by position. |
| `ChatRoute.AsArticles` | app/api/training/chat/route.ts:191-195 | Each filtered candidate becomes an article with its own title, link and summary and no image. |
| `ChatRoute.CitationArticles` | app/api/training/chat/route.ts:197-201 | Each citation becomes an article with the citation's title and URL, summary "Learn more about <title>", and no image. |
| `ChatRoute.ResolveArticles` | app/api/training/chat/route.ts:189-202 | Defines the fallback ladder after validation. Characterised by `ChatRoute.FallbackLadder`. |
| `ChatRoute.ArticleStage` | app/api/training/chat/route.ts:140-202 | Defines the articles the article response leads to: parse, citations, URL set, validation, fallbacks. |
| `ChatRoute.ResolveArticleResponse` | app/api/training/chat/route.ts:140-202 | From the article response to the validated articles, with the fallbacks: equal to the specification `ArticleStage`. |
| `ChatRoute.CitationsUnusedWhenArticlesExist` | app/api/training/chat/route.ts:171-177 | While the model returned parseable articles, the grounding chunks make no difference to the articles. |
| `ChatRoute.FallbackLadder` | app/api/training/chat/route.ts:189-202 | Validated articles win. Otherwise returned articles give exactly their first five error-filtered entries, as image-less articles, and nothing when the filter rejects all. Only with no articles do the first five citations serve, as "Learn more about <title>". |
| `ChatRoute.ValidatedArticlesAreKept` | app/api/training/chat/route.ts:185 | Validated articles link to candidate URLs and are not error pages. |
| `ChatRoute.NoCandidatesNoResources` | app/api/training/chat/route.ts:171-185 | With no articles and no citations, there are no resources. |
| `ChatRoute.ArticleCallFailureFatal` | app/api/training/chat/route.ts:132-138 | After a valid query stage, a thrown article call ends the request with that error. |
| `ChatRoute.InternalErrorIff` | app/api/training/chat/route.ts:226-240 | The generic internal error happens iff the query call throws, or the article call throws after a valid query stage. |
| `ChatRoute.AsResources` | app/api/training/chat/route.ts:212-218 | Each article becomes a resource typed "article" with its own title, link, summary and image. |
| `ChatRoute.Bundle` | app/api/training/chat/route.ts:204-225 | Defines the success reply: the query text, the fixed header, the intro, the first five videos, the first five articles as resources, empty citations. |
| `ChatRoute.AfterQueries` | app/api/training/chat/route.ts:59-225 | Defines the reply once the query call returned: the query stage's error replies, else videos, intro, and either the article call's error or the bundle. |
| `ChatRoute.Chat` | app/api/training/chat/route.ts:23-241 | Defines the reply of `POST`: validation failure for an empty message, the missing-key reply, the query call's error, else `AfterQueries`. Stated by `ChatRoute.InternalErrorIff`, `ChatRoute.QueryStageOutcomes`, `ChatRoute.SummaryNeverFatal` and `ChatRoute.OkShape`. |
| `ChatRoute.OkShape` | app/api/training/chat/route.ts:204-225 | A success carries the query model's text as message and the fixed header. It has at most five videos and five resources, all typed "article", and empty top-level citations. |
| `ChatRoute.Post` | app/api/training/chat/route.ts:23-241 | The handler's reply equals the specification `Chat` for every message, key setting and upstream behaviour. |

## Left out

- The network: axios requests, `getLinkPreview` and the GoogleGenAI client are oracles. Their timeouts, headers, redirects and URLs (with `encodeURIComponent`) are not modelled.
- HTML parsing and the cheerio selectors. Pages arrive as script texts or as `(title, href, snippet)` element records.
- `String.trim` and the selector cascades are part of the given element records.
- `JSON.parse` and `decodeURIComponent` are uninterpreted partial functions.
- Why a parse fails, and the shape of the parsed value beyond the fields read: truthy non-array query fields, a non-array article value, article entries without a `link`, and `null` entries handed to `filterErrorPages` (whose property reads would throw) are not modelled.
- A `null` entry in `groundingChunks` makes `chunk.web` throw, which ends in the internal error. `Chunk` has no null case, so the model does not capture this path.
- Missing and empty string fields are merged: "" stands for both, as both are falsy under `||`.
- Request handling: `request.json()`, the zod schema (modelled only as "message must be non-empty") and the unused `history`.
- The `GEMINI_API_KEY` lookup is a boolean parameter. `NextResponse` and the HTTP status codes are reduced to the reply's variant.
- An exception in `POST` other than a thrown model call (for example a malformed request body) is not modelled.
- A thrown model-call error is read only for its `status` and `code` (by the retry loop) and its message. The `catch` of `POST` also tests `error.name === "ZodError"` on every error, so a model-call error carrying that name would get the 400 validation reply; the model assumes no model-call error is so named and maps each to the internal error.
- Real time: `setTimeout` is not modelled. The waits are recorded as a list of numbers.
- `Math.pow` floating point is replaced by exact natural numbers (exact for these exponents).
- The `Promise.all` fan-out is a sequential map; concurrency changes nothing but completion order.
- `console` logging and the prompt texts are opaque, so the oracles do not see them.
- Which call a model response belongs to is fixed by the oracle used. The prompts, and the article queries joined into the article prompt, do not reach the model.
- The three model calls are independent oracles, each retried with the defaults `maxRetries = 3` and `baseDelay = 1000`.
