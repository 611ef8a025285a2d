/** The article validator of lib/scrapers/article-fetcher.ts.

    `getLinkPreview` is an oracle: `preview(url)` is how the preview request for `url` comes out.
    A string field given as "" stands for an absent or empty field; both are falsy under `||`. */
module ArticleFetcher {
  import opened Common
  import opened Text

  /** An `ArticleResult` with its optional image. */
  datatype Article = Article(title: string, link: string, summary: string, image: Option<string>)

  /** The outcome of `getLinkPreview(url, {followRedirects: 'follow', timeout: 5000})`: it throws
      (network failure, timeout), resolves to something that is not an object, or resolves to a
      page record. */
  datatype Preview = PreviewThrew | NotAnObject | Page(title: string, description: string, images: seq<string>)

  /** An entry of the article list the language model returned, before any fetch. */
  datatype Candidate = Candidate(title: string, link: string, summary: string)

  /** One of the error-page regular expressions. */
  datatype ErrorPattern = StatusCodeAtStart | Phrase(words: string)

  /** The pattern table of `isErrorPage`, in its order; the phrases are written in lower case
      because they are matched against the lowered text. */
  const ErrorPatterns: seq<ErrorPattern> := [
    StatusCodeAtStart,
    Phrase("not found"),
    Phrase("unsupported media type"),
    Phrase("server error"),
    Phrase("forbidden"),
    Phrase("unauthorized"),
    Phrase("bad gateway"),
    Phrase("service unavailable"),
    Phrase("gateway timeout")
  ]

  /** The second copy of the table, in `isErrorPageExported`. */
  const ExportedErrorPatterns: seq<ErrorPattern> := [
    StatusCodeAtStart,
    Phrase("not found"),
    Phrase("unsupported media type"),
    Phrase("server error"),
    Phrase("forbidden"),
    Phrase("unauthorized"),
    Phrase("bad gateway"),
    Phrase("service unavailable"),
    Phrase("gateway timeout")
  ]

  /** `/^Error \d{3}/i`: the text starts with "error ", in any ASCII case, and three digits. */
  predicate StartsWithStatusCode(s: string)
  {
    |s| >= 9 && StartsWith(LowerStr(s), "error ") && IsDigit(s[6]) && IsDigit(s[7]) && IsDigit(s[8])
  }

  /** `pattern.test(s)`. */
  predicate PatternTest(p: ErrorPattern, s: string)
  {
    match p
    case StatusCodeAtStart => StartsWithStatusCode(s)
    case Phrase(words) => ContainsIgnoreCase(s, words)
  }

  /** `patterns.some(pattern => pattern.test(title) || pattern.test(summary))`. */
  predicate SomePatternMatches(patterns: seq<ErrorPattern>, title: string, summary: string)
  {
    exists i :: 0 <= i < |patterns| && (PatternTest(patterns[i], title) || PatternTest(patterns[i], summary))
  }

  /** `isErrorPage(title, summary)`. */
  predicate IsErrorPage(title: string, summary: string)
  {
    SomePatternMatches(ErrorPatterns, title, summary)
  }

  /** `isErrorPageExported(title, summary)`, used by `filterErrorPages`. */
  predicate IsErrorPageExported(title: string, summary: string)
  {
    SomePatternMatches(ExportedErrorPatterns, title, summary)
  }

  /** The two classifiers agree on every input. */
  lemma ErrorPageClassifiersAgree(title: string, summary: string)
    ensures IsErrorPage(title, summary) <==> IsErrorPageExported(title, summary)
  {
  }

  /** The error-page test on one text, written out pattern by pattern. */
  predicate IsErrorText(s: string)
  {
    || StartsWithStatusCode(s)
    || ContainsIgnoreCase(s, "not found")
    || ContainsIgnoreCase(s, "unsupported media type")
    || ContainsIgnoreCase(s, "server error")
    || ContainsIgnoreCase(s, "forbidden")
    || ContainsIgnoreCase(s, "unauthorized")
    || ContainsIgnoreCase(s, "bad gateway")
    || ContainsIgnoreCase(s, "service unavailable")
    || ContainsIgnoreCase(s, "gateway timeout")
  }

  /** A title/summary pair is an error page exactly when one of the two starts with "error " and
      three digits, or contains one of the eight phrases, ignoring ASCII case. */
  lemma IsErrorPageIff(title: string, summary: string)
    ensures IsErrorPage(title, summary) <==> IsErrorText(title) || IsErrorText(summary)
  {
    var ps := ErrorPatterns;
    if IsErrorText(title) || IsErrorText(summary) {
      var s := if IsErrorText(title) then title else summary;
      var i :=
        if StartsWithStatusCode(s) then 0
        else if ContainsIgnoreCase(s, "not found") then 1
        else if ContainsIgnoreCase(s, "unsupported media type") then 2
        else if ContainsIgnoreCase(s, "server error") then 3
        else if ContainsIgnoreCase(s, "forbidden") then 4
        else if ContainsIgnoreCase(s, "unauthorized") then 5
        else if ContainsIgnoreCase(s, "bad gateway") then 6
        else if ContainsIgnoreCase(s, "service unavailable") then 7
        else 8;
      assert PatternTest(ps[i], s);
    }
    if IsErrorPage(title, summary) {
      var i :| 0 <= i < |ps| && (PatternTest(ps[i], title) || PatternTest(ps[i], summary));
      var s := if PatternTest(ps[i], title) then title else summary;
      assert IsErrorText(s);
    }
  }

  /** The classification ignores ASCII case: two pairs that agree once lowered are flagged alike. */
  lemma IsErrorPageIgnoresCase(title: string, summary: string, title': string, summary': string)
    requires LowerStr(title) == LowerStr(title') && LowerStr(summary) == LowerStr(summary')
    ensures IsErrorPage(title, summary) <==> IsErrorPage(title', summary')
  {
    forall s: string, s': string, p: ErrorPattern | LowerStr(s) == LowerStr(s')
      ensures PatternTest(p, s) <==> PatternTest(p, s')
    {
      if |s| >= 9 {
        LowerKeepsDigits(s[6]);
        LowerKeepsDigits(s[7]);
        LowerKeepsDigits(s[8]);
        LowerKeepsDigits(s'[6]);
        LowerKeepsDigits(s'[7]);
        LowerKeepsDigits(s'[8]);
      }
    }
  }

  /** `a || b` on strings. */
  function OrDefault(s: string, default: string): string
  {
    if s != "" then s else default
  }

  const DefaultTitle := "Untitled"
  const DefaultSummary := "Learn more about this article"

  /** `fetchArticleMeta(url)` once the preview of `url` has come out as `preview`. */
  function FetchArticleMeta(url: string, preview: Preview): (r: Option<Article>)
    ensures r.Some? <==> preview.Page? && !IsErrorPage(OrDefault(preview.title, DefaultTitle), OrDefault(preview.description, DefaultSummary))
    ensures r.Some? ==> r.value.link == url
    ensures r.Some? ==> r.value.title == (if preview.title == "" then DefaultTitle else preview.title)
    ensures r.Some? ==> r.value.summary == (if preview.description == "" then DefaultSummary else preview.description)
    ensures r.Some? ==> r.value.image == (if |preview.images| > 0 then Some(preview.images[0]) else None)
    ensures r.Some? ==> r.value.title != "" && r.value.summary != "" && !IsErrorPage(r.value.title, r.value.summary)
  {
    match preview
    case PreviewThrew => None
    case NotAnObject => None
    case Page(t, d, images) =>
      var title := OrDefault(t, DefaultTitle);
      var summary := OrDefault(d, DefaultSummary);
      if IsErrorPage(title, summary) then None
      else Some(Article(title, url, summary, if |images| > 0 then Some(images[0]) else None))
  }

  /** What `filterErrorPages` keeps: a non-empty title and summary that are not an error page. */
  predicate KeepArticle(title: string, summary: string)
  {
    title != "" && summary != "" && !IsErrorPageExported(title, summary)
  }

  /** Every article `fetchArticleMeta` returns would also survive `filterErrorPages`. */
  lemma FetchedArticleSurvivesFilter(url: string, preview: Preview)
    requires FetchArticleMeta(url, preview).Some?
    ensures var a := FetchArticleMeta(url, preview).value; KeepArticle(a.title, a.summary)
  {
    var a := FetchArticleMeta(url, preview).value;
    ErrorPageClassifiersAgree(a.title, a.summary);
  }

  /** The articles of every URL whose metadata fetch succeeds, in URL order, with no cap. */
  function Metas(urls: seq<string>, preview: string -> Preview): (r: seq<Article>)
    ensures |r| <= |urls|
  {
    if urls == [] then []
    else
      var rest := Metas(urls[1..], preview);
      match FetchArticleMeta(urls[0], preview(urls[0]))
      case Some(a) => [a] + rest
      case None => rest
  }

  lemma {:induction false} MetasAppend(a: seq<string>, b: seq<string>, preview: string -> Preview)
    ensures Metas(a + b, preview) == Metas(a, preview) + Metas(b, preview)
  {
    if a == [] {
      assert a + b == b;
    } else {
      assert (a + b)[0] == a[0];
      assert (a + b)[1..] == a[1..] + b;
      MetasAppend(a[1..], b, preview);
    }
  }

  /** Every fetched article links to one of the input URLs, and is one that `filterErrorPages` and
      `isErrorPage` would both pass. */
  lemma {:induction false} MetasAreKeptPages(urls: seq<string>, preview: string -> Preview)
    ensures forall a :: a in Metas(urls, preview) ==>
      a.link in urls && KeepArticle(a.title, a.summary) && !IsErrorPage(a.title, a.summary)
  {
    if urls != [] {
      MetasAreKeptPages(urls[1..], preview);
      var meta := FetchArticleMeta(urls[0], preview(urls[0]));
      if meta.Some? {
        FetchedArticleSurvivesFilter(urls[0], preview(urls[0]));
      }
    }
  }

  /** The input positions whose fetch yields an article, in increasing order. */
  function MetaPositions(urls: seq<string>, preview: string -> Preview, from: nat): (r: seq<nat>)
    requires from <= |urls|
    ensures forall k :: 0 <= k < |r| ==> from <= r[k] < |urls|
    decreases |urls| - from
  {
    if from == |urls| then []
    else
      var rest := MetaPositions(urls, preview, from + 1);
      if FetchArticleMeta(urls[from], preview(urls[from])).Some? then [from] + rest else rest
  }

  /** There is one position per fetched article, and the positions strictly increase. */
  lemma {:induction false} MetaPositionsOrdered(urls: seq<string>, preview: string -> Preview, from: nat)
    requires from <= |urls|
    ensures var ps := MetaPositions(urls, preview, from);
      && |ps| == |Metas(urls[from..], preview)|
      && (forall k, l :: 0 <= k < l < |ps| ==> ps[k] < ps[l])
    decreases |urls| - from
  {
    if from < |urls| {
      MetaPositionsOrdered(urls, preview, from + 1);
      assert urls[from..][1..] == urls[from + 1..];
    }
  }

  /** A position is listed exactly when its fetch succeeds. */
  lemma {:induction false} MetaPositionsExact(urls: seq<string>, preview: string -> Preview, from: nat)
    requires from <= |urls|
    ensures forall i :: from <= i < |urls| ==>
      (i in MetaPositions(urls, preview, from) <==> FetchArticleMeta(urls[i], preview(urls[i])).Some?)
    decreases |urls| - from
  {
    if from < |urls| {
      var ps := MetaPositions(urls, preview, from);
      var rest := MetaPositions(urls, preview, from + 1);
      MetaPositionsExact(urls, preview, from + 1);
      forall i | from <= i < |urls|
        ensures i in ps <==> FetchArticleMeta(urls[i], preview(urls[i])).Some?
      {
        if i == from {
          assert from !in rest;
        } else {
          assert i in ps <==> i in rest;
        }
      }
    }
  }

  /** The k-th article is the metadata of the k-th listed position. */
  lemma {:induction false} MetaPositionsMatch(urls: seq<string>, preview: string -> Preview, from: nat)
    requires from <= |urls|
    ensures var ps := MetaPositions(urls, preview, from);
      |ps| == |Metas(urls[from..], preview)| &&
      forall k :: 0 <= k < |ps| ==>
        FetchArticleMeta(urls[ps[k]], preview(urls[ps[k]])) == Some(Metas(urls[from..], preview)[k])
    decreases |urls| - from
  {
    MetaPositionsOrdered(urls, preview, from);
    if from < |urls| {
      MetaPositionsMatch(urls, preview, from + 1);
      assert urls[from..][1..] == urls[from + 1..];
    }
  }

  /** `Metas` keeps, in order, exactly the positions whose fetch succeeds: the k-th article is the
      metadata of the k-th such position, and a position that fails contributes nothing. */
  lemma MetasArePositions(urls: seq<string>, preview: string -> Preview, from: nat)
    requires from <= |urls|
    ensures var ps := MetaPositions(urls, preview, from);
      && |ps| == |Metas(urls[from..], preview)|
      && (forall k :: 0 <= k < |ps| ==> from <= ps[k] < |urls|)
      && (forall k, l :: 0 <= k < l < |ps| ==> ps[k] < ps[l])
      && (forall i :: from <= i < |urls| ==> (i in ps <==> FetchArticleMeta(urls[i], preview(urls[i])).Some?))
      && (forall k :: 0 <= k < |ps| ==>
            FetchArticleMeta(urls[ps[k]], preview(urls[ps[k]])) == Some(Metas(urls[from..], preview)[k]))
  {
    MetaPositionsOrdered(urls, preview, from);
    MetaPositionsExact(urls, preview, from);
    MetaPositionsMatch(urls, preview, from);
  }

  /** What `validateAndFetchArticles(urls)` returns: the first five articles of `Metas`. */
  function Validate(urls: seq<string>, preview: string -> Preview): seq<Article>
  {
    Take(Metas(urls, preview), 5)
  }

  /** `validateAndFetchArticles`: fetch in order, keep the successes, stop right after the fifth.
      `fetched` logs the URLs whose preview was requested. */
  method ValidateAndFetchArticles(urls: seq<string>, preview: string -> Preview)
    returns (results: seq<Article>, fetched: seq<string>)
    ensures results == Validate(urls, preview)
    ensures |results| <= 5 && |fetched| <= |urls|
    ensures fetched == urls[..|fetched|] && results == Metas(fetched, preview)
    ensures |results| < 5 ==> fetched == urls
    ensures |fetched| < |urls| ==> |results| == 5
    ensures |results| == 5 ==> |fetched| > 0 && FetchArticleMeta(fetched[|fetched| - 1], preview(fetched[|fetched| - 1])).Some?
  {
    results, fetched := [], [];
    var i := 0;
    while i < |urls|
      invariant 0 <= i <= |urls|
      invariant fetched == urls[..i]
      invariant results == Metas(fetched, preview)
      invariant |results| < 5
    {
      var url := urls[i];
      var meta := FetchArticleMeta(url, preview(url));
      MetasSnoc(fetched, url, preview);
      assert urls[..i + 1] == fetched + [url];
      fetched := fetched + [url];
      i := i + 1;
      if meta.Some? {
        results := results + [meta.value];
      }
      if |results| >= 5 {
        ValidateStopsEarly(urls, i, preview);
        return;
      }
    }
    assert fetched == urls;
  }

  /** Fetching one more URL appends its article, if any. */
  lemma MetasSnoc(urls: seq<string>, url: string, preview: string -> Preview)
    ensures Metas(urls + [url], preview)
         == Metas(urls, preview) + (match FetchArticleMeta(url, preview(url)) case Some(a) => [a] case None => [])
  {
    MetasAppend(urls, [url], preview);
  }

  /** Once the first `i` URLs have yielded five articles, the later ones make no difference. */
  lemma ValidateStopsEarly(urls: seq<string>, i: nat, preview: string -> Preview)
    requires i <= |urls| && |Metas(urls[..i], preview)| >= 5
    ensures Validate(urls, preview) == Take(Metas(urls[..i], preview), 5)
  {
    assert urls == urls[..i] + urls[i..];
    MetasAppend(urls[..i], urls[i..], preview);
    TakeOfPrefix(Metas(urls[..i], preview), Metas(urls[i..], preview), 5);
  }

  /** `filterErrorPages(articles)`. */
  function FilterErrorPages(articles: seq<Candidate>): (r: seq<Candidate>)
    ensures |r| <= |articles|
    ensures forall c :: c in r ==> c in articles && KeepArticle(c.title, c.summary)
  {
    if articles == [] then []
    else
      var head := if KeepArticle(articles[0].title, articles[0].summary) then [articles[0]] else [];
      head + FilterErrorPages(articles[1..])
  }

  /** The filter keeps every article it should: nothing that passes the test is dropped. */
  lemma {:induction false} FilterErrorPagesKeepsAllThatPass(articles: seq<Candidate>, c: Candidate)
    requires c in articles && KeepArticle(c.title, c.summary)
    ensures c in FilterErrorPages(articles)
  {
    if articles[0] != c {
      FilterErrorPagesKeepsAllThatPass(articles[1..], c);
    }
  }

  /** The filter works element by element and keeps the order: filtering a concatenation is the
      concatenation of the filtered parts. */
  lemma {:induction false} FilterErrorPagesAppend(a: seq<Candidate>, b: seq<Candidate>)
    ensures FilterErrorPages(a + b) == FilterErrorPages(a) + FilterErrorPages(b)
  {
    if a == [] {
      assert a + b == b;
    } else {
      assert (a + b)[0] == a[0];
      assert (a + b)[1..] == a[1..] + b;
      FilterErrorPagesAppend(a[1..], b);
    }
  }

  /** Filtering twice is filtering once. */
  lemma {:induction false} FilterErrorPagesIdempotent(articles: seq<Candidate>)
    ensures FilterErrorPages(FilterErrorPages(articles)) == FilterErrorPages(articles)
  {
    if articles != [] {
      var head := if KeepArticle(articles[0].title, articles[0].summary) then [articles[0]] else [];
      FilterErrorPagesAppend(head, FilterErrorPages(articles[1..]));
      FilterErrorPagesIdempotent(articles[1..]);
    }
  }
}

/** Two titles that show how the error-page classifier of lib/scrapers/article-fetcher.ts reads
    a status code: an upper-case "ERROR 404" at the start flags the page, a "404 Error" further
    in does not. */
module ErrorPageExamples {
  import opened Text
  import opened ArticleFetcher

  /** An upper-case status title is an error page. */
  lemma UpperCaseStatusTitleIsErrorPage(title: string)
    requires title == "ERROR 404 Not Found"
    ensures IsErrorPage(title, "")
  {
    var l := LowerStr(title);
    assert l[0] == 'e' && l[1] == 'r' && l[2] == 'r' && l[3] == 'o' && l[4] == 'r' && l[5] == ' ';
    assert l[..6] == "error ";
    assert PatternTest(ErrorPatterns[0], title);
  }

  lemma LegitTitleLacksFV(title: string)
    requires title == "Understanding 404 Error Pages"
    ensures 'f' !in title && 'F' !in title && 'v' !in title && 'V' !in title
  {
  }

  lemma LegitTitleLacksYZ(title: string)
    requires title == "Understanding 404 Error Pages"
    ensures 'y' !in title && 'Y' !in title && 'z' !in title && 'Z' !in title
  {
  }

  lemma LegitTitleLoweredLacks(title: string)
    requires title == "Understanding 404 Error Pages"
    ensures var l := LowerStr(title); l[0] == 'u' && 'f' !in l && 'v' !in l && 'y' !in l && 'z' !in l
  {
    LegitTitleLacksFV(title);
    LegitTitleLacksYZ(title);
    LowerStrLacks(title, 'f', 'F');
    LowerStrLacks(title, 'v', 'V');
    LowerStrLacks(title, 'y', 'Y');
    LowerStrLacks(title, 'z', 'Z');
  }

  /** "not found", "server error", "forbidden" and "service unavailable" each have an 'f' or a 'v'. */
  lemma PhrasesWithFV(s: string)
    requires var l := LowerStr(s); 'f' !in l && 'v' !in l
    ensures !PatternTest(ErrorPatterns[1], s) && !PatternTest(ErrorPatterns[3], s)
    ensures !PatternTest(ErrorPatterns[4], s) && !PatternTest(ErrorPatterns[7], s)
  {
    var l := LowerStr(s);
    NotContainsMissingChar(l, "not found", 4);
    NotContainsMissingChar(l, "server error", 3);
    NotContainsMissingChar(l, "forbidden", 0);
    NotContainsMissingChar(l, "service unavailable", 3);
  }

  /** "unsupported media type", "unauthorized", "bad gateway" and "gateway timeout" each have a 'y'
      or a 'z'. */
  lemma PhrasesWithYZ(s: string)
    requires var l := LowerStr(s); 'y' !in l && 'z' !in l
    ensures !PatternTest(ErrorPatterns[2], s) && !PatternTest(ErrorPatterns[5], s)
    ensures !PatternTest(ErrorPatterns[6], s) && !PatternTest(ErrorPatterns[8], s)
  {
    var l := LowerStr(s);
    NotContainsMissingChar(l, "unsupported media type", 19);
    NotContainsMissingChar(l, "unauthorized", 9);
    NotContainsMissingChar(l, "bad gateway", 10);
    NotContainsMissingChar(l, "gateway timeout", 6);
  }

  /** Every phrase has an 'f', a 'v', a 'y' or a 'z', so a text without any of those, in either
      case, contains no phrase. */
  lemma PhrasesNeedOneOfFVYZ(s: string)
    requires var l := LowerStr(s); 'f' !in l && 'v' !in l && 'y' !in l && 'z' !in l
    ensures forall i :: 1 <= i < |ErrorPatterns| ==> !PatternTest(ErrorPatterns[i], s)
  {
    PhrasesWithFV(s);
    PhrasesWithYZ(s);
  }

  /** A title and summary that do not start with "error NNN" and lack 'f', 'v', 'y' and 'z' in either
      case are not an error page. */
  lemma NotErrorPageWithoutFVYZ(t: string, s: string)
    requires !StartsWithStatusCode(t) && !StartsWithStatusCode(s)
    requires var l := LowerStr(t); 'f' !in l && 'v' !in l && 'y' !in l && 'z' !in l
    requires var l := LowerStr(s); 'f' !in l && 'v' !in l && 'y' !in l && 'z' !in l
    ensures !IsErrorPage(t, s)
  {
    PhrasesNeedOneOfFVYZ(t);
    PhrasesNeedOneOfFVYZ(s);
  }

  /** A status code that is not at the start does not flag a page: the "Error NNN" pattern is
      anchored, and none of the phrases occurs. */
  lemma StatusCodeInsideTitleIsNotErrorPage(title: string)
    requires title == "Understanding 404 Error Pages"
    ensures !IsErrorPage(title, "")
  {
    LegitTitleLoweredLacks(title);
    assert LowerStr("") == [];
    assert LowerStr(title)[0] != "error "[0];
    NotErrorPageWithoutFVYZ(title, "");
  }
}
