/** The article resolver of lib/scrapers/google.ts: `searchGoogle(query)`.

    The HTTP request and the DOM selections are given: `page` is `None` when the request failed,
    otherwise the elements matched by `div.g` (the first pass) and by `div.g, div[data-hveid]` (the
    broader second pass), each reduced to its trimmed heading text, its first anchor's `href`
    ("" when missing) and its trimmed snippet. `decodeURIComponent` is an oracle `decode`, which
    fails (throws) on a malformed escape. */
module Google {
  import opened Common
  import opened Text

  datatype Element = Element(title: string, href: string, snippet: string)

  datatype GooglePage = GooglePage(primary: seq<Element>, broader: seq<Element>)

  datatype SearchResult = SearchResult(title: string, link: string, summary: string)

  const MaxResults: nat := 5
  const RedirectPrefix := "/url?q="
  const SummarySuffix := " - learn more about this topic"

  /** The link normalisation: a redirect link loses its first "/url?q=" and everything from its
      first "&" on; any other link is kept. */
  function NormaliseLink(href: string): string
  {
    if StartsWith(href, RedirectPrefix) then BeforeFirst(ReplaceFirst(href, RedirectPrefix), '&') else href
  }

  /** A redirect link becomes the part of its target before the first "&": the longest prefix of
      what follows "/url?q=" that has no "&". Any other link is unchanged. */
  lemma NormaliseLinkSpec(href: string)
    ensures var r := NormaliseLink(href);
      StartsWith(href, RedirectPrefix) ==>
        var target := href[|RedirectPrefix|..];
        StartsWith(target, r) && '&' !in r && (|r| < |target| ==> target[|r|] == '&')
    ensures !StartsWith(href, RedirectPrefix) ==> NormaliseLink(href) == href
  {
    if StartsWith(href, RedirectPrefix) {
      ReplaceFirstOfPrefix(href, RedirectPrefix);
    }
  }

  /** The acceptance test on the heading and the normalised, not yet decoded, link. */
  predicate Accepts(title: string, link: string)
  {
    && title != ""
    && link != ""
    && StartsWith(link, "http")
    && !Contains(link, "youtube.com")
    && !Contains(link, "youtu.be")
    && !Contains(link, "google.com")
  }

  function Summary(title: string, snippet: string): string
  {
    if snippet != "" then snippet else title + SummarySuffix
  }

  /** `r` is the result pushed for `e`: the element passes the acceptance test, its title is the
      element's heading (so non-empty), its link the decoded normalised link, and its summary the
      snippet when there is one, else the heading followed by " - learn more about this topic". */
  predicate FromElement(r: SearchResult, e: Element, decode: string -> Option<string>)
  {
    && Accepts(e.title, NormaliseLink(e.href))
    && decode(NormaliseLink(e.href)) == Some(r.link)
    && r.title == e.title
    && r.summary == (if e.snippet != "" then e.snippet else e.title + SummarySuffix)
  }

  /** The results a list of elements yields with no cap: one per accepted element, in element order,
      up to the first accepted element whose link fails to decode; the flag says that one did. */
  function Collected(elements: seq<Element>, decode: string -> Option<string>): (seq<SearchResult>, bool)
  {
    if elements == [] then ([], false)
    else
      var e := elements[0];
      var link := NormaliseLink(e.href);
      var rest := Collected(elements[1..], decode);
      if Accepts(e.title, link) then
        match decode(link)
        case None => ([], true)
        case Some(d) => ([SearchResult(e.title, d, Summary(e.title, e.snippet))] + rest.0, rest.1)
      else rest
  }

  /** One `.each` pass from the results `acc` already gathered, as the callback runs it: stop once
      five are held, skip rejected elements, push accepted ones; a failing decode throws out of the
      pass, flagged by the second component. */
  function Pass(elements: seq<Element>, decode: string -> Option<string>, acc: seq<SearchResult>): (seq<SearchResult>, bool)
  {
    if elements == [] || |acc| >= MaxResults then (acc, false)
    else
      var e := elements[0];
      var link := NormaliseLink(e.href);
      if Accepts(e.title, link) then
        match decode(link)
        case None => (acc, true)
        case Some(d) => Pass(elements[1..], decode, acc + [SearchResult(e.title, d, Summary(e.title, e.snippet))])
      else Pass(elements[1..], decode, acc)
  }

  /** What `searchGoogle` returns: the first pass, then the broader one only if the first produced
      nothing and did not throw (a throw skips to the `catch`). */
  function GoogleResults(page: Option<GooglePage>, decode: string -> Option<string>): seq<SearchResult>
  {
    match page
    case None => []
    case Some(p) =>
      var first := Pass(p.primary, decode, []);
      if first.1 || first.0 != [] then first.0 else Pass(p.broader, decode, []).0
  }

  /** `searchGoogle(query)`: both passes over the page's elements, and the second-pass trigger. */
  method SearchGoogle(page: Option<GooglePage>, decode: string -> Option<string>) returns (results: seq<SearchResult>)
    ensures results == GoogleResults(page, decode)
  {
    results := [];
    if page.None? {
      return;
    }
    var threw;
    results, threw := EachElement(page.value.primary, decode, results);
    if threw {
      return;
    }
    if |results| == 0 {
      results, threw := EachElement(page.value.broader, decode, results);
    }
  }

  /** The callback of one `.each` pass, over elements in document order. */
  method EachElement(elements: seq<Element>, decode: string -> Option<string>, acc: seq<SearchResult>)
    returns (results: seq<SearchResult>, threw: bool)
    ensures (results, threw) == Pass(elements, decode, acc)
  {
    results := acc;
    var i := 0;
    while i < |elements|
      invariant 0 <= i <= |elements|
      invariant Pass(elements, decode, acc) == Pass(elements[i..], decode, results)
    {
      assert elements[i..][1..] == elements[i + 1..];
      if |results| >= MaxResults {
        return results, false;
      }
      var title := elements[i].title;
      var link := elements[i].href;
      var snippet := elements[i].snippet;
      if StartsWith(link, RedirectPrefix) {
        link := BeforeFirst(ReplaceFirst(link, RedirectPrefix), '&');
      }
      if Accepts(title, link) {
        var decoded := decode(link);
        if decoded.None? {
          return results, true;
        }
        results := results + [SearchResult(title, decoded.value, Summary(title, snippet))];
      }
      i := i + 1;
    }
    threw := false;
  }

  /** A pass from `acc` holding at most five yields the first five of `acc` followed by the uncapped
      results, with the cap checked before each element; it throws exactly when the uncapped scan
      does before five results are held. */
  lemma {:induction false} PassIsCappedCollected(elements: seq<Element>, decode: string -> Option<string>, acc: seq<SearchResult>)
    requires |acc| <= MaxResults
    ensures Pass(elements, decode, acc).0 == Take(acc + Collected(elements, decode).0, MaxResults)
    ensures Pass(elements, decode, acc).1 <==>
      Collected(elements, decode).1 && |acc| + |Collected(elements, decode).0| < MaxResults
  {
    var c := Collected(elements, decode);
    if elements == [] {
      assert acc + c.0 == acc;
    } else if |acc| >= MaxResults {
      TakeOfPrefix(acc, c.0, MaxResults);
    } else {
      var e := elements[0];
      var link := NormaliseLink(e.href);
      var rest := Collected(elements[1..], decode);
      if Accepts(e.title, link) {
        if decode(link).Some? {
          var r := SearchResult(e.title, decode(link).value, Summary(e.title, e.snippet));
          PassIsCappedCollected(elements[1..], decode, acc + [r]);
          assert (acc + [r]) + rest.0 == acc + c.0;
        } else {
          assert acc + c.0 == acc;
        }
      } else {
        PassIsCappedCollected(elements[1..], decode, acc);
      }
    }
  }

  /** The whole search in terms of the uncapped scans: the first five of the first pass, or, when
      it yields nothing and does not throw, the first five of the broader pass. */
  lemma GoogleResultsSpec(p: GooglePage, decode: string -> Option<string>)
    ensures var c1 := Collected(p.primary, decode);
      GoogleResults(Some(p), decode)
        == if c1.1 || c1.0 != [] then Take(c1.0, MaxResults) else Take(Collected(p.broader, decode).0, MaxResults)
  {
    PassIsCappedCollected(p.primary, decode, []);
    PassIsCappedCollected(p.broader, decode, []);
    var c1 := Collected(p.primary, decode);
    assert [] + c1.0 == c1.0;
    assert [] + Collected(p.broader, decode).0 == Collected(p.broader, decode).0;
    if c1.0 != [] {
      assert Take(c1.0, MaxResults)[0] == c1.0[0];
    }
  }

  /** The broader pass runs only when the first pass produced zero results: whenever the first
      yields anything, that is the answer. */
  lemma SecondPassOnlyWhenFirstEmpty(p: GooglePage, decode: string -> Option<string>)
    requires Collected(p.primary, decode).0 != []
    ensures GoogleResults(Some(p), decode) == Take(Collected(p.primary, decode).0, MaxResults)
  {
    GoogleResultsSpec(p, decode);
  }

  /** Each element contributes at most one result. */
  lemma {:induction false} CollectedAtMostOnePerElement(elements: seq<Element>, decode: string -> Option<string>)
    ensures |Collected(elements, decode).0| <= |elements|
  {
    if elements != [] {
      CollectedAtMostOnePerElement(elements[1..], decode);
    }
  }

  /** Every result comes from an accepted element: its title is the element's heading, its link the
      decoded normalised link, and its summary the snippet or the heading with the fixed suffix. */
  lemma {:induction false} CollectedFromElements(elements: seq<Element>, decode: string -> Option<string>, r: SearchResult)
    requires r in Collected(elements, decode).0
    ensures exists e :: e in elements && FromElement(r, e, decode)
  {
    var e := elements[0];
    var link := NormaliseLink(e.href);
    if Accepts(e.title, link) && decode(link).Some? && r == SearchResult(e.title, decode(link).value, Summary(e.title, e.snippet)) {
      assert e in elements && FromElement(r, e, decode);
    } else {
      CollectedFromElements(elements[1..], decode, r);
      var e' :| e' in elements[1..] && FromElement(r, e', decode);
      assert e' in elements;
    }
  }

  /** Results follow element order: scanning `a` then `b` without a throw in `a` yields `a`'s results
      followed by `b`'s. */
  lemma {:induction false} CollectedAppend(a: seq<Element>, b: seq<Element>, decode: string -> Option<string>)
    requires !Collected(a, decode).1
    ensures Collected(a + b, decode) == (Collected(a, decode).0 + Collected(b, decode).0, Collected(b, decode).1)
  {
    if a == [] {
      assert a + b == b;
      assert Collected(a, decode).0 + Collected(b, decode).0 == Collected(b, decode).0;
    } else {
      assert (a + b)[0] == a[0];
      assert (a + b)[1..] == a[1..] + b;
      CollectedAppend(a[1..], b, decode);
      var e := a[0];
      var link := NormaliseLink(e.href);
      if Accepts(e.title, link) {
        var r := SearchResult(e.title, decode(link).value, Summary(e.title, e.snippet));
        assert [r] + (Collected(a[1..], decode).0 + Collected(b, decode).0)
            == ([r] + Collected(a[1..], decode).0) + Collected(b, decode).0;
      }
    }
  }

  /** At most five results, each the result of an element of one of the two passes. */
  lemma GoogleResultsShape(page: Option<GooglePage>, decode: string -> Option<string>)
    ensures |GoogleResults(page, decode)| <= MaxResults
    ensures page.Some? ==> forall r :: r in GoogleResults(page, decode) ==>
      exists e :: (e in page.value.primary || e in page.value.broader) && FromElement(r, e, decode)
  {
    if page.Some? {
      var p := page.value;
      GoogleResultsSpec(p, decode);
      forall r | r in GoogleResults(page, decode)
        ensures exists e :: (e in p.primary || e in p.broader) && FromElement(r, e, decode)
      {
        var c1 := Collected(p.primary, decode);
        if c1.1 || c1.0 != [] {
          CollectedFromElements(p.primary, decode, r);
        } else {
          CollectedFromElements(p.broader, decode, r);
        }
      }
    }
  }
}
