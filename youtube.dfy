/** The video resolver of lib/scrapers/youtube.ts: `searchYouTube(query)`.

    The HTTP request and the page's `<script>` elements are given: `page` is `None` when the
    request failed, otherwise the text of each script in document order ("" for an empty one).
    `JSON.parse` is an oracle `parse`, applied only to the text captured from a script. The parsed
    `ytInitialData` is a tree of records whose optional parts are `Option`s or empty strings. */
module YouTube {
  import opened Common
  import opened Text

  /** `videoRenderer`, with each `?.runs?.[0]?.text || ''` already read off ("" when missing). */
  datatype VideoRenderer = VideoRenderer(videoId: string, titleRun: string, descriptionRun: string, channelRun: string)

  /** An entry of an item section: `null` (reading a property of it throws), or a record that may
      hold a `videoRenderer`. */
  datatype Item = NullItem | Item(videoRenderer: Option<VideoRenderer>)

  /** An entry of the section list: `null`, or a record whose `itemSectionRenderer?.contents` may
      be present. */
  datatype Section = NullSection | Section(itemContents: Option<seq<Item>>)

  /** A parsed `ytInitialData`: the list at
      `contents.twoColumnSearchResultsRenderer.primaryContents.sectionListRenderer.contents`,
      absent when any step of that path is. */
  datatype InitialData = InitialData(sectionContents: Option<seq<Section>>)

  datatype Video = Video(title: string, link: string, summary: string)

  const MaxVideos: nat := 5
  const WatchUrl := "https://www.youtube.com/watch?v="
  const Marker := "var ytInitialData"
  /** The literal text of `/var ytInitialData = ({[\s\S]*?});/` up to and including the brace that
      opens the capture group, and the text that closes it: the group ends with the first
      character of `Close`. */
  const Lead := "var ytInitialData = {"
  const Close := "};"

  /** The capture group of a lazy `lead(...)close` match where the group runs from the last
      character of `lead` through the first character of `close`: the first occurrence of `lead`,
      then the first `close` that starts after it. A later `lead` cannot match when the first does
      not, since every `close` after it is also after the first. */
  function LazyGroup(s: string, lead: string, close: string): Option<string>
    requires |lead| >= 1 && |close| >= 1
  {
    match IndexOfFrom(s, lead, 0)
    case None => None
    case Some(i) =>
      match IndexOfFrom(s, close, i + |lead|)
      case None => None
      case Some(k) => Some(s[i + |lead| - 1..k + 1])
  }

  /** The capture of `/var ytInitialData = ({[\s\S]*?});/` in `content`. */
  function Capture(content: string): Option<string>
  {
    LazyGroup(content, Lead, Close)
  }

  /** `lead` at `i` and then `close` at `k`, starting after it. */
  predicate LeadThenClose(s: string, lead: string, close: string, i: int, k: int)
  {
    OccursAt(s, lead, i) && i + |lead| <= k && OccursAt(s, close, k)
  }

  /** A lazy group exists exactly when some `close` starts after some `lead`. */
  lemma LazyGroupExists(s: string, lead: string, close: string)
    requires |lead| >= 1 && |close| >= 1
    ensures LazyGroup(s, lead, close).Some? <==> exists i, k :: LeadThenClose(s, lead, close, i, k)
  {
    var first := IndexOfFrom(s, lead, 0);
    if first.Some? {
      var i := first.value;
      var next := IndexOfFrom(s, close, i + |lead|);
      if next.Some? {
        assert LeadThenClose(s, lead, close, i, next.value);
      } else {
        forall i', k | OccursAt(s, lead, i') && i' + |lead| <= k
          ensures !OccursAt(s, close, k)
        {
        }
      }
    }
  }

  /** The group begins with the last character of `lead`, ends with the first of `close`, and holds
      no `close` after its opening character. */
  lemma LazyGroupDelimited(s: string, lead: string, close: string)
    requires |lead| >= 1 && |close| >= 2
    ensures LazyGroup(s, lead, close).Some? ==>
      var c := LazyGroup(s, lead, close).value;
      && |c| >= 2 && c[0] == lead[|lead| - 1] && c[|c| - 1] == close[0]
      && !Contains(c[1..], close)
  {
    var first := IndexOfFrom(s, lead, 0);
    if first.Some? {
      var i := first.value;
      var j := i + |lead| - 1;
      var next := IndexOfFrom(s, close, i + |lead|);
      if next.Some? {
        var k := next.value;
        assert s[j] == s[i..i + |lead|][|lead| - 1];
        assert s[k] == s[k..k + |close|][0];
        NoCloseBetween(s, close, j, k);
      }
    }
  }

  /** The group is the leftmost-shortest one: it is cut from the first `lead` through the first
      `close` that starts after it. */
  lemma LazyGroupLeftmost(s: string, lead: string, close: string)
    requires |lead| >= 1 && |close| >= 1
    ensures LazyGroup(s, lead, close).Some? ==>
      exists i, k {:trigger LeadThenClose(s, lead, close, i, k)} ::
        && LeadThenClose(s, lead, close, i, k)
        && LazyGroup(s, lead, close).value == s[i + |lead| - 1..k + 1]
        && (forall i' :: 0 <= i' < i ==> !OccursAt(s, lead, i'))
        && (forall k' :: i + |lead| <= k' < k ==> !OccursAt(s, close, k'))
  {
    var first := IndexOfFrom(s, lead, 0);
    if first.Some? {
      var next := IndexOfFrom(s, close, first.value + |lead|);
      if next.Some? {
        assert LeadThenClose(s, lead, close, first.value, next.value);
      }
    }
  }

  /** A text with no `close` starting strictly between `j` and `k`, cut from `j` through `k`, holds
      no `close` after its first character. */
  lemma NoCloseBetween(s: string, close: string, j: nat, k: nat)
    requires |close| >= 2 && j < k < |s|
    requires forall k' :: j + 1 <= k' < k ==> !OccursAt(s, close, k')
    ensures !Contains(s[j..k + 1][1..], close)
  {
    var t := s[j..k + 1][1..];
    assert t == s[j + 1..k + 1];
    forall p | 0 <= p <= |t| - |close|
      ensures !OccursAt(t, close, p)
    {
      var window, original := t[p..p + |close|], s[j + 1 + p..j + 1 + p + |close|];
      forall q | 0 <= q < |close|
        ensures window[q] == original[q]
      {
      }
      assert window == original;
      assert !OccursAt(s, close, j + 1 + p);
    }
  }

  /** The capture from a script's text, in the terms of the regular expression: there is one
      exactly when a "};" starts after some "var ytInitialData = {", and it is then the shortest
      brace-delimited text after the first such assignment. */
  lemma CaptureIsLazyMatch(content: string)
    ensures Capture(content).Some? <==> exists i, k :: LeadThenClose(content, Lead, Close, i, k)
    ensures Capture(content).Some? ==>
      var c := Capture(content).value;
      && |c| >= 2 && c[0] == '{' && c[|c| - 1] == '}'
      && !Contains(c[1..], Close)
      && exists i, k {:trigger LeadThenClose(content, Lead, Close, i, k)} ::
           && LeadThenClose(content, Lead, Close, i, k) && c == content[i + |Lead| - 1..k + 1]
           && (forall i' :: 0 <= i' < i ==> !OccursAt(content, Lead, i'))
           && (forall k' :: i + |Lead| <= k' < k ==> !OccursAt(content, Close, k'))
  {
    LazyGroupExists(content, Lead, Close);
    LazyGroupDelimited(content, Lead, Close);
    LazyGroupLeftmost(content, Lead, Close);
  }

  /** The video an item contributes: a renderer with a video id and a first title run. */
  function VideoOf(r: VideoRenderer): Option<Video>
  {
    if r.videoId != "" && r.titleRun != "" then
      Some(Video(r.titleRun, WatchUrl + r.videoId,
                 if r.descriptionRun != "" then r.descriptionRun else "Learn from " + r.channelRun + " - " + r.titleRun))
    else None
  }

  /** The video a non-null item contributes, if any. */
  function ItemVideo(renderer: Option<VideoRenderer>): seq<Video>
  {
    if renderer.Some? && VideoOf(renderer.value).Some? then [VideoOf(renderer.value).value] else []
  }

  /** The videos of an item list in order, and whether the scan met a `null` item (which throws). */
  function ItemVideos(items: seq<Item>): (seq<Video>, bool)
  {
    if items == [] then ([], false)
    else
      match items[0]
      case NullItem => ([], true)
      case Item(renderer) =>
        var rest := ItemVideos(items[1..]);
        (ItemVideo(renderer) + rest.0, rest.1)
  }

  /** The videos of the section list in order, sections then items, up to the first throw. */
  function SectionVideos(sections: seq<Section>): (seq<Video>, bool)
  {
    if sections == [] then ([], false)
    else
      match sections[0]
      case NullSection => ([], true)
      case Section(contents) =>
        var own := if contents.Some? then ItemVideos(contents.value) else ([], false);
        if own.1 then own
        else
          var rest := SectionVideos(sections[1..]);
          (own.0 + rest.0, rest.1)
  }

  /** The first script that mentions `ytInitialData`, whose capture matches and parses. */
  function SelectData(scripts: seq<string>, parse: string -> Option<InitialData>): Option<InitialData>
  {
    if scripts == [] then None
    else
      var content := scripts[0];
      if Contains(content, Marker) && Capture(content).Some? && parse(Capture(content).value).Some? then
        parse(Capture(content).value)
      else SelectData(scripts[1..], parse)
  }

  /** What `searchYouTube` returns for a page. */
  function YouTubeResults(page: Option<seq<string>>, parse: string -> Option<InitialData>): seq<Video>
  {
    match page
    case None => []
    case Some(scripts) =>
      match SelectData(scripts, parse)
      case None => []
      case Some(data) =>
        match data.sectionContents
        case None => []
        case Some(sections) => Take(SectionVideos(sections).0, MaxVideos)
  }

  /** What the rest of a search yields from inside a section: the videos of `items`, then, unless
      one of them is `null`, those of the `later` sections. */
  function SectionTail(items: seq<Item>, later: seq<Section>): seq<Video>
  {
    if items == [] then SectionVideos(later).0
    else
      match items[0]
      case NullItem => []
      case Item(renderer) => ItemVideo(renderer) + SectionTail(items[1..], later)
  }

  /** The rest of a search from the start of a section's items is that section's own videos, then
      the later sections' unless the section throws. */
  lemma {:induction false} SectionTailSplits(items: seq<Item>, later: seq<Section>)
    ensures SectionTail(items, later)
         == if ItemVideos(items).1 then ItemVideos(items).0 else ItemVideos(items).0 + SectionVideos(later).0
  {
    if items != [] && items[0].Item? {
      SectionTailSplits(items[1..], later);
      assert ItemVideo(items[0].videoRenderer) + (ItemVideos(items[1..]).0 + SectionVideos(later).0)
          == (ItemVideo(items[0].videoRenderer) + ItemVideos(items[1..]).0) + SectionVideos(later).0;
    }
  }

  /** `searchYouTube(query)`: choose the data from the scripts, then walk sections and items,
      pushing well-formed videos and stopping at five; a throw returns what was gathered. */
  method SearchYouTube(page: Option<seq<string>>, parse: string -> Option<InitialData>) returns (videos: seq<Video>)
    ensures videos == YouTubeResults(page, parse)
  {
    videos := [];
    if page.None? {
      return;
    }
    var ytInitialData := FindInitialData(page.value, parse);
    if ytInitialData.None? || ytInitialData.value.sectionContents.None? {
      return;
    }
    videos := CollectVideos(ytInitialData.value.sectionContents.value);
  }

  /** The loop over the page's scripts: the first that mentions `ytInitialData`, whose capture
      matches and parses, supplies the data. */
  method FindInitialData(scripts: seq<string>, parse: string -> Option<InitialData>) returns (data: Option<InitialData>)
    ensures data == SelectData(scripts, parse)
  {
    data := None;
    var s := 0;
    while s < |scripts|
      invariant 0 <= s <= |scripts|
      invariant SelectData(scripts, parse) == SelectData(scripts[s..], parse)
    {
      var content := scripts[s];
      assert scripts[s..][1..] == scripts[s + 1..];
      if Contains(content, Marker) {
        var m := Capture(content);
        if m.Some? {
          var parsed := parse(m.value);
          if parsed.Some? {
            data := parsed;
            return;
          }
        }
      }
      s := s + 1;
    }
  }

  /** The nested loop over sections and their items, as far as the first `null` entry and at most
      five videos. */
  method CollectVideos(contents: seq<Section>) returns (videos: seq<Video>)
    ensures videos == Take(SectionVideos(contents).0, MaxVideos)
  {
    videos := [];
    var si := 0;
    while si < |contents|
      invariant 0 <= si <= |contents|
      invariant |videos| < MaxVideos
      invariant SectionVideos(contents).0 == videos + SectionVideos(contents[si..]).0
      decreases |contents| - si
    {
      assert contents[si..][1..] == contents[si + 1..];
      var section := contents[si];
      if section.NullSection? {
        return;
      }
      if section.itemContents.Some? {
        var items := section.itemContents.value;
        SectionTailSplits(items, contents[si + 1..]);
        var stopped;
        videos, stopped := CollectItems(items, videos, contents[si + 1..], SectionVideos(contents).0);
        if stopped {
          return;
        }
      }
      si := si + 1;
    }
  }

  /** The inner loop over one section's items, continuing the collection `videos`; `stopped` says
      that the search ended inside it, on a `null` item or on reaching five videos. */
  method CollectItems(items: seq<Item>, videos0: seq<Video>, later: seq<Section>, ghost all: seq<Video>)
    returns (videos: seq<Video>, stopped: bool)
    requires |videos0| < MaxVideos
    requires all == videos0 + SectionTail(items, later)
    ensures stopped ==> videos == Take(all, MaxVideos)
    ensures !stopped ==> |videos| < MaxVideos && all == videos + SectionVideos(later).0
  {
    videos := videos0;
    var ii := 0;
    while ii < |items|
      invariant 0 <= ii <= |items|
      invariant |videos| < MaxVideos
      invariant all == videos + SectionTail(items[ii..], later)
      decreases |items| - ii
    {
      assert items[ii..][1..] == items[ii + 1..];
      ghost var rest := SectionTail(items[ii + 1..], later);
      var item := items[ii];
      if item.NullItem? {
        assert all == videos;
        return videos, true;
      }
      var renderer := item.videoRenderer;
      var pushed: seq<Video> := [];
      if renderer.Some? && renderer.value.videoId != "" {
        var v := VideoOf(renderer.value);
        if v.Some? {
          pushed := [v.value];
        }
      }
      assert pushed == ItemVideo(renderer);
      assert all == (videos + pushed) + rest;
      videos := videos + pushed;
      if pushed != [] && |videos| >= MaxVideos {
        TakeOfPrefix(videos, rest, MaxVideos);
        return videos, true;
      }
      ii := ii + 1;
    }
    assert SectionTail(items[ii..], later) == SectionVideos(later).0;
    stopped := false;
  }

  /** At most five videos, each linking to the watch page of its video id. */
  lemma YouTubeResultsShape(page: Option<seq<string>>, parse: string -> Option<InitialData>)
    ensures var vs := YouTubeResults(page, parse);
      && |vs| <= MaxVideos
      && forall v :: v in vs ==> v.title != "" && exists id :: id != "" && v.link == WatchUrl + id
  {
    var vs := YouTubeResults(page, parse);
    forall v | v in vs
      ensures v.title != "" && exists id :: id != "" && v.link == WatchUrl + id
    {
      var sections := SelectData(page.value, parse).value.sectionContents.value;
      SectionVideosFromRenderers(sections, v);
    }
  }

  /** Every video of an item list comes from a renderer of one of its items. */
  lemma {:induction false} ItemVideosFromRenderers(items: seq<Item>, v: Video)
    requires v in ItemVideos(items).0
    ensures exists i :: 0 <= i < |items| && items[i].Item? && items[i].videoRenderer.Some?
              && VideoOf(items[i].videoRenderer.value) == Some(v)
  {
    if v !in ItemVideo(items[0].videoRenderer) {
      ItemVideosFromRenderers(items[1..], v);
      var i :| 0 <= i < |items[1..]| && items[1..][i].Item? && items[1..][i].videoRenderer.Some?
               && VideoOf(items[1..][i].videoRenderer.value) == Some(v);
      assert items[i + 1] == items[1..][i];
    }
  }

  /** Every video of a section list comes from a renderer, so its title and video id are set. */
  lemma {:induction false} SectionVideosFromRenderers(sections: seq<Section>, v: Video)
    requires v in SectionVideos(sections).0
    ensures v.title != "" && exists id :: id != "" && v.link == WatchUrl + id
  {
    var contents := sections[0].itemContents;
    if contents.Some? && v in ItemVideos(contents.value).0 {
      ItemVideosFromRenderers(contents.value, v);
      var i :| 0 <= i < |contents.value| && contents.value[i].Item? && contents.value[i].videoRenderer.Some?
               && VideoOf(contents.value[i].videoRenderer.value) == Some(v);
      VideoOfShape(contents.value[i].videoRenderer.value);
    } else {
      SectionVideosFromRenderers(sections[1..], v);
    }
  }

  /** An item contributes exactly when its renderer has a video id and a first title run; the link is
      the watch URL of that id, and the summary is the first description run, or else
      "Learn from <channel> - <title>". */
  lemma VideoOfShape(r: VideoRenderer)
    ensures VideoOf(r).Some? <==> r.videoId != "" && r.titleRun != ""
    ensures VideoOf(r).Some? ==>
      && VideoOf(r).value.title == r.titleRun
      && VideoOf(r).value.link == WatchUrl + r.videoId
      && VideoOf(r).value.summary == (if r.descriptionRun != "" then r.descriptionRun
                                      else "Learn from " + r.channelRun + " - " + r.titleRun)
  {
  }

  /** Without a throw the collection is the videos of all sections in order, sections before items:
      the section list's videos are the concatenation of each section's. */
  lemma {:induction false} SectionVideosAppend(a: seq<Section>, b: seq<Section>)
    requires !SectionVideos(a).1
    ensures SectionVideos(a + b) == (SectionVideos(a).0 + SectionVideos(b).0, SectionVideos(b).1)
  {
    if a == [] {
      assert a + b == b;
      assert SectionVideos(a).0 + SectionVideos(b).0 == SectionVideos(b).0;
    } else {
      assert (a + b)[0] == a[0];
      assert (a + b)[1..] == a[1..] + b;
      var own := if a[0].itemContents.Some? then ItemVideos(a[0].itemContents.value) else ([], false);
      assert !own.1;
      assert SectionVideos(a) == (own.0 + SectionVideos(a[1..]).0, SectionVideos(a[1..]).1);
      SectionVideosAppend(a[1..], b);
      assert SectionVideos(a + b) == (own.0 + SectionVideos(a[1..] + b).0, SectionVideos(a[1..] + b).1);
      assert own.0 + (SectionVideos(a[1..]).0 + SectionVideos(b).0) == (own.0 + SectionVideos(a[1..]).0) + SectionVideos(b).0;
    }
  }

  /** The script chosen is the first one in which all three conditions hold: a script that fails to
      parse is passed over for the next. */
  lemma {:induction false} SelectDataIsFirstQualifying(scripts: seq<string>, parse: string -> Option<InitialData>)
    ensures SelectData(scripts, parse).Some? <==>
      exists s :: 0 <= s < |scripts| && Qualifies(scripts[s], parse)
    ensures SelectData(scripts, parse).Some? ==>
      exists s :: 0 <= s < |scripts| && Qualifies(scripts[s], parse)
        && SelectData(scripts, parse) == parse(Capture(scripts[s]).value)
        && forall t :: 0 <= t < s ==> !Qualifies(scripts[t], parse)
  {
    if scripts != [] {
      SelectDataIsFirstQualifying(scripts[1..], parse);
      if !Qualifies(scripts[0], parse) {
        if SelectData(scripts, parse).Some? {
          var s :| 0 <= s < |scripts[1..]| && Qualifies(scripts[1..][s], parse)
            && SelectData(scripts[1..], parse) == parse(Capture(scripts[1..][s]).value)
            && forall t :: 0 <= t < s ==> !Qualifies(scripts[1..][t], parse);
          assert scripts[s + 1] == scripts[1..][s];
          forall t | 0 <= t < s + 1 ensures !Qualifies(scripts[t], parse) {
            if t > 0 { assert scripts[t] == scripts[1..][t - 1]; }
          }
        } else {
          forall s | 0 <= s < |scripts| ensures !Qualifies(scripts[s], parse) {
            if s > 0 { assert scripts[s] == scripts[1..][s - 1]; }
          }
        }
      }
    }
  }

  /** A script from which `ytInitialData` is taken. */
  predicate Qualifies(content: string, parse: string -> Option<InitialData>)
  {
    Contains(content, Marker) && Capture(content).Some? && parse(Capture(content).value).Some?
  }
}
