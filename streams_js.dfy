/**
 * `scraper.js`, the stream half: `fetchStreamUrls` over one watch page. The page is given as
 * the records the extraction reads: its `<iframe>`s, its source selector elements (in the
 * order the selector returns them) and its raw HTML text; a page that cannot be fetched is
 * `None`.
 */
module JsStreams {
  import opened Wrappers
  import opened Text
  import opened Seqs
  import opened UrlScan
  import opened JsEvents

  /** `{url, title, isEmbed}`. */
  datatype JsStream = JsStream(url: string, title: string, isEmbed: bool)

  /** `attr('src')` and `attr('data-src')` of an `<iframe>`. */
  datatype Frame = Frame(src: Option<string>, dataSrc: Option<string>)

  /** A `select option`, `.source-item` or `[data-source]` element: three attributes and its text. */
  datatype SourceItem = SourceItem(value: Option<string>, dataSource: Option<string>, dataUrl: Option<string>, text: string)

  datatype Page = Page(html: string, frames: seq<Frame>, items: seq<SourceItem>)

  function UrlOf(s: JsStream): string
  {
    s.url
  }

  // ---------------------------------------------------------------------------------------
  // The three stages

  /** An iframe source: as is when it starts with `http`, `https:` in front of `//`, on the site otherwise. */
  function FrameUrl(src: string): (u: string)
    ensures StartsWith(u, "http")
    ensures StartsWith(src, "http") ==> u == src
  {
    if StartsWith(src, "http") then src
    else if StartsWith(src, "//") then
      assert ("https:" + src)[..4] == "http";
      "https:" + src
    else
      assert (Origin + src)[..4] == "http";
      Origin + src
  }

  /** What the iframe at position `k` gives: an embed titled by that position, when it has a source. */
  function FramePart(f: Frame, k: nat, name: string): seq<JsStream>
  {
    var src := Or(f.src, f.dataSrc);
    if Truthy(src) then [JsStream(FrameUrl(src.value), name + " - Stream " + NatToString(k + 1), true)] else []
  }

  /** The iframes at `k` and after. */
  function FrameStreams(frames: seq<Frame>, k: nat, name: string): seq<JsStream>
    decreases |frames| - k
  {
    if k >= |frames| then [] else FramePart(frames[k], k, name) + FrameStreams(frames, k + 1, name)
  }

  /** One HLS match at position `k`: added unless a stream already has that URL. */
  function HlsStep(acc: seq<JsStream>, u: string, k: nat, name: string): seq<JsStream>
  {
    if u in Keys(acc, UrlOf) then acc else acc + [JsStream(u, name + " - HLS " + NatToString(k + 1), false)]
  }

  function HlsPush(urls: seq<string>, k: nat, acc: seq<JsStream>, name: string): seq<JsStream>
    decreases |urls| - k
  {
    if k >= |urls| then acc else HlsPush(urls, k + 1, HlsStep(acc, urls[k], k, name), name)
  }

  /** `attr('value') || attr('data-source') || attr('data-url')`. */
  function ItemLink(it: SourceItem): Option<string>
  {
    Or(Or(it.value, it.dataSource), it.dataUrl)
  }

  /** `text().trim()`, or `Source <k + 1>` when that is empty. */
  function ItemName(it: SourceItem, k: nat): string
  {
    var t := Trim(it.text);
    if t != "" then t else "Source " + NatToString(k + 1)
  }

  /** What the source item at position `k` gives: an embed, when its link starts with `http`. */
  function ItemPart(it: SourceItem, k: nat, name: string): seq<JsStream>
  {
    var link := ItemLink(it);
    if Truthy(link) && StartsWith(link.value, "http") then [JsStream(link.value, name + " - " + ItemName(it, k), true)] else []
  }

  /** The source items at `k` and after. */
  function ItemStreams(items: seq<SourceItem>, k: nat, name: string): seq<JsStream>
    decreases |items| - k
  {
    if k >= |items| then [] else ItemPart(items[k], k, name) + ItemStreams(items, k + 1, name)
  }

  /** The iframe and HLS streams, then the source items, in the order they are pushed. */
  function Found(page: Page, name: string): seq<JsStream>
  {
    HlsPush(Matches(page.html, "m3u8"), 0, FrameStreams(page.frames, 0, name), name) + ItemStreams(page.items, 0, name)
  }

  /** The watch page itself. */
  function Fallback(eventUrl: string, name: string): JsStream
  {
    JsStream(eventUrl, name + " - Watch in Browser", true)
  }

  predicate HasDirect(ss: seq<JsStream>)
  {
    exists j :: 0 <= j < |ss| && !ss[j].isEmbed
  }

  /** The watch page is appended when nothing was found or nothing found is a direct stream. */
  function WithFallback(found: seq<JsStream>, eventUrl: string, name: string): seq<JsStream>
  {
    if found == [] || !HasDirect(found) then found + [Fallback(eventUrl, name)] else found
  }

  /** `fetchStreamUrls(eventUrl, serverConfig)` for the server named `name`. */
  function StreamUrls(eventUrl: string, name: string, page: Option<Page>): seq<JsStream>
  {
    WithFallback(if page.None? then [] else Found(page.value, name), eventUrl, name)
  }

  // ---------------------------------------------------------------------------------------
  // The loops

  lemma FrameStep(frames: seq<Frame>, k: nat, name: string, acc: seq<JsStream>)
    requires k < |frames|
    ensures acc + FrameStreams(frames, k, name) == (acc + FramePart(frames[k], k, name)) + FrameStreams(frames, k + 1, name)
  {
    AppendAssoc(acc, FramePart(frames[k], k, name), FrameStreams(frames, k + 1, name));
  }

  /** `$('iframe').each(...)`. */
  method FrameLoop(frames: seq<Frame>, name: string) returns (streams: seq<JsStream>)
    ensures streams == FrameStreams(frames, 0, name)
  {
    streams := [];
    var k := 0;
    EmptyAppend(FrameStreams(frames, 0, name));
    while k < |frames|
      invariant 0 <= k <= |frames|
      invariant streams + FrameStreams(frames, k, name) == FrameStreams(frames, 0, name)
    {
      FrameStep(frames, k, name, streams);
      streams := PushFrame(streams, frames[k], k, name);
      k := k + 1;
    }
  }

  /** The `.each` callback for the iframe at `k`: one with a source is pushed as an embed. */
  method PushFrame(streams: seq<JsStream>, f: Frame, k: nat, name: string) returns (streams': seq<JsStream>)
    ensures streams' == streams + FramePart(f, k, name)
  {
    streams' := streams;
    var src := Or(f.src, f.dataSrc);
    if Truthy(src) {
      streams' := streams + [JsStream(FrameUrl(src.value), name + " - Stream " + NatToString(k + 1), true)];
    }
  }

  /** `streams.find(s => s.url === u)`, as a truth value. */
  method HasUrl(streams: seq<JsStream>, u: string) returns (found: bool)
    ensures found <==> u in Keys(streams, UrlOf)
  {
    var j := 0;
    while j < |streams|
      invariant 0 <= j <= |streams|
      invariant forall m :: 0 <= m < j ==> streams[m].url != u
    {
      if streams[j].url == u {
        return true;
      }
      j := j + 1;
    }
    return false;
  }

  /** `m3u8Matches.forEach(...)` on top of the streams so far. */
  method HlsLoop(urls: seq<string>, acc: seq<JsStream>, name: string) returns (streams: seq<JsStream>)
    ensures streams == HlsPush(urls, 0, acc, name)
  {
    streams := acc;
    var k := 0;
    while k < |urls|
      invariant 0 <= k <= |urls|
      invariant HlsPush(urls, k, streams, name) == HlsPush(urls, 0, acc, name)
    {
      ghost var before := streams;
      streams := PushHls(streams, urls[k], k, name);
      HlsPushNext(urls, k, before, name);
      k := k + 1;
    }
  }

  /** The `forEach` callback for the match `u` at `k`: pushed unless a stream already has its URL. */
  method PushHls(streams: seq<JsStream>, u: string, k: nat, name: string) returns (streams': seq<JsStream>)
    ensures streams' == HlsStep(streams, u, k, name)
  {
    streams' := streams;
    var seen := HasUrl(streams, u);
    if !seen {
      streams' := streams + [JsStream(u, name + " - HLS " + NatToString(k + 1), false)];
    }
  }

  lemma HlsPushNext(urls: seq<string>, k: nat, acc: seq<JsStream>, name: string)
    requires k < |urls|
    ensures HlsPush(urls, k, acc, name) == HlsPush(urls, k + 1, HlsStep(acc, urls[k], k, name), name)
  {
  }

  lemma ItemStep(items: seq<SourceItem>, k: nat, name: string, acc: seq<JsStream>)
    requires k < |items|
    ensures acc + ItemStreams(items, k, name) == (acc + ItemPart(items[k], k, name)) + ItemStreams(items, k + 1, name)
  {
    AppendAssoc(acc, ItemPart(items[k], k, name), ItemStreams(items, k + 1, name));
  }

  /** `$('select option, .source-item, [data-source]').each(...)`. */
  method ItemLoop(items: seq<SourceItem>, name: string) returns (streams: seq<JsStream>)
    ensures streams == ItemStreams(items, 0, name)
  {
    streams := [];
    var k := 0;
    EmptyAppend(ItemStreams(items, 0, name));
    while k < |items|
      invariant 0 <= k <= |items|
      invariant streams + ItemStreams(items, k, name) == ItemStreams(items, 0, name)
    {
      ItemStep(items, k, name, streams);
      streams := PushItem(streams, items[k], k, name);
      k := k + 1;
    }
  }

  /** The `.each` callback for the item at `k`: a link starting with `http` is pushed as an embed. */
  method PushItem(streams: seq<JsStream>, it: SourceItem, k: nat, name: string) returns (streams': seq<JsStream>)
    ensures streams' == streams + ItemPart(it, k, name)
  {
    streams' := streams;
    var link := ItemLink(it);
    if Truthy(link) && StartsWith(link.value, "http") {
      streams' := streams + [JsStream(link.value, name + " - " + ItemName(it, k), true)];
    }
  }

  /** `streams.find(s => !s.isEmbed)`, as a truth value. */
  method FindDirect(streams: seq<JsStream>) returns (found: bool)
    ensures found == HasDirect(streams)
  {
    var j := 0;
    while j < |streams|
      invariant 0 <= j <= |streams|
      invariant forall m :: 0 <= m < j ==> streams[m].isEmbed
    {
      if !streams[j].isEmbed {
        return true;
      }
      j := j + 1;
    }
    return false;
  }

  /** `fetchStreamUrls(eventUrl, serverConfig)` with `name` for `serverConfig.name`: the three stages, then the fallback. */
  method FetchStreamUrls(eventUrl: string, name: string, page: Option<Page>) returns (streams: seq<JsStream>)
    ensures streams == StreamUrls(eventUrl, name, page)
  {
    streams := [];
    if page.Some? {
      var framed := FrameLoop(page.value.frames, name);
      streams := HlsLoop(Matches(page.value.html, "m3u8"), framed, name);
      var listed := ItemLoop(page.value.items, name);
      streams := streams + listed;
    }
    var direct := FindDirect(streams);
    if |streams| == 0 || !direct {
      streams := streams + [Fallback(eventUrl, name)];
    }
  }

  // ---------------------------------------------------------------------------------------
  // What the answer holds

  /** An embed whose URL starts with `http`. */
  predicate WebEmbed(s: JsStream)
  {
    s.isEmbed && StartsWith(s.url, "http")
  }

  lemma {:induction false} FrameStreamsShape(frames: seq<Frame>, k: nat, name: string)
    ensures forall s :: s in FrameStreams(frames, k, name) ==> WebEmbed(s)
    decreases |frames| - k
  {
    if k < |frames| {
      FrameStreamsShape(frames, k + 1, name);
    }
  }

  lemma {:induction false} ItemStreamsShape(items: seq<SourceItem>, k: nat, name: string)
    ensures forall s :: s in ItemStreams(items, k, name) ==> WebEmbed(s)
    decreases |items| - k
  {
    if k < |items| {
      ItemStreamsShape(items, k + 1, name);
    }
  }

  /** `r` starts with `acc`. */
  predicate Extends(acc: seq<JsStream>, r: seq<JsStream>)
  {
    |acc| <= |r| && r[..|acc|] == acc
  }

  /**
   * What follows `acc` in `r` are direct streams with URLs of `urls`, each with a URL that no
   * stream before it has.
   */
  predicate NewDirect(urls: seq<string>, acc: seq<JsStream>, r: seq<JsStream>)
  {
    (forall j :: |acc| <= j < |r| ==> !r[j].isEmbed && r[j].url in urls) &&
    (forall i, j :: 0 <= i < j < |r| && |acc| <= j ==> r[i].url != r[j].url)
  }

  /** Every URL of `urls` is the URL of a stream of `r`. */
  predicate Covers(urls: seq<string>, r: seq<JsStream>)
  {
    forall u :: u in urls ==> u in Keys(r, UrlOf)
  }

  lemma KeysExtend(acc: seq<JsStream>, r: seq<JsStream>)
    requires Extends(acc, r)
    ensures forall u :: u in Keys(acc, UrlOf) ==> u in Keys(r, UrlOf)
  {
    forall u | u in Keys(acc, UrlOf) ensures u in Keys(r, UrlOf) {
      var m :| 0 <= m < |acc| && Keys(acc, UrlOf)[m] == u;
      assert r[m] == acc[m];
    }
  }

  lemma HlsStepShape(acc: seq<JsStream>, u: string, k: nat, name: string)
    ensures var acc' := HlsStep(acc, u, k, name);
      Extends(acc, acc') && u in Keys(acc', UrlOf) &&
      (acc' == acc || (|acc'| == |acc| + 1 && !acc'[|acc|].isEmbed && acc'[|acc|].url == u && u !in Keys(acc, UrlOf)))
  {
    var acc' := HlsStep(acc, u, k, name);
    if u !in Keys(acc, UrlOf) {
      assert Keys(acc', UrlOf)[|acc|] == u;
    }
  }

  lemma ExtendsTrans(a: seq<JsStream>, b: seq<JsStream>, c: seq<JsStream>)
    requires Extends(a, b) && Extends(b, c)
    ensures Extends(a, c)
  {
    assert c[..|b|][..|a|] == b[..|a|];
  }

  /** The step of `HlsPushShape`: one match, then the rest. */
  lemma NewDirectStep(urls: seq<string>, k: nat, acc: seq<JsStream>, acc': seq<JsStream>, r: seq<JsStream>)
    requires k < |urls|
    requires Extends(acc, acc') && Extends(acc', r)
    requires acc' == acc || (|acc'| == |acc| + 1 && !acc'[|acc|].isEmbed && acc'[|acc|].url == urls[k] && urls[k] !in Keys(acc, UrlOf))
    requires NewDirect(urls, acc', r)
    ensures NewDirect(urls, acc, r)
  {
    if acc' != acc {
      NewDirectUrls(urls, k, acc, acc', r);
      NewDirectDistinct(acc, acc', r);
    }
  }

  lemma NewDirectUrls(urls: seq<string>, k: nat, acc: seq<JsStream>, acc': seq<JsStream>, r: seq<JsStream>)
    requires k < |urls| && Extends(acc', r) && |acc'| == |acc| + 1
    requires !acc'[|acc|].isEmbed && acc'[|acc|].url == urls[k]
    requires forall j :: |acc'| <= j < |r| ==> !r[j].isEmbed && r[j].url in urls
    ensures forall j :: |acc| <= j < |r| ==> !r[j].isEmbed && r[j].url in urls
  {
    assert r[|acc|] == r[..|acc'|][|acc|];
  }

  lemma NewDirectDistinct(acc: seq<JsStream>, acc': seq<JsStream>, r: seq<JsStream>)
    requires Extends(acc, acc') && Extends(acc', r) && |acc'| == |acc| + 1
    requires acc'[|acc|].url !in Keys(acc, UrlOf)
    requires forall i, j :: 0 <= i < j < |r| && |acc'| <= j ==> r[i].url != r[j].url
    ensures forall i, j :: 0 <= i < j < |r| && |acc| <= j ==> r[i].url != r[j].url
  {
    forall i | 0 <= i < |acc| ensures r[i].url != r[|acc|].url {
      assert r[|acc|] == r[..|acc'|][|acc|] == acc'[|acc|];
      assert r[i] == r[..|acc'|][i] == acc'[i] == acc'[..|acc|][i] == acc[i];
      assert Keys(acc, UrlOf)[i] == acc[i].url;
    }
  }

  /** A match that is some stream's URL extends the covered suffix by one. */
  lemma CoversStep(urls: seq<string>, k: nat, r: seq<JsStream>)
    requires k < |urls|
    requires urls[k] in Keys(r, UrlOf) && Covers(urls[k + 1..], r)
    ensures Covers(urls[k..], r)
  {
    assert urls[k..] == [urls[k]] + urls[k + 1..];
  }

  /**
   * The HLS stage keeps what was there and appends direct streams with new URLs, no two
   * alike, taken from the matches; afterwards every match is the URL of some stream.
   */
  lemma {:induction false} HlsPushShape(urls: seq<string>, k: nat, acc: seq<JsStream>, name: string)
    requires k <= |urls|
    ensures var r := HlsPush(urls, k, acc, name);
      Extends(acc, r) && NewDirect(urls, acc, r) && Covers(urls[k..], r)
    decreases |urls| - k
  {
    var r := HlsPush(urls, k, acc, name);
    if k < |urls| {
      var acc' := HlsStep(acc, urls[k], k, name);
      HlsPushShape(urls, k + 1, acc', name);
      assert r == HlsPush(urls, k + 1, acc', name);
      HlsStepShape(acc, urls[k], k, name);
      ExtendsTrans(acc, acc', r);
      NewDirectStep(urls, k, acc, acc', r);
      KeysExtend(acc', r);
      CoversStep(urls, k, r);
    } else {
      assert r == acc;
    }
  }

  /** In the found list, only the HLS part holds direct streams. */
  lemma DirectOnlyHls(framed: seq<JsStream>, hls: seq<JsStream>, listed: seq<JsStream>, j: nat)
    requires forall s :: s in framed ==> WebEmbed(s)
    requires forall s :: s in listed ==> WebEmbed(s)
    requires Extends(framed, hls)
    requires j < |hls + listed|
    ensures !(hls + listed)[j].isEmbed ==> |framed| <= j < |hls| && (hls + listed)[j] == hls[j]
  {
    if j < |framed| {
      assert hls[..|framed|][j] == framed[j];
      assert framed[j] in framed;
    } else if j >= |hls| {
      assert (hls + listed)[j] == listed[j - |hls|];
      assert listed[j - |hls|] in listed;
    } else {
      assert (hls + listed)[j] == hls[j];
    }
  }

  /** Every embed of the found list is one whose URL starts with `http`. */
  lemma EmbedsWeb(framed: seq<JsStream>, hls: seq<JsStream>, listed: seq<JsStream>, j: nat)
    requires forall s :: s in framed ==> WebEmbed(s)
    requires forall s :: s in listed ==> WebEmbed(s)
    requires Extends(framed, hls)
    requires forall i :: |framed| <= i < |hls| ==> !hls[i].isEmbed
    requires j < |hls + listed|
    ensures (hls + listed)[j].isEmbed ==> StartsWith((hls + listed)[j].url, "http")
  {
    if j < |framed| {
      assert hls[..|framed|][j] == framed[j];
      assert framed[j] in framed;
    } else if j < |hls| {
      assert (hls + listed)[j] == hls[j];
    } else {
      assert (hls + listed)[j] == listed[j - |hls|];
      assert listed[j - |hls|] in listed;
    }
  }

  /** The found list, with HLS matches `urls` on top of the iframes, satisfies the promises. */
  lemma FoundShape(urls: seq<string>, framed: seq<JsStream>, hls: seq<JsStream>, listed: seq<JsStream>)
    requires forall u :: u in urls ==> Url(u, "m3u8")
    requires forall s :: s in framed ==> WebEmbed(s)
    requires forall s :: s in listed ==> WebEmbed(s)
    requires Extends(framed, hls) && NewDirect(urls, framed, hls) && Covers(urls, hls)
    ensures var found := hls + listed;
      (forall j :: 0 <= j < |found| && !found[j].isEmbed ==> Url(found[j].url, "m3u8")) &&
      (forall j :: 0 <= j < |found| && found[j].isEmbed ==> StartsWith(found[j].url, "http")) &&
      (forall i, j :: 0 <= i < j < |found| && !found[i].isEmbed && !found[j].isEmbed ==> found[i].url != found[j].url) &&
      Covers(urls, found)
  {
    var found := hls + listed;
    forall j | 0 <= j < |found| && !found[j].isEmbed ensures Url(found[j].url, "m3u8") {
      DirectOnlyHls(framed, hls, listed, j);
    }
    forall j | 0 <= j < |found| && found[j].isEmbed ensures StartsWith(found[j].url, "http") {
      EmbedsWeb(framed, hls, listed, j);
    }
    forall i, j | 0 <= i < j < |found| && !found[i].isEmbed && !found[j].isEmbed ensures found[i].url != found[j].url {
      DirectOnlyHls(framed, hls, listed, i);
      DirectOnlyHls(framed, hls, listed, j);
    }
    assert Extends(hls, found);
    KeysExtend(hls, found);
  }

  /** Appending the watch page keeps the promises about the found list. */
  lemma WithFallbackShape(found: seq<JsStream>, eventUrl: string, name: string)
    ensures var r := WithFallback(found, eventUrl, name);
      r != [] && (HasDirect(r) || r[|r| - 1] == Fallback(eventUrl, name)) && Extends(found, r) &&
      (forall j :: |found| <= j < |r| ==> r[j] == Fallback(eventUrl, name))
  {
  }

  /**
   * `fetchStreamUrls` never answers an empty list; an answer without a direct stream ends
   * with the watch page, and the answer for a page that cannot be fetched is the watch page
   * alone; the direct streams are HLS addresses from the page, no two alike, and every such
   * address on the page is offered; every other stream is the watch page or an embed whose
   * URL starts with `http`.
   */
  lemma StreamUrlsShape(eventUrl: string, name: string, page: Option<Page>)
    ensures var r := StreamUrls(eventUrl, name, page);
      r != [] && (HasDirect(r) || r[|r| - 1] == Fallback(eventUrl, name)) &&
      (page.None? ==> r == [Fallback(eventUrl, name)]) &&
      (forall j :: 0 <= j < |r| && !r[j].isEmbed ==> Url(r[j].url, "m3u8")) &&
      (forall j :: 0 <= j < |r| && r[j].isEmbed ==> r[j] == Fallback(eventUrl, name) || StartsWith(r[j].url, "http")) &&
      (forall i, j :: 0 <= i < j < |r| && !r[i].isEmbed && !r[j].isEmbed ==> r[i].url != r[j].url) &&
      (page.Some? ==> Covers(Matches(page.value.html, "m3u8"), r))
  {
    var found := if page.None? then [] else Found(page.value, name);
    var r := WithFallback(found, eventUrl, name);
    WithFallbackShape(found, eventUrl, name);
    if page.Some? {
      var p := page.value;
      var urls := Matches(p.html, "m3u8");
      var framed := FrameStreams(p.frames, 0, name);
      var hls := HlsPush(urls, 0, framed, name);
      FrameStreamsShape(p.frames, 0, name);
      ItemStreamsShape(p.items, 0, name);
      HlsPushShape(urls, 0, framed, name);
      assert urls[0..] == urls;
      FoundShape(urls, framed, hls, ItemStreams(p.items, 0, name));
      WithFallbackKeeps(found, urls, eventUrl, name);
    }
  }

  /** What holds of the found list still holds once the watch page may have been appended. */
  lemma WithFallbackKeeps(found: seq<JsStream>, urls: seq<string>, eventUrl: string, name: string)
    requires forall j :: 0 <= j < |found| && !found[j].isEmbed ==> Url(found[j].url, "m3u8")
    requires forall j :: 0 <= j < |found| && found[j].isEmbed ==> StartsWith(found[j].url, "http")
    requires forall i, j :: 0 <= i < j < |found| && !found[i].isEmbed && !found[j].isEmbed ==> found[i].url != found[j].url
    requires Covers(urls, found)
    ensures var r := WithFallback(found, eventUrl, name);
      (forall j :: 0 <= j < |r| && !r[j].isEmbed ==> Url(r[j].url, "m3u8")) &&
      (forall j :: 0 <= j < |r| && r[j].isEmbed ==> r[j] == Fallback(eventUrl, name) || StartsWith(r[j].url, "http")) &&
      (forall i, j :: 0 <= i < j < |r| && !r[i].isEmbed && !r[j].isEmbed ==> r[i].url != r[j].url) &&
      Covers(urls, r)
  {
    var r := WithFallback(found, eventUrl, name);
    WithFallbackShape(found, eventUrl, name);
    KeysExtend(found, r);
    forall j | 0 <= j < |found| ensures r[j] == found[j] {
      assert r[..|found|][j] == found[j];
    }
  }
}
