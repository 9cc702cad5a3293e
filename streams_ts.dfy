/**
 * `src/scraper.ts`, the stream half: `extractStreamUrls` over one page, the retry loop of
 * `fetchWithRetry`, and the uncached body of `fetchStreamUrls` (header annotation, one hop
 * into embedded players, merge, and the watch-in-browser fallback). The stream cache is
 * in `TsCache`.
 *
 * A page is given as the records the extraction reads: its `<iframe>`s, its video sources,
 * its server/quality links (in the order the selectors return them) and its raw HTML text.
 */
module TsStreams {
  import opened Wrappers
  import opened Text
  import opened Seqs
  import opened Registry
  import opened UrlScan

  /** The two request headers every scraped stream carries. */
  datatype Headers = Headers(referer: string, userAgent: string)

  /** `ScrapedStream`; an absent `isEmbed` is `false`. */
  datatype ScrapedStream = ScrapedStream(
    url: string,
    title: string,
    quality: Option<string>,
    isEmbed: bool,
    headers: Option<Headers>)

  const UserAgent: string := "Mozilla/5.0 (Windows NT 10.0; Win64; x64) AppleWebKit/537.36 (KHTML, like Gecko) Chrome/120.0.0.0 Safari/537.36"

  /** `attr('src')`, `attr('data-src')` and `data('lazy-src')` of an `<iframe>`. */
  datatype Iframe = Iframe(src: Option<string>, dataSrc: Option<string>, lazySrc: Option<string>)

  /** A `video source` or `video[src]` element: `src`, `label`, `data-quality`. */
  datatype Video = Video(src: Option<string>, labelAttr: Option<string>, dataQuality: Option<string>)

  /** A server or quality link: its `href`, `data-stream`, `data-url`, `data-link`, text, `data-quality`, `title`. */
  datatype ServerItem = ServerItem(
    href: Option<string>,
    dataStream: Option<string>,
    dataUrl: Option<string>,
    dataLink: Option<string>,
    text: string,
    dataQuality: Option<string>,
    title: Option<string>)

  datatype Doc = Doc(html: string, iframes: seq<Iframe>, videos: seq<Video>, items: seq<ServerItem>)

  /** The array being built and the `seenUrls` set. */
  datatype ExtractState = ExtractState(streams: seq<ScrapedStream>, seen: set<string>)

  const Start: ExtractState := ExtractState([], {})

  /** An iframe is kept when its URL names an embed, a player or a stream. */
  predicate EmbedWord(u: string)
  {
    Contains(u, "embed") || Contains(u, "player") || Contains(u, "stream")
  }

  /** `new URL(ref, base).href`, `None` when it throws. */
  type Resolver = (string, string) -> Option<string>

  // ---------------------------------------------------------------------------------------
  // The stages of extractStreamUrls

  /** An iframe source: as is when it starts with `http`, `https:` in front of `//`, resolved otherwise. */
  function IframeUrl(src: string, base: string, resolve: Resolver): Option<string>
  {
    if StartsWith(src, "http") then Some(src)
    else if StartsWith(src, "//") then Some("https:" + src)
    else resolve(src, base)
  }

  /**
   * One iframe. The `seenUrls` test is on the raw source, while the set records the full
   * URL; a failing resolution throws out of the whole extraction (`None`).
   */
  function IframeStep(st: ExtractState, f: Iframe, base: string, resolve: Resolver): Option<ExtractState>
  {
    var src := Or(Or(f.src, f.dataSrc), f.lazySrc);
    if !Truthy(src) || src.value in st.seen then Some(st)
    else match IframeUrl(src.value, base, resolve)
      case None => None
      case Some(u) =>
        if EmbedWord(u) then Some(ExtractState(st.streams + [ScrapedStream(u, "Embedded Player", None, true, None)], st.seen + {u}))
        else Some(st)
  }

  function IframeScan(fs: seq<Iframe>, st: ExtractState, base: string, resolve: Resolver): Option<ExtractState>
  {
    if fs == [] then Some(st)
    else match IframeStep(st, fs[0], base, resolve)
      case None => None
      case Some(st') => IframeScan(fs[1..], st', base, resolve)
  }

  /** A source as is when it starts with `http`, resolved otherwise. */
  function HttpUrl(src: string, base: string, resolve: Resolver): Option<string>
  {
    if StartsWith(src, "http") then Some(src) else resolve(src, base)
  }

  function VideoStep(st: ExtractState, v: Video, base: string, resolve: Resolver): Option<ExtractState>
  {
    if !Truthy(v.src) || v.src.value in st.seen then Some(st)
    else match HttpUrl(v.src.value, base, resolve)
      case None => None
      case Some(u) =>
        Some(ExtractState(st.streams + [ScrapedStream(u, "Direct Video", Or(v.labelAttr, v.dataQuality), false, None)], st.seen + {u}))
  }

  function VideoScan(vs: seq<Video>, st: ExtractState, base: string, resolve: Resolver): Option<ExtractState>
  {
    if vs == [] then Some(st)
    else match VideoStep(st, vs[0], base, resolve)
      case None => None
      case Some(st') => VideoScan(vs[1..], st', base, resolve)
  }

  /** An mp4 match naming a poster or a thumbnail is dropped (case-sensitive). */
  predicate PosterOrThumb(u: string)
  {
    Contains(u, "poster") || Contains(u, "thumb")
  }

  /** One regex match: pushed, under `title`, unless seen (or, for mp4, a poster or thumbnail). */
  function UrlStep(st: ExtractState, u: string, title: string, dropThumbs: bool): ExtractState
  {
    if u in st.seen || (dropThumbs && PosterOrThumb(u)) then st
    else ExtractState(st.streams + [ScrapedStream(u, title, None, false, None)], st.seen + {u})
  }

  function UrlPush(urls: seq<string>, st: ExtractState, title: string, dropThumbs: bool): ExtractState
  {
    if urls == [] then st else UrlPush(urls[1..], UrlStep(st, urls[0], title, dropThumbs), title, dropThumbs)
  }

  /** `text().trim() || data('quality') || attr('title') || ''`. */
  function ItemQuality(it: ServerItem): string
  {
    var t := Trim(it.text);
    if t != "" then t
    else if Truthy(it.dataQuality) then it.dataQuality.value
    else if Truthy(it.title) then it.title.value
    else ""
  }

  /** `attr('href') || data('stream') || data('url') || data('link')`. */
  function ItemLink(it: ServerItem): Option<string>
  {
    Or(Or(Or(it.href, it.dataStream), it.dataUrl), it.dataLink)
  }

  /** The server link at position `index`: titled by its quality, or `Server <index + 1>`. */
  function ItemStep(st: ExtractState, it: ServerItem, index: nat, base: string, resolve: Resolver): Option<ExtractState>
  {
    var link := ItemLink(it);
    var quality := ItemQuality(it);
    if !Truthy(link) || link.value in st.seen then Some(st)
    else match HttpUrl(link.value, base, resolve)
      case None => None
      case Some(u) =>
        var title := if quality != "" then quality else "Server " + NatToString(index + 1);
        Some(ExtractState(st.streams + [ScrapedStream(u, title, Some(quality), false, None)], st.seen + {u}))
  }

  function ItemScan(items: seq<ServerItem>, k: nat, st: ExtractState, base: string, resolve: Resolver): Option<ExtractState>
    decreases |items| - k
  {
    if k >= |items| then Some(st)
    else match ItemStep(st, items[k], k, base, resolve)
      case None => None
      case Some(st') => ItemScan(items, k + 1, st', base, resolve)
  }

  /** The state after the iframes, the videos and the three regex scans. */
  function BeforeItems(doc: Doc, base: string, resolve: Resolver): Option<ExtractState>
  {
    match IframeScan(doc.iframes, Start, base, resolve)
    case None => None
    case Some(s1) =>
      match VideoScan(doc.videos, s1, base, resolve)
      case None => None
      case Some(s2) =>
        var s3 := UrlPush(Matches(doc.html, "m3u8"), s2, "HLS Stream", false);
        var s4 := UrlPush(Matches(doc.html, "mpd"), s3, "DASH Stream", false);
        Some(UrlPush(Matches(doc.html, "mp4"), s4, "MP4 Video", true))
  }

  /** An item whose step fails ends the scan with nothing. */
  lemma ItemScanStop(items: seq<ServerItem>, k: nat, st: ExtractState, base: string, resolve: Resolver)
    requires k < |items| && ItemStep(st, items[k], k, base, resolve).None?
    ensures ItemScan(items, k, st, base, resolve).None?
  {
  }

  /** An item whose step gives `st'` leaves the rest of the scan to go on from `st'`. */
  lemma ItemScanNext(items: seq<ServerItem>, k: nat, st: ExtractState, st': ExtractState, base: string, resolve: Resolver)
    requires k < |items| && ItemStep(st, items[k], k, base, resolve) == Some(st')
    ensures ItemScan(items, k, st, base, resolve) == ItemScan(items, k + 1, st', base, resolve)
  {
  }

  /** What `extractStreamUrls(html, baseUrl)` returns, or `None` when it throws. */
  function Extract(doc: Doc, base: string, resolve: Resolver): Option<seq<ScrapedStream>>
  {
    match BeforeItems(doc, base, resolve)
    case None => None
    case Some(s5) =>
      match ItemScan(doc.items, 0, s5, base, resolve)
      case None => None
      case Some(s6) => Some(s6.streams)
  }

  // ---------------------------------------------------------------------------------------
  // extractStreamUrls, with its loops

  method IframeLoop(fs: seq<Iframe>, base: string, resolve: Resolver) returns (r: Option<ExtractState>)
    ensures r == IframeScan(fs, Start, base, resolve)
  {
    var streams: seq<ScrapedStream> := [];
    var seen: set<string> := {};
    var i := 0;
    while i < |fs|
      invariant 0 <= i <= |fs|
      invariant IframeScan(fs[i..], ExtractState(streams, seen), base, resolve) == IframeScan(fs, Start, base, resolve)
    {
      assert fs[i..][1..] == fs[i + 1..];
      var src := Or(Or(fs[i].src, fs[i].dataSrc), fs[i].lazySrc);
      if Truthy(src) && src.value !in seen {
        var full := IframeUrl(src.value, base, resolve);
        if full.None? {
          return None;
        }
        if EmbedWord(full.value) {
          seen := seen + {full.value};
          streams := streams + [ScrapedStream(full.value, "Embedded Player", None, true, None)];
        }
      }
      i := i + 1;
    }
    assert fs[i..] == [];
    return Some(ExtractState(streams, seen));
  }

  method VideoLoop(vs: seq<Video>, st: ExtractState, base: string, resolve: Resolver) returns (r: Option<ExtractState>)
    ensures r == VideoScan(vs, st, base, resolve)
  {
    var streams, seen := st.streams, st.seen;
    var i := 0;
    while i < |vs|
      invariant 0 <= i <= |vs|
      invariant VideoScan(vs[i..], ExtractState(streams, seen), base, resolve) == VideoScan(vs, st, base, resolve)
    {
      assert vs[i..][1..] == vs[i + 1..];
      var v := vs[i];
      if Truthy(v.src) && v.src.value !in seen {
        var full := HttpUrl(v.src.value, base, resolve);
        if full.None? {
          return None;
        }
        seen := seen + {full.value};
        streams := streams + [ScrapedStream(full.value, "Direct Video", Or(v.labelAttr, v.dataQuality), false, None)];
      }
      i := i + 1;
    }
    assert vs[i..] == [];
    return Some(ExtractState(streams, seen));
  }

  method UrlLoop(urls: seq<string>, st: ExtractState, title: string, dropThumbs: bool) returns (r: ExtractState)
    ensures r == UrlPush(urls, st, title, dropThumbs)
  {
    var streams, seen := st.streams, st.seen;
    var i := 0;
    while i < |urls|
      invariant 0 <= i <= |urls|
      invariant UrlPush(urls[i..], ExtractState(streams, seen), title, dropThumbs) == UrlPush(urls, st, title, dropThumbs)
    {
      assert urls[i..][1..] == urls[i + 1..];
      var u := urls[i];
      if u !in seen && !(dropThumbs && PosterOrThumb(u)) {
        seen := seen + {u};
        streams := streams + [ScrapedStream(u, title, None, false, None)];
      }
      i := i + 1;
    }
    assert urls[i..] == [];
    return ExtractState(streams, seen);
  }

  method ItemLoop(items: seq<ServerItem>, st: ExtractState, base: string, resolve: Resolver) returns (r: Option<ExtractState>)
    ensures r == ItemScan(items, 0, st, base, resolve)
  {
    var streams, seen := st.streams, st.seen;
    var i := 0;
    while i < |items|
      invariant 0 <= i <= |items|
      invariant ItemScan(items, i, ExtractState(streams, seen), base, resolve) == ItemScan(items, 0, st, base, resolve)
    {
      ghost var before := ExtractState(streams, seen);
      var ok;
      ok, streams, seen := ProcessItem(items[i], i, streams, seen, base, resolve);
      if !ok {
        ItemScanStop(items, i, before, base, resolve);
        return None;
      }
      ItemScanNext(items, i, before, ExtractState(streams, seen), base, resolve);
      i := i + 1;
    }
    return Some(ExtractState(streams, seen));
  }

  /** The loop body for the item at `index`: `ok` is false when resolving its link throws. */
  method ProcessItem(it: ServerItem, index: nat, streams: seq<ScrapedStream>, seen: set<string>, base: string, resolve: Resolver)
    returns (ok: bool, streams': seq<ScrapedStream>, seen': set<string>)
    ensures ok == ItemStep(ExtractState(streams, seen), it, index, base, resolve).Some?
    ensures ok ==> ItemStep(ExtractState(streams, seen), it, index, base, resolve) == Some(ExtractState(streams', seen'))
  {
    ok, streams', seen' := true, streams, seen;
    var link := ItemLink(it);
    var quality := ItemQuality(it);
    if Truthy(link) && link.value !in seen {
      var full := HttpUrl(link.value, base, resolve);
      if full.None? {
        return false, streams, seen;
      }
      seen' := seen + {full.value};
      var title := if quality != "" then quality else "Server " + NatToString(index + 1);
      streams' := streams + [ScrapedStream(full.value, title, Some(quality), false, None)];
    }
  }

  /** `extractStreamUrls`: the stages in order; `None` when a URL resolution throws. */
  method ExtractStreamUrls(doc: Doc, base: string, resolve: Resolver) returns (r: Option<seq<ScrapedStream>>)
    ensures r == Extract(doc, base, resolve)
  {
    var s1 := IframeLoop(doc.iframes, base, resolve);
    if s1.None? {
      return None;
    }
    var s2 := VideoLoop(doc.videos, s1.value, base, resolve);
    if s2.None? {
      return None;
    }
    var s3 := UrlLoop(Matches(doc.html, "m3u8"), s2.value, "HLS Stream", false);
    var s4 := UrlLoop(Matches(doc.html, "mpd"), s3, "DASH Stream", false);
    var s5 := UrlLoop(Matches(doc.html, "mp4"), s4, "MP4 Video", true);
    var s6 := ItemLoop(doc.items, s5, base, resolve);
    if s6.None? {
      return None;
    }
    return Some(s6.value.streams);
  }

  // ---------------------------------------------------------------------------------------
  // What the extraction guarantees

  /** `st'` continues `st`: the streams are extended and the set only grows. */
  predicate Extends(st: ExtractState, st': ExtractState)
  {
    |st.streams| <= |st'.streams| && st'.streams[..|st.streams|] == st.streams && st.seen <= st'.seen
  }

  /** Every URL pushed is recorded as seen. */
  predicate Recorded(st: ExtractState)
  {
    forall i :: 0 <= i < |st.streams| ==> st.streams[i].url in st.seen
  }

  /** The streams from `from` on are plain entries: not embeds, without headers. */
  predicate PlainFrom(st: ExtractState, from: nat)
  {
    forall i :: from <= i < |st.streams| ==> !st.streams[i].isEmbed && st.streams[i].headers.None?
  }

  /** Plain entries from `n` on stay so when more plain entries follow. */
  lemma PlainGrow(a: ExtractState, b: ExtractState, n: nat)
    requires n <= |a.streams| && Extends(a, b) && PlainFrom(a, n) && PlainFrom(b, |a.streams|)
    ensures PlainFrom(b, n)
  {
    forall i | n <= i < |a.streams| ensures b.streams[i] == a.streams[i] {
      assert b.streams[i] == b.streams[..|a.streams|][i];
    }
  }

  lemma {:induction false} ExtendsTrans(a: ExtractState, b: ExtractState, c: ExtractState)
    requires Extends(a, b) && Extends(b, c)
    ensures Extends(a, c)
  {
    assert c.streams[..|b.streams|][..|a.streams|] == c.streams[..|a.streams|];
  }

  lemma PushExtends(st: ExtractState, s: ScrapedStream)
    requires Recorded(st)
    ensures Extends(st, ExtractState(st.streams + [s], st.seen + {s.url}))
    ensures Recorded(ExtractState(st.streams + [s], st.seen + {s.url}))
  {
    var t := st.streams + [s];
    assert t[..|st.streams|] == st.streams;
    assert forall i :: 0 <= i < |st.streams| ==> t[i] == st.streams[i];
  }

  /** What the iframe stage adds: embeds named `Embedded Player` whose URL names an embed, a player or a stream. */
  predicate EmbedsFrom(st: ExtractState, from: nat)
  {
    forall i :: from <= i < |st.streams| ==>
      st.streams[i].isEmbed && st.streams[i].title == "Embedded Player" && EmbedWord(st.streams[i].url) && st.streams[i].headers.None?
  }

  lemma {:induction false} IframeScanShape(fs: seq<Iframe>, st: ExtractState, base: string, resolve: Resolver)
    requires Recorded(st) && IframeScan(fs, st, base, resolve).Some?
    ensures var st' := IframeScan(fs, st, base, resolve).value;
      Extends(st, st') && Recorded(st') && EmbedsFrom(st', |st.streams|)
  {
    if fs != [] {
      var mid := IframeStep(st, fs[0], base, resolve).value;
      var st' := IframeScan(fs, st, base, resolve).value;
      if mid != st {
        var u := mid.streams[|st.streams|].url;
        assert mid == ExtractState(st.streams + [ScrapedStream(u, "Embedded Player", None, true, None)], st.seen + {u});
        PushExtends(st, ScrapedStream(u, "Embedded Player", None, true, None));
      }
      IframeScanShape(fs[1..], mid, base, resolve);
      ExtendsTrans(st, mid, st');
      if mid != st {
        assert st'.streams[|st.streams|] == st'.streams[..|mid.streams|][|st.streams|];
      }
    }
  }

  lemma {:induction false} VideoScanShape(vs: seq<Video>, st: ExtractState, base: string, resolve: Resolver)
    requires Recorded(st) && VideoScan(vs, st, base, resolve).Some?
    ensures var st' := VideoScan(vs, st, base, resolve).value;
      Extends(st, st') && Recorded(st') && PlainFrom(st', |st.streams|)
  {
    if vs != [] {
      var mid := VideoStep(st, vs[0], base, resolve).value;
      var st' := VideoScan(vs, st, base, resolve).value;
      if mid != st {
        var s := mid.streams[|st.streams|];
        assert mid == ExtractState(st.streams + [s], st.seen + {s.url});
        PushExtends(st, s);
      }
      VideoScanShape(vs[1..], mid, base, resolve);
      ExtendsTrans(st, mid, st');
      if mid != st {
        assert st'.streams[|st.streams|] == st'.streams[..|mid.streams|][|st.streams|];
      }
    }
  }

  /** One server link keeps the invariant and pushes at most one plain entry. */
  lemma ItemStepShape(st: ExtractState, it: ServerItem, k: nat, base: string, resolve: Resolver)
    requires Recorded(st) && ItemStep(st, it, k, base, resolve).Some?
    ensures var mid := ItemStep(st, it, k, base, resolve).value;
      Extends(st, mid) && Recorded(mid) && PlainFrom(mid, |st.streams|)
  {
    var mid := ItemStep(st, it, k, base, resolve).value;
    ItemStepCases(st, it, k, base, resolve);
    if mid != st {
      PushPlain(st, mid.streams[|st.streams|]);
    }
  }

  /** A server link leaves the state alone or pushes one plain entry and records its URL. */
  lemma ItemStepCases(st: ExtractState, it: ServerItem, k: nat, base: string, resolve: Resolver)
    requires ItemStep(st, it, k, base, resolve).Some?
    ensures var mid := ItemStep(st, it, k, base, resolve).value;
      mid == st ||
      (|mid.streams| == |st.streams| + 1 &&
       mid == ExtractState(st.streams + [mid.streams[|st.streams|]], st.seen + {mid.streams[|st.streams|].url}) &&
       !mid.streams[|st.streams|].isEmbed && mid.streams[|st.streams|].headers.None?)
  {
  }

  /** Pushing a plain entry keeps the invariant. */
  lemma PushPlain(st: ExtractState, s: ScrapedStream)
    requires Recorded(st) && !s.isEmbed && s.headers.None?
    ensures var mid := ExtractState(st.streams + [s], st.seen + {s.url});
      Extends(st, mid) && Recorded(mid) && PlainFrom(mid, |st.streams|)
  {
    PushExtends(st, s);
  }

  /** Plain entries after `st` in `mid`, then after `mid` in `st'`, are plain entries after `st` in `st'`. */
  lemma PlainJoin(st: ExtractState, mid: ExtractState, st': ExtractState)
    requires Extends(st, mid) && Extends(mid, st')
    requires PlainFrom(mid, |st.streams|) && PlainFrom(st', |mid.streams|)
    ensures PlainFrom(st', |st.streams|)
  {
    forall i | |st.streams| <= i < |mid.streams| ensures st'.streams[i] == mid.streams[i] {
      assert st'.streams[i] == st'.streams[..|mid.streams|][i];
    }
  }

  lemma {:induction false} ItemScanShape(items: seq<ServerItem>, k: nat, st: ExtractState, base: string, resolve: Resolver)
    requires Recorded(st) && ItemScan(items, k, st, base, resolve).Some?
    ensures var st' := ItemScan(items, k, st, base, resolve).value;
      Extends(st, st') && Recorded(st') && PlainFrom(st', |st.streams|)
    decreases |items| - k
  {
    if k < |items| {
      var mid := ItemStep(st, items[k], k, base, resolve).value;
      var st' := ItemScan(items, k, st, base, resolve).value;
      ItemStepShape(st, items[k], k, base, resolve);
      ItemScanShape(items, k + 1, mid, base, resolve);
      ExtendsTrans(st, mid, st');
      PlainJoin(st, mid, st');
    }
  }

  /**
   * What a regex stage adds: plain entries titled `title`, each one of the matches, none seen
   * before the stage, pairwise different, and, for mp4, naming no poster or thumbnail.
   */
  predicate UrlsFrom(st: ExtractState, st': ExtractState, urls: seq<string>, title: string, dropThumbs: bool)
  {
    (forall i :: |st.streams| <= i < |st'.streams| ==>
       var s := st'.streams[i];
       s.url in urls && s.url !in st.seen && s.title == title && !s.isEmbed && s.headers.None? &&
       (dropThumbs ==> !PosterOrThumb(s.url))) &&
    (forall i, j :: |st.streams| <= i < j < |st'.streams| ==> st'.streams[i].url != st'.streams[j].url)
  }

  lemma {:induction false} UrlPushShape(urls: seq<string>, st: ExtractState, title: string, dropThumbs: bool)
    requires Recorded(st)
    ensures var st' := UrlPush(urls, st, title, dropThumbs);
      Extends(st, st') && Recorded(st') && UrlsFrom(st, st', urls, title, dropThumbs)
  {
    if urls != [] {
      var mid := UrlStep(st, urls[0], title, dropThumbs);
      var st' := UrlPush(urls, st, title, dropThumbs);
      if mid != st {
        PushExtends(st, ScrapedStream(urls[0], title, None, false, None));
      }
      UrlPushShape(urls[1..], mid, title, dropThumbs);
      ExtendsTrans(st, mid, st');
      assert forall i :: |mid.streams| <= i < |st'.streams| ==> st'.streams[i].url in urls[1..];
      if mid != st {
        var n := |st.streams|;
        assert st'.streams[n] == st'.streams[..|mid.streams|][n] == mid.streams[n];
        assert mid.streams[n].url == urls[0];
        forall i | n < i < |st'.streams| ensures st'.streams[i].url != urls[0] {
          assert st'.streams[i].url !in mid.seen;
        }
      }
    }
  }

  /**
   * What `extractStreamUrls` returns: the kept iframes first, as the only embeds, each titled
   * `Embedded Player` and naming an embed, a player or a stream; then plain entries; none of
   * them carries headers yet.
   */
  lemma ExtractShape(doc: Doc, base: string, resolve: Resolver)
    requires Extract(doc, base, resolve).Some?
    ensures var r := Extract(doc, base, resolve).value;
      var n := |IframeScan(doc.iframes, Start, base, resolve).value.streams|;
      n <= |r| &&
      (forall i :: 0 <= i < n ==> r[i].isEmbed && r[i].title == "Embedded Player" && EmbedWord(r[i].url)) &&
      (forall i :: n <= i < |r| ==> !r[i].isEmbed) &&
      (forall i :: 0 <= i < |r| ==> r[i].headers.None?)
  {
    var s1 := IframeScan(doc.iframes, Start, base, resolve).value;
    IframeScanShape(doc.iframes, Start, base, resolve);
    var s2 := VideoScan(doc.videos, s1, base, resolve).value;
    VideoScanShape(doc.videos, s1, base, resolve);
    var s3 := UrlPush(Matches(doc.html, "m3u8"), s2, "HLS Stream", false);
    UrlPushShape(Matches(doc.html, "m3u8"), s2, "HLS Stream", false);
    var s4 := UrlPush(Matches(doc.html, "mpd"), s3, "DASH Stream", false);
    UrlPushShape(Matches(doc.html, "mpd"), s3, "DASH Stream", false);
    var s5 := UrlPush(Matches(doc.html, "mp4"), s4, "MP4 Video", true);
    UrlPushShape(Matches(doc.html, "mp4"), s4, "MP4 Video", true);
    var s6 := ItemScan(doc.items, 0, s5, base, resolve).value;
    ItemScanShape(doc.items, 0, s5, base, resolve);
    var n := |s1.streams|;
    assert PlainFrom(s3, |s2.streams|) && PlainFrom(s4, |s3.streams|) && PlainFrom(s5, |s4.streams|);
    PlainGrow(s2, s3, n);
    PlainGrow(s3, s4, n);
    PlainGrow(s4, s5, n);
    PlainGrow(s5, s6, n);
    ExtendsTrans(s1, s2, s3);
    ExtendsTrans(s1, s3, s4);
    ExtendsTrans(s1, s4, s5);
    ExtendsTrans(s1, s5, s6);
    forall i | 0 <= i < |s6.streams|
      ensures (i < n ==> s6.streams[i].isEmbed && s6.streams[i].title == "Embedded Player" && EmbedWord(s6.streams[i].url))
      ensures (n <= i ==> !s6.streams[i].isEmbed)
      ensures s6.streams[i].headers.None?
    {
      if i < n {
        assert s6.streams[i] == s6.streams[..n][i] == s1.streams[i];
      }
    }
  }

  /** An m3u8 stream from the regex stage is a match: scheme, extension, no excluded character. */
  lemma RegexStreamIsUrl(html: string, ext: string, u: string)
    requires u in Matches(html, ext)
    ensures IcAt(u, "https://", 0) || IcAt(u, "http://", 0)
    ensures forall j :: 0 <= j < |u| ==> !Excluded(u[j])
    ensures exists d :: 0 < d && d + 1 + |ext| <= |u| && u[d] == '.' && IcAt(u, ext, d + 1)
  {
    var i :| 0 <= i < |Matches(html, ext)| && Matches(html, ext)[i] == u;
    UrlShape(u, ext);
  }

  /**
   * The iframe check tests the raw source while the set records the resolved URL, so two
   * iframes with the same relative source are both pushed.
   */
  lemma IframeRelativeDuplicate(src: string, u: string, base: string, resolve: Resolver)
    requires src != "" && !StartsWith(src, "http") && !StartsWith(src, "//") && src != u
    requires resolve(src, base) == Some(u) && EmbedWord(u)
    ensures var f := Iframe(Some(src), None, None);
      var e := ScrapedStream(u, "Embedded Player", None, true, None);
      IframeScan([f, f], Start, base, resolve) == Some(ExtractState([e, e], {u}))
  {
    var f := Iframe(Some(src), None, None);
    var e := ScrapedStream(u, "Embedded Player", None, true, None);
    var s1 := ExtractState([e], {u});
    assert Or(Or(f.src, f.dataSrc), f.lazySrc) == Some(src);
    assert IframeUrl(src, base, resolve) == Some(u);
    assert src !in s1.seen && src !in Start.seen;
    assert Start.streams + [e] == [e] && Start.seen + {u} == {u};
    assert IframeStep(Start, f, base, resolve) == Some(s1);
    assert s1.streams + [e] == [e, e] && s1.seen + {u} == {u};
    assert IframeStep(s1, f, base, resolve) == Some(ExtractState([e, e], {u}));
    assert [f, f][1..] == [f] && [f][1..] == [];
    assert IframeScan([f], s1, base, resolve) == IframeScan([], ExtractState([e, e], {u}), base, resolve);
  }

  // ---------------------------------------------------------------------------------------
  // fetchWithRetry

  /** The outcome of the first successful attempt among `attempt(from) .. attempt(retries)`, or `None`. */
  function FirstSuccess<T>(attempt: nat -> Option<T>, from: nat, retries: nat): (r: Option<T>)
    ensures r.None? ==> forall j :: from <= j <= retries ==> attempt(j).None?
    ensures r.Some? ==> exists j :: from <= j <= retries && attempt(j) == r &&
                                    forall k :: from <= k < j ==> attempt(k).None?
    decreases retries + 1 - from
  {
    if from > retries then None
    else if attempt(from).Some? then attempt(from)
    else FirstSuccess(attempt, from + 1, retries)
  }

  /**
   * `fetchWithRetry`'s loop: at most `retries + 1` attempts, stopping at the first success; the
   * delays between attempts are left out.
   */
  method FetchWithRetry<T>(attempt: nat -> Option<T>, retries: nat) returns (r: Option<T>, attempts: nat)
    ensures r == FirstSuccess(attempt, 0, retries)
    ensures 1 <= attempts <= retries + 1
    ensures r.Some? ==> r == attempt(attempts - 1)
    ensures r.Some? ==> forall j :: 0 <= j < attempts - 1 ==> attempt(j).None?
    ensures r.None? ==> attempts == retries + 1
  {
    var i := 0;
    while i <= retries
      invariant 0 <= i <= retries + 1
      invariant FirstSuccess(attempt, i, retries) == FirstSuccess(attempt, 0, retries)
      invariant forall j :: 0 <= j < i ==> attempt(j).None?
    {
      var got := attempt(i);
      if got.Some? {
        return got, i + 1;
      }
      i := i + 1;
    }
    return None, retries + 1;
  }

  // ---------------------------------------------------------------------------------------
  // fetchStreamUrls without its cache

  /** `{...s, headers: {Referer: server.baseUrl, 'User-Agent': ...}}`. */
  function Annotate(ss: seq<ScrapedStream>, server: Server): (r: seq<ScrapedStream>)
    ensures |r| == |ss|
    ensures forall i :: 0 <= i < |ss| ==> r[i] == ss[i].(headers := Some(Headers(server.baseUrl, UserAgent)))
  {
    seq(|ss|, i requires 0 <= i < |ss| => ss[i].(headers := Some(Headers(server.baseUrl, UserAgent))))
  }

  /** `streams.filter(s => s.isEmbed).map(s => s.url)`. */
  function EmbedUrls(ss: seq<ScrapedStream>): (r: seq<string>)
    ensures forall u :: u in r <==> exists i :: 0 <= i < |ss| && ss[i].isEmbed && ss[i].url == u
  {
    if ss == [] then []
    else
      var rest := EmbedUrls(ss[1..]);
      assert forall i :: 1 <= i < |ss| ==> ss[i] == ss[1..][i - 1];
      (if ss[0].isEmbed then [ss[0].url] else []) + rest
  }

  /** The embed URLs of a concatenation are those of its parts, in order, duplicates kept. */
  lemma {:induction false} EmbedUrlsAppend(a: seq<ScrapedStream>, b: seq<ScrapedStream>)
    ensures EmbedUrls(a + b) == EmbedUrls(a) + EmbedUrls(b)
  {
    if a == [] {
      assert a + b == b;
    } else {
      assert (a + b)[0] == a[0] && (a + b)[1..] == a[1..] + b;
      EmbedUrlsAppend(a[1..], b);
      var h := (if a[0].isEmbed then [a[0].url] else []);
      assert EmbedUrls(a + b) == h + (EmbedUrls(a[1..]) + EmbedUrls(b));
      assert h + (EmbedUrls(a[1..]) + EmbedUrls(b)) == (h + EmbedUrls(a[1..])) + EmbedUrls(b);
    }
  }

  /** The entry for the event page itself. */
  function Fallback(eventUrl: string, server: Server): ScrapedStream
  {
    ScrapedStream(eventUrl, server.name + " - Watch in Browser", None, true, None)
  }

  /** The annotated streams of one embedded player; a failing fetch or extraction gives none. */
  function ChildStreams(embed: string, server: Server, fetch: string -> Option<Doc>, resolve: Resolver): seq<ScrapedStream>
  {
    match fetch(embed)
    case None => []
    case Some(d) =>
      match Extract(d, embed, resolve)
      case None => []
      case Some(cs) => Annotate(cs, server)
  }

  /** All children, embed by embed. */
  function Discovered(embeds: seq<string>, server: Server, fetch: string -> Option<Doc>, resolve: Resolver): seq<ScrapedStream>
  {
    if embeds == [] then [] else ChildStreams(embeds[0], server, fetch, resolve) + Discovered(embeds[1..], server, fetch, resolve)
  }

  function Urls(ss: seq<ScrapedStream>): (r: set<string>)
    ensures forall u :: u in r <==> exists i :: 0 <= i < |ss| && ss[i].url == u
  {
    if ss == [] then {}
    else
      var rest := Urls(ss[1..]);
      assert forall i :: 1 <= i < |ss| ==> ss[i] == ss[1..][i - 1];
      {ss[0].url} + rest
  }

  /** The merge loop: a child is appended when its URL is non-empty and not present yet. */
  function MergeFrom(acc: seq<ScrapedStream>, seen: set<string>, children: seq<ScrapedStream>): seq<ScrapedStream>
    decreases |children|
  {
    if children == [] then acc
    else if children[0].url != "" && children[0].url !in seen then
      MergeFrom(acc + [children[0]], seen + {children[0].url}, children[1..])
    else MergeFrom(acc, seen, children[1..])
  }

  function Merge(main: seq<ScrapedStream>, children: seq<ScrapedStream>): seq<ScrapedStream>
  {
    MergeFrom(main, Urls(main), children)
  }

  /**
   * The `try` body of `fetchStreamUrls` after the cache test: the streams and whether they are
   * stored in the cache (the `catch` path is not).
   */
  function StreamsUncached(eventUrl: string, server: Server, fetch: string -> Option<Doc>, resolve: Resolver): (seq<ScrapedStream>, bool)
  {
    match fetch(eventUrl)
    case None => ([Fallback(eventUrl, server)], false)
    case Some(doc) =>
      match Extract(doc, eventUrl, resolve)
      case None => ([Fallback(eventUrl, server)], false)
      case Some(found) =>
        var main := Annotate(found, server);
        var merged := Merge(main, Discovered(EmbedUrls(main), server, fetch, resolve));
        if merged == [] then ([Fallback(eventUrl, server)], true) else (merged, true)
  }

  /** One embedded player: fetched and extracted, its failures swallowed by the inner `catch`. */
  method FetchChild(embed: string, server: Server, fetch: string -> Option<Doc>, resolve: Resolver)
    returns (children: seq<ScrapedStream>)
    ensures children == ChildStreams(embed, server, fetch, resolve)
  {
    children := [];
    var page := fetch(embed);
    if page.Some? {
      var found := ExtractStreamUrls(page.value, embed, resolve);
      if found.Some? {
        children := Annotate(found.value, server);
      }
    }
  }

  /** The `for (const embed of embedLinks)` loop, collecting every embed's children. */
  method FollowEmbeds(embeds: seq<string>, server: Server, fetch: string -> Option<Doc>, resolve: Resolver)
    returns (discovered: seq<ScrapedStream>)
    ensures discovered == Discovered(embeds, server, fetch, resolve)
  {
    discovered := [];
    var rest := embeds;
    EmptyAppend(Discovered(embeds, server, fetch, resolve));
    while rest != []
      invariant discovered + Discovered(rest, server, fetch, resolve) == Discovered(embeds, server, fetch, resolve)
      decreases |rest|
    {
      var children := FetchChild(rest[0], server, fetch, resolve);
      FollowStep(embeds, rest, discovered, children, server, fetch, resolve);
      discovered := discovered + children;
      rest := rest[1..];
    }
  }

  /** One round of that loop keeps its invariant. */
  lemma FollowStep(embeds: seq<string>, rest: seq<string>, discovered: seq<ScrapedStream>, children: seq<ScrapedStream>,
                   server: Server, fetch: string -> Option<Doc>, resolve: Resolver)
    requires rest != [] && children == ChildStreams(rest[0], server, fetch, resolve)
    requires discovered + Discovered(rest, server, fetch, resolve) == Discovered(embeds, server, fetch, resolve)
    ensures (discovered + children) + Discovered(rest[1..], server, fetch, resolve) == Discovered(embeds, server, fetch, resolve)
  {
    AppendAssoc(discovered, children, Discovered(rest[1..], server, fetch, resolve));
  }

  method MergeLoop(main: seq<ScrapedStream>, children: seq<ScrapedStream>) returns (streams: seq<ScrapedStream>)
    ensures streams == Merge(main, children)
  {
    streams := main;
    var seen := Urls(main);
    var i := 0;
    while i < |children|
      invariant 0 <= i <= |children|
      invariant MergeFrom(streams, seen, children[i..]) == Merge(main, children)
    {
      assert children[i..][1..] == children[i + 1..];
      var s := children[i];
      if s.url != "" && s.url !in seen {
        seen := seen + {s.url};
        streams := streams + [s];
      }
      i := i + 1;
    }
    assert children[i..] == [];
  }

  method FetchStreamsUncached(eventUrl: string, server: Server, fetch: string -> Option<Doc>, resolve: Resolver)
    returns (streams: seq<ScrapedStream>, cacheable: bool)
    ensures (streams, cacheable) == StreamsUncached(eventUrl, server, fetch, resolve)
  {
    var page := fetch(eventUrl);
    if page.None? {
      return [Fallback(eventUrl, server)], false;
    }
    var found := ExtractStreamUrls(page.value, eventUrl, resolve);
    if found.None? {
      return [Fallback(eventUrl, server)], false;
    }
    var main := Annotate(found.value, server);
    var discovered := FollowEmbeds(EmbedUrls(main), server, fetch, resolve);
    streams := MergeLoop(main, discovered);
    if |streams| == 0 {
      streams := [Fallback(eventUrl, server)];
    }
    cacheable := true;
  }

  // ---------------------------------------------------------------------------------------
  // What fetchStreamUrls guarantees

  /** The headers every main-page and child stream carries. */
  predicate Annotated(s: ScrapedStream, server: Server)
  {
    s.headers == Some(Headers(server.baseUrl, UserAgent))
  }

  lemma {:induction false} DiscoveredAnnotated(embeds: seq<string>, server: Server, fetch: string -> Option<Doc>, resolve: Resolver)
    ensures forall i :: 0 <= i < |Discovered(embeds, server, fetch, resolve)| ==> Annotated(Discovered(embeds, server, fetch, resolve)[i], server)
  {
    if embeds != [] {
      DiscoveredAnnotated(embeds[1..], server, fetch, resolve);
      var c := ChildStreams(embeds[0], server, fetch, resolve);
      var d := Discovered(embeds, server, fetch, resolve);
      assert d == c + Discovered(embeds[1..], server, fetch, resolve);
      forall i | 0 <= i < |d| ensures Annotated(d[i], server) {
        if i >= |c| {
          assert d[i] == Discovered(embeds[1..], server, fetch, resolve)[i - |c|];
        }
      }
    }
  }

  /** A discovered stream comes from an embed of the list: the follow is one hop deep. */
  lemma {:induction false} DiscoveredFrom(embeds: seq<string>, server: Server, fetch: string -> Option<Doc>, resolve: Resolver, s: ScrapedStream)
    requires s in Discovered(embeds, server, fetch, resolve)
    ensures exists e :: e in embeds && s in ChildStreams(e, server, fetch, resolve)
  {
    var c := ChildStreams(embeds[0], server, fetch, resolve);
    if s !in c {
      DiscoveredFrom(embeds[1..], server, fetch, resolve, s);
      var e :| e in embeds[1..] && s in ChildStreams(e, server, fetch, resolve);
      assert e in embeds;
    }
  }

  /**
   * What the merge adds to `acc`: children with non-empty URLs not already seen, pairwise
   * different, in their order.
   */
  lemma {:induction false} MergeFromShape(acc: seq<ScrapedStream>, seen: set<string>, children: seq<ScrapedStream>)
    ensures var r := MergeFrom(acc, seen, children);
      |acc| <= |r| && r[..|acc|] == acc && SubseqOf(r[|acc|..], children) &&
      (forall i :: |acc| <= i < |r| ==> r[i].url != "" && r[i].url !in seen) &&
      (forall i, j :: |acc| <= i < j < |r| ==> r[i].url != r[j].url)
    decreases |children|
  {
    if children != [] {
      var c := children[0];
      var r := MergeFrom(acc, seen, children);
      if c.url != "" && c.url !in seen {
        var acc' := acc + [c];
        MergeFromShape(acc', seen + {c.url}, children[1..]);
        assert r[..|acc'|] == acc';
        assert r[..|acc|] == acc' [..|acc|] == acc;
        assert r[|acc|] == c;
        assert r[|acc|..] == [c] + r[|acc'|..];
        assert SubseqOf(r[|acc|..], children) by {
          assert children == [c] + children[1..];
        }
      } else {
        MergeFromShape(acc, seen, children[1..]);
        assert SubseqOf(r[|acc|..], children) by {
          SubseqSkip(r[|acc|..], children);
        }
      }
    }
  }

  /** A subsequence of the tail is a subsequence of the whole. */
  lemma SubseqSkip<T>(a: seq<T>, b: seq<T>)
    requires b != [] && SubseqOf(a, b[1..])
    ensures SubseqOf(a, b)
  {
  }

  /**
   * What `fetchStreamUrls` returns without its cache: never empty; either the lone
   * watch-in-browser entry, or the annotated main-page streams followed by children of
   * their embeds whose URLs are new, non-empty and pairwise different, all annotated.
   */
  lemma StreamsUncachedShape(eventUrl: string, server: Server, fetch: string -> Option<Doc>, resolve: Resolver)
    ensures var (r, _) := StreamsUncached(eventUrl, server, fetch, resolve);
      |r| >= 1 &&
      (r == [Fallback(eventUrl, server)] || forall i :: 0 <= i < |r| ==> Annotated(r[i], server))
    ensures var (r, _) := StreamsUncached(eventUrl, server, fetch, resolve);
      r != [Fallback(eventUrl, server)] ==>
        fetch(eventUrl).Some? && Extract(fetch(eventUrl).value, eventUrl, resolve).Some? &&
        var main := Annotate(Extract(fetch(eventUrl).value, eventUrl, resolve).value, server);
        |main| <= |r| && r[..|main|] == main &&
        (forall i :: |main| <= i < |r| ==>
           (r[i].url != "" && r[i].url !in Urls(main) &&
            exists e :: e in EmbedUrls(main) && r[i] in ChildStreams(e, server, fetch, resolve))) &&
        (forall i, j :: |main| <= i < j < |r| ==> r[i].url != r[j].url)
  {
    var (r, _) := StreamsUncached(eventUrl, server, fetch, resolve);
    if fetch(eventUrl).Some? && Extract(fetch(eventUrl).value, eventUrl, resolve).Some? {
      var main := Annotate(Extract(fetch(eventUrl).value, eventUrl, resolve).value, server);
      var d := Discovered(EmbedUrls(main), server, fetch, resolve);
      var merged := Merge(main, d);
      MergeFromShape(main, Urls(main), d);
      DiscoveredAnnotated(EmbedUrls(main), server, fetch, resolve);
      if merged != [] {
        assert r == merged;
        var added := merged[|main|..];
        SubseqElements(added, d);
        forall i | |main| <= i < |r|
          ensures Annotated(r[i], server)
          ensures exists e :: e in EmbedUrls(main) && r[i] in ChildStreams(e, server, fetch, resolve)
        {
          assert r[i] == added[i - |main|];
          assert r[i] in d;
          DiscoveredFrom(EmbedUrls(main), server, fetch, resolve, r[i]);
          var k :| 0 <= k < |d| && d[k] == r[i];
        }
        forall i | 0 <= i < |main| ensures Annotated(r[i], server) {
          assert r[i] == r[..|main|][i];
        }
      }
    }
  }
}
