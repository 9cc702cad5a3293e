/**
 * `src/addon.ts`: what the three Stremio handlers compute once the scraper has answered. The
 * stream handler maps each scraped stream to a playable or an external Stremio stream; the
 * catalog handler cuts one page of at most 100 events and turns each into a preview; the
 * meta handler turns one event into a full meta object.
 */
module Addon {
  import opened Wrappers
  import opened Text
  import opened Seqs
  import opened Registry
  import opened UrlScan
  import opened TsEvents
  import opened TsStreams

  // ---------------------------------------------------------------------------------------
  // Streams

  /**
   * `StremioStream`: `url` for a playable stream, `externalUrl` for one opened elsewhere;
   * `proxyHeaders` is `behaviorHints.proxyHeaders.request`, `notWebReady` its flag.
   */
  datatype StremioStream = StremioStream(
    url: Option<string>,
    externalUrl: Option<string>,
    title: string,
    name: string,
    proxyHeaders: Option<Headers>,
    notWebReady: bool)

  /** `(\?|$)` right at `j`. */
  predicate QueryOrEnd(s: string, j: nat)
  {
    j == |s| || (j < |s| && s[j] == '?')
  }

  /** `\.(m3u8|mpd|mp4)(\?|$)`, case-insensitive, matches at `i`. */
  predicate DirectAt(s: string, i: nat)
  {
    i < |s| && s[i] == '.' &&
    ((IcAt(s, "m3u8", i + 1) && QueryOrEnd(s, i + 5)) ||
     (IcAt(s, "mpd", i + 1) && QueryOrEnd(s, i + 4)) ||
     (IcAt(s, "mp4", i + 1) && QueryOrEnd(s, i + 4)))
  }

  /** `stream.url.match(/\.(m3u8|mpd|mp4)(\?|$)/i)` finds a match. */
  predicate IsDirect(url: string)
  {
    exists i :: 0 <= i < |url| && DirectAt(url, i)
  }

  /** The stream at position `index`, offered under the event's server name. */
  function MapStream(s: ScrapedStream, index: nat, serverName: string): StremioStream
  {
    if IsDirect(s.url) then
      StremioStream(Some(s.url), None,
                    serverName + " - " + (if s.title != "" then s.title else "Stream " + NatToString(index + 1)),
                    if Truthy(s.quality) then s.quality.value else "HD",
                    s.headers, false)
    else
      StremioStream(None, Some(s.url),
                    serverName + " - " + (if s.title != "" then s.title else "Link " + NatToString(index + 1)),
                    if s.isEmbed then "Web Player" else "External",
                    None, true)
  }

  /** `scrapedStreams.map((stream, index) => ...)`. */
  function MapStreams(ss: seq<ScrapedStream>, serverName: string): (r: seq<StremioStream>)
    ensures |r| == |ss|
  {
    seq(|ss|, i requires 0 <= i < |ss| => MapStream(ss[i], i, serverName))
  }

  /**
   * Each mapped stream is, at the same position, either playable at the scraped URL exactly
   * when that URL names an m3u8, mpd or mp4 file (keeping its headers and its quality, `HD`
   * by default), or external at that URL, marked not web-ready and named by whether it is an
   * embed; its title is the server name, then the scraped title or a numbered default.
   */
  lemma MapStreamsShape(ss: seq<ScrapedStream>, serverName: string)
    ensures var r := MapStreams(ss, serverName);
      |r| == |ss| &&
      forall i :: 0 <= i < |ss| ==>
        (r[i].url.Some? <==> IsDirect(ss[i].url)) &&
        (r[i].url.Some? <==> r[i].externalUrl.None?) &&
        (r[i].url.Some? ==>
          r[i].url.value == ss[i].url && r[i].proxyHeaders == ss[i].headers && !r[i].notWebReady &&
          r[i].name == (if Truthy(ss[i].quality) then ss[i].quality.value else "HD")) &&
        (r[i].externalUrl.Some? ==>
          r[i].externalUrl.value == ss[i].url && r[i].proxyHeaders.None? && r[i].notWebReady &&
          r[i].name == (if ss[i].isEmbed then "Web Player" else "External")) &&
        StartsWith(r[i].title, serverName + " - ") &&
        (ss[i].title != "" ==> r[i].title == serverName + " - " + ss[i].title)
  {
    var r := MapStreams(ss, serverName);
    forall i | 0 <= i < |ss| ensures StartsWith(r[i].title, serverName + " - ") {
      var p := serverName + " - ";
      assert r[i].title[..|p|] == p;
    }
  }

  /** A URL that ends in `.m3u8`, `.mpd` or `.mp4` (any mix of cases), or has one right before its query, is direct. */
  lemma DirectByExtension(base: string, ext: string, query: string)
    requires ToLower(ext) in {"m3u8", "mpd", "mp4"}
    ensures IsDirect(base + "." + ext)
    ensures IsDirect(base + "." + ext + "?" + query)
  {
    var i := |base|;
    var a := base + "." + ext;
    var b := base + "." + ext + "?" + query;
    assert a[i + 1..i + 1 + |ext|] == ext;
    assert b[i + 1..i + 1 + |ext|] == ext;
    assert b[i + 1 + |ext|] == '?';
    DirectWith(a, i, ext);
    DirectWith(b, i, ext);
  }

  /** A dot, one of the extensions in any mix of cases, then `?` or the end: a match at the dot. */
  lemma DirectWith(s: string, i: nat, ext: string)
    requires ToLower(ext) in {"m3u8", "mpd", "mp4"}
    requires i + 1 + |ext| <= |s| && s[i] == '.' && s[i + 1..i + 1 + |ext|] == ext && QueryOrEnd(s, i + 1 + |ext|)
    ensures DirectAt(s, i)
  {
    IcAtOf(s, i + 1, ext, ToLower(ext));
  }

  /** Text equal to `ext` at `i` matches `pat` there when `ext` lower-cases to `pat`. */
  lemma IcAtOf(s: string, i: nat, ext: string, pat: string)
    requires i + |ext| <= |s| && s[i..i + |ext|] == ext && |pat| == |ext|
    requires forall j :: 0 <= j < |ext| ==> LowerChar(ext[j]) == pat[j]
    ensures IcAt(s, pat, i)
  {
    forall j | 0 <= j < |pat| ensures LowerChar(s[i + j]) == pat[j] {
      assert s[i..i + |ext|][j] == s[i + j];
    }
  }

  /** A URL without a dot is never direct: it is opened externally. */
  lemma NoDotNotDirect(url: string)
    requires forall j :: 0 <= j < |url| ==> url[j] != '.'
    ensures !IsDirect(url)
  {
  }

  /** `SERVERS[id]`, read as the table's own entry. */
  function ServerById(table: seq<Server>, id: string): (r: Option<Server>)
    ensures r.Some? ==> r.value in table && r.value.id == id
    ensures r.None? <==> forall i :: 0 <= i < |table| ==> table[i].id != id
  {
    var i := FindFrom(table, (s: Server) => s.id == id, 0);
    if i >= 0 then Some(table[i]) else None
  }

  /**
   * The stream handler for the event `getEventById` found (`None` when it found none), with
   * `SERVERS` as `table` and `scrape` standing for `fetchStreamUrls`.
   */
  function StreamHandler(event: Option<SportEvent>, table: seq<Server>, scrape: (string, Server) -> seq<ScrapedStream>)
    : seq<StremioStream>
  {
    if event.None? then []
    else match ServerById(table, event.value.server)
      case None => []
      case Some(server) => MapStreams(scrape(event.value.link, server), event.value.serverName)
  }

  /**
   * A missing event or an unknown server gives no stream; otherwise there is one Stremio
   * stream per scraped stream of the event's page, so a scraper that never answers an empty
   * list gives at least one.
   */
  lemma StreamHandlerShape(event: Option<SportEvent>, table: seq<Server>, scrape: (string, Server) -> seq<ScrapedStream>)
    ensures var r := StreamHandler(event, table, scrape);
      (event.None? ==> r == []) &&
      (event.Some? && ServerById(table, event.value.server).None? ==> r == []) &&
      (event.Some? && ServerById(table, event.value.server).Some? ==>
        |r| == |scrape(event.value.link, ServerById(table, event.value.server).value)|)
  {
  }

  // ---------------------------------------------------------------------------------------
  // Pagination

  /** How `Array.prototype.slice` reads a bound: from the end when negative, clamped to the length. */
  function SliceBound(x: int, len: nat): (b: nat)
    ensures b <= len
    ensures 0 <= x <= len ==> b == x
    ensures x > len ==> b == len
    ensures x < 0 && -x <= len ==> b == len + x
    ensures -x > len ==> b == 0
  {
    if x < 0 then (if len + x < 0 then 0 else len + x) else if x > len then len else x
  }

  /** `s.slice(start, end)`. */
  function Slice<T>(s: seq<T>, start: int, end: int): (r: seq<T>)
    ensures |r| <= |s|
  {
    var a := SliceBound(start, |s|);
    var b := SliceBound(end, |s|);
    if a < b then s[a..b] else []
  }

  const PageSize: nat := 100

  /**
   * `events.slice(skip, skip + limit)` with `skip = parseInt(extra.skip || '0')`; `None` is
   * the `NaN` of an unreadable `skip`, which both bounds read as 0.
   */
  function Paginate<T>(events: seq<T>, skip: Option<int>): seq<T>
  {
    match skip
    case None => Slice(events, 0, 0)
    case Some(k) => Slice(events, k, k + PageSize)
  }

  /**
   * A page holds at most 100 events; for a skip from 0 on it is the events from that
   * position on, up to 100 of them; a negative skip counts both bounds from the end of the
   * list, so the page is empty once the end bound falls at or before the start; an
   * unreadable skip gives none.
   */
  lemma PaginateShape<T>(events: seq<T>, skip: Option<int>)
    ensures |Paginate(events, skip)| <= PageSize
    ensures skip.None? ==> Paginate(events, skip) == []
    ensures skip.Some? && 0 <= skip.value ==>
      var k := skip.value;
      var lo := if k < |events| then k else |events|;
      var hi := if k + PageSize < |events| then k + PageSize else |events|;
      Paginate(events, skip) == events[lo..hi]
    ensures skip.Some? && skip.value < 0 ==>
      var k := skip.value;
      var n := |events|;
      var lo := if n + k < 0 then 0 else n + k;
      var hi := if k + PageSize >= 0 then (if k + PageSize < n then k + PageSize else n)
                else if n + k + PageSize < 0 then 0 else n + k + PageSize;
      Paginate(events, skip) == (if lo < hi then events[lo..hi] else [])
  {
  }

  /** Two consecutive pages are the events of both, in order: nothing is skipped or repeated. */
  lemma PagesConsecutive<T>(events: seq<T>, k: nat)
    ensures Paginate(events, Some(k)) + Paginate(events, Some(k + PageSize)) == Slice(events, k, k + 2 * PageSize)
  {
    var n := |events|;
    var a := SliceBound(k, n);
    var b := SliceBound(k + PageSize, n);
    var c := SliceBound(k + 2 * PageSize, n);
    if a < b && b < c {
      assert events[a..b] + events[b..c] == events[a..c];
    }
  }

  /** The first page of at most 100 events is all of them. */
  lemma FirstPageAll<T>(events: seq<T>)
    requires |events| <= PageSize
    ensures Paginate(events, Some(0)) == events
  {
    if events != [] {
      assert events[0..|events|] == events;
    }
  }

  // ---------------------------------------------------------------------------------------
  // Meta objects

  /** `{name, category, url}` of `links`. */
  datatype MetaLink = MetaLink(name: string, category: string, url: string)

  /** `StremioMeta`; the last four fields are those only the full meta sets. */
  datatype Meta = Meta(
    id: string,
    kind: string,
    name: string,
    poster: string,
    posterShape: string,
    description: string,
    genres: seq<string>,
    releaseInfo: string,
    links: seq<MetaLink>,
    background: Option<string>,
    logo: Option<string>,
    runtime: Option<string>,
    website: Option<string>)

  const LivePrefix: string := "\U{1F534} LIVE: "
  const Trophy: string := "\U{1F3C6}"
  const Screen: string := "\U{1F4FA}"
  const Clock: string := "⏰"

  /** `ADDON_CONFIG.background`. */
  const Background: string := "https://images.unsplash.com/photo-1574629810360-7efbbe195018?w=1920"

  /** `event.matchedCategory?.<field> || fallback` for a string field. */
  function CategoryField(e: SportEvent, field: Category -> string, fallback: string): string
  {
    if e.matchedCategory.Some? && field(e.matchedCategory.value) != "" then field(e.matchedCategory.value) else fallback
  }

  function CatId(c: Category): string { c.id }
  function CatName(c: Category): string { c.name }
  function CatIcon(c: Category): string { c.icon }

  /** `eventToMetaPreview(event)`. */
  function MetaPreview(e: SportEvent): Meta
  {
    Meta(
      e.id,
      "tv",
      (if e.isLive then LivePrefix else "") + e.name,
      if Truthy(e.poster) then e.poster.value
      else "https://img.icons8.com/color/512/" + CategoryField(e, CatId, "sports") + ".png",
      "square",
      CategoryField(e, CatIcon, Trophy) + " " + CategoryField(e, CatName, "Sports") +
        "\n" + Screen + " " + e.serverName + "\n" + Clock + " " + e.timeStr,
      // An array is truthy even when empty, so a matched category's genres are kept as they are.
      if e.matchedCategory.Some? then e.matchedCategory.value.genres else ["Sports"],
      e.timeStr,
      [MetaLink(e.serverName, "Servers", e.link)],
      None, None, None, None)
  }

  /** `eventToMeta(event)`: the preview, with the background, a logo, the runtime and the website. */
  function FullMeta(e: SportEvent): Meta
  {
    MetaPreview(e).(
      background := Some(Background),
      logo := Some("https://img.icons8.com/color/256/" + CategoryField(e, CatId, "trophy") + ".png"),
      runtime := Some(if e.isLive then "Live Now" else "Scheduled"),
      website := Some(e.link))
  }

  /**
   * Both objects carry the event's id, so the host asks for the same event again; the name is
   * the event's, behind the live marker exactly for a live event, and the full meta's runtime
   * says `Live Now` exactly then; the full meta agrees with the preview in every preview field
   * and links to the event's page.
   */
  lemma MetaShape(e: SportEvent)
    ensures var p := MetaPreview(e);
      var m := FullMeta(e);
      p.id == e.id && m.id == e.id && p.kind == "tv" &&
      (e.isLive ==> p.name == LivePrefix + e.name) && (!e.isLive ==> p.name == e.name) &&
      (m.runtime == Some("Live Now") <==> e.isLive) && (m.runtime == Some("Scheduled") <==> !e.isLive) &&
      m.(background := None, logo := None, runtime := None, website := None) == p &&
      m.website == Some(e.link) && p.links == [MetaLink(e.serverName, "Servers", e.link)] &&
      p.releaseInfo == e.timeStr &&
      (p.genres == [] ==> e.matchedCategory.Some? && e.matchedCategory.value.genres == [])
  {
  }

  /** The catalog handler: search results for a truthy `search`, the category's events otherwise, one page of previews. */
  function CatalogHandler(id: string, search: Option<string>, skip: Option<int>,
                          searchEvents: string -> seq<SportEvent>, byCategory: string -> seq<SportEvent>): seq<Meta>
  {
    var events := if Truthy(search) then searchEvents(search.value) else byCategory(id);
    var page := Paginate(events, skip);
    seq(|page|, i requires 0 <= i < |page| => MetaPreview(page[i]))
  }

  /** At most 100 previews, one per event of the page and in its order. */
  lemma CatalogHandlerShape(id: string, search: Option<string>, skip: Option<int>,
                            searchEvents: string -> seq<SportEvent>, byCategory: string -> seq<SportEvent>)
    ensures var r := CatalogHandler(id, search, skip, searchEvents, byCategory);
      var events := if Truthy(search) then searchEvents(search.value) else byCategory(id);
      |r| <= PageSize && |r| == |Paginate(events, skip)| &&
      forall i :: 0 <= i < |r| ==> r[i] == MetaPreview(Paginate(events, skip)[i])
  {
    var events := if Truthy(search) then searchEvents(search.value) else byCategory(id);
    PaginateShape(events, skip);
  }

  /** The meta handler: `None` (`{meta: null}`) for an event `getEventById` did not find. */
  function MetaHandler(event: Option<SportEvent>): (r: Option<Meta>)
    ensures r.None? <==> event.None?
    ensures r.Some? ==> r.value.id == event.value.id && r.value.website == Some(event.value.link)
  {
    if event.None? then None else Some(FullMeta(event.value))
  }
}
