/**
 * `src/scraper.ts`, the event half: event identifiers, time parsing, and the scan of a
 * listing page into `SportEvent` records (`fetchNTVStreamEvents`).
 *
 * The page is given already parsed: for each of the eleven event selectors, the elements it
 * matches in document order, each reduced to the texts and attributes the scraper reads; and
 * every `<a>` of the page with its text and `href`. The clock, `new Date(text)` and
 * `new URL(link, base)` are host services passed in as `Host`.
 */
module TsEvents {
  import opened Wrappers
  import opened Text
  import opened Seqs
  import opened EventIds
  import opened Encoding
  import opened Registry

  /** A listed event (`SportEvent`); `time` is milliseconds since the epoch. */
  datatype SportEvent = SportEvent(
    id: string,
    name: string,
    link: string,
    time: int,
    timeStr: string,
    category: string,
    isLive: bool,
    server: string,
    serverName: string,
    matchedCategory: Option<Category>,
    poster: Option<string>,
    description: Option<string>)

  /**
   * The live label of this file. It is the UTF-8 bytes of a red-circle emoji read as
   * Windows-1252, then a space and `LIVE`: U+00F0 U+0178 U+201D U+00B4.
   */
  const LiveLabel: string := "ðŸ”´ LIVE"

  /** The clock reading, `new Date(text)` (`None` for an invalid date) and `new URL(link, base).href` (`None` when it throws). */
  datatype Host = Host(
    now: int,
    parseDate: string -> Option<int>,
    resolve: (string, string) -> Option<string>)

  // ---------------------------------------------------------------------------------------
  // Identifiers

  /** `generateEventId`: `ntv_`, the normalised name cut to 50, `_`, and 8 characters of base64. */
  function GenerateEventId(name: string): (r: string)
    ensures StartsWith(r, "ntv_")
    ensures |r| <= 63
  {
    "ntv_" + CleanName(name, 50) + "_" + Take(Base64(Utf8(name)), 8)
  }

  /** The position of the last `c` in `s`, or -1. */
  function LastIndex(s: string, c: char): (r: int)
    ensures r == -1 || (0 <= r < |s| && s[r] == c)
    ensures forall j :: r < j < |s| ==> s[j] != c
  {
    if s == [] then -1
    else if s[|s| - 1] == c then |s| - 1
    else LastIndex(s[..|s| - 1], c)
  }

  /** The last `c` of `s` is at `k` when `s[k]` is one and none follows. */
  lemma {:induction false} LastIndexAt(s: string, c: char, k: nat)
    requires k < |s| && s[k] == c && forall j :: k < j < |s| ==> s[j] != c
    ensures LastIndex(s, c) == k
  {
  }

  /** `ntv_` + `clean` + `_` + `hash` splits at its last underscore when `hash` has none. */
  lemma SplitId(clean: string, hash: string)
    requires '_' !in hash
    ensures var id := "ntv_" + clean + "_" + hash;
      var k := LastIndex(id, '_');
      k == 4 + |clean| && id[..4] == "ntv_" && id[4..k] == clean && id[k + 1..] == hash
  {
    var id := "ntv_" + clean + "_" + hash;
    var k := 4 + |clean|;
    assert id[k] == '_';
    forall j | k < j < |id| ensures id[j] != '_' {
      assert id[j] == hash[j - k - 1];
    }
    LastIndexAt(id, '_', k);
    assert id[4..k] == clean;
    assert id[k + 1..] == hash;
  }

  /**
   * An identifier splits back into its parts at its last underscore: the hash holds none, so
   * everything between `ntv_` and that underscore is the normalised name.
   */
  lemma EventIdParts(name: string)
    ensures var id := GenerateEventId(name);
      var k := LastIndex(id, '_');
      k == 4 + |CleanName(name, 50)| &&
      id[..4] == "ntv_" && id[4..k] == CleanName(name, 50) && id[k + 1..] == Take(Base64(Utf8(name)), 8)
  {
    var b := Base64(Utf8(name));
    var hash := Take(b, 8);
    Base64HasNoUnderscore(Utf8(name));
    assert '_' !in hash by {
      assert forall j :: 0 <= j < |hash| ==> hash[j] == b[j];
    }
    SplitId(CleanName(name, 50), hash);
  }

  /** Equal identifiers come from names with the same normalised form and the same hash. */
  lemma EventIdDetermines(a: string, b: string)
    requires GenerateEventId(a) == GenerateEventId(b)
    ensures CleanName(a, 50) == CleanName(b, 50)
    ensures Take(Base64(Utf8(a)), 8) == Take(Base64(Utf8(b)), 8)
  {
    EventIdParts(a);
    EventIdParts(b);
  }

  // ---------------------------------------------------------------------------------------
  // Time

  /** `timeStr` asks for the current time: it says live, now or playing. */
  predicate SaysNow(timeStr: string)
  {
    var lower := ToLower(timeStr);
    Contains(lower, "live") || Contains(lower, "now") || Contains(lower, "playing")
  }

  /** `parseEventTime`: the current time for an empty or live text or an invalid date, else the parsed date. */
  function ParseEventTime(timeStr: string, host: Host): (r: int)
    ensures timeStr == "" || SaysNow(timeStr) ==> r == host.now
    ensures timeStr != "" && !SaysNow(timeStr) ==>
      r == match host.parseDate(timeStr) case Some(t) => t case None => host.now
  {
    if timeStr == "" then host.now
    else if SaysNow(timeStr) then host.now
    else match host.parseDate(timeStr)
      case Some(t) => t
      case None => host.now
  }

  // ---------------------------------------------------------------------------------------
  // The page

  /**
   * One element matched by an event selector. `nameTexts` holds, for each name selector in
   * order, the text of its first match inside the element (`""` when there is none);
   * `anchorText` and `anchorHref` belong to the first `<a>` inside it; `timeText` and
   * `categoryText` are the texts of the first time and category nodes; `liveChild` says
   * whether a live badge is inside it.
   */
  datatype Element = Element(
    nameTexts: seq<string>,
    anchorText: string,
    anchorHref: Option<string>,
    text: string,
    href: Option<string>,
    dataLink: Option<string>,
    dataHref: Option<string>,
    timeText: string,
    dataTime: Option<string>,
    liveClass: bool,
    liveChild: bool,
    categoryText: string,
    dataCategory: Option<string>)

  /** An `<a>` element of the page. */
  datatype Anchor = Anchor(text: string, href: Option<string>)

  /** What the scan reads from a listing page: the matches of the event selectors, and every link. */
  datatype Page = Page(selected: seq<seq<Element>>, anchors: seq<Anchor>)

  /** Position of the first text longer than three characters at or after `k` (`|texts|` when none is). */
  function FirstLongAt(texts: seq<string>, k: nat): (i: nat)
    requires k <= |texts|
    ensures k <= i <= |texts|
    ensures i < |texts| ==> |texts[i]| > 3
    ensures forall j :: k <= j < i ==> |texts[j]| <= 3
    decreases |texts| - k
  {
    if k == |texts| || |texts[k]| > 3 then k
    else FirstLongAt(texts, k + 1)
  }

  /** The first trimmed name text longer than three characters, if there is one. */
  function FirstLongText(texts: seq<string>): (r: Option<string>)
    ensures r.Some? ==> |r.value| > 3 && exists i :: 0 <= i < |texts| && r.value == Trim(texts[i]) &&
                                                 forall j :: 0 <= j < i ==> |Trim(texts[j])| <= 3
    ensures r.None? <==> forall i :: 0 <= i < |texts| ==> |Trim(texts[i])| <= 3
  {
    var trimmed := seq(|texts|, j requires 0 <= j < |texts| => Trim(texts[j]));
    var i := FirstLongAt(trimmed, 0);
    assert forall j :: 0 <= j < i ==> |Trim(texts[j])| <= 3 by {
      forall j | 0 <= j < i ensures |Trim(texts[j])| <= 3 {
        assert trimmed[j] == Trim(texts[j]);
      }
    }
    if i < |trimmed| then
      assert trimmed[i] == Trim(texts[i]);
      Some(trimmed[i])
    else None
  }

  /** The event name: a name node's text longer than three, else the first link's text, else the text cut to 100. */
  function ElementName(el: Element): (r: string)
    ensures FirstLongText(el.nameTexts).Some? ==> |r| > 3
    ensures FirstLongText(el.nameTexts).None? && Trim(el.anchorText) == "" ==> |r| <= 100
  {
    var f := FirstLongText(el.nameTexts);
    if f.Some? then f.value
    else
      var a := Trim(el.anchorText);
      if a != "" then a else Take(Trim(el.text), 100)
  }

  /** `find('a').first().attr('href') || attr('href') || data('link') || data('href')`. */
  function ElementLink(el: Element): (r: Option<string>)
    ensures Truthy(r) <==> Truthy(el.anchorHref) || Truthy(el.href) || Truthy(el.dataLink) || Truthy(el.dataHref)
  {
    Or(Or(Or(el.anchorHref, el.href), el.dataLink), el.dataHref)
  }

  /** A trimmed node text, else a data attribute, else `""`. */
  function TextOrData(text: string, data: Option<string>): (r: string)
    ensures Trim(text) != "" ==> r == Trim(text)
    ensures Trim(text) == "" && Truthy(data) ==> r == data.value
    ensures Trim(text) == "" && !Truthy(data) ==> r == ""
  {
    var t := Trim(text);
    if t != "" then t else if Truthy(data) then data.value else ""
  }

  function ElementTime(el: Element): string
  {
    TextOrData(el.timeText, el.dataTime)
  }

  function ElementCategory(el: Element): string
  {
    TextOrData(el.categoryText, el.dataCategory)
  }

  /** A live class, a live badge, `live` in the time text, or `live now` in the element's text. */
  predicate ElementLive(el: Element, timeStr: string)
  {
    el.liveClass || el.liveChild || Contains(ToLower(timeStr), "live") || Contains(ToLower(el.text), "live now")
  }

  /** `a[href*="stream"], a[href*="watch"], a[href*="live"]`. */
  predicate LinkSelected(a: Anchor)
  {
    a.href.Some? && (Contains(a.href.value, "stream") || Contains(a.href.value, "watch") || Contains(a.href.value, "live"))
  }

  // ---------------------------------------------------------------------------------------
  // Building events

  function PosterUrl(c: Category): string
  {
    "https://img.icons8.com/color/256/" + c.id + ".png"
  }

  function Description(c: Category, server: Server): string
  {
    c.icon + " " + c.name + " - " + server.name
  }

  function MakeEvent(name: string, link: string, time: int, timeStr: string, category: string, isLive: bool,
                     server: Server, classify: (string, string) -> Category): (e: SportEvent)
    ensures e.id == GenerateEventId(name) && e.name == name && e.server == server.id
    ensures e.matchedCategory == Some(classify(name, category))
  {
    var c := classify(name, category);
    SportEvent(GenerateEventId(name), name, link, time, timeStr, category, isLive, server.id, server.name,
               Some(c), Some(PosterUrl(c)), Some(Description(c, server)))
  }

  /** The events pushed so far and the lower-cased names recorded in `processedNames`. */
  datatype ScanState = ScanState(events: seq<SportEvent>, processed: set<string>)

  /**
   * One element of an event selector. A name that is empty, shorter than three or already
   * seen is skipped; otherwise it is recorded, and an event is pushed unless resolving its
   * link throws, in which case `catch` drops the element with its name already recorded.
   */
  function MainStep(st: ScanState, el: Element, server: Server, host: Host, classify: (string, string) -> Category): ScanState
  {
    var name := ElementName(el);
    if name == "" || |name| < 3 || ToLower(name) in st.processed then st
    else
      var seen := st.processed + {ToLower(name)};
      match ElementUrl(el, server, host)
      case None => ScanState(st.events, seen)
      case Some(url) => ScanState(st.events + [ElementEvent(el, name, url, server, host, classify)], seen)
  }

  /** The element's link resolved against the server's base URL, or the base URL itself when it has none. */
  function ElementUrl(el: Element, server: Server, host: Host): Option<string>
  {
    var link := ElementLink(el);
    if Truthy(link) then host.resolve(link.value, server.baseUrl) else Some(server.baseUrl)
  }

  /** The event pushed for an element named `name` whose link resolved to `url`. */
  function ElementEvent(el: Element, name: string, url: string, server: Server, host: Host,
                        classify: (string, string) -> Category): SportEvent
  {
    var t := ElementTime(el);
    var live := ElementLive(el, t);
    var shown := if live then LiveLabel else if t != "" then t else "Scheduled";
    MakeEvent(name, url, ParseEventTime(t, host), shown, ElementCategory(el), live, server, classify)
  }

  /** The `.each` over one selector's matches. */
  function MainScan(els: seq<Element>, st: ScanState, server: Server, host: Host, classify: (string, string) -> Category): ScanState
  {
    if els == [] then st else MainScan(els[1..], MainStep(st, els[0], server, host, classify), server, host, classify)
  }

  /** The `for` over the selectors. */
  function MainScanAll(parts: seq<seq<Element>>, st: ScanState, server: Server, host: Host, classify: (string, string) -> Category): ScanState
  {
    if parts == [] then st else MainScanAll(parts[1..], MainScan(parts[0], st, server, host, classify), server, host, classify)
  }

  /** The direct-link scan passes over `a`: not selected, a trimmed text of five or fewer, no `href`, or a name already seen. */
  predicate PassesOver(a: Anchor, processed: set<string>)
  {
    var name := Trim(a.text);
    !LinkSelected(a) || name == "" || |name| <= 5 || !Truthy(a.href) || ToLower(name) in processed
  }

  /** One link of the direct-link scan: a text longer than five, not seen yet, becomes a live event. */
  function AnchorStep(st: ScanState, a: Anchor, server: Server, host: Host, classify: (string, string) -> Category): ScanState
  {
    var name := Trim(a.text);
    if PassesOver(a, st.processed) then st
    else
      var seen := st.processed + {ToLower(name)};
      match host.resolve(a.href.value, server.baseUrl)
      case None => ScanState(st.events, seen)
      case Some(url) =>
        ScanState(st.events + [MakeEvent(name, url, host.now, LiveLabel, "", true, server, classify)], seen)
  }

  function AnchorScan(links: seq<Anchor>, st: ScanState, server: Server, host: Host, classify: (string, string) -> Category): ScanState
  {
    if links == [] then st else AnchorScan(links[1..], AnchorStep(st, links[0], server, host, classify), server, host, classify)
  }

  /** What `fetchNTVStreamEvents` returns for the page (`None` when fetching it failed). */
  function ScrapeEvents(server: Server, page: Option<Page>, host: Host, classify: (string, string) -> Category): seq<SportEvent>
  {
    match page
    case None => []
    case Some(p) => AnchorScan(p.anchors, MainScanAll(p.selected, ScanState([], {}), server, host, classify), server, host, classify).events
  }

  /** The `.each` callback for one element of an event selector. */
  method ProcessElement(el: Element, events: seq<SportEvent>, processed: set<string>,
                        server: Server, host: Host, classify: (string, string) -> Category)
    returns (events': seq<SportEvent>, processed': set<string>)
    ensures ScanState(events', processed') == MainStep(ScanState(events, processed), el, server, host, classify)
  {
    events', processed' := events, processed;
    var name := ElementName(el);
    if name == "" || |name| < 3 || ToLower(name) in processed {
      return;
    }
    processed' := processed + {ToLower(name)};
    var link := ElementLink(el);
    var full := if Truthy(link) then host.resolve(link.value, server.baseUrl) else Some(server.baseUrl);
    if full.None? {
      return;
    }
    var t := ElementTime(el);
    var live := ElementLive(el, t);
    var shown := if live then LiveLabel else if t != "" then t else "Scheduled";
    events' := events + [MakeEvent(name, full.value, ParseEventTime(t, host), shown, ElementCategory(el), live, server, classify)];
  }

  /** The `.each` callback of the direct-link scan. */
  method ProcessLink(a: Anchor, events: seq<SportEvent>, processed: set<string>,
                     server: Server, host: Host, classify: (string, string) -> Category)
    returns (events': seq<SportEvent>, processed': set<string>)
    ensures ScanState(events', processed') == AnchorStep(ScanState(events, processed), a, server, host, classify)
  {
    events', processed' := events, processed;
    if PassesOver(a, processed) {
      return;
    }
    var name := Trim(a.text);
    processed' := processed + {ToLower(name)};
    var full := host.resolve(a.href.value, server.baseUrl);
    if full.Some? {
      events' := events + [MakeEvent(name, full.value, host.now, LiveLabel, "", true, server, classify)];
    }
  }

  /** `fetchNTVStreamEvents`, with its loops. */
  method FetchNTVStreamEvents(server: Server, page: Option<Page>, host: Host, classify: (string, string) -> Category)
    returns (events: seq<SportEvent>)
    ensures events == ScrapeEvents(server, page, host, classify)
  {
    events := [];
    if page.None? {
      return;
    }
    var p := page.value;
    var processed: set<string> := {};
    var k := 0;
    while k < |p.selected|
      invariant 0 <= k <= |p.selected|
      invariant MainScanAll(p.selected[k..], ScanState(events, processed), server, host, classify)
             == MainScanAll(p.selected, ScanState([], {}), server, host, classify)
    {
      var els := p.selected[k];
      assert p.selected[k..][1..] == p.selected[k + 1..];
      ghost var rest := MainScanAll(p.selected[k + 1..], MainScan(els, ScanState(events, processed), server, host, classify), server, host, classify);
      var i := 0;
      while i < |els|
        invariant 0 <= i <= |els|
        invariant MainScanAll(p.selected[k + 1..], MainScan(els[i..], ScanState(events, processed), server, host, classify), server, host, classify) == rest
      {
        assert els[i..][1..] == els[i + 1..];
        events, processed := ProcessElement(els[i], events, processed, server, host, classify);
        i := i + 1;
      }
      assert els[i..] == [];
      k := k + 1;
    }
    assert p.selected[k..] == [];
    var i := 0;
    while i < |p.anchors|
      invariant 0 <= i <= |p.anchors|
      invariant AnchorScan(p.anchors[i..], ScanState(events, processed), server, host, classify)
             == AnchorScan(p.anchors, MainScanAll(p.selected, ScanState([], {}), server, host, classify), server, host, classify)
    {
      assert p.anchors[i..][1..] == p.anchors[i + 1..];
      events, processed := ProcessLink(p.anchors[i], events, processed, server, host, classify);
      i := i + 1;
    }
    assert p.anchors[i..] == [];
  }

  // ---------------------------------------------------------------------------------------
  // What every scraped event satisfies

  /** The fields every event of `server` has, whichever scan pushed it. */
  predicate WellFormed(e: SportEvent, server: Server, classify: (string, string) -> Category)
  {
    e.id == GenerateEventId(e.name) && |e.name| >= 3 &&
    e.server == server.id && e.serverName == server.name &&
    e.matchedCategory == Some(classify(e.name, e.category)) &&
    e.poster == Some(PosterUrl(classify(e.name, e.category))) &&
    e.description == Some(Description(classify(e.name, e.category), server)) &&
    (e.isLive ==> e.timeStr == LiveLabel) &&
    (!e.isLive ==> e.timeStr != "" && e.timeStr != LiveLabel)
  }

  /** The scan's invariant: every event is well formed, its name recorded, and no two names are equal ignoring case. */
  predicate Good(st: ScanState, server: Server, classify: (string, string) -> Category)
  {
    (forall i :: 0 <= i < |st.events| ==> WellFormed(st.events[i], server, classify) && ToLower(st.events[i].name) in st.processed) &&
    (forall i, j :: 0 <= i < j < |st.events| ==> ToLower(st.events[i].name) != ToLower(st.events[j].name))
  }

  /** The live label itself says `live`, so no time text without `live` is the label. */
  lemma LiveLabelSaysLive()
    ensures Contains(ToLower(LiveLabel), "live")
  {
    assert ToLower(LiveLabel)[5..9] == "live";
    assert OccursAt(ToLower(LiveLabel), "live", 5);
    ContainsIff(ToLower(LiveLabel), "live");
  }

  /** How one step extends the state: at most one event, appended, and names are only added. */
  predicate Extends(st: ScanState, st': ScanState)
  {
    |st.events| <= |st'.events| && st'.events[..|st.events|] == st.events && st.processed <= st'.processed
  }

  /** Recording a name keeps the invariant. */
  lemma GoodRecord(st: ScanState, key: string, server: Server, classify: (string, string) -> Category)
    requires Good(st, server, classify)
    ensures Good(ScanState(st.events, st.processed + {key}), server, classify)
    ensures Extends(st, ScanState(st.events, st.processed + {key}))
  {
  }

  /** Pushing a well-formed event whose name was not recorded, and recording it, keeps the invariant. */
  lemma GoodPush(st: ScanState, e: SportEvent, server: Server, classify: (string, string) -> Category)
    requires Good(st, server, classify) && WellFormed(e, server, classify) && ToLower(e.name) !in st.processed
    ensures Good(ScanState(st.events + [e], st.processed + {ToLower(e.name)}), server, classify)
    ensures Extends(st, ScanState(st.events + [e], st.processed + {ToLower(e.name)}))
  {
    var evs := st.events + [e];
    var seen := st.processed + {ToLower(e.name)};
    assert evs[..|st.events|] == st.events;
    forall i | 0 <= i < |evs| ensures WellFormed(evs[i], server, classify) && ToLower(evs[i].name) in seen {
      if i < |st.events| {
        assert evs[i] == st.events[i];
      }
    }
    forall i, j | 0 <= i < j < |evs| ensures ToLower(evs[i].name) != ToLower(evs[j].name) {
      if j < |st.events| {
        assert evs[i] == st.events[i] && evs[j] == st.events[j];
      } else {
        assert evs[i] == st.events[i];
      }
    }
  }

  lemma MainStepGood(st: ScanState, el: Element, server: Server, host: Host, classify: (string, string) -> Category)
    requires Good(st, server, classify)
    ensures var st' := MainStep(st, el, server, host, classify);
      Good(st', server, classify) && Extends(st, st') && |st'.events| <= |st.events| + 1
  {
    var name := ElementName(el);
    var st' := MainStep(st, el, server, host, classify);
    MainStepCases(st, el, server, host, classify);
    if st' == st {
    } else if st' == ScanState(st.events, st.processed + {ToLower(name)}) {
      GoodRecord(st, ToLower(name), server, classify);
    } else {
      var url := ElementUrl(el, server, host).value;
      ElementEventWellFormed(el, name, url, server, host, classify);
      GoodPush(st, ElementEvent(el, name, url, server, host, classify), server, classify);
    }
  }

  /** An element leaves the state alone, only records its name, or pushes its event under a new name of three characters or more. */
  lemma MainStepCases(st: ScanState, el: Element, server: Server, host: Host, classify: (string, string) -> Category)
    ensures var st' := MainStep(st, el, server, host, classify);
      var name := ElementName(el);
      st' == st || st' == ScanState(st.events, st.processed + {ToLower(name)}) ||
      (|name| >= 3 && ToLower(name) !in st.processed && ElementUrl(el, server, host).Some? &&
       st' == ScanState(st.events + [ElementEvent(el, name, ElementUrl(el, server, host).value, server, host, classify)],
                        st.processed + {ToLower(name)}))
  {
  }

  /** An element's event is well formed: its label is the live label exactly when it is live. */
  lemma ElementEventWellFormed(el: Element, name: string, url: string, server: Server, host: Host,
                               classify: (string, string) -> Category)
    requires |name| >= 3
    ensures var e := ElementEvent(el, name, url, server, host, classify);
      WellFormed(e, server, classify) && e.name == name
  {
    if !ElementLive(el, ElementTime(el)) {
      LiveLabelSaysLive();
    }
  }

  lemma AnchorStepGood(st: ScanState, a: Anchor, server: Server, host: Host, classify: (string, string) -> Category)
    requires Good(st, server, classify)
    ensures var st' := AnchorStep(st, a, server, host, classify);
      Good(st', server, classify) && Extends(st, st') && |st'.events| <= |st.events| + 1
    ensures var st' := AnchorStep(st, a, server, host, classify);
      |st'.events| == |st.events| + 1 ==> LiveLink(st'.events[|st.events|], host)
  {
    var name := Trim(a.text);
    var st' := AnchorStep(st, a, server, host, classify);
    AnchorStepCases(st, a, server, host, classify);
    if st' == st {
    } else if st' == ScanState(st.events, st.processed + {ToLower(name)}) {
      GoodRecord(st, ToLower(name), server, classify);
    } else {
      var url := host.resolve(a.href.value, server.baseUrl).value;
      AnchorPushGood(st, name, url, server, host, classify);
    }
  }

  /** A link leaves the state alone, only records its name, or pushes a live event under a new name of more than five characters. */
  lemma AnchorStepCases(st: ScanState, a: Anchor, server: Server, host: Host, classify: (string, string) -> Category)
    ensures var st' := AnchorStep(st, a, server, host, classify);
      var name := Trim(a.text);
      st' == st || st' == ScanState(st.events, st.processed + {ToLower(name)}) ||
      (|name| > 5 && ToLower(name) !in st.processed && Truthy(a.href) &&
       host.resolve(a.href.value, server.baseUrl).Some? &&
       st' == ScanState(st.events + [MakeEvent(name, host.resolve(a.href.value, server.baseUrl).value, host.now,
                                               LiveLabel, "", true, server, classify)],
                        st.processed + {ToLower(name)}))
  {
  }

  /** Pushing the event of a direct link whose name is new keeps the invariant, and the event is live. */
  lemma AnchorPushGood(st: ScanState, name: string, url: string, server: Server, host: Host, classify: (string, string) -> Category)
    requires Good(st, server, classify) && |name| > 5 && ToLower(name) !in st.processed
    ensures var st' := ScanState(st.events + [MakeEvent(name, url, host.now, LiveLabel, "", true, server, classify)],
                                 st.processed + {ToLower(name)});
      Good(st', server, classify) && Extends(st, st') && |st'.events| == |st.events| + 1 &&
      LiveLink(st'.events[|st.events|], host)
  {
    var e := MakeEvent(name, url, host.now, LiveLabel, "", true, server, classify);
    AnchorEventGood(name, url, server, host, classify);
    GoodPush(st, e, server, classify);
    assert (st.events + [e])[|st.events|] == e;
  }

  /** The event a direct link gives is well formed and live. */
  lemma AnchorEventGood(name: string, url: string, server: Server, host: Host, classify: (string, string) -> Category)
    requires |name| > 5
    ensures var e := MakeEvent(name, url, host.now, LiveLabel, "", true, server, classify);
      WellFormed(e, server, classify) && LiveLink(e, host)
  {
  }

  /** What the direct-link scan adds: live, at the current time, without a category, named by more than five characters. */
  predicate LiveLink(e: SportEvent, host: Host)
  {
    e.isLive && e.time == host.now && e.timeStr == LiveLabel && e.category == "" && |e.name| > 5
  }

  lemma {:induction false} ExtendsTrans(a: ScanState, b: ScanState, c: ScanState)
    requires Extends(a, b) && Extends(b, c)
    ensures Extends(a, c)
  {
    assert c.events[..|b.events|][..|a.events|] == c.events[..|a.events|];
  }

  lemma {:induction false} MainScanGood(els: seq<Element>, st: ScanState, server: Server, host: Host, classify: (string, string) -> Category)
    requires Good(st, server, classify)
    ensures var st' := MainScan(els, st, server, host, classify);
      Good(st', server, classify) && Extends(st, st') && |st'.events| <= |st.events| + |els|
  {
    if els != [] {
      var mid := MainStep(st, els[0], server, host, classify);
      MainStepGood(st, els[0], server, host, classify);
      MainScanGood(els[1..], mid, server, host, classify);
      ExtendsTrans(st, mid, MainScan(els, st, server, host, classify));
    }
  }

  lemma {:induction false} MainScanAllGood(parts: seq<seq<Element>>, st: ScanState, server: Server, host: Host, classify: (string, string) -> Category)
    requires Good(st, server, classify)
    ensures var st' := MainScanAll(parts, st, server, host, classify);
      Good(st', server, classify) && Extends(st, st') && |st'.events| <= |st.events| + |Concat(parts)|
  {
    if parts != [] {
      var mid := MainScan(parts[0], st, server, host, classify);
      MainScanGood(parts[0], st, server, host, classify);
      MainScanAllGood(parts[1..], mid, server, host, classify);
      ExtendsTrans(st, mid, MainScanAll(parts, st, server, host, classify));
    }
  }

  lemma {:induction false} AnchorScanGood(links: seq<Anchor>, st: ScanState, server: Server, host: Host, classify: (string, string) -> Category)
    requires Good(st, server, classify)
    ensures var st' := AnchorScan(links, st, server, host, classify);
      Good(st', server, classify) && Extends(st, st') && |st'.events| <= |st.events| + |links|
    ensures var st' := AnchorScan(links, st, server, host, classify);
      forall i :: |st.events| <= i < |st'.events| ==> LiveLink(st'.events[i], host)
  {
    if links != [] {
      var mid := AnchorStep(st, links[0], server, host, classify);
      var st' := AnchorScan(links, st, server, host, classify);
      AnchorStepGood(st, links[0], server, host, classify);
      AnchorScanGood(links[1..], mid, server, host, classify);
      ExtendsTrans(st, mid, st');
      LiveJoin(st, mid, st', host);
    }
  }

  /** A step that appends at most one live event, followed by live appends only, appends only live events. */
  lemma LiveJoin(st: ScanState, mid: ScanState, st': ScanState, host: Host)
    requires Extends(st, mid) && Extends(mid, st') && |mid.events| <= |st.events| + 1
    requires |mid.events| == |st.events| + 1 ==> LiveLink(mid.events[|st.events|], host)
    requires forall i :: |mid.events| <= i < |st'.events| ==> LiveLink(st'.events[i], host)
    ensures forall i :: |st.events| <= i < |st'.events| ==> LiveLink(st'.events[i], host)
  {
    if |mid.events| == |st.events| + 1 {
      assert st'.events[|st.events|] == st'.events[..|mid.events|][|st.events|];
    }
  }

  /**
   * What `fetchNTVStreamEvents` promises about its result: every event is well formed, no two
   * share a name ignoring case, there is at most one per element and link, and the events of
   * the direct-link scan come last and are live.
   */
  lemma ScrapeEventsGood(server: Server, p: Page, host: Host, classify: (string, string) -> Category)
    ensures var r := ScrapeEvents(server, Some(p), host, classify);
      (forall i :: 0 <= i < |r| ==> WellFormed(r[i], server, classify)) &&
      (forall i, j :: 0 <= i < j < |r| ==> ToLower(r[i].name) != ToLower(r[j].name)) &&
      |r| <= |Concat(p.selected)| + |p.anchors|
    ensures var main := MainScanAll(p.selected, ScanState([], {}), server, host, classify).events;
      var r := ScrapeEvents(server, Some(p), host, classify);
      |main| <= |r| && r[..|main|] == main && forall i :: |main| <= i < |r| ==> LiveLink(r[i], host)
  {
    var st := MainScanAll(p.selected, ScanState([], {}), server, host, classify);
    MainScanAllGood(p.selected, ScanState([], {}), server, host, classify);
    AnchorScanGood(p.anchors, st, server, host, classify);
  }
}
