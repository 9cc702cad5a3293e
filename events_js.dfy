/**
 * `scraper.js`, the event half: event identifiers, the watch link read from a card's
 * `onclick`, the source count read from its meta text, the rules that turn a `.match-card`
 * into an event, and the six NTVStream server pages the file reads.
 */
module JsEvents {
  import opened Wrappers
  import opened Text
  import opened Registry
  import opened EventIds
  import opened UrlScan
  import Seqs

  /** Every watch link is made absolute against this origin. */
  const Origin: string := "https://ntvstream.cx"

  /** The time text of a live card without a time badge. */
  const LiveLabel: string := "\U{1F534} LIVE"

  /** One entry of `NTV_SERVERS`. */
  datatype NtvServer = NtvServer(id: string, name: string, url: string)

  const NtvServers: seq<NtvServer> := [
    NtvServer("kobra", "KOBRA", "https://ntvstream.cx/matches/kobra"),
    NtvServer("titan", "TITAN", "https://ntvstream.cx/matches/titan"),
    NtvServer("raptor", "RAPTOR", "https://ntvstream.cx/matches/raptor"),
    NtvServer("phoenix", "PHOENIX", "https://ntvstream.cx/matches/phoenix"),
    NtvServer("scorpion", "SCORPION", "https://ntvstream.cx/matches/scorpion"),
    NtvServer("viper", "VIPER", "https://ntvstream.cx/matches/viper")
  ]

  // ---------------------------------------------------------------------------------------
  // Event identifiers

  /** `generateEventId(name, category)`: `ntv_` and the normalised `name_category`, at most 60 characters. */
  function GenerateEventId(name: string, category: string): (r: string)
    ensures 4 <= |r| <= 64 && r[..4] == "ntv_"
    ensures IdChars(r[4..]) && NoDoubleUnderscore(r[4..])
  {
    var clean := CleanName(name + "_" + category, 60);
    assert ("ntv_" + clean)[4..] == clean;
    "ntv_" + clean
  }

  /** The identifier ignores case: names and categories that differ only in case share one. */
  lemma EventIdIgnoresCase(name: string, category: string)
    ensures GenerateEventId(ToLower(name), ToLower(category)) == GenerateEventId(name, category)
  {
    ToLowerConcat(name, "_");
    ToLowerConcat(name + "_", category);
    ToLowerConcat(ToLower(name), "_");
    ToLowerConcat(ToLower(name) + "_", ToLower(category));
    LowerOfLower(name);
    LowerOfLower(category);
    ToLowerOfLower("_");
  }

  lemma LowerOfLower(s: string)
    ensures ToLower(ToLower(s)) == ToLower(s)
  {
    ToLowerOfLower(ToLower(s));
  }

  // ---------------------------------------------------------------------------------------
  // The watch link: /location\.href=['"](\/watch\/[^'"]+)['"]/

  predicate IsQuote(c: char)
  {
    c == '\'' || c == '"'
  }

  const HrefAssign: string := "location.href="
  const WatchPath: string := "/watch/"

  /**
   * The pattern matches at `p` and its group ends at `e`: `location.href=`, a quote, `/watch/`,
   * at least one character that is not a quote, up to the quote at `e`.
   */
  predicate WatchMatchAt(s: string, p: nat, e: nat)
  {
    p + 22 < e < |s| && OccursAt(s, HrefAssign, p) && IsQuote(s[p + 14]) && OccursAt(s, WatchPath, p + 15) &&
    IsQuote(s[e]) && forall k :: p + 22 <= k < e ==> !IsQuote(s[k])
  }

  /** The first quote at or after `k`, or the end. */
  function QuoteAt(s: string, k: nat): (e: nat)
    requires k <= |s|
    ensures k <= e <= |s| && (e == |s| || IsQuote(s[e]))
    ensures forall j :: k <= j < e ==> !IsQuote(s[j])
    decreases |s| - k
  {
    if k == |s| || IsQuote(s[k]) then k else QuoteAt(s, k + 1)
  }

  /** Where the group ends when the pattern matches at `p`. */
  function WatchEndAt(s: string, p: nat): (r: Option<nat>)
    ensures r.Some? ==> WatchMatchAt(s, p, r.value)
    ensures r.None? ==> forall e: nat :: !WatchMatchAt(s, p, e)
  {
    if p + 22 <= |s| && OccursAt(s, HrefAssign, p) && IsQuote(s[p + 14]) && OccursAt(s, WatchPath, p + 15) then
      var e := QuoteAt(s, p + 22);
      if p + 22 < e < |s| then Some(e) else None
    else None
  }

  /** The leftmost match at or after `p`: its start and the end of its group. */
  function FindWatch(s: string, p: nat): (r: Option<(nat, nat)>)
    ensures r.Some? ==> p <= r.value.0 && WatchMatchAt(s, r.value.0, r.value.1)
    ensures r.Some? ==> forall q: nat, e: nat :: p <= q < r.value.0 ==> !WatchMatchAt(s, q, e)
    ensures r.None? ==> forall q: nat, e: nat :: p <= q ==> !WatchMatchAt(s, q, e)
    decreases |s| - p
  {
    if p >= |s| then None
    else match WatchEndAt(s, p)
      case Some(e) => Some((p, e))
      case None => FindWatch(s, p + 1)
  }

  /**
   * `extractWatchUrl(onclick)`: nothing for a missing or empty attribute or without a
   * match; otherwise the origin and the group of the leftmost match.
   */
  function ExtractWatchUrl(onclick: Option<string>): (r: Option<string>)
    ensures !Truthy(onclick) ==> r.None?
    ensures Truthy(onclick) ==> (r.Some? <==> exists q: nat, e: nat :: WatchMatchAt(onclick.value, q, e))
    ensures r.Some? ==> exists q: nat, e: nat :: WatchMatchAt(onclick.value, q, e) && r.value == Origin + onclick.value[q + 15..e] &&
                                     forall q': nat, e': nat :: q' < q ==> !WatchMatchAt(onclick.value, q', e')
  {
    if !Truthy(onclick) then None
    else
      match FindWatch(onclick.value, 0)
      case None => None
      case Some((q, e)) => Some(Origin + onclick.value[q + 15..e])
  }

  /** A link found is the origin, `/watch/` and at least one more character. */
  lemma WatchUrlShape(onclick: Option<string>)
    ensures var r := ExtractWatchUrl(onclick);
      r.Some? ==> StartsWith(r.value, Origin + WatchPath) && |r.value| > |Origin + WatchPath|
  {
    if Truthy(onclick) && FindWatch(onclick.value, 0).Some? {
      var s := onclick.value;
      var (q, e) := FindWatch(s, 0).value;
      var g := s[q + 15..e];
      assert WatchMatchAt(s, q, e);
      WatchSlice(s, q + 15, e);
      UrlStart(g);
    }
  }

  lemma WatchSlice(s: string, a: nat, e: nat)
    requires a + 7 < e <= |s| && OccursAt(s, WatchPath, a)
    ensures |s[a..e]| > 7 && s[a..e][..7] == WatchPath
  {
    assert s[a..e][..7] == s[a..a + 7];
  }

  lemma UrlStart(g: string)
    requires |g| > 7 && g[..7] == WatchPath
    ensures StartsWith(Origin + g, Origin + WatchPath) && |Origin + g| > |Origin + WatchPath|
  {
    assert (Origin + g)[..|Origin + WatchPath|] == Origin + WatchPath;
  }

  /** The link a card's `onclick` sets is found whole. */
  lemma WatchUrlOfOnclick(path: string)
    requires path != [] && forall k :: 0 <= k < |path| ==> !IsQuote(path[k])
    ensures ExtractWatchUrl(Some("location.href='" + WatchPath + path + "'")) == Some(Origin + WatchPath + path)
  {
    var s := "location.href='" + WatchPath + path + "'";
    var e := |s| - 1;
    assert s[..14] == HrefAssign;
    assert s[15..22] == WatchPath;
    forall k | 22 <= k < e ensures !IsQuote(s[k]) {
      assert s[k] == path[k - 22];
    }
    assert WatchMatchAt(s, 0, e);
    assert QuoteAt(s, 22) == e;
    assert FindWatch(s, 0) == Some((0, e));
    assert s[15..e] == WatchPath + path;
    assert Origin + (WatchPath + path) == Origin + WatchPath + path;
  }

  // ---------------------------------------------------------------------------------------
  // The source count: /(\d+)\s*sources?/i

  /**
   * The pattern matches at `p` with the digits `s[p..q]`: one or more digits, then white
   * space up to `w`, then `source` in any case.
   */
  predicate CountMatchAt(s: string, p: nat, q: nat, w: nat)
  {
    p < q <= w && w + 6 <= |s| && (forall k :: p <= k < q ==> IsDigit(s[k])) && (forall k :: q <= k < w ==> IsSpace(s[k])) &&
    IcAt(s, "source", w)
  }

  function DigitEnd(s: string, k: nat): (e: nat)
    requires k <= |s|
    ensures k <= e <= |s| && (e == |s| || !IsDigit(s[e]))
    ensures forall j :: k <= j < e ==> IsDigit(s[j])
    decreases |s| - k
  {
    if k == |s| || !IsDigit(s[k]) then k else DigitEnd(s, k + 1)
  }

  function SpaceEnd(s: string, k: nat): (e: nat)
    requires k <= |s|
    ensures k <= e <= |s| && (e == |s| || !IsSpace(s[e]))
    ensures forall j :: k <= j < e ==> IsSpace(s[j])
    decreases |s| - k
  {
    if k == |s| || !IsSpace(s[k]) then k else SpaceEnd(s, k + 1)
  }

  lemma {:induction false} DigitEndAt(s: string, k: nat, e: nat)
    requires k <= e <= |s| && (forall j :: k <= j < e ==> IsDigit(s[j])) && (e == |s| || !IsDigit(s[e]))
    ensures DigitEnd(s, k) == e
    decreases e - k
  {
    if k < e {
      DigitEndAt(s, k + 1, e);
    }
  }

  lemma {:induction false} SpaceEndAt(s: string, k: nat, e: nat)
    requires k <= e <= |s| && (forall j :: k <= j < e ==> IsSpace(s[j])) && (e == |s| || !IsSpace(s[e]))
    ensures SpaceEnd(s, k) == e
    decreases e - k
  {
    if k < e {
      SpaceEndAt(s, k + 1, e);
    }
  }

  /** A match at `p` has one shape: all the digits from `p`, then all the white space after them. */
  lemma CountMatchUnique(s: string, p: nat, q: nat, w: nat)
    requires CountMatchAt(s, p, q, w)
    ensures q == DigitEnd(s, p) && w == SpaceEnd(s, q)
  {
    assert LowerChar(s[w + 0]) == "source"[0];
    assert !IsDigit(s[w]) && !IsSpace(s[w]);
    assert !IsDigit(s[q]) by {
      if q < w {
        assert IsSpace(s[q]);
      }
    }
    DigitEndAt(s, p, q);
    SpaceEndAt(s, q, w);
  }

  /** The end of the digits when the pattern matches at `p`. */
  function CountEndAt(s: string, p: nat): (r: Option<nat>)
    ensures r.Some? ==> exists w: nat :: CountMatchAt(s, p, r.value, w)
    ensures r.None? ==> forall q: nat, w: nat :: !CountMatchAt(s, p, q, w)
  {
    if p < |s| && IsDigit(s[p]) then
      var q := DigitEnd(s, p);
      var w := SpaceEnd(s, q);
      if IcAt(s, "source", w) then
        assert CountMatchAt(s, p, q, w);
        Some(q)
      else
        assert forall q': nat, w': nat :: !CountMatchAt(s, p, q', w') by {
          forall q': nat, w': nat | CountMatchAt(s, p, q', w') ensures false {
            CountMatchUnique(s, p, q', w');
          }
        }
        None
    else
      None
  }

  /** The leftmost match at or after `p`: its start and the end of its digits. */
  function FindCount(s: string, p: nat): (r: Option<(nat, nat)>)
    ensures r.Some? ==> p <= r.value.0 && exists w: nat :: CountMatchAt(s, r.value.0, r.value.1, w)
    ensures r.Some? ==> forall q: nat, e: nat, w: nat :: p <= q < r.value.0 ==> !CountMatchAt(s, q, e, w)
    ensures r.None? ==> forall q: nat, e: nat, w: nat :: p <= q ==> !CountMatchAt(s, q, e, w)
    decreases |s| - p
  {
    if p >= |s| then None
    else match CountEndAt(s, p)
      case Some(q) => Some((p, q))
      case None => FindCount(s, p + 1)
  }

  /** `parseInt` of a run of decimal digits. */
  function DigitsValue(ds: string): nat
  {
    if ds == [] then 0
    else
      var d := ds[|ds| - 1] as int - '0' as int;
      DigitsValue(ds[..|ds| - 1]) * 10 + (if 0 <= d < 10 then d else 0)
  }

  /** `parseSourceCount(text)`: the number before the leftmost `source`, and 1 without a match. */
  function ParseSourceCount(text: string): (r: nat)
    ensures (forall q: nat, e: nat, w: nat :: !CountMatchAt(text, q, e, w)) ==> r == 1
    ensures (exists q: nat, e: nat, w: nat :: CountMatchAt(text, q, e, w)) ==>
      exists q: nat, e: nat, w: nat :: CountMatchAt(text, q, e, w) && r == DigitsValue(text[q..e]) &&
        forall q': nat, e': nat, w': nat :: q' < q ==> !CountMatchAt(text, q', e', w')
  {
    match FindCount(text, 0)
    case Some((q, e)) => DigitsValue(text[q..e])
    case None => 1
  }

  lemma {:induction false} DigitsValueOfNat(n: nat)
    ensures DigitsValue(NatToString(n)) == n
    decreases n
  {
    var s := NatToString(n);
    if n >= 10 {
      DigitsValueOfNat(n / 10);
      assert s[..|s| - 1] == NatToString(n / 10);
    }
  }

  /** In `N sources` the digits of `N`, a space and `source` match at the start. */
  lemma CountMatchOfText(n: nat)
    ensures var ds := NatToString(n); CountMatchAt(ds + " sources", 0, |ds|, |ds| + 1)
  {
    var ds := NatToString(n);
    var s := ds + " sources";
    assert forall k :: 0 <= k < |ds| ==> IsDigit(s[k]) by {
      forall k | 0 <= k < |ds| ensures IsDigit(s[k]) {
        assert s[k] == ds[k];
      }
    }
    assert s[|ds|] == ' ';
    assert IcAt(s, "source", |ds| + 1) by {
      forall j | 0 <= j < 6 ensures LowerChar(s[|ds| + 1 + j]) == "source"[j] {
        assert s[|ds| + 1 + j] == " sources"[j + 1];
      }
    }
  }

  /** A meta text `N sources` gives back `N`. */
  lemma SourceCountOfText(n: nat)
    ensures ParseSourceCount(NatToString(n) + " sources") == n
  {
    var ds := NatToString(n);
    var s := ds + " sources";
    CountMatchOfText(n);
    var r := FindCount(s, 0);
    assert r.Some? && r.value.0 == 0;
    var w: nat :| CountMatchAt(s, 0, r.value.1, w);
    CountMatchUnique(s, 0, r.value.1, w);
    CountMatchUnique(s, 0, |ds|, |ds| + 1);
    assert s[0..|ds|] == ds;
    DigitsValueOfNat(n);
  }

  // ---------------------------------------------------------------------------------------
  // Cards

  /**
   * What the scraper reads from one `.match-card`: its `data-category` and `onclick`
   * attributes, the text of its `.match-title`, whether it has a `.live-badge`, the text of
   * its time or schedule badges when it has any, and the text of its `.match-meta`.
   */
  datatype Card = Card(
    dataCategory: Option<string>,
    onclick: Option<string>,
    titleText: string,
    liveBadge: bool,
    timeBadge: Option<string>,
    metaText: string)

  /** A listed event of the JavaScript add-on. */
  datatype JsEvent = JsEvent(
    id: string,
    name: string,
    category: string,
    isLive: bool,
    timeStr: string,
    link: string,
    server: string,
    serverName: string,
    sources: nat,
    matchedCategory: Category)

  /** How an event is given its category: `matchEventToCategory` in the running module. */
  type Classifier = (string, string) -> Category

  /** `attr || fallback`. */
  function AttrOr(a: Option<string>, fallback: string): (r: string)
    ensures Truthy(a) ==> r == a.value
    ensures !Truthy(a) ==> r == fallback
  {
    if Truthy(a) then a.value else fallback
  }

  /** The card's time text: the badge text trimmed when there is a badge, else live or scheduled. */
  function CardTime(card: Card): string
  {
    match card.timeBadge
    case Some(t) => Trim(t)
    case None => if card.liveBadge then LiveLabel else "Scheduled"
  }

  /** A card becomes an event when it has a title and a watch link. */
  function CardEvent(card: Card, server: NtvServer, classify: Classifier): Option<JsEvent>
  {
    var category := AttrOr(card.dataCategory, "sports");
    var title := Trim(card.titleText);
    match ExtractWatchUrl(card.onclick)
    case Some(url) =>
      if title != "" then
        Some(JsEvent(GenerateEventId(title, category), title, category, card.liveBadge, CardTime(card), url,
          server.id, "NTVStream " + server.name, ParseSourceCount(card.metaText), classify(title, category)))
      else None
    case None => None
  }

  /** What every event of a server shares. */
  predicate WellFormed(e: JsEvent, server: NtvServer, classify: Classifier)
  {
    e.name != "" && e.category != "" && e.id == GenerateEventId(e.name, e.category) &&
    StartsWith(e.link, Origin + WatchPath) &&
    e.server == server.id && e.serverName == "NTVStream " + server.name &&
    e.matchedCategory == classify(e.name, e.category)
  }

  /**
   * The card rules: an event exactly when the trimmed title is not empty and the watch link
   * is found; `sports` for a missing category; a time badge decides the time text, live or
   * not.
   */
  lemma CardEventShape(card: Card, server: NtvServer, classify: Classifier)
    ensures var r := CardEvent(card, server, classify);
      (r.Some? <==> Trim(card.titleText) != "" && ExtractWatchUrl(card.onclick).Some?) &&
      (r.Some? ==> (WellFormed(r.value, server, classify) && r.value.name == Trim(card.titleText) &&
                    r.value.category == AttrOr(card.dataCategory, "sports") && r.value.isLive == card.liveBadge &&
                    r.value.sources == ParseSourceCount(card.metaText)))
    ensures var r := CardEvent(card, server, classify);
      r.Some? ==>
        (card.timeBadge.Some? ==> r.value.timeStr == Trim(card.timeBadge.value)) &&
        (card.timeBadge.None? ==> r.value.timeStr == if card.liveBadge then LiveLabel else "Scheduled")
  {
    WatchUrlShape(card.onclick);
  }

  /** What one card adds to the list. */
  function CardPart(card: Card, server: NtvServer, classify: Classifier): seq<JsEvent>
  {
    match CardEvent(card, server, classify)
    case Some(e) => [e]
    case None => []
  }

  /** The events of a server page's cards, in card order. */
  function CardEvents(cards: seq<Card>, server: NtvServer, classify: Classifier): seq<JsEvent>
  {
    if cards == [] then [] else CardPart(cards[0], server, classify) + CardEvents(cards[1..], server, classify)
  }

  lemma CardEventsStep(cards: seq<Card>, i: nat, server: NtvServer, classify: Classifier, events: seq<JsEvent>)
    requires i < |cards|
    ensures events + CardEvents(cards[i..], server, classify) ==
      (events + CardPart(cards[i], server, classify)) + CardEvents(cards[i + 1..], server, classify)
  {
    var rest := cards[i..];
    assert rest[0] == cards[i] && rest[1..] == cards[i + 1..];
    Seqs.AppendAssoc(events, CardPart(cards[i], server, classify), CardEvents(cards[i + 1..], server, classify));
  }

  /** `fetchServerEvents(server)`: nothing when the page cannot be read. */
  function ServerEvents(server: NtvServer, cards: Option<seq<Card>>, classify: Classifier): seq<JsEvent>
  {
    match cards
    case None => []
    case Some(cs) => CardEvents(cs, server, classify)
  }

  /** Each card gives at most one event, and every event is well formed for the server. */
  lemma {:induction false} CardEventsShape(cards: seq<Card>, server: NtvServer, classify: Classifier)
    ensures var r := CardEvents(cards, server, classify);
      |r| <= |cards| && forall e :: e in r ==> WellFormed(e, server, classify)
  {
    if cards != [] {
      CardEventShape(cards[0], server, classify);
      CardEventsShape(cards[1..], server, classify);
    }
  }

  /** The `.each` over the cards, pushing each event. */
  method FetchServerEvents(server: NtvServer, cards: Option<seq<Card>>, classify: Classifier) returns (events: seq<JsEvent>)
    ensures events == ServerEvents(server, cards, classify)
  {
    events := [];
    if cards.None? {
      return;
    }
    var cs := cards.value;
    var i := 0;
    Seqs.EmptyAppend(CardEvents(cs, server, classify));
    while i < |cs|
      invariant 0 <= i <= |cs|
      invariant events + CardEvents(cs[i..], server, classify) == CardEvents(cs, server, classify)
    {
      var part := CardPart(cs[i], server, classify);
      CardEventsStep(cs, i, server, classify, events);
      events := events + part;
      i := i + 1;
    }
  }
}
