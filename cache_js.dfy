/**
 * `scraper.js`, the list half: the merge of the six server pages, the sort (live first, then
 * more sources, then by name) and the removal of names equal ignoring case, the single
 * two-minute cache entry with `clearCache`, and the three queries on the list.
 */
module JsCache {
  import opened Wrappers
  import opened Text
  import opened Seqs
  import opened Registry
  import JsConfig
  import opened JsEvents

  /** `cache.ttl`: two minutes, in milliseconds. */
  const Ttl: int := 2 * 60 * 1000

  // ---------------------------------------------------------------------------------------
  // Merging the server pages

  /** The events of each server in turn; a page that cannot be read gives none. */
  function Merged(servers: seq<NtvServer>, pages: string -> Option<seq<Card>>, classify: Classifier): seq<JsEvent>
  {
    if servers == [] then []
    else ServerEvents(servers[0], pages(servers[0].url), classify) + Merged(servers[1..], pages, classify)
  }

  lemma MergedStep(servers: seq<NtvServer>, i: nat, pages: string -> Option<seq<Card>>, classify: Classifier, all: seq<JsEvent>)
    requires i < |servers|
    ensures all + Merged(servers[i..], pages, classify) ==
      (all + ServerEvents(servers[i], pages(servers[i].url), classify)) + Merged(servers[i + 1..], pages, classify)
  {
    var rest := servers[i..];
    assert rest[0] == servers[i] && rest[1..] == servers[i + 1..];
    AppendAssoc(all, ServerEvents(servers[i], pages(servers[i].url), classify), Merged(servers[i + 1..], pages, classify));
  }

  /** Every merged event is well formed for one of the servers. */
  lemma {:induction false} MergedFrom(servers: seq<NtvServer>, pages: string -> Option<seq<Card>>, classify: Classifier)
    ensures forall e :: e in Merged(servers, pages, classify) ==> exists s :: s in servers && WellFormed(e, s, classify)
  {
    if servers != [] {
      var s := servers[0];
      var cards := pages(s.url);
      assert Merged(servers, pages, classify) == ServerEvents(s, cards, classify) + Merged(servers[1..], pages, classify);
      if cards.Some? {
        CardEventsShape(cards.value, s, classify);
      }
      MergedFrom(servers[1..], pages, classify);
      assert forall t :: t in servers[1..] ==> t in servers;
    }
  }

  /** The `for ... of NTV_SERVERS` loop, concatenating each server's events. */
  method FetchFromServers(servers: seq<NtvServer>, pages: string -> Option<seq<Card>>, classify: Classifier) returns (all: seq<JsEvent>)
    ensures all == Merged(servers, pages, classify)
  {
    all := [];
    var i := 0;
    EmptyAppend(Merged(servers, pages, classify));
    while i < |servers|
      invariant 0 <= i <= |servers|
      invariant all + Merged(servers[i..], pages, classify) == Merged(servers, pages, classify)
    {
      var server := servers[i];
      var events := FetchServerEvents(server, pages(server.url), classify);
      MergedStep(servers, i, pages, classify, all);
      all := all + events;
      i := i + 1;
    }
  }

  // ---------------------------------------------------------------------------------------
  // Sorting and removing repeated names

  /** `a.name.localeCompare(b.name)`: the host's collation, a number below, at or above zero. */
  type Collation = (string, string) -> int

  /** The comparator of `allEvents.sort`. */
  function Compare(a: JsEvent, b: JsEvent, collate: Collation): int
  {
    if a.isLive && !b.isLive then -1
    else if !a.isLive && b.isLive then 1
    else if a.sources != b.sources then b.sources - a.sources
    else collate(a.name, b.name)
  }

  /** `a` may stay before `b`. */
  function Le(collate: Collation): (JsEvent, JsEvent) -> bool
  {
    (a: JsEvent, b: JsEvent) => Compare(a, b, collate) <= 0
  }

  /** The collation orders all names: any two compare one way or the other, and transitively. */
  ghost predicate CollationOrder(collate: Collation)
  {
    (forall x, y :: collate(x, y) <= 0 || collate(y, x) <= 0) &&
    (forall x, y, z :: collate(x, y) <= 0 && collate(y, z) <= 0 ==> collate(x, z) <= 0)
  }

  lemma LeOrder(collate: Collation, u: seq<JsEvent>)
    requires CollationOrder(collate)
    ensures TotalOn(Le(collate), u) && TransitiveOn(Le(collate), u) && RefinesOn(Le(collate), Le(collate), u)
  {
    forall a, b, c | a in u && b in u && c in u && Le(collate)(a, b) && Le(collate)(b, c)
      ensures Le(collate)(a, c)
    {
      if a.isLive == b.isLive == c.isLive && a.sources == b.sources == c.sources {
        assert collate(a.name, b.name) <= 0 && collate(b.name, c.name) <= 0;
      }
    }
    forall a, b | a in u && b in u ensures Le(collate)(a, b) || Le(collate)(b, a) {
      if a.isLive == b.isLive && a.sources == b.sources {
        assert collate(a.name, b.name) <= 0 || collate(b.name, a.name) <= 0;
      }
    }
  }

  /** `event.name.toLowerCase()`, the key of the repeated-name filter. */
  function LowerName(e: JsEvent): string
  {
    ToLower(e.name)
  }

  /** Sort the merged list, then keep the first event of each lower-cased name. */
  function Arrange(all: seq<JsEvent>, collate: Collation): seq<JsEvent>
  {
    Dedup(Sort(all, Le(collate)), LowerName)
  }

  /** No two events share a lower-cased name. */
  predicate DistinctNames(r: seq<JsEvent>)
  {
    Distinct(Keys(r, LowerName))
  }

  /**
   * What the filter of repeated names keeps, whatever the order: events of the input, one per
   * lower-cased name, every name kept, and a list that is empty only when the input is.
   */
  lemma ArrangeNames(all: seq<JsEvent>, collate: Collation)
    ensures var r := Arrange(all, collate);
      DistinctNames(r) && (forall e :: e in r ==> e in all) &&
      (forall i :: 0 <= i < |all| ==> LowerName(all[i]) in Keys(r, LowerName)) &&
      (r == [] <==> all == [])
  {
    var sorted := Sort(all, Le(collate));
    var r := Dedup(sorted, LowerName);
    DedupKeysFresh(sorted, LowerName, {});
    DedupSubseq(sorted, LowerName, {});
    SubseqElements(r, sorted);
    assert forall e :: e in sorted ==> e in multiset(all);
    DedupCovers(sorted, LowerName, {});
    forall i | 0 <= i < |all| ensures LowerName(all[i]) in Keys(r, LowerName) {
      assert all[i] in multiset(sorted);
      var k :| 0 <= k < |sorted| && sorted[k] == all[i];
    }
    if all != [] {
      assert LowerName(all[0]) in Keys(r, LowerName);
    }
  }

  /** With a collation that orders names, the list is live first, then by more sources, then by name. */
  lemma ArrangeOrder(all: seq<JsEvent>, collate: Collation)
    requires CollationOrder(collate)
    ensures var r := Arrange(all, collate);
      forall i, j :: 0 <= i < j < |r| ==>
        (r[j].isLive ==> r[i].isLive) &&
        (r[i].isLive == r[j].isLive ==> r[i].sources >= r[j].sources) &&
        (r[i].isLive == r[j].isLive && r[i].sources == r[j].sources ==> collate(r[i].name, r[j].name) <= 0)
  {
    var sorted := Sort(all, Le(collate));
    var r := Dedup(sorted, LowerName);
    LeOrder(collate, all);
    SortSorted(all, Le(collate), Le(collate), all);
    DedupSubseq(sorted, LowerName, {});
    SubseqSorted(r, sorted, Le(collate));
    forall i, j | 0 <= i < j < |r|
      ensures (r[j].isLive ==> r[i].isLive) &&
        (r[i].isLive == r[j].isLive ==> r[i].sources >= r[j].sources) &&
        (r[i].isLive == r[j].isLive && r[i].sources == r[j].sources ==> collate(r[i].name, r[j].name) <= 0)
    {
      assert Le(collate)(r[i], r[j]);
    }
  }

  /** The filter of repeated names, as the loop `allEvents.filter` runs with its `Set`. */
  method UniqueByName(sorted: seq<JsEvent>) returns (unique: seq<JsEvent>)
    ensures unique == Dedup(sorted, LowerName)
  {
    unique := [];
    var seen: set<string> := {};
    var i := 0;
    EmptyAppend(Dedup(sorted, LowerName));
    while i < |sorted|
      invariant 0 <= i <= |sorted|
      invariant unique + DedupFrom(sorted[i..], LowerName, seen) == Dedup(sorted, LowerName)
    {
      var key := LowerName(sorted[i]);
      assert sorted[i..][1..] == sorted[i + 1..];
      if key !in seen {
        assert unique + DedupFrom(sorted[i..], LowerName, seen) ==
          (unique + [sorted[i]]) + DedupFrom(sorted[i + 1..], LowerName, seen + {key});
        seen := seen + {key};
        unique := unique + [sorted[i]];
      }
      i := i + 1;
    }
  }

  // ---------------------------------------------------------------------------------------
  // The cache entry

  /** `cache.events && Date.now() - cache.timestamp < cache.ttl`. */
  predicate Hit(events: Option<seq<JsEvent>>, timestamp: int, now: int)
  {
    events.Some? && now - timestamp < Ttl
  }

  /** The answer of `fetchAllEvents` at time `now`. */
  function EventsAnswer(events: Option<seq<JsEvent>>, timestamp: int, now: int, servers: seq<NtvServer>, pages: string -> Option<seq<Card>>,
                        classify: Classifier, collate: Collation): seq<JsEvent>
  {
    if Hit(events, timestamp, now) then events.value
    else Arrange(Merged(servers, pages, classify), collate)
  }

  /** The cache entry after that call: refreshed, stamped `later`, only when the scrape found events. */
  function EventsAfter(events: Option<seq<JsEvent>>, timestamp: int, now: int, later: int, servers: seq<NtvServer>, pages: string -> Option<seq<Card>>,
                       classify: Classifier, collate: Collation): (Option<seq<JsEvent>>, int)
  {
    if Hit(events, timestamp, now) || Merged(servers, pages, classify) == [] then (events, timestamp)
    else (Some(EventsAnswer(events, timestamp, now, servers, pages, classify, collate)), later)
  }

  /** Past the time to live, the call answers the arranged scrape `r`, and stores it when it is not empty. */
  lemma EventsScraped(events: Option<seq<JsEvent>>, timestamp: int, now: int, later: int, servers: seq<NtvServer>, pages: string -> Option<seq<Card>>,
                      classify: Classifier, collate: Collation, r: seq<JsEvent>)
    requires !Hit(events, timestamp, now)
    requires r == Dedup(Sort(Merged(servers, pages, classify), Le(collate)), LowerName)
    ensures EventsAnswer(events, timestamp, now, servers, pages, classify, collate) == r
    ensures Merged(servers, pages, classify) == [] ==>
      r == [] && EventsAfter(events, timestamp, now, later, servers, pages, classify, collate) == (events, timestamp)
    ensures Merged(servers, pages, classify) != [] ==>
      EventsAfter(events, timestamp, now, later, servers, pages, classify, collate) == (Some(r), later)
  {
  }

  /** The arranged list of a non-empty scrape may be stored. */
  lemma ArrangedValid(all: seq<JsEvent>, collate: Collation)
    requires all != []
    ensures EntryValid(Some(Arrange(all, collate)))
  {
    ArrangeNames(all, collate);
  }

  /** A stored list is not empty and has no repeated name. */
  predicate EntryValid(events: Option<seq<JsEvent>>)
  {
    events.Some? ==> events.value != [] && DistinctNames(events.value)
  }

  /**
   * `fetchAllEvents` answers a list without repeated names, empty only when every page failed
   * or had no event, in which case nothing is stored; what it stores keeps the entry valid,
   * and every event it scraped is well formed for one of the servers.
   */
  lemma EventsAnswerShape(events: Option<seq<JsEvent>>, timestamp: int, now: int, later: int, servers: seq<NtvServer>,
                          pages: string -> Option<seq<Card>>, classify: Classifier, collate: Collation)
    requires EntryValid(events)
    ensures var r := EventsAnswer(events, timestamp, now, servers, pages, classify, collate);
      DistinctNames(r) && (r == [] <==> !Hit(events, timestamp, now) && Merged(servers, pages, classify) == [])
    ensures EventsAnswer(events, timestamp, now, servers, pages, classify, collate) == [] ==> EventsAfter(events, timestamp, now, later, servers, pages, classify, collate) == (events, timestamp)
    ensures EntryValid(EventsAfter(events, timestamp, now, later, servers, pages, classify, collate).0)
    ensures !Hit(events, timestamp, now) ==>
      forall e :: e in EventsAnswer(events, timestamp, now, servers, pages, classify, collate) ==>
        exists s :: s in servers && WellFormed(e, s, classify)
  {
    var all := Merged(servers, pages, classify);
    ArrangeNames(all, collate);
    MergedFrom(servers, pages, classify);
  }

  /** The entry that call leaves behind is valid. */
  lemma EventsAfterValid(events: Option<seq<JsEvent>>, timestamp: int, now: int, later: int, servers: seq<NtvServer>,
                         pages: string -> Option<seq<Card>>, classify: Classifier, collate: Collation)
    requires EntryValid(events)
    ensures EntryValid(EventsAfter(events, timestamp, now, later, servers, pages, classify, collate).0)
  {
    ArrangeNames(Merged(servers, pages, classify), collate);
  }

  // ---------------------------------------------------------------------------------------
  // The queries

  /** The event's raw category or matched category has this id. */
  predicate InCategory(e: JsEvent, id: string)
  {
    e.category == id || e.matchedCategory.id == id
  }

  /** The ids that ask for every event. */
  predicate AllId(categoryId: string)
  {
    categoryId == "" || categoryId == "all" || categoryId == "ntvstream_all"
  }

  /**
   * `getEventsByCategory` on the list: all of it for an empty id, `all` or `ntvstream_all`;
   * otherwise the events, in order, whose raw or matched category has the id with its first
   * `ntvstream_` removed.
   */
  function EventsByCategory(all: seq<JsEvent>, categoryId: string): (r: seq<JsEvent>)
    ensures AllId(categoryId) ==> r == all
    ensures !AllId(categoryId) ==>
      forall e :: e in r <==> e in all && InCategory(e, ReplaceFirst(categoryId, CatalogPrefix, ""))
    ensures SubseqOf(r, all)
  {
    if AllId(categoryId) then
      SubseqRefl(all);
      all
    else
      var clean := ReplaceFirst(categoryId, CatalogPrefix, "");
      var keep := (e: JsEvent) => InCategory(e, clean);
      FilterMembers(all, keep);
      FilterSubseq(all, keep);
      Filter(all, keep)
  }

  /** A catalog id other than `ntvstream_all` selects on the bare id. */
  lemma CatalogIdSelects(all: seq<JsEvent>, id: string)
    requires id != "all"
    ensures forall e :: e in EventsByCategory(all, CatalogPrefix + id) <==> e in all && InCategory(e, id)
  {
    ReplaceFirstOfPrefixed(CatalogPrefix, id);
    assert !AllId(CatalogPrefix + id) by {
      assert (CatalogPrefix + id)[0] == 'n';
      assert (CatalogPrefix + id)[|CatalogPrefix|..] == id;
      assert "ntvstream_all"[|CatalogPrefix|..] == "all";
    }
  }

  /** The search test for a lower-cased query. */
  predicate MatchesQuery(e: JsEvent, q: string)
  {
    Contains(ToLower(e.name), q) || Contains(ToLower(e.category), q)
  }

  /** `searchEvents` on the list: the events, in order, whose name or raw category contains the query ignoring case. */
  function Search(all: seq<JsEvent>, query: string): (r: seq<JsEvent>)
    ensures forall e :: e in r <==> e in all && MatchesQuery(e, ToLower(query))
    ensures SubseqOf(r, all)
  {
    var q := ToLower(query);
    var keep := (e: JsEvent) => MatchesQuery(e, q);
    FilterMembers(all, keep);
    FilterSubseq(all, keep);
    Filter(all, keep)
  }

  /** The empty query finds every event. */
  lemma SearchEmpty(all: seq<JsEvent>)
    ensures Search(all, "") == all
  {
    forall i | 0 <= i < |all| ensures MatchesQuery(all[i], "") {
      assert OccursAt(ToLower(all[i].name), "", 0);
      ContainsIff(ToLower(all[i].name), "");
    }
    FilterAll(all, (e: JsEvent) => MatchesQuery(e, ToLower("")));
  }

  /** `getEventById` on the list: the first event with that id. */
  function EventById(all: seq<JsEvent>, id: string): (r: Option<JsEvent>)
    ensures r.Some? ==> exists i :: 0 <= i < |all| && all[i] == r.value && r.value.id == id &&
                                   forall j :: 0 <= j < i ==> all[j].id != id
    ensures r.None? <==> forall i :: 0 <= i < |all| ==> all[i].id != id
  {
    var i := FindFrom(all, (e: JsEvent) => e.id == id, 0);
    if i >= 0 then Some(all[i]) else None
  }

  // ---------------------------------------------------------------------------------------
  // The module's cache object

  /** `cache`: one list for every caller, with the time it was stored. */
  class Cache {
    /**
     * The server table, the host's name collation, and the category matcher: the corrected
     * JsConfig.MatchEventToCategory, not the as-written one that reads inherited members.
     */
    const servers: seq<NtvServer>
    const classify: Classifier
    const collate: Collation
    var events: Option<seq<JsEvent>>
    var timestamp: int

    ghost predicate Valid()
      reads this
    {
      EntryValid(events)
    }

    constructor(collation: Collation)
      ensures Valid() && events == None && timestamp == 0
      ensures servers == NtvServers && classify == JsConfig.MatchEventToCategory && collate == collation
    {
      servers := NtvServers;
      classify := JsConfig.MatchEventToCategory;
      collate := collation;
      events := None;
      timestamp := 0;
    }

    /**
     * `fetchAllEvents()`: the stored list while it is younger than two minutes at `now`;
     * otherwise the merged, sorted list without repeated names, stored with the stamp
     * `later` unless it is empty. The user's configuration plays no part.
     */
    method FetchAllEvents(now: int, later: int, pages: string -> Option<seq<Card>>) returns (r: seq<JsEvent>)
      requires Valid()
      modifies this
      ensures Valid()
      ensures r == EventsAnswer(old(events), old(timestamp), now, servers, pages, classify, collate)
      ensures (events, timestamp) == EventsAfter(old(events), old(timestamp), now, later, servers, pages, classify, collate)
    {
      if events.Some? && now - timestamp < Ttl {
        return events.value;
      }
      var all := FetchFromServers(servers, pages, classify);
      if |all| == 0 {
        EventsScraped(events, timestamp, now, later, servers, pages, classify, collate, []);
        return [];
      }
      var sorted := Sort(all, Le(collate));
      r := UniqueByName(sorted);
      EventsScraped(events, timestamp, now, later, servers, pages, classify, collate, r);
      ArrangedValid(all, collate);
      events := Some(r);
      timestamp := later;
    }

    /** `clearCache()`: the next call scrapes again. */
    method ClearCache()
      modifies this
      ensures Valid() && events == None && timestamp == 0
    {
      events := None;
      timestamp := 0;
    }

    /** `getEventsByCategory(categoryId)`. */
    method GetEventsByCategory(categoryId: string, now: int, later: int, pages: string -> Option<seq<Card>>)
      returns (r: seq<JsEvent>)
      requires Valid()
      modifies this
      ensures Valid()
      ensures r == EventsByCategory(EventsAnswer(old(events), old(timestamp), now, servers, pages, classify, collate), categoryId)
      ensures (events, timestamp) == EventsAfter(old(events), old(timestamp), now, later, servers, pages, classify, collate)
    {
      var all := FetchAllEvents(now, later, pages);
      r := EventsByCategory(all, categoryId);
    }

    /** `searchEvents(query)`. */
    method SearchEvents(query: string, now: int, later: int, pages: string -> Option<seq<Card>>)
      returns (r: seq<JsEvent>)
      requires Valid()
      modifies this
      ensures Valid()
      ensures r == Search(EventsAnswer(old(events), old(timestamp), now, servers, pages, classify, collate), query)
      ensures (events, timestamp) == EventsAfter(old(events), old(timestamp), now, later, servers, pages, classify, collate)
    {
      var all := FetchAllEvents(now, later, pages);
      r := Search(all, query);
    }

    /** `getEventById(eventId)`; `None` is `undefined`. */
    method GetEventById(eventId: string, now: int, later: int, pages: string -> Option<seq<Card>>)
      returns (r: Option<JsEvent>)
      requires Valid()
      modifies this
      ensures Valid()
      ensures r == EventById(EventsAnswer(old(events), old(timestamp), now, servers, pages, classify, collate), eventId)
      ensures (events, timestamp) == EventsAfter(old(events), old(timestamp), now, later, servers, pages, classify, collate)
    {
      var all := FetchAllEvents(now, later, pages);
      r := EventById(all, eventId);
    }
  }
}
