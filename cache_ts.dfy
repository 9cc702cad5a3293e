/**
 * `src/scraper.ts`, the cache half: the five-minute caches of event lists and stream lists,
 * the assembly of the event list from every enabled server (sorted live first, then by time,
 * and cleared of names that only differ in case and punctuation), the three queries on that
 * list, and the periodic sweep of old entries.
 */
module TsCache {
  import opened Wrappers
  import opened Text
  import opened Seqs
  import opened Registry
  import TsConfig
  import opened TsEvents
  import opened TsStreams
  import Json

  /** `cache.ttl`: five minutes, in milliseconds. */
  const Ttl: int := 5 * 60 * 1000

  /** `CacheEntry<T>`. */
  datatype Entry<T> = Entry(data: T, timestamp: int)

  /** A lookup at `now` answers from the entry while it is younger than the lifetime. */
  predicate Fresh<T>(e: Entry<T>, now: int)
  {
    now - e.timestamp < Ttl
  }

  /** The sweep at `now` drops the entry once it is older than the lifetime. */
  predicate Expired<T>(e: Entry<T>, now: int)
  {
    now - e.timestamp > Ttl
  }

  // ---------------------------------------------------------------------------------------
  // The key of an event list

  /** `userConfig.servers || {}`. */
  function SwitchesOf(servers: Option<Switches>): Switches
  {
    match servers
    case Some(s) => s
    case None => []
  }

  /** `'all_events_' + JSON.stringify(userConfig.servers || {})`. */
  function EventsKey(servers: Option<Switches>): string
  {
    "all_events_" + Json.Stringify(SwitchesOf(servers))
  }

  /** Two configurations share an event list exactly when they carry the same switches, in the same order. */
  lemma EventsKeyIff(a: Option<Switches>, b: Option<Switches>)
    ensures EventsKey(a) == EventsKey(b) <==> SwitchesOf(a) == SwitchesOf(b)
  {
    if EventsKey(a) == EventsKey(b) {
      var p := "all_events_";
      assert EventsKey(a)[|p|..] == Json.Stringify(SwitchesOf(a));
      assert EventsKey(b)[|p|..] == Json.Stringify(SwitchesOf(b));
      Json.StringifyInjective(SwitchesOf(a), SwitchesOf(b));
    }
  }

  // ---------------------------------------------------------------------------------------
  // Arranging the merged list

  /** The comparator of `allEvents.sort`: live events first, then by time. */
  function Compare(a: SportEvent, b: SportEvent): int
  {
    if a.isLive && !b.isLive then -1
    else if !a.isLive && b.isLive then 1
    else a.time - b.time
  }

  /** `a` may stay before `b`: `compare(a, b) <= 0`. */
  predicate LiveThenTime(a: SportEvent, b: SportEvent)
  {
    Compare(a, b) <= 0
  }

  /** The comparator is consistent: swapping its arguments flips the sign. */
  lemma CompareAntisymmetric(a: SportEvent, b: SportEvent)
    ensures Compare(a, b) == -Compare(b, a)
  {
  }

  /** "May stay before" is a total preorder on any events. */
  lemma LiveThenTimeOrder(u: seq<SportEvent>)
    ensures TotalOn(LiveThenTime, u) && TransitiveOn(LiveThenTime, u) && RefinesOn(LiveThenTime, LiveThenTime, u)
  {
  }

  /** `name.toLowerCase().replace(/[^a-z0-9]/g, '')`. */
  function NormalizedName(name: string): (r: string)
    ensures forall i :: 0 <= i < |r| ==> IsLowerAlnum(r[i]) && r[i] in ToLower(name)
    ensures forall i :: 0 <= i < |name| && IsLowerAlnum(LowerChar(name[i])) ==> LowerChar(name[i]) in r
  {
    var lower := ToLower(name);
    assert forall i :: 0 <= i < |name| ==> lower[i] == LowerChar(name[i]);
    Filter(lower, IsLowerAlnum)
  }

  function NameKey(e: SportEvent): string
  {
    NormalizedName(e.name)
  }

  /** Sort the merged list, then keep the first event of each normalized name. */
  function Arrange(all: seq<SportEvent>): seq<SportEvent>
  {
    Dedup(Sort(all, LiveThenTime), NameKey)
  }

  /**
   * The arranged list: live events before the others, each group in time order; no two
   * events with the same normalized name; every event taken from the input; every
   * normalized name of the input kept; and arranging it again changes nothing.
   */
  lemma ArrangeShape(all: seq<SportEvent>)
    ensures var r := Arrange(all);
      forall i, j :: 0 <= i < j < |r| ==>
        (r[j].isLive ==> r[i].isLive) && (r[i].isLive == r[j].isLive ==> r[i].time <= r[j].time)
    ensures var r := Arrange(all);
      Distinct(Keys(r, NameKey)) && (forall e :: e in r ==> e in all)
    ensures var r := Arrange(all);
      forall i :: 0 <= i < |all| ==> NameKey(all[i]) in Keys(r, NameKey)
    ensures Arrange(Arrange(all)) == Arrange(all)
  {
    ArrangeOrdered(all);
    ArrangeFrom(all);
    ArrangeArranged(all);
  }

  /** The arranged list is sorted by the comparator, and so in the order it promises. */
  lemma ArrangeOrdered(all: seq<SportEvent>)
    ensures SortedBy(Arrange(all), LiveThenTime)
    ensures var r := Arrange(all);
      forall i, j :: 0 <= i < j < |r| ==>
        (r[j].isLive ==> r[i].isLive) && (r[i].isLive == r[j].isLive ==> r[i].time <= r[j].time)
  {
    var sorted := Sort(all, LiveThenTime);
    var r := Dedup(sorted, NameKey);
    LiveThenTimeOrder(all);
    SortSorted(all, LiveThenTime, LiveThenTime, all);
    DedupSubseq(sorted, NameKey, {});
    SubseqSorted(r, sorted, LiveThenTime);
    forall i, j | 0 <= i < j < |r|
      ensures (r[j].isLive ==> r[i].isLive) && (r[i].isLive == r[j].isLive ==> r[i].time <= r[j].time)
    {
      assert LiveThenTime(r[i], r[j]);
    }
  }

  /** The arranged list has distinct normalized names, takes its events from the input and keeps each of its names. */
  lemma ArrangeFrom(all: seq<SportEvent>)
    ensures var r := Arrange(all);
      Distinct(Keys(r, NameKey)) && (forall e :: e in r ==> e in all)
    ensures var r := Arrange(all);
      forall i :: 0 <= i < |all| ==> NameKey(all[i]) in Keys(r, NameKey)
  {
    var sorted := Sort(all, LiveThenTime);
    var r := Dedup(sorted, NameKey);
    DedupKeysFresh(sorted, NameKey, {});
    DedupSubseq(sorted, NameKey, {});
    SubseqElements(r, sorted);
    SortedElements(all);
    ArrangeCovers(all);
  }

  /** Sorting keeps the events of the input. */
  lemma SortedElements(all: seq<SportEvent>)
    ensures forall e :: e in Sort(all, LiveThenTime) ==> e in all
  {
    var sorted := Sort(all, LiveThenTime);
    assert forall e :: e in sorted ==> e in multiset(all);
  }

  /** Every normalized name of the input is the name of an arranged event. */
  lemma ArrangeCovers(all: seq<SportEvent>)
    ensures var r := Arrange(all);
      forall i :: 0 <= i < |all| ==> NameKey(all[i]) in Keys(r, NameKey)
  {
    var sorted := Sort(all, LiveThenTime);
    var r := Dedup(sorted, NameKey);
    DedupCovers(sorted, NameKey, {});
    forall i | 0 <= i < |all| ensures NameKey(all[i]) in Keys(r, NameKey) {
      assert all[i] in multiset(sorted);
      var k :| 0 <= k < |sorted| && sorted[k] == all[i];
    }
  }

  /** Arranging an arranged list changes nothing. */
  lemma ArrangeArranged(all: seq<SportEvent>)
    ensures Arranged(Arrange(all))
  {
    var r := Arrange(all);
    ArrangeOrdered(all);
    DedupKeysFresh(Sort(all, LiveThenTime), NameKey, {});
    SortOfSorted(r, LiveThenTime);
    DedupOfFresh(r, NameKey, {});
  }

  /** The arranged lists are those that arranging leaves alone. */
  ghost predicate Arranged(r: seq<SportEvent>)
  {
    Arrange(r) == r
  }

  // ---------------------------------------------------------------------------------------
  // Assembling the event list

  /** How a scraped event is given its category: `matchEventToCategory` in the running module. */
  type Classifier = (string, string) -> Category

  /**
   * The events of every server, in the order of `servers`; a server whose page cannot be
   * fetched contributes none (`Promise.allSettled` drops a rejected scrape).
   */
  function Merged(servers: seq<Server>, pages: string -> Option<Page>, host: Host, classify: Classifier): seq<SportEvent>
  {
    if servers == [] then []
    else ScrapeEvents(servers[0], pages(servers[0].baseUrl), host, classify) + Merged(servers[1..], pages, host, classify)
  }

  /** The events of one server are well formed for it, also when its page could not be read. */
  lemma ScrapedWellFormed(server: Server, page: Option<Page>, host: Host, classify: Classifier)
    ensures forall e :: e in ScrapeEvents(server, page, host, classify) ==> WellFormed(e, server, classify)
  {
    if page.Some? {
      ScrapeEventsGood(server, page.value, host, classify);
    }
  }

  /** Every merged event is well formed for one of the servers. */
  lemma {:induction false} MergedFrom(servers: seq<Server>, pages: string -> Option<Page>, host: Host, classify: Classifier)
    ensures forall e :: e in Merged(servers, pages, host, classify) ==>
      exists s :: s in servers && WellFormed(e, s, classify)
  {
    if servers != [] {
      var s := servers[0];
      var head := ScrapeEvents(s, pages(s.baseUrl), host, classify);
      var tail := Merged(servers[1..], pages, host, classify);
      assert Merged(servers, pages, host, classify) == head + tail;
      ScrapedWellFormed(s, pages(s.baseUrl), host, classify);
      MergedFrom(servers[1..], pages, host, classify);
      assert forall t :: t in servers[1..] ==> t in servers;
    }
  }

  /** The servers of `table` that `fetchAllEvents` scrapes: those the switches select, by priority. */
  function ServersFor(table: seq<Server>, servers: Option<Switches>): seq<Server>
  {
    EnabledServers(table, (s: Server) => Selected(SwitchesOf(servers), s))
  }

  /** Over the server table they are `getEnabledServers(userConfig.servers || {})`. */
  lemma ServersForTable(servers: Option<Switches>)
    ensures ServersFor(TsConfig.Servers, servers) == TsConfig.GetEnabledServers(SwitchesOf(servers))
  {
  }

  /** The answer of `fetchAllEvents` at time `now` against the cache `cached`. */
  function EventsAnswer(cached: map<string, Entry<seq<SportEvent>>>, servers: Option<Switches>, now: int,
                        pages: string -> Option<Page>, host: Host, table: seq<Server>, classify: Classifier): seq<SportEvent>
  {
    var key := EventsKey(servers);
    if key in cached && Fresh(cached[key], now) then cached[key].data
    else Arrange(Merged(ServersFor(table, servers), pages, host, classify))
  }

  /** The event cache after that call: an entry stamped `later` is stored unless the call answered from the cache. */
  function EventsAfter(cached: map<string, Entry<seq<SportEvent>>>, servers: Option<Switches>, now: int, later: int,
                       pages: string -> Option<Page>, host: Host, table: seq<Server>, classify: Classifier): map<string, Entry<seq<SportEvent>>>
  {
    var key := EventsKey(servers);
    if key in cached && Fresh(cached[key], now) then cached
    else cached[key := Entry(EventsAnswer(cached, servers, now, pages, host, table, classify), later)]
  }

  ghost predicate EventsValid(cached: map<string, Entry<seq<SportEvent>>>)
  {
    forall k :: k in cached ==> Arranged(cached[k].data)
  }

  /**
   * What `fetchAllEvents` answers: an arranged list; when it had to scrape, every event is
   * well formed for a server the switches select, and the stored entry keeps the cache
   * arranged.
   */
  lemma EventsAnswerShape(cached: map<string, Entry<seq<SportEvent>>>, servers: Option<Switches>, now: int, later: int,
                          pages: string -> Option<Page>, host: Host, table: seq<Server>, classify: Classifier)
    requires EventsValid(cached)
    ensures var r := EventsAnswer(cached, servers, now, pages, host, table, classify);
      Arranged(r) && Distinct(Keys(r, NameKey)) &&
      forall i, j :: 0 <= i < j < |r| ==>
        (r[j].isLive ==> r[i].isLive) && (r[i].isLive == r[j].isLive ==> r[i].time <= r[j].time)
    ensures var key := EventsKey(servers);
      !(key in cached && Fresh(cached[key], now)) ==>
        forall e :: e in EventsAnswer(cached, servers, now, pages, host, table, classify) ==>
          exists s :: s in table && Selected(SwitchesOf(servers), s) && WellFormed(e, s, classify)
    ensures EventsValid(EventsAfter(cached, servers, now, later, pages, host, table, classify))
  {
    var key := EventsKey(servers);
    var r := EventsAnswer(cached, servers, now, pages, host, table, classify);
    assert Arranged(r) by {
      if !(key in cached && Fresh(cached[key], now)) {
        ArrangeShape(Merged(ServersFor(table, servers), pages, host, classify));
      }
    }
    ArrangeShape(r);
    ScrapedFrom(table, servers, pages, host, classify);
    EventsAfterValid(cached, servers, now, later, r);
  }

  /** While the entry is fresh, the call answers from it and leaves the cache alone. */
  lemma EventsFromCache(cached: map<string, Entry<seq<SportEvent>>>, servers: Option<Switches>, now: int, later: int,
                        pages: string -> Option<Page>, host: Host, table: seq<Server>, classify: Classifier)
    requires EventsKey(servers) in cached && now - cached[EventsKey(servers)].timestamp < Ttl
    ensures EventsAnswer(cached, servers, now, pages, host, table, classify) == cached[EventsKey(servers)].data
    ensures EventsAfter(cached, servers, now, later, pages, host, table, classify) == cached
  {
  }

  /** Otherwise the call answers the arranged scrape `r` and stores it. */
  lemma EventsScraped(cached: map<string, Entry<seq<SportEvent>>>, servers: Option<Switches>, now: int, later: int,
                      pages: string -> Option<Page>, host: Host, table: seq<Server>, classify: Classifier, r: seq<SportEvent>)
    requires !(EventsKey(servers) in cached && now - cached[EventsKey(servers)].timestamp < Ttl)
    requires r == Dedup(Sort(Merged(ServersFor(table, servers), pages, host, classify), LiveThenTime), NameKey)
    ensures EventsAnswer(cached, servers, now, pages, host, table, classify) == r
    ensures EventsAfter(cached, servers, now, later, pages, host, table, classify) == cached[EventsKey(servers) := Entry(r, later)]
  {
  }

  /** Storing an arranged list keeps the event cache arranged. */
  lemma EventsAfterValid(cached: map<string, Entry<seq<SportEvent>>>, servers: Option<Switches>, now: int, later: int,
                         r: seq<SportEvent>)
    requires EventsValid(cached) && Arranged(r)
    ensures EventsValid(cached[EventsKey(servers) := Entry(r, later)])
  {
  }

  /** A freshly scraped list holds only well-formed events of servers the switches select. */
  lemma ScrapedFrom(table: seq<Server>, servers: Option<Switches>, pages: string -> Option<Page>, host: Host, classify: Classifier)
    ensures forall e :: e in Arrange(Merged(ServersFor(table, servers), pages, host, classify)) ==>
      exists s :: s in table && Selected(SwitchesOf(servers), s) && WellFormed(e, s, classify)
  {
    var list := ServersFor(table, servers);
    ArrangeShape(Merged(list, pages, host, classify));
    MergedFrom(list, pages, host, classify);
  }

  lemma MergedStep(servers: seq<Server>, i: nat, pages: string -> Option<Page>, host: Host, classify: Classifier,
                   all: seq<SportEvent>)
    requires i < |servers|
    ensures all + Merged(servers[i..], pages, host, classify) ==
      (all + ScrapeEvents(servers[i], pages(servers[i].baseUrl), host, classify)) + Merged(servers[i + 1..], pages, host, classify)
  {
    var rest := servers[i..];
    assert rest[0] == servers[i] && rest[1..] == servers[i + 1..];
    MergedCons(rest, pages, host, classify);
    AppendAssoc(all, ScrapeEvents(servers[i], pages(servers[i].baseUrl), host, classify),
                Merged(servers[i + 1..], pages, host, classify));
  }

  lemma MergedCons(servers: seq<Server>, pages: string -> Option<Page>, host: Host, classify: Classifier)
    requires servers != []
    ensures Merged(servers, pages, host, classify) ==
      ScrapeEvents(servers[0], pages(servers[0].baseUrl), host, classify) + Merged(servers[1..], pages, host, classify)
  {
  }

  /** The loop that spreads each server's events into `allEvents`. */
  method FetchFromServers(servers: seq<Server>, pages: string -> Option<Page>, host: Host, classify: Classifier) returns (all: seq<SportEvent>)
    ensures all == Merged(servers, pages, host, classify)
  {
    all := [];
    var i := 0;
    EmptyAppend(Merged(servers, pages, host, classify));
    while i < |servers|
      invariant 0 <= i <= |servers|
      invariant all + Merged(servers[i..], pages, host, classify) == Merged(servers, pages, host, classify)
    {
      var s := servers[i];
      var events := FetchNTVStreamEvents(s, pages(s.baseUrl), host, classify);
      MergedStep(servers, i, pages, host, classify, all);
      all := all + events;
      i := i + 1;
    }
  }

  /** The loop over the sorted list that keeps the first event of each normalized name. */
  method UniqueByName(sorted: seq<SportEvent>) returns (unique: seq<SportEvent>)
    ensures unique == Dedup(sorted, NameKey)
  {
    unique := [];
    var seen: set<string> := {};
    var i := 0;
    EmptyAppend(Dedup(sorted, NameKey));
    while i < |sorted|
      invariant 0 <= i <= |sorted|
      invariant unique + DedupFrom(sorted[i..], NameKey, seen) == Dedup(sorted, NameKey)
    {
      var name := NameKey(sorted[i]);
      assert sorted[i..][1..] == sorted[i + 1..];
      if name !in seen {
        assert unique + DedupFrom(sorted[i..], NameKey, seen) ==
          (unique + [sorted[i]]) + DedupFrom(sorted[i + 1..], NameKey, seen + {name});
        seen := seen + {name};
        unique := unique + [sorted[i]];
      }
      i := i + 1;
    }
  }

  // ---------------------------------------------------------------------------------------
  // The stream cache

  /** The answer of `fetchStreamUrls` at time `now` against the cache `cached`. */
  function StreamsAnswer(cached: map<string, Entry<seq<ScrapedStream>>>, eventUrl: string, server: Server, now: int,
                         fetch: string -> Option<Doc>, resolve: Resolver): seq<ScrapedStream>
  {
    if eventUrl in cached && Fresh(cached[eventUrl], now) then cached[eventUrl].data
    else StreamsUncached(eventUrl, server, fetch, resolve).0
  }

  /** The stream cache after that call: an entry stamped `later` is stored when the page was read and extracted. */
  function StreamsAfter(cached: map<string, Entry<seq<ScrapedStream>>>, eventUrl: string, server: Server, now: int, later: int,
                        fetch: string -> Option<Doc>, resolve: Resolver): map<string, Entry<seq<ScrapedStream>>>
  {
    if eventUrl in cached && Fresh(cached[eventUrl], now) then cached
    else
      var (streams, cacheable) := StreamsUncached(eventUrl, server, fetch, resolve);
      if cacheable then cached[eventUrl := Entry(streams, later)] else cached
  }

  ghost predicate StreamsValid(cached: map<string, Entry<seq<ScrapedStream>>>)
  {
    forall k :: k in cached ==> |cached[k].data| >= 1
  }

  /**
   * `fetchStreamUrls` never answers an empty list; a failed fetch is answered with the
   * fallback and not stored; and the cache stays free of empty lists.
   */
  lemma StreamsAnswerShape(cached: map<string, Entry<seq<ScrapedStream>>>, eventUrl: string, server: Server, now: int, later: int,
                           fetch: string -> Option<Doc>, resolve: Resolver)
    requires StreamsValid(cached)
    ensures |StreamsAnswer(cached, eventUrl, server, now, fetch, resolve)| >= 1
    ensures !(eventUrl in cached && Fresh(cached[eventUrl], now)) && fetch(eventUrl).None? ==>
      StreamsAnswer(cached, eventUrl, server, now, fetch, resolve) == [Fallback(eventUrl, server)] &&
      StreamsAfter(cached, eventUrl, server, now, later, fetch, resolve) == cached
    ensures StreamsValid(StreamsAfter(cached, eventUrl, server, now, later, fetch, resolve))
  {
    StreamsUncachedShape(eventUrl, server, fetch, resolve);
  }

  // ---------------------------------------------------------------------------------------
  // The sweep

  /** The entries the sweep at `now` keeps. */
  function Unexpired<T>(m: map<string, Entry<T>>, now: int): map<string, Entry<T>>
  {
    map k | k in m && !Expired(m[k], now) :: m[k]
  }

  /**
   * The sweep never removes an entry that a lookup at `now` or later would answer from, so
   * no answer changes; an entry exactly one lifetime old is the one kept without being used.
   */
  lemma SweepKeepsAnswers(cached: map<string, Entry<seq<SportEvent>>>, servers: Option<Switches>, now: int, t: int,
                          pages: string -> Option<Page>, host: Host, table: seq<Server>, classify: Classifier)
    requires now <= t
    ensures EventsAnswer(Unexpired(cached, now), servers, t, pages, host, table, classify) ==
      EventsAnswer(cached, servers, t, pages, host, table, classify)
    ensures forall k :: k in Unexpired(cached, now) && !Fresh(cached[k], now) ==> now - cached[k].timestamp == Ttl
  {
    var key := EventsKey(servers);
    if key in cached && Fresh(cached[key], t) {
      assert key in Unexpired(cached, now);
    }
  }

  /** The streams half of the same fact. */
  lemma SweepKeepsStreams(cached: map<string, Entry<seq<ScrapedStream>>>, eventUrl: string, server: Server, now: int, t: int,
                          fetch: string -> Option<Doc>, resolve: Resolver)
    requires now <= t
    ensures StreamsAnswer(Unexpired(cached, now), eventUrl, server, t, fetch, resolve) ==
      StreamsAnswer(cached, eventUrl, server, t, fetch, resolve)
  {
    if eventUrl in cached && Fresh(cached[eventUrl], t) {
      assert eventUrl in Unexpired(cached, now);
    }
  }

  /** One `for ... of map.entries()` loop of the sweep, deleting each expired entry. */
  method SweepMap<T>(m: map<string, Entry<T>>, now: int) returns (r: map<string, Entry<T>>)
    ensures r == Unexpired(m, now)
  {
    r := m;
    var pending := m.Keys;
    while pending != {}
      invariant pending <= m.Keys
      invariant forall k :: k in r <==> k in m && (k in pending || !Expired(m[k], now))
      invariant forall k :: k in r ==> r[k] == m[k]
      decreases pending
    {
      var k :| k in pending;
      if now - r[k].timestamp > Ttl {
        r := r - {k};
      }
      pending := pending - {k};
    }
  }

  // ---------------------------------------------------------------------------------------
  // The queries

  /** The event carries the category with this id. */
  predicate InCategory(e: SportEvent, id: string)
  {
    e.matchedCategory.Some? && e.matchedCategory.value.id == id
  }

  /**
   * `getEventsByCategory` on the list: all of it for an empty id or `all`; otherwise the
   * events, in order, whose category has the id with its first `ntvstream_` removed.
   */
  function EventsByCategory(all: seq<SportEvent>, categoryId: string): (r: seq<SportEvent>)
    ensures categoryId == "" || categoryId == "all" ==> r == all
    ensures categoryId != "" && categoryId != "all" ==>
      forall e :: e in r <==> e in all && InCategory(e, ReplaceFirst(categoryId, CatalogPrefix, ""))
    ensures SubseqOf(r, all)
  {
    if categoryId == "" || categoryId == "all" then
      SubseqRefl(all);
      all
    else
      var clean := ReplaceFirst(categoryId, CatalogPrefix, "");
      var keep := (e: SportEvent) => InCategory(e, clean);
      FilterMembers(all, keep);
      FilterSubseq(all, keep);
      Filter(all, keep)
  }

  /** A catalog id asks for the events of its category. */
  lemma CatalogIdSelects(all: seq<SportEvent>, id: string)
    ensures forall e :: e in EventsByCategory(all, CatalogPrefix + id) <==> e in all && InCategory(e, id)
  {
    ReplaceFirstOfPrefixed(CatalogPrefix, id);
    assert CatalogPrefix + id != "" && CatalogPrefix + id != "all" by {
      assert (CatalogPrefix + id)[0] == 'n';
    }
  }

  /** The search test for a lower-cased query. */
  predicate MatchesQuery(e: SportEvent, q: string)
  {
    Contains(ToLower(e.name), q) ||
    (e.category != "" && Contains(ToLower(e.category), q)) ||
    (e.matchedCategory.Some? && Contains(ToLower(e.matchedCategory.value.name), q))
  }

  /** `searchEvents` on the list: the events, in order, whose name or category contains the query ignoring case. */
  function Search(all: seq<SportEvent>, query: string): (r: seq<SportEvent>)
    ensures forall e :: e in r <==> e in all && MatchesQuery(e, ToLower(query))
    ensures SubseqOf(r, all)
  {
    var q := ToLower(query);
    var keep := (e: SportEvent) => MatchesQuery(e, q);
    FilterMembers(all, keep);
    FilterSubseq(all, keep);
    Filter(all, keep)
  }

  /** The empty query finds every event. */
  lemma SearchEmpty(all: seq<SportEvent>)
    ensures Search(all, "") == all
  {
    forall i | 0 <= i < |all| ensures MatchesQuery(all[i], "") {
      assert OccursAt(ToLower(all[i].name), "", 0);
      ContainsIff(ToLower(all[i].name), "");
    }
    FilterAll(all, (e: SportEvent) => MatchesQuery(e, ToLower("")));
  }

  /** `getEventById` on the list: the first event with that id. */
  function EventById(all: seq<SportEvent>, id: string): (r: Option<SportEvent>)
    ensures r.Some? ==> exists i :: 0 <= i < |all| && all[i] == r.value && r.value.id == id &&
                                   forall j :: 0 <= j < i ==> all[j].id != id
    ensures r.None? <==> forall i :: 0 <= i < |all| ==> all[i].id != id
  {
    var i := FindFrom(all, (e: SportEvent) => e.id == id, 0);
    if i >= 0 then Some(all[i]) else None
  }

  // ---------------------------------------------------------------------------------------
  // The module's cache object

  /** The scrape of every server in `servers`, sorted and without repeated names: an arranged list. */
  method ScrapeArranged(servers: seq<Server>, pages: string -> Option<Page>, host: Host, classify: Classifier)
    returns (r: seq<SportEvent>)
    ensures r == Arrange(Merged(servers, pages, host, classify)) && Arranged(r)
  {
    var all := FetchFromServers(servers, pages, host, classify);
    var sorted := Sort(all, LiveThenTime);
    r := UniqueByName(sorted);
    ArrangeArranged(all);
  }

  /** The two maps of `cache`, each entry stamped with the time it was stored. */
  class Cache {
    /** The server table and the category matcher the module imports. */
    const table: seq<Server>
    const classify: Classifier
    var events: map<string, Entry<seq<SportEvent>>>
    var streams: map<string, Entry<seq<ScrapedStream>>>

    /** Stored event lists are arranged and stored stream lists are not empty. */
    ghost predicate Valid()
      reads this
    {
      EventsValid(events) && StreamsValid(streams)
    }

    constructor()
      ensures Valid() && events == map[] && streams == map[]
      ensures table == TsConfig.Servers && classify == TsConfig.MatchEventToCategory
    {
      table := TsConfig.Servers;
      classify := TsConfig.MatchEventToCategory;
      events := map[];
      streams := map[];
    }

    /**
     * `fetchAllEvents(userConfig)`: the cached list while it is fresh at `now`; otherwise
     * the scraped, sorted and deduplicated list, stored with the stamp `later`.
     */
    method FetchAllEvents(servers: Option<Switches>, now: int, later: int, pages: string -> Option<Page>, host: Host)
      returns (r: seq<SportEvent>)
      requires Valid()
      modifies this
      ensures Valid()
      ensures r == EventsAnswer(old(events), servers, now, pages, host, table, classify)
      ensures events == EventsAfter(old(events), servers, now, later, pages, host, table, classify)
      ensures streams == old(streams)
    {
      var key := EventsKey(servers);
      if key in events && now - events[key].timestamp < Ttl {
        EventsFromCache(events, servers, now, later, pages, host, table, classify);
        return events[key].data;
      }
      var list := ServersFor(table, servers);
      r := ScrapeArranged(list, pages, host, classify);
      EventsScraped(events, servers, now, later, pages, host, table, classify, r);
      EventsAfterValid(events, servers, now, later, r);
      events := events[key := Entry(r, later)];
    }

    /**
     * `fetchStreamUrls(eventUrl, server)`: the cached list while it is fresh at `now`;
     * otherwise the scraped list, stored with the stamp `later` when the page was read.
     */
    method FetchStreamUrls(eventUrl: string, server: Server, now: int, later: int,
                           fetch: string -> Option<Doc>, resolve: Resolver)
      returns (r: seq<ScrapedStream>)
      requires Valid()
      modifies this
      ensures Valid() && |r| >= 1
      ensures r == StreamsAnswer(old(streams), eventUrl, server, now, fetch, resolve)
      ensures streams == StreamsAfter(old(streams), eventUrl, server, now, later, fetch, resolve)
      ensures events == old(events)
    {
      StreamsAnswerShape(streams, eventUrl, server, now, later, fetch, resolve);
      if eventUrl in streams && now - streams[eventUrl].timestamp < Ttl {
        return streams[eventUrl].data;
      }
      var cacheable;
      r, cacheable := FetchStreamsUncached(eventUrl, server, fetch, resolve);
      if cacheable {
        streams := streams[eventUrl := Entry(r, later)];
      }
    }

    /** `getEventsByCategory(categoryId, userConfig)`. */
    method GetEventsByCategory(categoryId: string, servers: Option<Switches>, now: int, later: int,
                               pages: string -> Option<Page>, host: Host)
      returns (r: seq<SportEvent>)
      requires Valid()
      modifies this
      ensures Valid()
      ensures r == EventsByCategory(EventsAnswer(old(events), servers, now, pages, host, table, classify), categoryId)
      ensures events == EventsAfter(old(events), servers, now, later, pages, host, table, classify)
      ensures streams == old(streams)
    {
      var all := FetchAllEvents(servers, now, later, pages, host);
      r := EventsByCategory(all, categoryId);
    }

    /** `searchEvents(query, userConfig)`. */
    method SearchEvents(query: string, servers: Option<Switches>, now: int, later: int,
                        pages: string -> Option<Page>, host: Host)
      returns (r: seq<SportEvent>)
      requires Valid()
      modifies this
      ensures Valid()
      ensures r == Search(EventsAnswer(old(events), servers, now, pages, host, table, classify), query)
      ensures events == EventsAfter(old(events), servers, now, later, pages, host, table, classify)
      ensures streams == old(streams)
    {
      var all := FetchAllEvents(servers, now, later, pages, host);
      r := Search(all, query);
    }

    /** `getEventById(eventId, userConfig)`; `None` is `undefined`. */
    method GetEventById(eventId: string, servers: Option<Switches>, now: int, later: int,
                        pages: string -> Option<Page>, host: Host)
      returns (r: Option<SportEvent>)
      requires Valid()
      modifies this
      ensures Valid()
      ensures r == EventById(EventsAnswer(old(events), servers, now, pages, host, table, classify), eventId)
      ensures events == EventsAfter(old(events), servers, now, later, pages, host, table, classify)
      ensures streams == old(streams)
    {
      var all := FetchAllEvents(servers, now, later, pages, host);
      r := EventById(all, eventId);
    }

    /** The timer's sweep at `now`: both maps lose their expired entries. */
    method Sweep(now: int)
      requires Valid()
      modifies this
      ensures Valid()
      ensures events == Unexpired(old(events), now)
      ensures streams == Unexpired(old(streams), now)
    {
      events := SweepMap(events, now);
      streams := SweepMap(streams, now);
    }
  }
}
