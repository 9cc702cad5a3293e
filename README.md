# NTVStream Sports, modelled in Dafny

NTVStream Sports is a Stremio add-on. It scrapes sports-event listings from the
ntvstream.cx mirrors and offers them to Stremio as catalogs (one per sport), as meta
entries and as streams. The repository holds two versions of the same add-on, and this
project models each on its own terms:

* the TypeScript version (`src/config.ts`, `src/scraper.ts`, `src/addon.ts`):
  * a table of servers and sport categories, with keyword classification;
  * a scraper that tries eleven event selectors and a direct-link scan;
  * stream extraction from iframes, video tags, m3u8/mpd/mp4 addresses and server links,
    following embedded players one hop deep;
  * two five-minute caches, keyed by the user's server switches and by event URL, swept
    periodically;
  * the Stremio catalog, meta and stream handlers, with pagination and the direct-or-external
    decision for each stream;
* the JavaScript version (`servers.js`, `scraper.js`), which differs throughout:
  * it scrapes six fixed `.match-card` pages;
  * it reads the watch link out of an `onclick` attribute and a source count out of the card;
  * it sorts live first, then by source count, then by name;
  * it keeps one two-minute cache for everything;
  * its `matchEventToCategory` takes a fast path on the card's own category.

Modules:

| module | what it holds |
|---|---|
| `Wrappers` | `Option` |
| `Text` | JavaScript string operations (ASCII case mapping, trimming, `indexOf`, `includes`, `replace` of a first occurrence, decimal rendering) |
| `Seqs` | a stable insertion sort (`Array.prototype.sort`), `filter`, `findIndex` and first-of-each-key deduplication |
| `UrlScan` | the global `https?://…\.m3u8…` style regular expressions as a scan over the page text |
| `Encoding` | UTF-8 and base64, for the TypeScript event identifier |
| `EventIds` | the normalisation shared by both identifiers |
| `Registry` | the shapes of servers and categories and the lookups both configurations share |
| `TsConfig`, `JsConfig` | the two configurations and their functions |
| `Json` | `JSON.stringify` of the server switches, with a reader that proves it injective |
| `TsEvents`, `TsStreams`, `TsCache` | the TypeScript scraper |
| `JsEvents`, `JsStreams`, `JsCache` | the JavaScript scraper |
| `Addon` | the TypeScript handlers |

How side effects are modelled:

* The HTML a page yields is a value: a `Page`/`Doc` record holding what the selectors find.
* Fetching is a function from URL to `Option` of that value.
* `new URL(…)` is an injected resolver that may fail.
* `Date.now()` becomes explicit `now`/`later` parameters.
* The caches are classes with `map` fields, or a field pair, that their methods update.

## Model

| member | source | states |
|---|---|---|
| TsConfig.CategoryIdsListed | src/config.ts:99-229 | the categories' ids are, in declaration order, the listed keys |
| TsConfig.CategoryIdsDistinct | src/config.ts:99-229 | no two categories share an id |
| TsConfig.ServerIdsDistinct | src/config.ts:7-97 | no two servers share an id |
| TsConfig.GetCatalogDefinitions | src/config.ts:231-241 | one catalog per category, in declaration order, its id the category's id behind `ntvstream_` |
| TsConfig.GetEnabledServers | src/config.ts:244-253 | exactly the servers switched on, or left unset and enabled by default, in ascending priority, each once |
| TsConfig.GetCategoryById | src/config.ts:256-259 | as intended: `Some` exactly of the category whose id is the argument with its first `ntvstream_` removed, `None` when there is no such category |
| TsConfig.GetCategoryByIdAsWritten | src/config.ts:256-259 | as written: the property read on `CATEGORIES`, which also finds inherited members |
| TsConfig.CatalogIdsResolve | src/config.ts:231-259 | every catalog id that `getCatalogDefinitions` hands out leads back, through `getCategoryById`, to its own category |
| TsConfig.NoCategoryIsConstructor | src/config.ts:99-229 | no category has the id `constructor` |
| TsConfig.GetCategoryByIdInherited | src/config.ts:256-259 | `ntvstream_constructor` finds the inherited `Object.prototype.constructor` as written, and nothing as intended |
| TsConfig.MatchEventToCategory | src/config.ts:262-274 | the first category in declaration order with a keyword inside the lower-cased `name + " " + description`; `other_sports` when none has one |
| TsConfig.NcaaTextLowered | src/config.ts:262-266 | the text built from `NCAA Basketball` lower-cases to `ncaa basketball ` |
| TsConfig.FootballMissesNcaa | src/config.ts:100-107 | no football keyword occurs in that text |
| TsConfig.AmericanFootballHitsNcaa | src/config.ts:108-115 | American football's keyword `ncaa` occurs in it |
| TsConfig.NcaaKeywordCategory | src/config.ts:262-274 | the keyword search over that text settles on American football |
| TsConfig.NcaaBasketballIsAmericanFootball | src/config.ts:108-122 | declaration order decides overlapping keywords: `NCAA Basketball` is classified as American football, not basketball |
| JsConfig.CategoryIdsListed | servers.js:66-212 | the categories' ids are, in declaration order, the listed keys |
| JsConfig.CategoryIdsDistinct | servers.js:66-212 | no two categories share an id |
| JsConfig.ServerIdsDistinct | servers.js:6-64 | no two servers share an id |
| JsConfig.GetCatalogDefinitions | servers.js:214-224 | one catalog per category, in declaration order, its id the category's id behind `ntvstream_` |
| JsConfig.GetEnabledServers | servers.js:227-231 | the argument plays no part: exactly the servers whose table entry is enabled, in ascending priority, each once |
| JsConfig.OnlyNtvstreamAtZero | servers.js:6-64 | `ntvstream` has priority 0, strictly below every other server |
| JsConfig.NtvstreamFirst | servers.js:227-231 | the enabled servers start with `ntvstream` |
| JsConfig.GetCategoryById | servers.js:234-237 | as intended: the category whose id is the argument with its first `ntvstream_` removed, or `None` |
| JsConfig.GetCategoryByIdAsWritten | servers.js:234-237 | as written: the property read, inherited members included |
| JsConfig.CatalogIdsResolve | servers.js:214-237 | every catalog id leads back to its own category |
| JsConfig.NoCategoryIsConstructor | servers.js:66-212 | no category has the id `constructor` |
| JsConfig.GetCategoryByIdInherited | servers.js:234-237 | `ntvstream_constructor` finds `Object.prototype.constructor` as written and nothing as intended |
| JsConfig.KeywordSearch | servers.js:248-257 | the first category in declaration order with a keyword in the lower-cased `name + " " + category`, else `other` |
| JsConfig.MatchEventToCategory | servers.js:240-258 | as intended: a non-empty category whose lower-cased form is a category id picks that category; otherwise the keyword search decides |
| JsConfig.MatchEventToCategoryAsWritten | servers.js:240-258 | as written: the fast path takes any truthy property read, inherited members included |
| JsConfig.ConstructorCategoryInherited | servers.js:244-246 | the raw category `constructor` sends every event to `Object.prototype.constructor` as written; as intended, the keyword search decides |
| Registry.CatalogDefinitions | src/config.ts:231-241 | one catalog per category, in order: the id behind `ntvstream_`, the category's type, its icon and name as the title, and the optional `skip` and `search` extras |
| Registry.FindByIdFrom | src/config.ts:256-259 | an entry at or after the start with that id; `None` exactly when no entry there has it |
| Registry.FindById | src/config.ts:256-259 | an own-property lookup: `Some` of an entry with that id exactly when one exists |
| Registry.FindByIdOfEntry | src/config.ts:256-259 | in a table with distinct ids, looking up an entry's id finds that entry |
| Registry.ConstructorIdCleaned | src/config.ts:257 | stripping the first `ntvstream_` off `ntvstream_constructor` leaves `constructor` |
| Registry.HitsKeyword | src/config.ts:266-270 | the inner loop: true exactly when some keyword occurs in the text |
| Registry.FirstHit | src/config.ts:265-273 | the index of the first category with a keyword in the text, and -1 exactly when none has one |
| Registry.KeywordCategory | src/config.ts:262-274 | the first category in declaration order with a keyword in the text; the fallback when there is none |
| Registry.KeywordCategoryAt | src/config.ts:265-273 | the category at `i` wins when it has a keyword and none before it has |
| Registry.MissesByChars | src/config.ts:266-270 | no keyword occurs when each keyword has a character the lower-cased text lacks |
| Registry.Get | src/config.ts:247-250 | `userConfig[key]`: `None` exactly when no switch has that key; otherwise the value of a switch with that key |
| Registry.SortByPriority | src/config.ts:252 | the result is ordered by ascending priority and is a permutation of the input |
| Registry.EnabledServers | src/config.ts:244-253 | exactly the selected servers of the table, ascending by priority, without repeats when the table has none |
| Registry.ReadProperty | servers.js:234-237 | a property read: an own entry exactly when a category has that id; an inherited member exactly when none has it and the key names a member of `Object.prototype` |
| EventIds.Underscore | src/scraper.ts:34 | every character outside `a-z0-9` becomes `_`; length and the other characters kept |
| EventIds.Collapse | src/scraper.ts:35 | no two underscores in a row remain; the first character and the set of characters are kept; only underscores are removed, so every other character occurs as often as before; the text does not grow |
| EventIds.CleanName | src/scraper.ts:32-36 | the normalised name has at most `n` characters, each in `a-z0-9_`, with no doubled underscore |
| Encoding.Utf8Char | src/scraper.ts:37 | the UTF-8 encoding of one scalar value has one to four bytes |
| Encoding.Utf8 | src/scraper.ts:37 | `Buffer.from(name)`: at least one byte per character |
| Encoding.Utf8Append | src/scraper.ts:37 | the bytes of a concatenation are the bytes of its parts, in order |
| Encoding.Digit | src/scraper.ts:37 | the base64 digit of a 6-bit value is one of `A-Z`, `a-z`, `0-9`, `+`, `/` |
| Encoding.Base64 | src/scraper.ts:37 | `toString('base64')`: four characters for each started group of three bytes, all from the base64 alphabet or `=` |
| Encoding.Base64HasNoUnderscore | src/scraper.ts:37-38 | base64 text holds no `_`, so the hash part of an identifier has none |
| TsEvents.GenerateEventId | src/scraper.ts:31-39 | the identifier starts with `ntv_` and has at most 63 characters |
| TsEvents.LastIndex | src/scraper.ts:38 | the position of the last occurrence of a character, -1 exactly when there is none |
| TsEvents.LastIndexAt | src/scraper.ts:38 | a position holding the character, with none after it, is the last index |
| TsEvents.SplitId | src/scraper.ts:38 | an identifier splits at its last underscore into `ntv_` + name and the hash |
| TsEvents.EventIdParts | src/scraper.ts:31-39 | an identifier splits at its last underscore into `ntv_`, the name normalised and cut to 50, and the first 8 characters of the base64 of its UTF-8 bytes |
| TsEvents.EventIdDetermines | src/scraper.ts:31-39 | equal identifiers come from names with the same normalised form and the same hash |
| TsEvents.ParseEventTime | src/scraper.ts:44-63 | the current time for an empty text, a text containing `live`, `now` or `playing`, or an unparsable date; the parsed date otherwise |
| TsEvents.FirstLongAt | src/scraper.ts:226-233 | the position of the first (already trimmed) text longer than three characters from `k` on, or the end when there is none |
| TsEvents.FirstLongText | src/scraper.ts:226-233 | `Some` of the first trimmed name text longer than three characters, `None` exactly when there is none |
| TsEvents.ElementName | src/scraper.ts:225-236 | longer than three characters when a name node has a long text; at most 100 characters when it falls back to the element's own text |
| TsEvents.ElementLink | src/scraper.ts:245-248 | a link exactly when the first link's `href`, the element's `href`, `data-link` or `data-href` is truthy |
| TsEvents.TextOrData | src/scraper.ts:253-254 | the trimmed node text when not empty, else the data attribute, else `""` |
| TsEvents.MakeEvent | src/scraper.ts:268-281 | the event has the generated id, the name, the server id and the category the classifier gives |
| TsEvents.ProcessElement | src/scraper.ts:220-285 | the `.each` callback for one element, equal to one step of the main scan |
| TsEvents.ProcessLink | src/scraper.ts:289-318 | the callback of the direct-link scan, equal to one step of the link scan |
| TsEvents.FetchNTVStreamEvents | src/scraper.ts:192-325 | the loops give exactly the scrape function's events |
| TsEvents.LiveLabelSaysLive | src/scraper.ts:273 | the live label contains `live` |
| TsEvents.GoodRecord | src/scraper.ts:242 | recording a lower-cased name keeps the scan invariant |
| TsEvents.GoodPush | src/scraper.ts:268-281 | pushing a well-formed event under a new name, and recording it, keeps the invariant |
| TsEvents.MainStepGood | src/scraper.ts:220-285 | one element keeps the invariant, only appends, and appends at most one event |
| TsEvents.AnchorStepGood | src/scraper.ts:289-318 | one link keeps the invariant and appends at most one event, which is live |
| TsEvents.AnchorStepCases | src/scraper.ts:295-313 | a link leaves the state alone, only records its name, or pushes a live event under a new name longer than five characters |
| TsEvents.AnchorPushGood | src/scraper.ts:295-313 | pushing a link's event under a new name keeps the invariant, and the pushed event is live |
| TsEvents.AnchorEventGood | src/scraper.ts:297-313 | a link's event is well formed, live, stamped with the current time, with an empty category and a name longer than five characters |
| TsEvents.ExtendsTrans | src/scraper.ts:217 | "only appends and only adds names" is transitive |
| TsEvents.MainScanGood | src/scraper.ts:220-285 | one selector's elements keep the invariant and append at most one event each |
| TsEvents.MainScanAllGood | src/scraper.ts:219-286 | all selectors in turn keep the invariant, at most one event per element |
| TsEvents.AnchorScanGood | src/scraper.ts:289-318 | the link scan keeps the invariant, at most one event per link, every appended event live |
| TsEvents.ScrapeEventsGood | src/scraper.ts:192-325 | every event well formed (the generated id, a name of at least 3 characters, the server's id and name, the classifier's category with its poster and description, the live label exactly for live events); no two names equal ignoring case; at most one event per element and link; the main-scan events first, then only live link events |
| TsStreams.IframeLoop | src/scraper.ts:101-114 | the iframe loop equals the iframe scan; `None` when a resolution throws |
| TsStreams.VideoLoop | src/scraper.ts:117-128 | the video loop equals the video scan |
| TsStreams.UrlLoop | src/scraper.ts:131-167 | one regex stage's `forEach` equals its push function |
| TsStreams.ItemLoop | src/scraper.ts:170-184 | the server-link loop equals its scan |
| TsStreams.ProcessItem | src/scraper.ts:175-183 | one server link: fails exactly when its step fails, and otherwise leaves the step's new streams and seen set |
| TsStreams.ExtractStreamUrls | src/scraper.ts:95-187 | the stages, run in order, give exactly the specification function's result, `None` when a resolution throws |
| TsStreams.ExtendsTrans | src/scraper.ts:98 | "only appends and only adds seen URLs" is transitive |
| TsStreams.PushExtends | src/scraper.ts:106-111 | pushing a stream and recording its URL only appends and keeps every URL recorded |
| TsStreams.IframeScanShape | src/scraper.ts:101-114 | the stage only appends, records every URL, and each entry is an embed titled `Embedded Player` whose URL contains `embed`, `player` or `stream`, without headers |
| TsStreams.VideoScanShape | src/scraper.ts:117-128 | the video stage appends only plain entries without headers |
| TsStreams.ItemStepShape | src/scraper.ts:170-184 | one server link keeps the invariant and pushes at most one plain entry |
| TsStreams.ItemStepCases | src/scraper.ts:175-183 | a server link leaves the state alone or pushes one plain entry and records its URL |
| TsStreams.PushPlain | src/scraper.ts:177-182 | pushing a plain entry keeps the invariant |
| TsStreams.PlainJoin | src/scraper.ts:170-184 | plain entries appended in two stretches are plain entries appended in one |
| TsStreams.ItemScanShape | src/scraper.ts:170-184 | the server-link stage appends only plain entries |
| TsStreams.UrlPushShape | src/scraper.ts:131-167 | each appended entry is a match not seen before, with the stage's title, not an embed, and no poster or thumbnail in the mp4 stage; no two alike |
| TsStreams.ExtractShape | src/scraper.ts:95-187 | the iframes first, as the only embeds; then plain entries; none with headers yet |
| TsStreams.RegexStreamIsUrl | src/scraper.ts:131-141 | every HLS entry is a match of the regex: a scheme, `.m3u8`, and no excluded character |
| TsStreams.IframeRelativeDuplicate | src/scraper.ts:103-106 | the duplicate test looks at the raw source while the set records the resolved URL, so two iframes with the same relative source are both pushed |
| TsStreams.FirstSuccess | src/scraper.ts:79-87 | the outcome of a successful attempt before which every attempt failed, or `None` exactly when every attempt fails |
| TsStreams.FetchWithRetry | src/scraper.ts:68-90 | at most `retries + 1` attempts; on success the last attempt's outcome, every earlier attempt having failed; on failure all `retries + 1` attempts were made |
| TsStreams.Annotate | src/scraper.ts:346-352 | the same streams, in order, each with the `Referer` and `User-Agent` headers |
| TsStreams.EmbedUrls | src/scraper.ts:355 | exactly the URLs of the embeds |
| TsStreams.EmbedUrlsAppend | src/scraper.ts:355 | the embed URLs of a concatenation are those of its parts, in order and with duplicates kept |
| TsStreams.Urls | src/scraper.ts:373 | exactly the URLs of the streams |
| TsStreams.FetchChild | src/scraper.ts:358-370 | one embed's annotated streams, none when its fetch fails |
| TsStreams.FollowEmbeds | src/scraper.ts:357-371 | the children of every embed, in order |
| TsStreams.MergeLoop | src/scraper.ts:373-379 | the merge loop equals the merge function |
| TsStreams.FetchStreamsUncached | src/scraper.ts:338-405 | the uncached path equals the specification function, with whether its result may be stored |
| TsStreams.DiscoveredAnnotated | src/scraper.ts:360-366 | every discovered stream carries the headers |
| TsStreams.DiscoveredFrom | src/scraper.ts:357-371 | every discovered stream comes from one of the embeds: the follow is one hop deep |
| TsStreams.MergeFromShape | src/scraper.ts:373-379 | the merge appends children with non-empty URLs not seen yet, pairwise different, in order |
| TsStreams.StreamsUncachedShape | src/scraper.ts:338-405 | never empty; either the lone watch-in-browser entry, or the annotated page streams followed by new, non-empty, pairwise-different children |
| TsCache.EventsKeyIff | src/scraper.ts:415 | two configurations share a cache key exactly when they carry the same switches |
| TsCache.CompareAntisymmetric | src/scraper.ts:438-442 | swapping the comparator's arguments flips its sign |
| TsCache.LiveThenTimeOrder | src/scraper.ts:438-442 | the comparator is a total preorder |
| TsCache.NormalizedName | src/scraper.ts:449 | the key keeps exactly the lower-case letters and digits of the lower-cased name |
| TsCache.ArrangeShape | src/scraper.ts:437-454 | live events first, then by time; distinct normalized names; events from the input; every name kept; arranging again changes nothing |
| TsCache.ArrangeOrdered | src/scraper.ts:438-442 | the arranged list is sorted live first, then by time |
| TsCache.ArrangeFrom | src/scraper.ts:444-454 | distinct names, events taken from the input, every input name kept |
| TsCache.SortedElements | src/scraper.ts:438-442 | sorting keeps only events of the input |
| TsCache.ArrangeCovers | src/scraper.ts:444-454 | every normalized name of the input names an arranged event |
| TsCache.ArrangeArranged | src/scraper.ts:437-454 | arranging an arranged list changes nothing |
| TsCache.ScrapedWellFormed | src/scraper.ts:192-325 | every event of one server is well formed for it, also for an unreadable page |
| TsCache.MergedFrom | src/scraper.ts:425-435 | every merged event is well formed for one of the servers |
| TsCache.ServersForTable | src/scraper.ts:421 | over the server table, the scraped servers are `getEnabledServers(userConfig.servers \|\| {})` |
| TsCache.EventsAnswerShape | src/scraper.ts:413-463 | the answer is arranged; a scrape gives only well-formed events of selected servers; the cache stays arranged |
| TsCache.EventsFromCache | src/scraper.ts:416-419 | while the entry is fresh, the answer is the stored list and the cache is unchanged |
| TsCache.EventsScraped | src/scraper.ts:421-462 | otherwise the answer is the arranged scrape, stored under the key with the new stamp |
| TsCache.EventsAfterValid | src/scraper.ts:457-460 | storing an arranged list keeps the event cache arranged |
| TsCache.ScrapedFrom | src/scraper.ts:421-454 | a scrape holds only well-formed events of servers the switches select |
| TsCache.MergedStep | src/scraper.ts:431-435 | one step of the merge loop |
| TsCache.FetchFromServers | src/scraper.ts:425-435 | the loop gives the merged events of all servers, in order |
| TsCache.UniqueByName | src/scraper.ts:445-454 | the loop keeps the first event of each normalized name |
| TsCache.StreamsAnswerShape | src/scraper.ts:330-408 | never an empty answer; a failed fetch answers the fallback and stores nothing; the cache stays free of empty lists |
| TsCache.SweepKeepsAnswers | src/scraper.ts:503-516 | the sweep removes no entry a lookup at that time or later would answer from; a kept but unusable entry is exactly one lifetime old |
| TsCache.SweepKeepsStreams | src/scraper.ts:511-515 | the same for the stream cache |
| TsCache.SweepMap | src/scraper.ts:506-510 | the loop deleting expired entries leaves exactly the unexpired ones |
| TsCache.EventsByCategory | src/scraper.ts:468-479 | everything for an empty id or `all`; otherwise the events whose matched category has the cleaned id, in order |
| TsCache.CatalogIdSelects | src/scraper.ts:475-478 | a catalog id selects exactly the events of its category |
| TsCache.Search | src/scraper.ts:484-493 | exactly the events whose name, category or matched category's name contains the lower-cased query, in order |
| TsCache.SearchEmpty | src/scraper.ts:484-493 | the empty query finds every event |
| TsCache.EventById | src/scraper.ts:498-501 | the first event with that id, `None` exactly when there is none |
| TsCache.Cache.constructor | src/scraper.ts:12-16 | both caches start empty |
| TsCache.Cache.FetchAllEvents | src/scraper.ts:413-463 | answers and updates the event cache as the specification says; the stream cache is unchanged |
| TsCache.ScrapeArranged | src/scraper.ts:421-454 | the merged scrape of the selected servers, sorted and deduplicated, is an arranged list |
| TsCache.Cache.FetchStreamUrls | src/scraper.ts:330-408 | a non-empty answer, the stream cache updated as specified, the event cache unchanged |
| TsCache.Cache.GetEventsByCategory | src/scraper.ts:468-479 | the category filter of the events answer, with the same cache update |
| TsCache.Cache.SearchEvents | src/scraper.ts:484-493 | the search of the events answer, with the same cache update |
| TsCache.Cache.GetEventById | src/scraper.ts:498-501 | the lookup in the events answer, with the same cache update |
| TsCache.Cache.Sweep | src/scraper.ts:503-516 | both maps keep exactly their unexpired entries |
| Json.HexValue | src/scraper.ts:415 | the value of a hex digit is below 16 |
| Json.HexRoundTrip | src/scraper.ts:415 | reading back the four hex digits written for a code below 256 gives the code |
| Json.EscapeChar | src/scraper.ts:415 | every character is written as at least one character |
| Json.Stringify | src/scraper.ts:415 | the text of an object of booleans starts with `{` and ends with `}` |
| Json.ReadString | src/scraper.ts:415 | reading a string literal leaves less text than it was given |
| Json.ReadEscapedChar | src/scraper.ts:415 | an escaped character in front of a readable literal is read back in front of its contents |
| Json.ReadQuoted | src/scraper.ts:415 | an escaped string, then a quote, is read back |
| Json.ReadBool | src/scraper.ts:415 | a boolean's text starts with `true` exactly for `true`, else with `false`, and what follows it is left |
| Json.ReadValue | src/scraper.ts:415 | the colon and value of a member are read back |
| Json.ReadMembersStep | src/scraper.ts:415 | one round of the member reader |
| Json.ReadMember | src/scraper.ts:415 | one member's text is read back |
| Json.ReadKey | src/scraper.ts:415 | a quoted key is read back |
| Json.MembersAfterComma | src/scraper.ts:415 | a member, a comma and more members read back as one list |
| Json.MembersHead | src/scraper.ts:415 | a member list's text splits after its first member |
| Json.ReadMembersRoundTrip | src/scraper.ts:415 | the text of a member list reads back as that list |
| Json.ParseStringify | src/scraper.ts:415 | reading an object's text gives the object back |
| Json.StringifyInjective | src/scraper.ts:415 | different switch lists give different texts, so different configurations get different cache keys |
| UrlScan.SchemeLen | src/scraper.ts:131 | the length of the `https?://` match, any case, or 0 |
| UrlScan.RunEnd | src/scraper.ts:131 | the end of the longest run of allowed characters |
| UrlScan.IcAtSlice | src/scraper.ts:131 | a case-insensitive match at a position is one on the slice there |
| UrlScan.SliceIsUrl | src/scraper.ts:131 | a piece the scan cuts out is a URL |
| UrlScan.Spans | src/scraper.ts:131-132 | where the global scan finds its matches, in order and without overlap |
| UrlScan.SpansAreUrls | src/scraper.ts:131-132 | every piece found is a URL |
| UrlScan.Matches | src/scraper.ts:132 | `html.match(regex) \|\| []`: the text of each piece found, in order |
| UrlScan.UrlShape | src/scraper.ts:131 | a match starts with `http://` or `https://` in any case and holds no excluded character |
| UrlScan.RunEndAllowed | src/scraper.ts:131 | every character of the run is allowed |
| UrlScan.UrlFoundWhole | src/scraper.ts:131-132 | a string that is one URL by itself is found whole |
| JsEvents.GenerateEventId | scraper.js:40-47 | `ntv_`, then at most 60 characters of `a-z0-9_` with no doubled underscore |
| JsEvents.EventIdIgnoresCase | scraper.js:40-47 | names and categories that differ only in case share an id |
| JsEvents.LowerOfLower | scraper.js:42 | lower-casing twice is lower-casing once |
| JsEvents.QuoteAt | scraper.js:54 | the first quote at or after a position, or the end |
| JsEvents.WatchEndAt | scraper.js:54 | where the group ends when the pattern matches at a position |
| JsEvents.FindWatch | scraper.js:54 | the leftmost match: its start and the end of its group, and none before it |
| JsEvents.ExtractWatchUrl | scraper.js:52-56 | nothing for a missing or empty attribute or without a match; else the origin and the leftmost group |
| JsEvents.WatchUrlShape | scraper.js:52-56 | a link found is the origin, `/watch/` and at least one more character |
| JsEvents.UrlStart | scraper.js:55 | the origin followed by a group that starts with `/watch/` and goes on is a watch link |
| JsEvents.WatchUrlOfOnclick | scraper.js:52-56 | the link of a `location.href='…'` attribute is found whole |
| JsEvents.DigitEnd | scraper.js:62 | the end of the longest run of digits from a position |
| JsEvents.SpaceEnd | scraper.js:62 | the end of the longest run of white space from a position |
| JsEvents.DigitEndAt | scraper.js:62 | a run of digits followed by a non-digit or the end is the run that is found |
| JsEvents.SpaceEndAt | scraper.js:62 | a run of white space followed by other text or the end is the run that is found |
| JsEvents.CountMatchUnique | scraper.js:62 | a match has one shape: all the digits, then all the white space |
| JsEvents.CountEndAt | scraper.js:62 | the end of the digits of a match |
| JsEvents.FindCount | scraper.js:62 | the leftmost match: its start and the end of its digits, and none before it |
| JsEvents.ParseSourceCount | scraper.js:61-64 | the number before the leftmost `source`, and 1 without a match |
| JsEvents.DigitsValueOfNat | scraper.js:63 | the digits of a number read back as that number |
| JsEvents.SourceCountOfText | scraper.js:61-64 | the text `N sources` gives `N` |
| JsEvents.AttrOr | scraper.js:91 | the attribute when truthy, the fallback otherwise |
| JsEvents.CardEventShape | scraper.js:86-133 | a card gives an event exactly when its trimmed title is not empty and a watch link is found; `sports` for a missing category; a time badge decides the time text |
| JsEvents.CardEventsStep | scraper.js:86-133 | one step of the card loop |
| JsEvents.CardEventsShape | scraper.js:86-133 | each card gives at most one event, and every event is well formed for the server |
| JsEvents.FetchServerEvents | scraper.js:69-142 | the card loop gives exactly the specified events |
| JsStreams.FrameUrl | scraper.js:271-273 | the URL starts with `http`, and is the source itself when that does |
| JsStreams.FrameStep | scraper.js:268-280 | one iframe step |
| JsStreams.FrameLoop | scraper.js:268-280 | the iframe loop equals its specification |
| JsStreams.PushFrame | scraper.js:269-279 | one iframe appends exactly its part: one embed when it has a source, nothing otherwise |
| JsStreams.HasUrl | scraper.js:285 | true exactly when some stream has that URL |
| JsStreams.HlsLoop | scraper.js:283-292 | the HLS loop equals its specification |
| JsStreams.PushHls | scraper.js:285-291 | one match gives exactly the step function: the streams unchanged when one already has its URL, otherwise one direct stream appended |
| JsStreams.ItemStep | scraper.js:295-307 | one source-item step |
| JsStreams.ItemLoop | scraper.js:295-307 | the source-item loop equals its specification |
| JsStreams.PushItem | scraper.js:296-306 | one source item appends exactly its part: one embed when its link starts with `http`, nothing otherwise |
| JsStreams.FindDirect | scraper.js:314 | true exactly when some stream is not an embed |
| JsStreams.FetchStreamUrls | scraper.js:250-324 | the loops and the fallback give exactly the specification function's list |
| JsStreams.FrameStreamsShape | scraper.js:268-280 | every iframe stream is an embed whose URL starts with `http` |
| JsStreams.ItemStreamsShape | scraper.js:295-307 | every source-item stream is an embed whose URL starts with `http` |
| JsStreams.KeysExtend | scraper.js:284-292 | appending keeps every URL already there |
| JsStreams.HlsStepShape | scraper.js:284-292 | one HLS step appends at most one direct stream, with a new URL, and afterwards the match is some stream's URL |
| JsStreams.ExtendsTrans | scraper.js:284-292 | "only appends" is transitive |
| JsStreams.NewDirectStep | scraper.js:284-292 | the new-direct-streams property carries over one step |
| JsStreams.HlsPushShape | scraper.js:283-292 | the HLS stage appends direct streams with new URLs, no two alike, taken from the matches; afterwards every match is some stream's URL |
| JsStreams.DirectOnlyHls | scraper.js:267-307 | only the HLS part of the found list holds direct streams |
| JsStreams.EmbedsWeb | scraper.js:267-307 | every embed of the found list has a URL starting with `http` |
| JsStreams.FoundShape | scraper.js:267-307 | the found list keeps those promises |
| JsStreams.WithFallbackShape | scraper.js:313-320 | appending the watch page keeps them |
| JsStreams.StreamUrlsShape | scraper.js:250-324 | never empty; without a direct stream, ends with the watch page; an unreadable page gives the watch page alone; direct streams are the page's HLS addresses, no two alike, all offered; the rest is the watch page or `http` embeds |
| JsCache.MergedStep | scraper.js:159-169 | one step of the merge loop |
| JsCache.MergedFrom | scraper.js:159-169 | every merged event is well formed for one of the servers |
| JsCache.FetchFromServers | scraper.js:156-169 | the loop gives every server's events in order |
| JsCache.LeOrder | scraper.js:178-186 | with a collation that orders names, the comparator is a total preorder |
| JsCache.ArrangeNames | scraper.js:188-195 | events of the input, one per lower-cased name, every name kept, empty only for an empty input |
| JsCache.ArrangeOrder | scraper.js:177-186 | live first, then more sources, then by name |
| JsCache.UniqueByName | scraper.js:189-195 | the filter with its `Set` keeps the first event of each lower-cased name |
| JsCache.EventsScraped | scraper.js:171-202 | past the time to live, the answer is the arranged scrape, stored unless empty |
| JsCache.ArrangedValid | scraper.js:197-199 | the arranged list of a non-empty scrape may be stored |
| JsCache.EventsAnswerShape | scraper.js:147-203 | no repeated names; empty only when no page gave an event, and then nothing is stored; the stored entry stays valid; scraped events well formed |
| JsCache.EventsAfterValid | scraper.js:197-199 | the entry left behind is valid |
| JsCache.EventsByCategory | scraper.js:208-224 | everything for an empty id, `all` or `ntvstream_all`; otherwise the events whose raw or matched category has the cleaned id |
| JsCache.CatalogIdSelects | scraper.js:215-223 | a catalog id selects on the bare id |
| JsCache.Search | scraper.js:229-237 | exactly the events whose name or raw category contains the query ignoring case |
| JsCache.SearchEmpty | scraper.js:229-237 | the empty query finds every event |
| JsCache.EventById | scraper.js:242-245 | the first event with that id, `None` exactly when there is none |
| JsCache.Cache.constructor | scraper.js:11-15 | the cache starts empty, with the corrected category matcher (see Left out) |
| JsCache.Cache.FetchAllEvents | scraper.js:147-203 | the stored list while younger than two minutes; otherwise the arranged scrape, stored unless empty |
| JsCache.Cache.ClearCache | scraper.js:329-333 | the entry is cleared, so the next call scrapes |
| JsCache.Cache.GetEventsByCategory | scraper.js:208-224 | the category filter of the events answer |
| JsCache.Cache.SearchEvents | scraper.js:229-237 | the search of the events answer |
| JsCache.Cache.GetEventById | scraper.js:242-245 | the lookup in the events answer |
| Addon.MapStreams | src/addon.ts:177-199 | one Stremio stream per scraped stream, at the same position |
| Addon.MapStreamsShape | src/addon.ts:177-199 | playable at the URL exactly when it names an m3u8, mpd or mp4 file, keeping headers and quality (`HD` by default); else external, not web-ready, named by embed-ness; titled by server and stream |
| Addon.DirectByExtension | src/addon.ts:178 | a URL ending in one of the extensions, in any mix of cases, or with one right before its query, is direct |
| Addon.DirectWith | src/addon.ts:178 | a dot, text that lower-cases to one of the extensions, then `?` or the end is a match at the dot |
| Addon.NoDotNotDirect | src/addon.ts:178 | a URL without a dot is never direct |
| Addon.ServerById | src/addon.ts:169-173 | `Some` of an entry with that id exactly when one exists |
| Addon.StreamHandlerShape | src/addon.ts:158-208 | no stream for a missing event or unknown server; otherwise one per scraped stream |
| Addon.SliceBound | src/addon.ts:119 | a bound in range is kept, one past the end becomes the length, a negative one counts from the end, and one before the start becomes 0 |
| Addon.Slice | src/addon.ts:119 | a slice is no longer than the list (PaginateShape states which events it holds) |
| Addon.PaginateShape | src/addon.ts:108-119 | at most 100 events; for a skip from 0, the events from it on, up to 100; for a negative skip, the window with both bounds counted from the end (empty when the end bound falls at or before the start); an unreadable skip gives none |
| Addon.PagesConsecutive | src/addon.ts:108-119 | two consecutive pages are the events of both, in order |
| Addon.FirstPageAll | src/addon.ts:108-119 | the first page of at most 100 events is all of them |
| Addon.MetaShape | src/addon.ts:68-98 | both objects carry the event's id; the live marker and `Live Now` exactly for a live event; the full meta agrees with the preview and links to the event page |
| Addon.CatalogHandlerShape | src/addon.ts:103-129 | at most 100 previews, one per event of the page, in order |
| Addon.MetaHandler | src/addon.ts:134-153 | `None` exactly for a missing event; otherwise a meta with the event's id and link |
| Seqs.Sort | src/scraper.ts:438-442 | the sorted list is a permutation of the input |
| Seqs.SortSorted | src/scraper.ts:438-442 | with a comparator that agrees with a total preorder on strict comparisons, the sorted list is ordered by that preorder |
| Seqs.SortStable | scraper.js:178-185 | the sort is stable, as `Array.prototype.sort` is: for a transitive comparator, the events that tie with any given one keep their input order |
| Seqs.DedupIdempotent | src/scraper.ts:445-454 | deduplicating twice gives what deduplicating once gives |
| Text.Trim | src/scraper.ts:228 | `trim()`: only white space is removed, and only before and after the result, which neither starts nor ends with white space |

## Left out

- Network access, HTML parsing and `new URL`: a page is the record of what the selectors
  find, fetching is a function from URL to `Option` of a page, and URL resolution is an
  injected function that may fail.
- Clocks: `Date.now()` and `new Date()` become explicit time parameters; `parseEventTime`'s
  date parsing is an injected function.
- Concurrency: `Promise.allSettled` is modelled as a sequential loop, and a rejected
  scrape contributes no events.
- `setInterval`: the periodic sweep is one `Sweep` method call.
- `fetchWithRetry`'s delays: without a clock, only the attempts are modelled.
- Console logging: left out, as it has no effect on results.
- Strings: JavaScript strings are UTF-16; the model uses sequences of Unicode characters.
  `toLowerCase` maps ASCII letters only.
- Text.ToLower: maps ASCII letters only. JavaScript's `toLowerCase` also lower-cases
  non-ASCII letters, so results can differ from the source.
  - Two non-ASCII characters become ASCII: U+0130 (capital I with dot above) becomes `i`
    followed by U+0307, and U+212A (the Kelvin sign) becomes `k`.
  - Text holding either character can miss a keyword hit in TsConfig.MatchEventToCategory
    and JsConfig.MatchEventToCategory, and can miss the own key of JsConfig's fast path.
  - For those two characters, EventIds.CleanName gives `_` and TsCache.NormalizedName drops
    them, where the source keeps `i` or `k`. Two names can then share a key in the model
    but not in the source, or the other way round.
  - Any other upper-case non-ASCII letter (`É`, say) stays upper-case in the model. The id
    generators, TsCache.NormalizedName, the keyword search and the fast path do not
    depend on it, because the keys and keywords they compare with are ASCII.
  - The keys that use the whole lower-cased text do depend on it:
    - the processed-name set of TsEvents.FetchNTVStreamEvents;
    - JsCache.ArrangeNames;
    - the case-insensitive tests of TsCache.Search and JsCache.Search.
  - There, two texts that differ only in such letters are equal for the source but not
    for the model. For example, the source keeps one of two events named `Élan` and
    `élan` and the model keeps both, and a search for `é` finds `Élan` only in the source.
- Cheerio `.data(key)` values reach TsStreams.IframeStep, TsStreams.ItemLink,
  TsStreams.ItemQuality, TsStreams.ItemStep, TsEvents.ElementLink, TsEvents.TextOrData,
  TsEvents.ElementTime and TsEvents.ElementCategory. The model takes each such value as the
  attribute's text. Cheerio instead converts text that reads back as a number, `true`,
  `false`, `null`, or a JSON object or array into that JavaScript value. Results differ
  from the source in these cases:
  - The `typeof streamUrl === 'string'` test at src/scraper.ts:175 always holds in the
    model. An item whose link comes from a converted value, such as `data-stream="42"`, is
    skipped by the source and pushed by the model.
  - A converted `data-lazy-src` that is truthy has no `startsWith`, so the source's iframe
    loop throws. The model resolves the text.
  - A truthy converted `data-time`, such as `1700000000`, makes `timeStr.toLowerCase()`
    throw. Its element is then dropped with its name already recorded. The model emits
    the event.
  - Falsy converted values (`0`, `false`, `null`) fall through `||` in the source. In the
    model they are non-empty text, so `data-time="0"` gives `''` in the source and `0` in
    the model.
  - A converted `data-category` or `data-quality` is stored as that value in the event or
    stream. The model stores the text. A number category also makes the search's
    `event.category.toLowerCase()` throw.
  - A converted `data-link` or `data-href` is turned back into text by `new URL`. That text
    is the attribute's text except for objects and arrays.
- JsCache.Cache: the pipeline classifies with the corrected JsConfig.MatchEventToCategory.
  The as-written matcher is JsConfig.MatchEventToCategoryAsWritten. For a card whose
  `data-category` lower-cases to an `Object.prototype` member name, such as `constructor` or
  `__proto__`, it returns that inherited member, which has no `id`. In the source, that
  event is therefore never filed under a category id by `getEventsByCategory`, unless its
  raw category equals the id. In the model, the same event gets a keyword category and is
  filed under it.
- `parseInt` and `skip`: precision is not modelled. The skip reaches the catalog handler
  as an `Option<int>`, with `None` for `NaN`.
- `localeCompare`: injected as a collation. JsCache.ArrangeOrder assumes only that it
  orders names.
- Partial scrapes: an exception thrown partway through a loop is not modelled. The
  TypeScript scraper's per-element `try` is modelled as skipping that element only when
  resolving its link fails.
- JSON.stringify key-ordering rules: the rule that puts integer-like keys first is not
  modelled. The switches are written in the order given, so Json.StringifyInjective is
  stated over switch lists.
- `parseUserConfig` (base64 and JSON decoding of the configuration): not modelled. The
  handlers take the search and category functions as parameters.
- The manifest and the HTTP server: the manifest (`src/addon.ts:1-47`), `addon.js`,
  `src/server.ts`, `configure-html.js` and `src/types.ts` are not part of this model.
- JsStreams.ItemLoop: builds the source-item streams as a list of its own, concatenated
  afterwards. This gives the same result as the source's push onto the shared list.
- Addon.ServerById: reads `SERVERS[event.server]` as an own-property lookup, for two
  reasons: an event's server is always an id from the table, and the per-event
  `serverName` is what titles the streams.
- `ADDON_CONFIG` and the category icons: they appear only as text fields of the meta
  objects.

## Findings

| source | as written | input that shows it | evidently intended | confidence | as-written member | corrected member |
|---|---|---|---|---|---|---|
| src/config.ts:256-259 | `CATEGORIES[cleanId] \|\| null` reads inherited members of `Object.prototype` | `getCategoryById('ntvstream_constructor')` yields the `Object` constructor function | `null` for an id that names no category | not executed | TsConfig.GetCategoryByIdInherited | TsConfig.GetCategoryById |
| servers.js:234-237 | the same property read in the JavaScript configuration | `getCategoryById('ntvstream_constructor')` | `null` | not executed | JsConfig.GetCategoryByIdInherited | JsConfig.GetCategoryById |
| servers.js:244-246 | the fast path takes any truthy `CATEGORIES[eventCategory.toLowerCase()]` | a card whose `data-category` is `constructor` is classified as the `Object` constructor | the keyword search, since no category is called `constructor` | not executed | JsConfig.ConstructorCategoryInherited | JsConfig.MatchEventToCategory (the matcher the JsCache pipeline uses) |
