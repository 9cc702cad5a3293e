/**
 * `servers.js`: the JavaScript server and category tables and the functions over them.
 */
module JsConfig {
  import opened Wrappers
  import opened Text
  import opened Seqs
  import opened Registry

  /** `SERVERS`, in declaration order. */
  const Servers: seq<Server> := [ServerKobra, ServerTitan, ServerRaptor, ServerPhoenix, ServerScorpion, ServerViper, ServerNtvstream]

  const ServerKobra: Server :=
    Server("kobra", "NTVStream KOBRA",
      "https://ntvstream.cx/matches/kobra", true, 1,
      "KOBRA Server - Primary", None)
  const ServerTitan: Server :=
    Server("titan", "NTVStream TITAN",
      "https://ntvstream.cx/matches/titan", true, 2,
      "TITAN Server", None)
  const ServerRaptor: Server :=
    Server("raptor", "NTVStream RAPTOR",
      "https://ntvstream.cx/matches/raptor", true, 3,
      "RAPTOR Server", None)
  const ServerPhoenix: Server :=
    Server("phoenix", "NTVStream PHOENIX",
      "https://ntvstream.cx/matches/phoenix", true, 4,
      "PHOENIX Server", None)
  const ServerScorpion: Server :=
    Server("scorpion", "NTVStream SCORPION",
      "https://ntvstream.cx/matches/scorpion", true, 5,
      "SCORPION Server", None)
  const ServerViper: Server :=
    Server("viper", "NTVStream VIPER",
      "https://ntvstream.cx/matches/viper", true, 6,
      "VIPER Server", None)
  const ServerNtvstream: Server :=
    Server("ntvstream", "NTVStream",
      "https://ntvstream.cx", true, 0,
      "Main NTVStream", None)

  /** `CATEGORIES`, in declaration order. */
  const Categories: seq<Category> := [Football, Basketball, Hockey, Cricket, Tennis, Golf, UfcMma, Boxing, Wrestling, Nfl, Baseball, Rugby, Motorsport, Snooker, Darts, Handball, Tvshows, Other]

  const Football: Category :=
    Category("football", "Football / Soccer", "tv",
      ["Football", "Soccer", "Champions League", "Premier League", "La Liga"],
      "\U{26BD}",
      ["football", "soccer", "premier", "liga", "champions", "uefa", "serie", "bundesliga", "championship", "fa cup", "league one", "league two"])
  const Basketball: Category :=
    Category("basketball", "Basketball", "tv",
      ["Basketball", "NBA", "EuroLeague"],
      "\U{1F3C0}",
      ["basketball", "nba", "ncaa", "euroleague", "bcl"])
  const Hockey: Category :=
    Category("hockey", "Hockey", "tv",
      ["Hockey", "NHL", "Ice Hockey"],
      "\U{1F3D2}",
      ["hockey", "nhl", "ice"])
  const Cricket: Category :=
    Category("cricket", "Cricket", "tv",
      ["Cricket", "IPL", "T20"],
      "\U{1F3CF}",
      ["cricket", "ipl", "t20", "test", "odi"])
  const Tennis: Category :=
    Category("tennis", "Tennis", "tv",
      ["Tennis", "ATP", "WTA"],
      "\U{1F3BE}",
      ["tennis", "atp", "wta", "wimbledon", "open"])
  const Golf: Category :=
    Category("golf", "Golf", "tv",
      ["Golf", "PGA"],
      "\U{26F3}",
      ["golf", "pga", "masters"])
  const UfcMma: Category :=
    Category("ufc_mma", "UFC / MMA", "tv",
      ["UFC", "MMA", "Fighting"],
      "\U{1F94A}",
      ["ufc", "mma", "bellator", "fight", "martial"])
  const Boxing: Category :=
    Category("boxing", "Boxing", "tv",
      ["Boxing"],
      "\U{1F94A}",
      ["boxing", "box"])
  const Wrestling: Category :=
    Category("wrestling", "WWE / Wrestling", "tv",
      ["WWE", "Wrestling", "AEW"],
      "\U{1F93C}",
      ["wwe", "wrestling", "aew", "raw", "smackdown"])
  const Nfl: Category :=
    Category("nfl", "NFL", "tv",
      ["NFL", "American Football"],
      "\U{1F3C8}",
      ["nfl", "american football", "super bowl"])
  const Baseball: Category :=
    Category("baseball", "Baseball / MLB", "tv",
      ["MLB", "Baseball"],
      "\U{26BE}",
      ["mlb", "baseball"])
  const Rugby: Category :=
    Category("rugby", "Rugby", "tv",
      ["Rugby"],
      "\U{1F3C9}",
      ["rugby", "six nations"])
  const Motorsport: Category :=
    Category("motorsport", "Motorsport / F1", "tv",
      ["F1", "NASCAR", "MotoGP"],
      "\U{1F3CE}\U{FE0F}",
      ["f1", "formula", "nascar", "motogp", "racing"])
  const Snooker: Category :=
    Category("snooker", "Snooker", "tv",
      ["Snooker"],
      "\U{1F3B1}",
      ["snooker", "pool"])
  const Darts: Category :=
    Category("darts", "Darts", "tv",
      ["Darts"],
      "\U{1F3AF}",
      ["darts", "pdc"])
  const Handball: Category :=
    Category("handball", "Handball", "tv",
      ["Handball"],
      "\U{1F93E}",
      ["handball"])
  const Tvshows: Category :=
    Category("tvshows", "TV Shows", "tv",
      ["TV Shows", "Entertainment"],
      "\U{1F4FA}",
      ["tv shows", "show", "episode", "season"])
  const Other: Category :=
    Category("other", "Other Sports", "tv",
      ["Sports"],
      "\U{1F3C6}",
      ["sports", "live"])



  /** The category ids, in declaration order. */
  const CategoryIds: seq<string> := ["football", "basketball", "hockey", "cricket", "tennis", "golf", "ufc_mma", "boxing", "wrestling", "nfl", "baseball", "rugby", "motorsport", "snooker", "darts", "handball", "tvshows", "other"]

  lemma CategoryIdsListed()
    ensures |Categories| == |CategoryIds|
    ensures forall i :: 0 <= i < |Categories| ==> Categories[i].id == CategoryIds[i]
  {
    forall i | 0 <= i < |Categories| ensures Categories[i].id == CategoryIds[i] {
      assert i == 0 || i == 1 || i == 2 || i == 3 || i == 4 || i == 5 || i == 6 || i == 7 || i == 8 || i == 9 || i == 10 || i == 11 || i == 12 || i == 13 || i == 14 || i == 15 || i == 16 || i == 17;
    }
  }

  /** No two categories share an id: no two ids share both their length and first letter. */
  lemma CategoryIdsDistinct()
    ensures DistinctIds(Categories)
  {
    CategoryIdsListed();
    var keys := [(8, 'f'), (10, 'b'), (6, 'h'), (7, 'c'), (6, 't'), (4, 'g'), (7, 'u'), (6, 'b'), (9, 'w'), (3, 'n'), (8, 'b'), (5, 'r'), (10, 'm'), (7, 's'), (5, 'd'), (8, 'h'), (7, 't'), (5, 'o')];
    forall i | 0 <= i < |CategoryIds| ensures |CategoryIds[i]| > 0 && (|CategoryIds[i]|, CategoryIds[i][0]) == keys[i] {
      assert i == 0 || i == 1 || i == 2 || i == 3 || i == 4 || i == 5 || i == 6 || i == 7 || i == 8 || i == 9 || i == 10 || i == 11 || i == 12 || i == 13 || i == 14 || i == 15 || i == 16 || i == 17;
    }
    forall i, j | 0 <= i < j < |keys| ensures keys[i] != keys[j] {
      assert i == 0 || i == 1 || i == 2 || i == 3 || i == 4 || i == 5 || i == 6 || i == 7 || i == 8 || i == 9 || i == 10 || i == 11 || i == 12 || i == 13 || i == 14 || i == 15 || i == 16 || i == 17;
      assert j == 0 || j == 1 || j == 2 || j == 3 || j == 4 || j == 5 || j == 6 || j == 7 || j == 8 || j == 9 || j == 10 || j == 11 || j == 12 || j == 13 || j == 14 || j == 15 || j == 16 || j == 17;
    }
  }

  /** No two servers share an id. */
  lemma ServerIdsDistinct()
    ensures forall i, j :: 0 <= i < j < |Servers| ==> Servers[i].id != Servers[j].id
  {
    forall i, j | 0 <= i < j < |Servers| ensures Servers[i].id != Servers[j].id {
      assert i == 0 || i == 1 || i == 2 || i == 3 || i == 4 || i == 5 || i == 6;
      assert j == 0 || j == 1 || j == 2 || j == 3 || j == 4 || j == 5 || j == 6;
    }
  }

  /** `getCatalogDefinitions()`. */
  function GetCatalogDefinitions(): (r: seq<CatalogDef>)
    ensures |r| == |Categories|
    ensures forall i :: 0 <= i < |r| ==> r[i].id == CatalogPrefix + Categories[i].id
  {
    CatalogDefinitions(Categories)
  }

  /**
   * `getEnabledServers(userConfig)`: the argument is ignored; the servers whose table entry
   * is enabled, by ascending priority, each once.
   */
  function GetEnabledServers(): (r: seq<Server>)
    ensures forall s :: s in r <==> s in Servers && s.enabled
    ensures Distinct(r)
    ensures SortedBy(r, PriorityLe)
  {
    ServerIdsDistinct();
    EnabledServers(Servers, (s: Server) => s.enabled)
  }

  /** `ntvstream` has priority 0, below every other server. */
  lemma OnlyNtvstreamAtZero()
    ensures forall s :: s in Servers && s.priority <= 0 ==> s == ServerNtvstream
  {
    forall s | s in Servers && s.priority <= 0 ensures s == ServerNtvstream {
      var i :| 0 <= i < |Servers| && Servers[i] == s;
      assert i == 0 || i == 1 || i == 2 || i == 3 || i == 4 || i == 5 || i == 6;
    }
  }

  /** The enabled servers start with `ntvstream`. */
  lemma NtvstreamFirst()
    ensures var r := GetEnabledServers(); |r| > 0 && r[0] == ServerNtvstream
  {
    var r := GetEnabledServers();
    assert Servers[6] == ServerNtvstream;
    assert ServerNtvstream in r;
    var k :| 0 <= k < |r| && r[k] == ServerNtvstream;
    if k != 0 {
      assert PriorityLe(r[0], r[k]);
    }
    assert r[0] in r;
    OnlyNtvstreamAtZero();
  }

  /**
   * `getCategoryById(categoryId)` read as intended: the category whose id is `categoryId`
   * with its first `ntvstream_` removed, or `None`.
   */
  function GetCategoryById(categoryId: string): (r: Option<Category>)
    ensures var clean := ReplaceFirst(categoryId, CatalogPrefix, "");
      (r.Some? ==> r.value in Categories && r.value.id == clean) &&
      (r.None? <==> forall i :: 0 <= i < |Categories| ==> Categories[i].id != clean)
  {
    FindById(Categories, ReplaceFirst(categoryId, CatalogPrefix, ""))
  }

  /** `getCategoryById(categoryId)` as written: `CATEGORIES[cleanId]` also reads inherited members. */
  function GetCategoryByIdAsWritten(categoryId: string): (r: Property)
    ensures r.Own? <==> GetCategoryById(categoryId).Some?
    ensures r.Own? ==> GetCategoryById(categoryId) == Some(r.category)
  {
    ReadProperty(Categories, ReplaceFirst(categoryId, CatalogPrefix, ""))
  }

  /** Every catalog id leads back to its own category. */
  lemma CatalogIdsResolve(i: nat)
    requires i < |GetCatalogDefinitions()|
    ensures GetCategoryById(GetCatalogDefinitions()[i].id) == Some(Categories[i])
  {
    ReplaceFirstOfPrefixed(CatalogPrefix, Categories[i].id);
    CategoryIdsDistinct();
    FindByIdOfEntry(Categories, i);
  }

  lemma NoCategoryIsConstructor()
    ensures forall i :: 0 <= i < |Categories| ==> Categories[i].id != "constructor"
  {
    CategoryIdsListed();
    assert "constructor" !in CategoryIds;
  }

  /** `ntvstream_constructor` finds `Object.prototype.constructor` as written and nothing as intended. */
  lemma GetCategoryByIdInherited()
    ensures GetCategoryByIdAsWritten("ntvstream_constructor") == Inherited("constructor")
    ensures GetCategoryById("ntvstream_constructor") == None
  {
    ConstructorIdCleaned();
    NoCategoryIsConstructor();
  }

  /** The keyword search over `lower(name + " " + eventCategory)`, keywords compared as written. */
  function KeywordSearch(name: string, eventCategory: string): (r: Category)
    ensures var text := ToLower(name + " " + eventCategory);
      (exists i :: 0 <= i < |Categories| && r == Categories[i] && HitsKeyword(text, r.keywords, false) &&
         forall j :: 0 <= j < i ==> !HitsKeyword(text, Categories[j].keywords, false)) ||
      (r == Other && forall j :: 0 <= j < |Categories| ==> !HitsKeyword(text, Categories[j].keywords, false))
  {
    KeywordCategory(ToLower(name + " " + eventCategory), Categories, false, Other)
  }

  /**
   * `matchEventToCategory(eventName, eventCategory)` read as intended: a non-empty
   * `eventCategory` whose lower-cased form is a category id picks that category; otherwise
   * the keyword search decides.
   */
  function MatchEventToCategory(name: string, eventCategory: string): (r: Category)
    ensures eventCategory != [] && FindById(Categories, ToLower(eventCategory)).Some? ==>
      r in Categories && r.id == ToLower(eventCategory)
    ensures (eventCategory == [] || FindById(Categories, ToLower(eventCategory)).None?) ==>
      r == KeywordSearch(name, eventCategory)
  {
    if eventCategory != [] && FindById(Categories, ToLower(eventCategory)).Some? then
      FindById(Categories, ToLower(eventCategory)).value
    else
      KeywordSearch(name, eventCategory)
  }

  /**
   * `matchEventToCategory` as written: the fast path takes any truthy `CATEGORIES[key]`,
   * inherited members included.
   */
  function MatchEventToCategoryAsWritten(name: string, eventCategory: string): (r: Property)
    ensures ToLower(eventCategory) !in ObjectPrototypeNames ==> r == Own(MatchEventToCategory(name, eventCategory))
    ensures r.Inherited? <==> eventCategory != [] && ReadProperty(Categories, ToLower(eventCategory)).Inherited?
  {
    var p := ReadProperty(Categories, ToLower(eventCategory));
    if eventCategory != [] && PropertyTruthy(p) then p
    else Own(KeywordSearch(name, eventCategory))
  }

  /**
   * The raw category `constructor` sends every event to `Object.prototype.constructor` as
   * written; as intended the keyword search decides.
   */
  lemma ConstructorCategoryInherited(name: string)
    ensures MatchEventToCategoryAsWritten(name, "constructor") == Inherited("constructor")
    ensures MatchEventToCategory(name, "constructor") == KeywordSearch(name, "constructor")
  {
    ToLowerOfLower("constructor");
    NoCategoryIsConstructor();
  }
}
