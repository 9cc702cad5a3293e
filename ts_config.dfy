/**
 * `src/config.ts`: the TypeScript server and category tables and the functions over them.
 */
module TsConfig {
  import opened Wrappers
  import opened Text
  import opened Seqs
  import opened Registry

  /** `SERVERS`, in declaration order. */
  const Servers: seq<Server> := [ServerKobra, ServerTitan, ServerRaptor, ServerPhoenix, ServerScorpion, ServerViper, ServerNtvstream, ServerNtvstreamBackup, ServerPpvland, ServerSportsurge, ServerCrackstreams]

  const ServerKobra: Server :=
    Server("kobra", "NTVStream KOBRA",
      "https://ntvstream.cx/matches/kobra", true, 1,
      "KOBRA server match list", None)
  const ServerTitan: Server :=
    Server("titan", "NTVStream TITAN",
      "https://ntvstream.cx/matches/titan", true, 2,
      "TITAN server match list", None)
  const ServerRaptor: Server :=
    Server("raptor", "NTVStream RAPTOR",
      "https://ntvstream.cx/matches/raptor", true, 3,
      "RAPTOR server match list", None)
  const ServerPhoenix: Server :=
    Server("phoenix", "NTVStream PHOENIX",
      "https://ntvstream.cx/matches/phoenix", true, 4,
      "PHOENIX server match list", None)
  const ServerScorpion: Server :=
    Server("scorpion", "NTVStream SCORPION",
      "https://ntvstream.cx/matches/scorpion", true, 5,
      "SCORPION server match list", None)
  const ServerViper: Server :=
    Server("viper", "NTVStream VIPER",
      "https://ntvstream.cx/matches/viper", true, 6,
      "VIPER server match list", None)
  const ServerNtvstream: Server :=
    Server("ntvstream", "NTVStream",
      "https://ntvstream.cx", true, 10,
      "Primary live sports streaming source", Some("https://ntvstream.cx/favicon.ico"))
  const ServerNtvstreamBackup: Server :=
    Server("ntvstream_backup", "NTVStream Backup",
      "https://ntvstream.live", true, 11,
      "Backup NTVStream server", None)
  const ServerPpvland: Server :=
    Server("ppvland", "PPVLand",
      "https://ppvland.tv", false, 3,
      "PPV and live sports events", None)
  const ServerSportsurge: Server :=
    Server("sportsurge", "SportSurge",
      "https://sportsurge.io", false, 4,
      "Sports streaming aggregator", None)
  const ServerCrackstreams: Server :=
    Server("crackstreams", "CrackStreams",
      "https://crackstreams.biz", false, 5,
      "Sports streaming alternative", None)

  /** `CATEGORIES`, in declaration order. */
  const Categories: seq<Category> := [Football, AmericanFootball, Basketball, Cricket, UfcMma, Boxing, Wrestling, Tennis, Hockey, Baseball, Motorsport, Rugby, Golf, Darts, Ppv, OtherSports]

  const Football: Category :=
    Category("football", "Football / Soccer", "tv",
      ["Football", "Soccer", "Premier League", "La Liga", "Champions League", "Serie A", "Bundesliga"],
      "\U{26BD}",
      ["football", "soccer", "premier", "liga", "champions", "epl", "uefa", "serie a", "bundesliga", "fa cup", "world cup"])
  const AmericanFootball: Category :=
    Category("american_football", "American Football", "tv",
      ["NFL", "NCAA Football", "American Football", "Super Bowl"],
      "\U{1F3C8}",
      ["nfl", "ncaa", "american football", "superbowl", "super bowl", "college football"])
  const Basketball: Category :=
    Category("basketball", "Basketball", "tv",
      ["NBA", "Basketball", "NCAA Basketball", "EuroLeague"],
      "\U{1F3C0}",
      ["nba", "basketball", "ncaa", "euroleague", "fiba", "wnba"])
  const Cricket: Category :=
    Category("cricket", "Cricket", "tv",
      ["Cricket", "IPL", "Test Cricket", "T20", "ODI", "BBL", "PSL"],
      "\U{1F3CF}",
      ["cricket", "ipl", "t20", "test", "odi", "bbl", "psl", "ashes", "world cup cricket"])
  const UfcMma: Category :=
    Category("ufc_mma", "UFC / MMA", "tv",
      ["UFC", "MMA", "Mixed Martial Arts", "Bellator", "ONE Championship"],
      "\U{1F94A}",
      ["ufc", "mma", "bellator", "fight", "martial", "one fc", "pfl", "cage"])
  const Boxing: Category :=
    Category("boxing", "Boxing", "tv",
      ["Boxing", "Fight Night", "PPV Boxing"],
      "\U{1F94A}",
      ["boxing", "fight", "heavyweight", "ppv", "canelo", "fury", "joshua"])
  const Wrestling: Category :=
    Category("wrestling", "Wrestling / WWE", "tv",
      ["WWE", "Wrestling", "AEW", "Impact", "NXT"],
      "\U{1F93C}",
      ["wwe", "wrestling", "aew", "raw", "smackdown", "nxt", "impact", "wrestlemania"])
  const Tennis: Category :=
    Category("tennis", "Tennis", "tv",
      ["Tennis", "ATP", "WTA", "Grand Slam", "Wimbledon"],
      "\U{1F3BE}",
      ["tennis", "atp", "wta", "wimbledon", "usopen", "french open", "australian open", "roland garros"])
  const Hockey: Category :=
    Category("hockey", "Hockey", "tv",
      ["NHL", "Hockey", "Ice Hockey", "KHL"],
      "\U{1F3D2}",
      ["nhl", "hockey", "ice hockey", "khl", "stanley cup"])
  const Baseball: Category :=
    Category("baseball", "Baseball", "tv",
      ["MLB", "Baseball", "World Series"],
      "\U{26BE}",
      ["mlb", "baseball", "world series"])
  const Motorsport: Category :=
    Category("motorsport", "Motorsport", "tv",
      ["F1", "Formula 1", "NASCAR", "MotoGP", "IndyCar", "WRC"],
      "\U{1F3CE}\U{FE0F}",
      ["f1", "formula", "nascar", "motogp", "racing", "indycar", "wrc", "le mans", "grand prix"])
  const Rugby: Category :=
    Category("rugby", "Rugby", "tv",
      ["Rugby", "Rugby Union", "Rugby League", "Six Nations"],
      "\U{1F3C9}",
      ["rugby", "union", "league", "six nations", "super rugby"])
  const Golf: Category :=
    Category("golf", "Golf", "tv",
      ["Golf", "PGA", "Masters", "Ryder Cup"],
      "\U{26F3}",
      ["golf", "pga", "masters", "ryder cup", "open championship"])
  const Darts: Category :=
    Category("darts", "Darts", "tv",
      ["Darts", "PDC", "World Darts"],
      "\U{1F3AF}",
      ["darts", "pdc", "world darts", "premier league darts"])
  const Ppv: Category :=
    Category("ppv", "PPV Events", "tv",
      ["PPV", "Pay Per View", "Special Events"],
      "\U{1F39F}\U{FE0F}",
      ["ppv", "pay per view", "special", "event", "main event"])
  const OtherSports: Category :=
    Category("other_sports", "Other Sports", "tv",
      ["Sports", "Live Events", "Olympics"],
      "\U{1F3C6}",
      ["sports", "live", "event", "olympics", "esports"])


  /** The category ids, in declaration order. */
  const CategoryIds: seq<string> :=
    ["football", "american_football", "basketball", "cricket", "ufc_mma", "boxing", "wrestling", "tennis",
     "hockey", "baseball", "motorsport", "rugby", "golf", "darts", "ppv", "other_sports"]

  lemma CategoryIdsListed()
    ensures |Categories| == |CategoryIds|
    ensures forall i :: 0 <= i < |Categories| ==> Categories[i].id == CategoryIds[i]
  {
    forall i | 0 <= i < |Categories| ensures Categories[i].id == CategoryIds[i] {
      assert i == 0 || i == 1 || i == 2 || i == 3 || i == 4 || i == 5 || i == 6 || i == 7 || i == 8 || i == 9 || i == 10 || i == 11 || i == 12 || i == 13 || i == 14 || i == 15;
    }
  }

  /** No two categories share an id: no two ids share both their length and first letter. */
  lemma CategoryIdsDistinct()
    ensures DistinctIds(Categories)
  {
    CategoryIdsListed();
    var keys := [(8, 'f'), (17, 'a'), (10, 'b'), (7, 'c'), (7, 'u'), (6, 'b'), (9, 'w'), (6, 't'), (6, 'h'), (8, 'b'), (10, 'm'), (5, 'r'), (4, 'g'), (5, 'd'), (3, 'p'), (12, 'o')];
    forall i | 0 <= i < |CategoryIds| ensures |CategoryIds[i]| > 0 && (|CategoryIds[i]|, CategoryIds[i][0]) == keys[i] {
      assert i == 0 || i == 1 || i == 2 || i == 3 || i == 4 || i == 5 || i == 6 || i == 7 || i == 8 || i == 9 || i == 10 || i == 11 || i == 12 || i == 13 || i == 14 || i == 15;
    }
    forall i, j | 0 <= i < j < |keys| ensures keys[i] != keys[j] {
      assert i == 0 || i == 1 || i == 2 || i == 3 || i == 4 || i == 5 || i == 6 || i == 7 || i == 8 || i == 9 || i == 10 || i == 11 || i == 12 || i == 13 || i == 14 || i == 15;
      assert j == 0 || j == 1 || j == 2 || j == 3 || j == 4 || j == 5 || j == 6 || j == 7 || j == 8 || j == 9 || j == 10 || j == 11 || j == 12 || j == 13 || j == 14 || j == 15;
    }
  }

  /** No two servers share an id. */
  lemma ServerIdsDistinct()
    ensures forall i, j :: 0 <= i < j < |Servers| ==> Servers[i].id != Servers[j].id
  {
    forall i, j | 0 <= i < j < |Servers| ensures Servers[i].id != Servers[j].id {
      assert i == 0 || i == 1 || i == 2 || i == 3 || i == 4 || i == 5 || i == 6 || i == 7 || i == 8 || i == 9 || i == 10;
      assert j == 0 || j == 1 || j == 2 || j == 3 || j == 4 || j == 5 || j == 6 || j == 7 || j == 8 || j == 9 || j == 10;
    }
  }

  /** `getCatalogDefinitions()`. */
  function GetCatalogDefinitions(): (r: seq<CatalogDef>)
    ensures |r| == |Categories|
    ensures forall i :: 0 <= i < |r| ==> r[i].id == CatalogPrefix + Categories[i].id
  {
    CatalogDefinitions(Categories)
  }

  /**
   * `getEnabledServers(userConfig)`: the servers the user switched on, or left at an enabled
   * default, by ascending priority, each once.
   */
  function GetEnabledServers(config: Switches): (r: seq<Server>)
    ensures forall s :: s in r <==> s in Servers && Selected(config, s)
    ensures Distinct(r)
    ensures SortedBy(r, PriorityLe)
  {
    ServerIdsDistinct();
    EnabledServers(Servers, (s: Server) => Selected(config, s))
  }

  /**
   * `getCategoryById(categoryId)` read as intended: the category whose id is `categoryId`
   * with its first `ntvstream_` removed, or `None`.
   */
  function GetCategoryById(categoryId: string): (r: Option<Category>)
    ensures var clean := ReplaceFirst(categoryId, CatalogPrefix, "");
      (r.Some? ==> r.value in Categories && r.value.id == clean) &&
      (r.None? <==> forall i :: 0 <= i < |Categories| ==> Categories[i].id != clean)
  {
    FindById(Categories, ReplaceFirst(categoryId, CatalogPrefix, ""))
  }

  /** `getCategoryById(categoryId)` as written: `CATEGORIES[cleanId]` also reads inherited members. */
  function GetCategoryByIdAsWritten(categoryId: string): (r: Property)
    ensures r.Own? <==> GetCategoryById(categoryId).Some?
    ensures r.Own? ==> GetCategoryById(categoryId) == Some(r.category)
  {
    ReadProperty(Categories, ReplaceFirst(categoryId, CatalogPrefix, ""))
  }

  /** Every catalog id leads back to its own category. */
  lemma CatalogIdsResolve(i: nat)
    requires i < |GetCatalogDefinitions()|
    ensures GetCategoryById(GetCatalogDefinitions()[i].id) == Some(Categories[i])
  {
    ReplaceFirstOfPrefixed(CatalogPrefix, Categories[i].id);
    CategoryIdsDistinct();
    FindByIdOfEntry(Categories, i);
  }

  lemma NoCategoryIsConstructor()
    ensures forall i :: 0 <= i < |Categories| ==> Categories[i].id != "constructor"
  {
    CategoryIdsListed();
    assert "constructor" !in CategoryIds;
  }

  /**
   * The id `ntvstream_constructor` names no category, yet the lookup as written finds
   * `Object.prototype.constructor`, which `|| null` lets through; the intended lookup gives `None`.
   */
  lemma GetCategoryByIdInherited()
    ensures GetCategoryByIdAsWritten("ntvstream_constructor") == Inherited("constructor")
    ensures GetCategoryById("ntvstream_constructor") == None
  {
    ConstructorIdCleaned();
    NoCategoryIsConstructor();
  }

  /**
   * `matchEventToCategory(name, description)`: the first category in declaration order with a
   * keyword, lower-cased, inside the lower-cased `name + " " + description`; `other_sports`
   * when there is none.
   */
  function MatchEventToCategory(name: string, description: string): (r: Category)
    ensures var text := ToLower(name + " " + description);
      (exists i :: 0 <= i < |Categories| && r == Categories[i] && HitsKeyword(text, r.keywords, true) &&
         forall j :: 0 <= j < i ==> !HitsKeyword(text, Categories[j].keywords, true)) ||
      (r == OtherSports && forall j :: 0 <= j < |Categories| ==> !HitsKeyword(text, Categories[j].keywords, true))
  {
    KeywordCategory(ToLower(name + " " + description), Categories, true, OtherSports)
  }

  /** The lower-cased search text for the event name `NCAA Basketball`. */
  const NcaaText: string := "ncaa basketball "

  lemma NcaaTextLowered()
    ensures ToLower("NCAA Basketball" + " " + "") == NcaaText
  {
    assert "NCAA Basketball" + " " + "" == "NCAA Basketball ";
  }

  /** No keyword of football occurs in it: each has a letter the text lacks. */
  lemma FootballMissesNcaa()
    ensures !HitsKeyword(NcaaText, Football.keywords, true)
  {
    var kws := ["football", "soccer", "premier", "liga", "champions", "epl", "uefa", "serie a", "bundesliga", "fa cup", "world cup"];
    var ks: seq<nat> := [0, 1, 0, 1, 1, 1, 0, 2, 1, 0, 0];
    assert Football.keywords == kws;
    forall i | 0 <= i < |kws| ensures ks[i] < |kws[i]| && LowerChar(kws[i][ks[i]]) !in NcaaText {
      assert i == 0 || i == 1 || i == 2 || i == 3 || i == 4 || i == 5 || i == 6 || i == 7 || i == 8 || i == 9 || i == 10;
    }
    MissesByChars(NcaaText, kws, ks);
  }

  lemma AmericanFootballHitsNcaa()
    ensures HitsKeyword(NcaaText, AmericanFootball.keywords, true)
  {
    ToLowerOfLower("ncaa");
    assert Contains(NcaaText, "ncaa");
    assert Keyword(AmericanFootball.keywords[1], true) == "ncaa";
  }

  /** Over the lower-cased text, American football is the first category with a keyword. */
  lemma NcaaKeywordCategory()
    ensures KeywordCategory(NcaaText, Categories, true, OtherSports) == AmericanFootball
  {
    assert Categories[0] == Football && Categories[1] == AmericanFootball;
    FootballMissesNcaa();
    AmericanFootballHitsNcaa();
    forall j | 0 <= j < 1 ensures !HitsKeyword(NcaaText, Categories[j].keywords, true) {
      assert j == 0;
    }
    assert HitsKeyword(NcaaText, Categories[1].keywords, true);
    KeywordCategoryAt(NcaaText, Categories, true, OtherSports, 1);
  }

  /** Declaration order decides overlaps: `ncaa` of American football comes before basketball's. */
  lemma NcaaBasketballIsAmericanFootball()
    ensures MatchEventToCategory("NCAA Basketball", "") == AmericanFootball
  {
    NcaaTextLowered();
    NcaaKeywordCategory();
  }
}
