/**
 * The shapes and table operations shared by the two configuration files: the server and
 * category records, the catalog entries derived from categories, lookup of a category by
 * id, the keyword search, and the user's per-server switches.
 */
module Registry {
  import opened Wrappers
  import opened Text
  import opened Seqs

  /** A streaming source (`ServerConfig`). */
  datatype Server = Server(
    id: string,
    name: string,
    baseUrl: string,
    enabled: bool,
    priority: int,
    description: string,
    logo: Option<string>)

  /** A sport category (`CategoryConfig`); `kind` is the field `type`. */
  datatype Category = Category(
    id: string,
    name: string,
    kind: string,
    genres: seq<string>,
    icon: string,
    keywords: seq<string>)

  datatype CatalogExtra = CatalogExtra(name: string, isRequired: bool)

  /** One catalog of the add-on manifest. */
  datatype CatalogDef = CatalogDef(kind: string, id: string, name: string, extra: seq<CatalogExtra>)

  /** What catalog ids carry in front of a category id. */
  const CatalogPrefix: string := "ntvstream_"

  /** Every catalog accepts the optional `skip` and `search` extras. */
  const CatalogExtras: seq<CatalogExtra> := [CatalogExtra("skip", false), CatalogExtra("search", false)]

  /** The category ids of a table are pairwise different (an object has one entry per key). */
  predicate DistinctIds(cats: seq<Category>)
  {
    forall i, j :: 0 <= i < j < |cats| ==> cats[i].id != cats[j].id
  }

  /** `Object.values(CATEGORIES).map(...)`: one catalog per category, in declaration order. */
  function CatalogDefinitions(cats: seq<Category>): (r: seq<CatalogDef>)
    ensures |r| == |cats|
    ensures forall i :: 0 <= i < |cats| ==>
      r[i].id == CatalogPrefix + cats[i].id && r[i].kind == cats[i].kind &&
      r[i].name == cats[i].icon + " " + cats[i].name && r[i].extra == CatalogExtras
  {
    if cats == [] then []
    else
      [CatalogDef(cats[0].kind, CatalogPrefix + cats[0].id, cats[0].icon + " " + cats[0].name, CatalogExtras)]
        + CatalogDefinitions(cats[1..])
  }

  /** The first entry at or after `from` whose id is `id`: an own-property lookup. */
  function FindByIdFrom(cats: seq<Category>, id: string, from: nat): (r: Option<Category>)
    ensures r.Some? ==> exists i :: from <= i < |cats| && cats[i] == r.value && r.value.id == id
    ensures r.None? <==> forall i :: from <= i < |cats| ==> cats[i].id != id
    decreases |cats| - from
  {
    if from >= |cats| then None
    else if cats[from].id == id then Some(cats[from])
    else FindByIdFrom(cats, id, from + 1)
  }

  function FindById(cats: seq<Category>, id: string): (r: Option<Category>)
    ensures r.Some? ==> r.value in cats && r.value.id == id
    ensures r.None? <==> forall i :: 0 <= i < |cats| ==> cats[i].id != id
  {
    FindByIdFrom(cats, id, 0)
  }

  /** In a table with distinct ids, looking up an entry's id finds that entry. */
  lemma FindByIdOfEntry(cats: seq<Category>, i: nat)
    requires i < |cats| && DistinctIds(cats)
    ensures FindById(cats, cats[i].id) == Some(cats[i])
  {
    var r := FindById(cats, cats[i].id);
    assert r.Some?;
    var k :| 0 <= k < |cats| && cats[k] == r.value && r.value.id == cats[i].id;
  }

  /** Stripping the prefix from `ntvstream_constructor` leaves `constructor`. */
  lemma ConstructorIdCleaned()
    ensures ReplaceFirst("ntvstream_constructor", CatalogPrefix, "") == "constructor"
  {
    ReplaceFirstOfPrefixed(CatalogPrefix, "constructor");
    assert CatalogPrefix + "constructor" == "ntvstream_constructor";
  }

  /** The keyword as compared: lower-cased first in the TypeScript file, as written in the JavaScript one. */
  function Keyword(k: string, lowerKeywords: bool): string
  {
    if lowerKeywords then ToLower(k) else k
  }

  /** The inner loop: some keyword occurs in `text`. */
  function HitsKeyword(text: string, keywords: seq<string>, lowerKeywords: bool): (r: bool)
    ensures r <==> exists i :: 0 <= i < |keywords| && Contains(text, Keyword(keywords[i], lowerKeywords))
  {
    if keywords == [] then false
    else if Contains(text, Keyword(keywords[0], lowerKeywords)) then true
    else
      assert forall i :: 1 <= i < |keywords| ==> keywords[i] == keywords[1..][i - 1];
      HitsKeyword(text, keywords[1..], lowerKeywords)
  }

  /**
   * The outer loop: the index of the first category, in declaration order, with a keyword in
   * `text`, or -1.
   */
  function FirstHit(text: string, cats: seq<Category>, lowerKeywords: bool): (r: int)
    ensures r == -1 || (0 <= r < |cats| && HitsKeyword(text, cats[r].keywords, lowerKeywords))
    ensures forall j :: 0 <= j < |cats| && (r == -1 || j < r) ==> !HitsKeyword(text, cats[j].keywords, lowerKeywords)
  {
    FindFrom(cats, (c: Category) => HitsKeyword(text, c.keywords, lowerKeywords), 0)
  }

  /**
   * The category of `cats` the keyword search settles on: the first in declaration order
   * with a keyword in `text`, and `fallback` when none has one.
   */
  function KeywordCategory(text: string, cats: seq<Category>, lowerKeywords: bool, fallback: Category): (r: Category)
    ensures (exists i :: 0 <= i < |cats| && r == cats[i] && HitsKeyword(text, r.keywords, lowerKeywords) &&
               forall j :: 0 <= j < i ==> !HitsKeyword(text, cats[j].keywords, lowerKeywords)) ||
            (r == fallback && forall j :: 0 <= j < |cats| ==> !HitsKeyword(text, cats[j].keywords, lowerKeywords))
  {
    var i := FirstHit(text, cats, lowerKeywords);
    if i >= 0 then cats[i] else fallback
  }

  /** The category at `i` wins when it has a keyword in `text` and none before it has. */
  lemma KeywordCategoryAt(text: string, cats: seq<Category>, lowerKeywords: bool, fallback: Category, i: nat)
    requires i < |cats| && HitsKeyword(text, cats[i].keywords, lowerKeywords)
    requires forall j :: 0 <= j < i ==> !HitsKeyword(text, cats[j].keywords, lowerKeywords)
    ensures KeywordCategory(text, cats, lowerKeywords, fallback) == cats[i]
  {
    assert FirstHit(text, cats, lowerKeywords) == i;
  }

  /**
   * No keyword occurs in `text` when each has a character, at `ks[i]`, that `text` lacks once
   * lower-cased.
   */
  lemma MissesByChars(text: string, keywords: seq<string>, ks: seq<nat>)
    requires |ks| == |keywords|
    requires forall i :: 0 <= i < |keywords| ==> ks[i] < |keywords[i]| && LowerChar(keywords[i][ks[i]]) !in text
    ensures !HitsKeyword(text, keywords, true)
  {
    forall i | 0 <= i < |keywords| ensures !Contains(text, Keyword(keywords[i], true)) {
      ContainsHasChar(text, ToLower(keywords[i]), ks[i]);
    }
  }

  /** A user's `servers` switches: a JSON object, with one boolean per key. */
  predicate DistinctKeys(r: seq<(string, bool)>)
  {
    forall i, j :: 0 <= i < j < |r| ==> r[i].0 != r[j].0
  }

  type Switches = r: seq<(string, bool)> | DistinctKeys(r) witness []

  /** `userConfig[key]`, `None` for `undefined`. */
  function Get(r: Switches, key: string): (o: Option<bool>)
    ensures o.None? <==> forall i :: 0 <= i < |r| ==> r[i].0 != key
    ensures o.Some? ==> exists i :: 0 <= i < |r| && r[i] == (key, o.value)
  {
    if r == [] then None
    else if r[0].0 == key then Some(r[0].1)
    else
      var rest: Switches := r[1..];
      assert forall i :: 1 <= i < |r| ==> r[i] == rest[i - 1];
      Get(rest, key)
  }

  /** The switch for a server when the user set one, and the table's default otherwise. */
  predicate Selected(r: Switches, s: Server)
  {
    match Get(r, s.id)
    case Some(b) => b
    case None => s.enabled
  }

  /** The comparator `a.priority - b.priority` as "not after". */
  predicate PriorityLe(a: Server, b: Server)
  {
    a.priority <= b.priority
  }

  /** `.sort((a, b) => a.priority - b.priority)`: ascending priority, a permutation, duplicates kept apart. */
  function SortByPriority(s: seq<Server>): (r: seq<Server>)
    ensures multiset(r) == multiset(s)
    ensures SortedBy(r, PriorityLe)
    ensures Distinct(s) ==> Distinct(r)
  {
    SortSorted(s, PriorityLe, PriorityLe, s);
    SortDistinct(s, PriorityLe);
    Sort(s, PriorityLe)
  }

  /**
   * The servers of `table` that `keep` selects, by ascending priority: `filter` then `sort`.
   */
  function EnabledServers(table: seq<Server>, keep: Server -> bool): (r: seq<Server>)
    ensures forall s :: s in r <==> s in table && keep(s)
    ensures Distinct(table) ==> Distinct(r)
    ensures SortedBy(r, PriorityLe)
  {
    var chosen := Filter(table, keep);
    FilterMembers(table, keep);
    FilterSubseq(table, keep);
    assert forall s :: s in SortByPriority(chosen) <==> s in multiset(chosen);
    if Distinct(table) then
      SubseqDistinct(chosen, table);
      SortByPriority(chosen)
    else
      SortByPriority(chosen)
  }

  /**
   * The names every JavaScript object literal inherits from `Object.prototype`; reading
   * `table[name]` for one of them finds a function or an object, never `undefined`.
   */
  const ObjectPrototypeNames: set<string> := {
    "constructor", "__proto__", "hasOwnProperty", "isPrototypeOf", "propertyIsEnumerable",
    "toString", "valueOf", "toLocaleString", "__defineGetter__", "__defineSetter__",
    "__lookupGetter__", "__lookupSetter__"
  }

  /** What `table[key]` reads on a JavaScript object literal. */
  datatype Property = Own(category: Category) | Inherited(name: string) | Absent

  /** `CATEGORIES[key]`: an own entry first, then the prototype chain. */
  function ReadProperty(cats: seq<Category>, key: string): (r: Property)
    ensures r.Own? <==> FindById(cats, key).Some?
    ensures r.Own? ==> r.category in cats && r.category.id == key
    ensures r.Inherited? <==> FindById(cats, key).None? && key in ObjectPrototypeNames
  {
    match FindById(cats, key)
    case Some(c) => Own(c)
    case None => if key in ObjectPrototypeNames then Inherited(key) else Absent
  }

  /** Truthiness of what was read: every inherited member is a function or an object. */
  predicate PropertyTruthy(p: Property)
  {
    !p.Absent?
  }
}
