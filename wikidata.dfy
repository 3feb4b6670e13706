/**
 * The Wikidata helpers of wikidata_triples_extract.py: the nested-dictionary
 * search `recursive_find`, the memoising id-to-name lookup and the claim
 * filter `get_entities_of_property`, and the table of relation properties.
 *
 * JSON documents are the datatype `Json`; a dictionary is its list of
 * entries in iteration order. The web service is the parameter `fetch`,
 * which gives the parsed response for an id.
 */
module Wikidata {
  import opened Wrappers
  import Classifier

  datatype Json =
    | Obj(entries: seq<Entry>)
    | Arr(items: seq<Json>)
    | Str(s: string)
    | Num(n: int)
    | Bool(b: bool)
    | Null

  /** One key-value pair of a dictionary. */
  datatype Entry = Entry(key: string, value: Json)

  type Entries = seq<Entry>

  /** Lines 11-21: the properties followed, with the relation phrase each one is written as. */
  const RelationProperties: seq<(string, string)> := [
    ("P527", "has parts"),
    ("P361", "part of"),
    ("P186", "made from material"),
    ("P1963", "properties for this type"),
    ("P1552", "has characteristic"),
    ("P279", "subclass of"),
    ("P31", "instance of"),
    ("P2283", "uses"),
    ("P2789", "connects with")
  ]

  /** The classifier gives each relation phrase the type that the table's comments name. */
  lemma RelationPropertiesTypes()
    ensures forall i :: 0 <= i < |RelationProperties| ==>
      Classifier.RelationTypeOf(RelationProperties[i].1) ==
        [Classifier.Aggregation, Classifier.Aggregation, Classifier.Composition,
         Classifier.Attributes, Classifier.Attributes, Classifier.Inheritance,
         Classifier.Inheritance, Classifier.Association, Classifier.Association][i]
  {
  }

  /**
   * Lines 43-55: walk the entries in order; the first key equal to `key`
   * gives its value, the first dictionary value ends the walk with the search
   * inside it, and running off the end gives None.
   */
  function RecursiveFind(es: Entries, key: string): Option<Json>
    decreases es
  {
    if es == [] then None
    else if es[0].key == key then Some(es[0].value)
    else if es[0].value.Obj? then RecursiveFind(es[0].value.entries, key)
    else RecursiveFind(es[1..], key)
  }

  /** No entry before `k` has the key or a dictionary value. */
  ghost predicate PlainBefore(es: Entries, key: string, k: int)
    requires 0 <= k <= |es|
  {
    forall j :: 0 <= j < k ==> es[j].key != key && !es[j].value.Obj?
  }

  lemma {:induction false} RecursiveFindSkips(es: Entries, key: string, k: int)
    requires 0 <= k <= |es| && PlainBefore(es, key, k)
    ensures RecursiveFind(es, key) == RecursiveFind(es[k..], key)
  {
    if k > 0 {
      RecursiveFindSkips(es[1..], key, k - 1);
      assert es[1..][k - 1..] == es[k..];
    }
  }

  /** Lines 52-53: a matching key reached before any dictionary value gives its value. */
  lemma FirstMatchWins(es: Entries, key: string, k: int)
    requires 0 <= k < |es| && PlainBefore(es, key, k) && es[k].key == key
    ensures RecursiveFind(es, key) == Some(es[k].value)
  {
    RecursiveFindSkips(es, key, k);
  }

  /** Lines 54-55: the first dictionary value, reached before any match, decides the result alone. */
  lemma FirstDictionaryDecides(es: Entries, key: string, k: int)
    requires 0 <= k < |es| && PlainBefore(es, key, k) && es[k].key != key && es[k].value.Obj?
    ensures RecursiveFind(es, key) == RecursiveFind(es[k].value.entries, key)
  {
    RecursiveFindSkips(es, key, k);
  }

  /** Lines 51-55: with no matching key and no dictionary value the result is None. */
  lemma NoMatchNoDictionary(es: Entries, key: string)
    requires PlainBefore(es, key, |es|)
    ensures RecursiveFind(es, key) == None
  {
    RecursiveFindSkips(es, key, |es|);
  }

  /** Python's truth value of a JSON value. */
  predicate Truthy(j: Json)
  {
    match j
    case Obj(es) => es != []
    case Arr(xs) => xs != []
    case Str(s) => s != ""
    case Num(n) => n != 0
    case Bool(b) => b
    case Null => false
  }

  /** Python's `x is None` for a search result: nothing found, or a JSON null found. */
  predicate IsNone(o: Option<Json>)
  {
    o.None? || o == Some(Null)
  }

  /** `d[key]` on a JSON value; None where Python raises. */
  function Get(j: Json, key: string): Option<Json>
  {
    if !j.Obj? then None else Lookup(j.entries, key)
  }

  function Lookup(es: Entries, key: string): Option<Json>
  {
    if es == [] then None
    else if es[0].key == key then Some(es[0].value)
    else Lookup(es[1..], key)
  }

  /** Line 94: the id at `mainsnak.datavalue.value.id`, or None where the lookup raises. */
  function ItemId(item: Json): Option<string>
  {
    match Get(item, "mainsnak")
    case None => None
    case Some(a) =>
      match Get(a, "datavalue")
      case None => None
      case Some(b) =>
        match Get(b, "value")
        case None => None
        case Some(c) =>
          match Get(c, "id")
          case Some(Str(id)) => Some(id)
          case _ => None
  }

  // ---------------------------------------------------------------------------
  // The name cache
  // ---------------------------------------------------------------------------

  /** The name the service gives for an id, without the cache. */
  function FetchName(id: string, fetch: string -> Entries): Option<Json>
  {
    RecursiveFind(fetch(id), "value")
  }

  /** Lines 64-76: the name of an id and the cache afterwards. */
  function NameLookup(cache: map<string, Json>, id: string, fetch: string -> Entries): (Option<Json>, map<string, Json>)
  {
    if id in cache then (Some(cache[id]), cache)
    else
      var name := FetchName(id, fetch);
      if name.Some? && Truthy(name.value) then (name, cache[id := name.value]) else (name, cache)
  }

  /** Every cached name is the service's truthy name for its id. */
  ghost predicate CacheAgrees(cache: map<string, Json>, fetch: string -> Entries)
  {
    forall id | id in cache :: FetchName(id, fetch) == Some(cache[id]) && Truthy(cache[id])
  }

  /**
   * The cache is transparent: a cache that agrees with the service answers as
   * the service would, and still agrees afterwards. A cached id is answered
   * from the cache alone; only truthy names are stored.
   */
  lemma NameLookupTransparent(cache: map<string, Json>, id: string, fetch: string -> Entries)
    ensures var (name, after) := NameLookup(cache, id, fetch);
      (id in cache ==> name == Some(cache[id]) && after == cache)
      && (CacheAgrees(cache, fetch) ==> name == FetchName(id, fetch) && CacheAgrees(after, fetch))
      && (forall k | k in after :: k in cache || (k == id && Truthy(after[k])))
      && (forall k | k in cache :: k in after && after[k] == cache[k])
  {
  }

  /** The entities of one claim list, threading the cache: the spec of lines 92-105. */
  function Entities(items: seq<Json>, parent: string, cache: map<string, Json>, fetch: string -> Entries)
    : (seq<(string, Json)>, map<string, Json>)
  {
    if items == [] then ([], cache)
    else
      var (front, mid) := Entities(items[..|items| - 1], parent, cache, fetch);
      match ItemId(items[|items| - 1])
      case None => (front, mid)
      case Some(id) =>
        if id == parent then (front, mid)
        else
          var (found, after) := NameLookup(mid, id, fetch);
          if IsNone(found) then (front, after) else (front + [(id, found.value)], after)
  }

  /** Lines 79-107: the entities of a property, threading the cache. */
  function EntitiesOfProperty(claims: map<string, seq<Json>>, propertyId: string, parent: string,
                              cache: map<string, Json>, fetch: string -> Entries)
    : (seq<(string, Json)>, map<string, Json>)
  {
    if propertyId in claims then Entities(claims[propertyId], parent, cache, fetch) else ([], cache)
  }

  /** The entities of a claim list as the service names them, in claim order, without a cache. */
  function Reference(items: seq<Json>, parent: string, fetch: string -> Entries): seq<(string, Json)>
  {
    if items == [] then []
    else
      Reference(items[..|items| - 1], parent, fetch) +
      match ItemId(items[|items| - 1])
      case None => []
      case Some(id) =>
        if id == parent || IsNone(FetchName(id, fetch)) then [] else [(id, FetchName(id, fetch).value)]
  }

  /**
   * With a cache that agrees with the service, the claim filter gives the
   * cache-free result: items without an id, items naming the parent and
   * items whose name is None are dropped, the rest keep claim order; the cache
   * still agrees afterwards.
   */
  lemma {:induction false} EntitiesMatchReference(items: seq<Json>, parent: string,
                                                  cache: map<string, Json>, fetch: string -> Entries)
    requires CacheAgrees(cache, fetch)
    ensures Entities(items, parent, cache, fetch).0 == Reference(items, parent, fetch)
    ensures CacheAgrees(Entities(items, parent, cache, fetch).1, fetch)
  {
    if items != [] {
      var n := |items| - 1;
      EntitiesMatchReference(items[..n], parent, cache, fetch);
      var mid := Entities(items[..n], parent, cache, fetch).1;
      match ItemId(items[n])
      case None =>
      case Some(id) =>
        NameLookupTransparent(mid, id, fetch);
    }
  }

  /** Every entity returned has an id other than the parent and a name that is not None. */
  lemma {:induction false} ReferenceEntries(items: seq<Json>, parent: string, fetch: string -> Entries)
    ensures forall e | e in Reference(items, parent, fetch) ::
      e.0 != parent && FetchName(e.0, fetch) == Some(e.1) && e.1 != Null
  {
    if items != [] {
      ReferenceEntries(items[..|items| - 1], parent, fetch);
    }
  }

  /** Line 88 and lines 106-107: a property without claims gives no entities and leaves the cache alone. */
  lemma MissingPropertyGivesNothing(claims: map<string, seq<Json>>, propertyId: string, parent: string,
                                    cache: map<string, Json>, fetch: string -> Entries)
    requires propertyId !in claims
    ensures EntitiesOfProperty(claims, propertyId, parent, cache, fetch) == ([], cache)
  {
  }

  /** The module-level name cache (`entity_name_cache`), updated in place. */
  class NameCache {
    var cache: map<string, Json>

    constructor ()
      ensures cache == map[]
    {
      cache := map[];
    }

    /** Lines 57-76: `convert_id_to_name`. */
    method ConvertIdToName(id: string, fetch: string -> Entries) returns (name: Option<Json>)
      modifies this
      ensures (name, cache) == NameLookup(old(cache), id, fetch)
    {
      if id in cache {
        return Some(cache[id]);
      }
      name := RecursiveFind(fetch(id), "value");
      if name.Some? && Truthy(name.value) {
        cache := cache[id := name.value];
      }
    }

    /** Lines 79-107: `get_entities_of_property`. */
    method GetEntitiesOfProperty(claims: map<string, seq<Json>>, propertyId: string, parent: string,
                                 fetch: string -> Entries) returns (table: seq<(string, Json)>)
      modifies this
      ensures (table, cache) == EntitiesOfProperty(claims, propertyId, parent, old(cache), fetch)
    {
      if propertyId !in claims {
        return [];
      }
      var items := claims[propertyId];
      table := [];
      var i := 0;
      while i < |items|
        invariant 0 <= i <= |items|
        invariant (table, cache) == Entities(items[..i], parent, old(cache), fetch)
      {
        assert items[..i + 1][..i] == items[..i];
        var id := ItemId(items[i]);
        if id.Some? && id.value != parent {
          var name := ConvertIdToName(id.value, fetch);
          if !IsNone(name) {
            table := table + [(id.value, name.value)];
          }
        }
        i := i + 1;
      }
      assert items[..i] == items;
    }
  }
}
