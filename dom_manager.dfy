/**
 * The two-level DOM element store (core/dom_manager.py): a JSON cache of
 * element dicts keyed by "selector:<selector>", in front of a database that
 * is reached through a mapper. The mapper's answers are parameters of the
 * operations that consult it.
 */
module DomManagerModel {
  import opened Wrappers
  import opened PyJson
  import opened DateTimes
  import opened DomElementModel

  /** The cache key of a selector. */
  function SelectorKey(selector: string): (key: string)
    ensures |key| == |"selector:"| + |selector| && key[|"selector:"|..] == selector
  {
    "selector:" + selector
  }

  /** Different selectors never share a cache key. */
  lemma SelectorKeyInjective(a: string, b: string)
    ensures SelectorKey(a) == SelectorKey(b) <==> a == b
  {
    if SelectorKey(a) == SelectorKey(b) {
      assert a == SelectorKey(a)[|"selector:"|..];
    }
  }

  /** cache_data.get(key): the stored value, or None for a missing key. */
  function CacheGet(data: map<string, Json>, key: string): (v: Json)
    ensures key !in data ==> v == JNull
    ensures key in data ==> v == data[key]
  {
    if key in data then data[key] else JNull
  }

  /** get_element_by_selector on given cache contents: the element rebuilt from a truthy cached dict, else none; from_dict's exceptions propagate. */
  function CachedElement(data: map<string, Json>, selector: string, parseIso: IsoParser): (r: Result<Option<DomElement>>)
    ensures !Truthy(CacheGet(data, SelectorKey(selector))) ==> r == Ok(None)
    ensures r.Ok? && r.value.Some? ==> FromDict(data[SelectorKey(selector)], parseIso) == Ok(r.value.value)
    ensures Truthy(CacheGet(data, SelectorKey(selector))) && FromDict(data[SelectorKey(selector)], parseIso).Ok? ==>
      r == Ok(Some(FromDict(data[SelectorKey(selector)], parseIso).value))
    ensures Truthy(CacheGet(data, SelectorKey(selector))) && FromDict(data[SelectorKey(selector)], parseIso).Raised? ==>
      r == Raised(FromDict(data[SelectorKey(selector)], parseIso).error)
  {
    var cached := CacheGet(data, SelectorKey(selector));
    if Truthy(cached) then
      var e :- FromDict(cached, parseIso);
      Ok(Some(e))
    else Ok(None)
  }

  /** An element stored under a selector is found there again, provided its timestamp reads back. */
  lemma StoredElementFound(data: map<string, Json>, selector: string, e: DomElement, parseIso: IsoParser)
    requires ReadsOwnTimestamp(e, parseIso)
    ensures CachedElement(data[SelectorKey(selector) := ToDict(e)], selector, parseIso) == Ok(Some(e))
  {
    RoundTrip(e, parseIso);
  }

  /** Storing or removing one selector's entry leaves every other selector's lookup as it was. */
  lemma OtherSelectorsUnaffected(data: map<string, Json>, selector: string, other: string, v: Json, parseIso: IsoParser)
    requires other != selector
    ensures CachedElement(data[SelectorKey(selector) := v], other, parseIso) == CachedElement(data, other, parseIso)
    ensures CachedElement(data - {SelectorKey(selector)}, other, parseIso) == CachedElement(data, other, parseIso)
  {
    SelectorKeyInjective(selector, other);
  }

  /** After an entry is removed or the cache is cleared, the selector misses. */
  lemma RemovedSelectorMisses(data: map<string, Json>, selector: string, parseIso: IsoParser)
    ensures CachedElement(data - {SelectorKey(selector)}, selector, parseIso) == Ok(None)
    ensures CachedElement(map[], selector, parseIso) == Ok(None)
  {
  }

  /** DOMCacheManager: the cache contents as a dict from key to stored JSON value. */
  class DomCacheManager {
    var cacheData: map<string, Json>

    /** A cache holding what load_cache read (empty when there was no readable file). */
    constructor (loaded: map<string, Json>)
      ensures cacheData == loaded
    {
      cacheData := loaded;
    }

    /** get_from_cache */
    method GetFromCache(key: string) returns (v: Json)
      ensures v == CacheGet(cacheData, key)
    {
      if key in cacheData {
        v := cacheData[key];
      } else {
        v := JNull;
      }
    }

    /** set_to_cache: the key now maps to the value; every other key is unchanged. */
    method SetToCache(key: string, value: Json)
      modifies this
      ensures cacheData == old(cacheData)[key := value]
      ensures forall k :: k in old(cacheData) && k != key ==> k in cacheData && cacheData[k] == old(cacheData)[k]
    {
      cacheData := cacheData[key := value];
    }

    /** delete_from_cache: true exactly when the key was present; afterwards it is absent and the rest is unchanged. */
    method DeleteFromCache(key: string) returns (deleted: bool)
      modifies this
      ensures deleted <==> key in old(cacheData)
      ensures cacheData == old(cacheData) - {key}
      ensures key !in cacheData
    {
      if key in cacheData {
        cacheData := cacheData - {key};
        return true;
      }
      return false;
    }

    /** clear_cache */
    method ClearCache()
      modifies this
      ensures cacheData == map[]
    {
      cacheData := map[];
    }

    /** get_element_by_selector */
    method GetElementBySelector(selector: string, parseIso: IsoParser) returns (r: Result<Option<DomElement>>)
      ensures r == CachedElement(cacheData, selector, parseIso)
    {
      var cached := GetFromCache(SelectorKey(selector));
      if Truthy(cached) {
        var e := FromDict(cached, parseIso);
        if e.Raised? {
          return Raised(e.error);
        }
        return Ok(Some(e.value));
      }
      return Ok(None);
    }

    /** set_element_by_selector: stores the element's dict under the selector's key. */
    method SetElementBySelector(selector: string, element: DomElement)
      modifies this
      ensures cacheData == old(cacheData)[SelectorKey(selector) := ToDict(element)]
    {
      SetToCache(SelectorKey(selector), ToDict(element));
    }

    /** delete_element_by_selector */
    method DeleteElementBySelector(selector: string) returns (deleted: bool)
      modifies this
      ensures deleted <==> SelectorKey(selector) in old(cacheData)
      ensures cacheData == old(cacheData) - {SelectorKey(selector)}
    {
      deleted := DeleteFromCache(SelectorKey(selector));
    }
  }

  /** The element batch_insert_initial_elements creates for one (element_id, selector) pair. */
  function InitialElement(entry: (string, string), pageUrl: string): (e: DomElement)
    ensures e.elementId == JStr(entry.0) && e.selector == JStr(entry.1)
    ensures e.elementType == JStr("selector") && e.pageUrl == JStr(pageUrl)
    ensures e.description == JStr("初始选择器: " + entry.0)
    ensures e.position == JNull && e.textContent == JNull && e.updatedAt == None
  {
    DomElement(JStr(entry.0), JStr(entry.1), JStr("selector"), JNull, JNull, None, JStr(pageUrl), JStr("初始选择器: " + entry.0))
  }

  /** DOMManager: the cache in front of the database. */
  class DomManager {
    const cacheManager: DomCacheManager

    constructor (cache: DomCacheManager)
      ensures cacheManager == cache
    {
      cacheManager := cache;
    }

    /**
     * get_element: a cache hit is returned without asking the database
     * (`stored` is the mapper's find_by_selector answer); on a miss the
     * database's element is cached under the selector and returned.
     */
    method GetElement(selector: string, parseIso: IsoParser, stored: Option<DomElement>) returns (r: Result<Option<DomElement>>)
      modifies cacheManager
      ensures var hit := CachedElement(old(cacheManager.cacheData), selector, parseIso);
        if hit != Ok(None) then
          r == hit && cacheManager.cacheData == old(cacheManager.cacheData)
        else if stored.Some? then
          r == Ok(stored) && cacheManager.cacheData == old(cacheManager.cacheData)[SelectorKey(selector) := ToDict(stored.value)]
        else
          r == Ok(None) && cacheManager.cacheData == old(cacheManager.cacheData)
    {
      var element := cacheManager.GetElementBySelector(selector, parseIso);
      if element.Raised? || element.value.Some? {
        return element;
      }
      if stored.Some? {
        cacheManager.SetElementBySelector(selector, stored.value);
        return Ok(stored);
      }
      return Ok(None);
    }

    /** insert_element: the mapper's result is returned; only a successful insert caches the element under its own selector. */
    method InsertElement(element: DomElement, inserted: bool) returns (success: bool)
      modifies cacheManager
      ensures success == inserted
      ensures cacheManager.cacheData ==
        if inserted then old(cacheManager.cacheData)[SelectorKey(Str(element.selector)) := ToDict(element)]
        else old(cacheManager.cacheData)
    {
      success := inserted;
      if success {
        cacheManager.SetElementBySelector(Str(element.selector), element);
      }
    }

    /** update_element: only a successful update drops the element's cache entry, so the next read goes to the database. */
    method UpdateElement(element: DomElement, updated: bool) returns (success: bool)
      modifies cacheManager
      ensures success == updated
      ensures cacheManager.cacheData ==
        if updated then old(cacheManager.cacheData) - {SelectorKey(Str(element.selector))}
        else old(cacheManager.cacheData)
    {
      success := updated;
      if success {
        var _ := cacheManager.DeleteElementBySelector(Str(element.selector));
      }
    }

    /**
     * batch_insert_initial_elements: one element per (id, selector) pair, in
     * order, handed to the mapper (its answer is `inserted`); the whole cache
     * is cleared only after a successful non-empty batch.
     */
    method BatchInsertInitialElements(selectors: seq<(string, string)>, pageUrl: string, inserted: bool)
      returns (elements: seq<DomElement>)
      modifies cacheManager
      ensures |elements| == |selectors|
      ensures forall i :: 0 <= i < |selectors| ==> elements[i] == InitialElement(selectors[i], pageUrl)
      ensures cacheManager.cacheData == if selectors != [] && inserted then map[] else old(cacheManager.cacheData)
    {
      elements := [];
      var i := 0;
      while i < |selectors|
        invariant 0 <= i <= |selectors|
        invariant |elements| == i
        invariant forall k :: 0 <= k < i ==> elements[k] == InitialElement(selectors[k], pageUrl)
      {
        var (elementId, selector) := selectors[i];
        elements := elements + [DomElement(JStr(elementId), JStr(selector), JStr("selector"), JNull, JNull, None,
          JStr(pageUrl), JStr("初始选择器: " + elementId))];
        i := i + 1;
      }
      if elements != [] {
        if inserted {
          cacheManager.ClearCache();
        }
      }
    }
  }
}
