/**
 * The address search box of the map screen: a query that is searched once it
 * has at least three characters after trimming, a list of geocoder results,
 * and a cache of the last twenty searches keyed by the trimmed, lower-cased
 * query. The cache is a JavaScript `Map`, so its entries keep their insertion
 * order and the oldest entry is the one evicted.
 *
 * The geocoder response is a parameter (`Http.Response`); the three-second
 * delay before a search and the parsing of coordinates are not part of this model.
 */
module AddressSearch {
  import opened Wrappers
  import opened Text
  import opened Http

  const MinQueryLength := 3
  const CacheCapacity := 20

  /** `NominatimResult` */
  datatype NominatimResult = NominatimResult(placeId: int, displayName: string, lat: string, lon: string)

  datatype CacheEntry = CacheEntry(key: string, results: seq<NominatimResult>)

  /** A `Map` as its entries, oldest first. */
  type Cache = seq<CacheEntry>

  predicate DistinctKeys(cache: Cache) {
    forall i, j :: 0 <= i < j < |cache| ==> cache[i].key != cache[j].key
  }

  predicate HasKey(cache: Cache, key: string) {
    exists i :: 0 <= i < |cache| && cache[i].key == key
  }

  lemma {:induction false} DistinctTail(cache: Cache)
    requires cache != [] && DistinctKeys(cache)
    ensures DistinctKeys(cache[1..]) && !HasKey(cache[1..], cache[0].key)
  {
    forall i, j | 0 <= i < j < |cache[1..]| ensures cache[1..][i].key != cache[1..][j].key {
      assert cache[1..][i] == cache[i + 1] && cache[1..][j] == cache[j + 1];
    }
    forall i | 0 <= i < |cache[1..]| ensures cache[1..][i].key != cache[0].key {
      assert cache[1..][i] == cache[i + 1];
    }
  }

  lemma {:induction false} HasKeyTail(cache: Cache, key: string)
    requires cache != [] && cache[0].key != key
    ensures HasKey(cache, key) <==> HasKey(cache[1..], key)
  {
    if HasKey(cache, key) {
      var i :| 0 <= i < |cache| && cache[i].key == key;
      assert cache[1..][i - 1].key == key;
    }
    if HasKey(cache[1..], key) {
      var i :| 0 <= i < |cache[1..]| && cache[1..][i].key == key;
      assert cache[i + 1].key == key;
    }
  }

  /** `cache.get(key)` */
  function Lookup(cache: Cache, key: string): (r: Option<seq<NominatimResult>>)
    requires DistinctKeys(cache)
    ensures r.None? <==> !HasKey(cache, key)
    ensures forall i :: 0 <= i < |cache| && cache[i].key == key ==> r == Some(cache[i].results)
  {
    if cache == [] then None
    else if cache[0].key == key then
      DistinctTail(cache);
      Some(cache[0].results)
    else
      DistinctTail(cache);
      HasKeyTail(cache, key);
      var rest := Lookup(cache[1..], key);
      assert forall i :: 1 <= i < |cache| ==> cache[i] == cache[1..][i - 1];
      rest
  }

  /** The position of `key` in the entries. */
  function IndexOf(cache: Cache, key: string): (i: nat)
    requires HasKey(cache, key)
    ensures i < |cache| && cache[i].key == key
  {
    if cache[0].key == key then 0
    else
      HasKeyTail(cache, key);
      1 + IndexOf(cache[1..], key)
  }

  /** `cache.set(key, value)`: an existing key keeps its place, a new key goes last. */
  function MapSet(cache: Cache, key: string, value: seq<NominatimResult>): (r: Cache)
    requires DistinctKeys(cache)
    ensures DistinctKeys(r)
    ensures |r| == if HasKey(cache, key) then |cache| else |cache| + 1
    ensures !HasKey(cache, key) ==> r == cache + [CacheEntry(key, value)]
    ensures forall i :: 0 <= i < |cache| ==> r[i].key == cache[i].key
    ensures forall i :: 0 <= i < |cache| && cache[i].key != key ==> r[i] == cache[i]
    ensures forall i :: 0 <= i < |r| && r[i].key == key ==> r[i].results == value
    ensures HasKey(r, key)
  {
    if HasKey(cache, key) then
      var i := IndexOf(cache, key);
      var r := cache[i := CacheEntry(key, value)];
      assert r[i].key == key;
      r
    else
      var r := cache + [CacheEntry(key, value)];
      assert r[|cache|].key == key;
      r
  }

  /** `cache.delete(key)` where `key` is the oldest key. */
  function MapDeleteFirst(cache: Cache): (r: Cache)
    requires cache != [] && DistinctKeys(cache)
    ensures DistinctKeys(r) && !HasKey(r, cache[0].key)
    ensures |r| == |cache| - 1
    ensures forall i :: 1 <= i < |cache| ==> r[i - 1] == cache[i]
  {
    DistinctTail(cache);
    cache[1..]
  }

  /** What the cache may hold: distinct keys, each long enough to have been searched, at most twenty of them. */
  predicate CacheValid(cache: Cache) {
    DistinctKeys(cache) && |cache| <= CacheCapacity && (forall i :: 0 <= i < |cache| ==> |cache[i].key| >= MinQueryLength)
  }

  /**
   * The `setSearchCache` updater: a copy of the previous cache, `set` of the new
   * entry, and `delete` of the oldest key once the copy holds more than twenty.
   */
  method CachedWith(prev: Cache, key: string, data: seq<NominatimResult>) returns (newCache: Cache)
    requires CacheValid(prev) && |key| >= MinQueryLength
    ensures CacheValid(newCache)
    ensures Lookup(newCache, key) == Some(data)
    ensures HasKey(prev, key) ==> newCache == MapSet(prev, key, data)
    ensures !HasKey(prev, key) && |prev| < CacheCapacity ==> newCache == prev + [CacheEntry(key, data)]
    ensures !HasKey(prev, key) && |prev| == CacheCapacity ==> newCache == prev[1..] + [CacheEntry(key, data)]
  {
    newCache := prev;
    newCache := MapSet(newCache, key, data);
    assert DistinctKeys(newCache) by {
      if !HasKey(prev, key) {
        assert newCache == prev + [CacheEntry(key, data)];
        forall i | 0 <= i < |prev| ensures prev[i].key != key {
        }
      }
    }
    if |newCache| > CacheCapacity {
      var firstKey := newCache[0].key;
      if firstKey != "" {
        newCache := MapDeleteFirst(newCache);
        assert newCache == prev[1..] + [CacheEntry(key, data)];
      }
    }
    assert forall i :: 0 <= i < |newCache| && newCache[i].key == key ==> newCache[i].results == data;
  }

  /** `query.trim().length < 3`: too short to search. */
  predicate TooShort(query: string) {
    |Trim(query)| < MinQueryLength
  }

  /** The cache key of a query: trimmed, then lower-cased. */
  function CacheKey(query: string): (r: string)
    ensures |r| == |Trim(query)|
    ensures forall i :: 0 <= i < |r| ==> !IsUpper(r[i])
  {
    ToLower(Trim(query))
  }

  class AddressSearchBox {
    var query: string
    var results: seq<NominatimResult>
    var isSearching: bool
    var showResults: bool
    var searchCache: Cache

    predicate Valid()
      reads this
    {
      CacheValid(searchCache)
    }

    constructor()
      ensures Valid()
      ensures query == "" && results == [] && !isSearching && !showResults && searchCache == []
    {
      query, results, isSearching, showResults, searchCache := "", [], false, false, [];
    }

    /** Typing: a query too short to search clears and hides the results at once. */
    method SetQuery(q: string)
      requires Valid()
      modifies this
      ensures Valid()
      ensures query == q && isSearching == old(isSearching) && searchCache == old(searchCache)
      ensures TooShort(q) ==> results == [] && !showResults
      ensures !TooShort(q) ==> results == old(results) && showResults == old(showResults)
    {
      query := q;
      if TooShort(q) {
        results := [];
        showResults := false;
      }
    }

    /** `searchAddress()`; `fetched` says whether the geocoder was asked. */
    method SearchAddress(response: Response<seq<NominatimResult>>) returns (fetched: bool)
      requires Valid()
      modifies this
      ensures Valid()
      ensures query == old(query) && isSearching == (old(isSearching) && !fetched)
      ensures TooShort(query) ==>
        !fetched && results == old(results) && showResults == old(showResults) && searchCache == old(searchCache)
      ensures !TooShort(query) && HasKey(old(searchCache), CacheKey(query)) ==>
        !fetched && results == Lookup(old(searchCache), CacheKey(query)).value && showResults
        && searchCache == old(searchCache)
      ensures !TooShort(query) && !HasKey(old(searchCache), CacheKey(query)) ==> fetched
      ensures fetched && response.Success? ==>
        results == response.body && showResults && Lookup(searchCache, CacheKey(query)) == Some(response.body)
      ensures fetched && response.Success? && |old(searchCache)| < CacheCapacity ==>
        searchCache == old(searchCache) + [CacheEntry(CacheKey(query), response.body)]
      ensures fetched && response.Success? && |old(searchCache)| == CacheCapacity ==>
        searchCache == old(searchCache)[1..] + [CacheEntry(CacheKey(query), response.body)]
      ensures fetched && !response.Success? ==>
        results == [] && showResults == old(showResults) && searchCache == old(searchCache)
    {
      var trimmedQuery := Trim(query);
      if |trimmedQuery| < MinQueryLength {
        return false;
      }
      var key := ToLower(trimmedQuery);
      var cached := Lookup(searchCache, key);
      if cached.Some? {
        results := cached.value;
        showResults := true;
        return false;
      }
      isSearching := true;
      fetched := true;
      if response.Success? {
        searchCache := CachedWith(searchCache, key, response.body);
        results := response.body;
        showResults := true;
      } else {
        results := [];
      }
      isSearching := false;
    }

    /** `handleSelectResult(result)`: the chosen address becomes the query and the list closes. */
    method SelectResult(result: NominatimResult)
      requires Valid()
      modifies this
      ensures Valid()
      ensures query == result.displayName && !showResults && results == []
      ensures searchCache == old(searchCache) && isSearching == old(isSearching)
    {
      query := result.displayName;
      showResults := false;
      results := [];
    }

    /** Escape hides the list and keeps it. */
    method Escape()
      modifies this
      ensures !showResults && query == old(query) && results == old(results)
      ensures searchCache == old(searchCache) && isSearching == old(isSearching)
    {
      showResults := false;
    }

    /** Focusing the input shows the list again when there are results to show. */
    method Focus()
      modifies this
      ensures showResults == (old(showResults) || |results| > 0)
      ensures query == old(query) && results == old(results)
      ensures searchCache == old(searchCache) && isSearching == old(isSearching)
    {
      if |results| > 0 {
        showResults := true;
      }
    }
  }

  // ---------------------------------------------------------------------------
  // Properties
  // ---------------------------------------------------------------------------

  /**
   * Queries that differ only in surrounding white space or in letter case share
   * a cache entry: trimming or lower-casing the query first leaves its key as it is.
   */
  lemma {:induction false} KeyIgnoresCaseAndPadding(query: string)
    ensures CacheKey(Trim(query)) == CacheKey(query)
    ensures CacheKey(ToLower(query)) == CacheKey(query)
  {
    TrimIdempotent(query);
    TrimOfLower(query);
    LowerOfLower(ToLower(Trim(query)));
  }

  /** `" Gdynia "` and `"gdynia"` are looked up under the same key. */
  lemma {:induction false} PaddedCapitalizedQueryExample()
    ensures CacheKey(" Gdynia ") == CacheKey("gdynia")
  {
    var word, lower := "Gdynia", "gdynia";
    assert !IsWhitespace(word[0]) && !IsWhitespace(word[|word| - 1]);
    assert !IsWhitespace(lower[0]) && !IsWhitespace(lower[|lower| - 1]);
    TrimStartOfLeadingWhitespace(" ", word + " ");
    assert " " + (word + " ") == " Gdynia ";
    assert TrimEnd(word + " ") == word by {
      assert (word + " ")[..|word|] == word;
    }
    assert TrimStart(lower) == lower && TrimEnd(lower) == lower;
    assert ToLower(word) == lower by {
      assert LowerChar('G') == 'g';
    }
  }

  /** Setting a key and reading it gives the value; other keys read as before. */
  lemma {:induction false} LookupAfterSet(cache: Cache, key: string, other: string, value: seq<NominatimResult>)
    requires DistinctKeys(cache) && other != key
    ensures Lookup(MapSet(cache, key, value), key) == Some(value)
    ensures Lookup(MapSet(cache, key, value), other) == Lookup(cache, other)
  {
    var r := MapSet(cache, key, value);
    var i :| 0 <= i < |r| && r[i].key == key;
    assert Lookup(r, key) == Some(r[i].results);
    if HasKey(cache, other) {
      var j :| 0 <= j < |cache| && cache[j].key == other;
      assert r[j] == cache[j];
    } else {
      assert forall j :: 0 <= j < |cache| ==> r[j].key != other;
    }
  }

  /** A full cache evicts the oldest entry, and only it, when a new key arrives. */
  lemma {:induction false} FullCacheEvictsOldest(cache: Cache, key: string, data: seq<NominatimResult>)
    requires CacheValid(cache) && |cache| == CacheCapacity && !HasKey(cache, key)
    ensures !HasKey(cache[1..] + [CacheEntry(key, data)], cache[0].key)
    ensures forall i :: 1 <= i < |cache| ==> HasKey(cache[1..] + [CacheEntry(key, data)], cache[i].key)
  {
    var r := cache[1..] + [CacheEntry(key, data)];
    forall i | 0 <= i < |r| ensures r[i].key != cache[0].key {
      if i < |cache| - 1 {
        assert r[i] == cache[i + 1];
      } else {
        assert !(cache[0].key == key);
      }
    }
    forall i | 1 <= i < |cache| ensures HasKey(r, cache[i].key) {
      assert r[i - 1] == cache[i];
    }
  }
}
