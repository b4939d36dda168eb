/**
 * The offline service worker: on install it stores the static assets in
 * the static cache, on fetch it goes to the network first and answers from
 * the cache only when the network fails, on activate it deletes the caches
 * of earlier versions.
 */
module ServiceWorker {
  import opened Wrappers
  import opened Seqs

  const CACHE_NAME := "emergency-care-v2"
  const STATIC_CACHE := "emergency-care-static-v2"
  const STATIC_ASSETS: seq<string> := ["/", "/manifest.json", "/icon-192.png", "/icon-512.png"]

  /** A request: its full URL, the URL's path name, and its HTTP method (`verb`). */
  datatype Request = Request(url: string, path: string, verb: string)
  datatype Response = Response(status: int, statusText: string, contentType: Option<string>, body: string)
  /** What the network gives back for a request: a response, or a rejection. */
  datatype NetResult = Delivered(response: Response) | NetworkError

  /** One cache: responses by request URL. */
  type Cache = map<string, Response>

  predicate IsStaticAsset(path: string) {
    path in STATIC_ASSETS
  }

  /** The caches `activate` keeps. */
  predicate IsCurrentCache(name: string) {
    name == STATIC_CACHE || name == CACHE_NAME
  }

  /** A network response is copied into the static cache only for a successful GET of a static asset. */
  predicate ShouldCache(request: Request, response: Response) {
    response.status == 200 && request.verb == "GET" && IsStaticAsset(request.path)
  }

  /** The JSON text of the offline error body. */
  const OFFLINE_BODY := "{\"error\":\"Network connection required for this feature\",\"message\":\"Please check your internet connection and try again\"}"
  const OFFLINE_RESPONSE := Response(503, "Service Unavailable", Some("application/json"), OFFLINE_BODY)

  /** The cache at position i of `names` exists and holds `url`. */
  predicate HoldsAt(names: seq<string>, entries: map<string, Cache>, url: string, i: int) {
    0 <= i < |names| && names[i] in entries && url in entries[names[i]]
  }

  /** `caches.match` by URL: the entry of the first cache, in creation order, that holds it. */
  function MatchIn(names: seq<string>, entries: map<string, Cache>, url: string): Option<Response> {
    if names == [] then None
    else if names[0] in entries && url in entries[names[0]] then Some(entries[names[0]][url])
    else MatchIn(names[1..], entries, url)
  }

  /** A match exists exactly when some cache holds the URL, and it comes from the first such cache. */
  lemma {:induction false} MatchInSpec(names: seq<string>, entries: map<string, Cache>, url: string)
    ensures MatchIn(names, entries, url).None? <==> forall i :: !HoldsAt(names, entries, url, i)
    ensures MatchIn(names, entries, url).Some? ==>
              exists i :: HoldsAt(names, entries, url, i) && entries[names[i]][url] == MatchIn(names, entries, url).value
                          && forall j :: 0 <= j < i ==> !HoldsAt(names, entries, url, j)
  {
    if names != [] {
      MatchInSpec(names[1..], entries, url);
      forall i | 0 < i < |names|
        ensures HoldsAt(names, entries, url, i) <==> HoldsAt(names[1..], entries, url, i - 1)
      {
      }
      if !(names[0] in entries && url in entries[names[0]]) && MatchIn(names, entries, url).Some? {
        var k :| HoldsAt(names[1..], entries, url, k) && entries[names[1..][k]][url] == MatchIn(names, entries, url).value
                 && forall j :: 0 <= j < k ==> !HoldsAt(names[1..], entries, url, j);
        assert HoldsAt(names, entries, url, k + 1);
      }
      if MatchIn(names, entries, url).None? {
        forall i | 0 <= i < |names|
          ensures !HoldsAt(names, entries, url, i)
        {
          if i > 0 {
            assert !HoldsAt(names[1..], entries, url, i - 1);
          }
        }
      }
      if forall i :: !HoldsAt(names, entries, url, i) {
        assert !HoldsAt(names, entries, url, 0);
        forall k | 0 <= k < |names| - 1
          ensures !HoldsAt(names[1..], entries, url, k)
        {
          assert !HoldsAt(names, entries, url, k + 1);
        }
      }
    }
  }

  /**
   * What the worker answers when the network fails: a static asset from the
   * caches (nothing when no cache holds it, and nothing for a request other
   * than GET, which `caches.match` never matches), anything else the 503
   * error.
   */
  function OfflineAnswer(names: seq<string>, entries: map<string, Cache>, request: Request): Option<Response> {
    if IsStaticAsset(request.path) then
      if request.verb == "GET" then MatchIn(names, entries, request.url) else None
    else Some(OFFLINE_RESPONSE)
  }

  /** The answer to a fetch: network first, the offline answer when the network fails. */
  function FetchAnswer(names: seq<string>, entries: map<string, Cache>, request: Request, result: NetResult): Option<Response> {
    match result
    case Delivered(response) => Some(response)
    case NetworkError => OfflineAnswer(names, entries, request)
  }

  /**
   * A delivered response is passed on unchanged; when the network fails, a
   * static asset is answered only from a cache that holds it, and any other
   * path gets the 503 with the JSON error.
   */
  lemma FetchAnswerSpec(names: seq<string>, entries: map<string, Cache>, request: Request, result: NetResult)
    ensures result.Delivered? ==> FetchAnswer(names, entries, request, result) == Some(result.response)
    ensures result.NetworkError? && !IsStaticAsset(request.path)
            ==> FetchAnswer(names, entries, request, result) == Some(OFFLINE_RESPONSE)
                && OFFLINE_RESPONSE.status == 503 && OFFLINE_RESPONSE.contentType == Some("application/json")
    ensures var answer := FetchAnswer(names, entries, request, result);
            result.NetworkError? && IsStaticAsset(request.path) && answer.Some?
            ==> request.verb == "GET" && exists i :: HoldsAt(names, entries, request.url, i) && entries[names[i]][request.url] == answer.value
    ensures result.NetworkError? && IsStaticAsset(request.path)
            ==> (FetchAnswer(names, entries, request, result).None?
                 <==> request.verb != "GET" || forall i :: !HoldsAt(names, entries, request.url, i))
  {
    MatchInSpec(names, entries, request.url);
  }

  /** The cache called `name`, empty when it does not exist yet. */
  function CacheOr(entries: map<string, Cache>, name: string): Cache {
    if name in entries then entries[name] else map[]
  }

  /** `caches.open(name)` creates a missing cache after the existing ones. */
  function Opened(names: seq<string>, name: string): seq<string> {
    if name in names then names else names + [name]
  }

  /** The caches after `cache.put` of `response` for `url` into the (opened) cache `name`. */
  function Stored(entries: map<string, Cache>, name: string, url: string, response: Response): map<string, Cache> {
    entries[name := CacheOr(entries, name)[url := response]]
  }

  /** A response once stored is answered offline: no network failure loses it. */
  lemma CachedServedOffline(names: seq<string>, entries: map<string, Cache>, name: string, request: Request, response: Response)
    requires IsStaticAsset(request.path) && request.verb == "GET"
    ensures OfflineAnswer(Opened(names, name), Stored(entries, name, request.url, response), request).Some?
  {
    var names' := Opened(names, name);
    var i :| 0 <= i < |names'| && names'[i] == name;
    assert HoldsAt(names', Stored(entries, name, request.url, response), request.url, i);
    MatchInSpec(names', Stored(entries, name, request.url, response), request.url);
  }

  /** An install response counts when it arrived with a 2xx status (`cache.addAll` rejects otherwise). */
  predicate IsOk(result: NetResult) {
    result.Delivered? && 200 <= result.response.status <= 299
  }

  function AssetUrls(origin: string): set<string> {
    set a | a in STATIC_ASSETS :: origin + a
  }

  predicate AllAssetsOk(origin: string, network: string -> NetResult) {
    forall a :: a in STATIC_ASSETS ==> IsOk(network(origin + a))
  }

  /** The responses `cache.addAll(staticAssets)` writes. */
  function AssetEntries(origin: string, network: string -> NetResult): Cache {
    map u | u in AssetUrls(origin) && network(u).Delivered? :: network(u).response
  }

  /** Multiset view of distinctness: no name twice. */
  ghost predicate Distinct(s: seq<string>) {
    forall x :: multiset(s)[x] <= 1
  }

  /** The names left once `name` is deleted. */
  function RemoveName(names: seq<string>, name: string): seq<string> {
    Filter(names, (n: string) => n != name)
  }

  lemma RemoveNameSpec(names: seq<string>, name: string)
    ensures forall x :: multiset(RemoveName(names, name))[x] == if x == name then 0 else multiset(names)[x]
    ensures name !in names ==> RemoveName(names, name) == names
  {
    FilterCounts(names, (n: string) => n != name);
    if name !in names {
      FilterIdentity(names, (n: string) => n != name);
    }
  }

  /** Deleting a name that occurs once removes that one position. */
  lemma RemoveOnce(front: seq<string>, name: string, back: seq<string>)
    requires name !in front && name !in back
    ensures RemoveName(front + [name] + back, name) == front + back
  {
    var p := (n: string) => n != name;
    FilterConcat(front + [name], back, p);
    FilterConcat(front, [name], p);
    RemoveNameSpec(front, name);
    RemoveNameSpec(back, name);
  }

  /** The names while `activate` walks the names it read: stale ones before `i` deleted, the rest untouched. */
  function ActivateNames(keys: seq<string>, i: nat): seq<string>
    requires i <= |keys|
  {
    Filter(keys[..i], IsCurrentCache) + keys[i..]
  }

  /** A name that occurs once in a distinct list occurs neither before nor after its position. */
  lemma DistinctAt(keys: seq<string>, i: nat)
    requires i < |keys| && Distinct(keys)
    ensures keys[i] !in keys[..i] && keys[i] !in keys[i + 1..]
  {
    assert keys == keys[..i] + [keys[i]] + keys[i + 1..];
    assert multiset(keys)[keys[i]] <= 1;
  }

  /** One step of `activate`'s walk over the names it read: a stale name is deleted where it stands. */
  lemma ActivateStep(keys: seq<string>, i: nat)
    requires i < |keys| && Distinct(keys)
    ensures ActivateNames(keys, i + 1)
            == if IsCurrentCache(keys[i]) then ActivateNames(keys, i) else RemoveName(ActivateNames(keys, i), keys[i])
  {
    var k := keys[i];
    var front := Filter(keys[..i], IsCurrentCache);
    assert keys[..i + 1] == keys[..i] + [k];
    FilterConcat(keys[..i], [k], IsCurrentCache);
    assert keys[i..] == [k] + keys[i + 1..];
    if IsCurrentCache(k) {
      assert ActivateNames(keys, i + 1) == front + [k] + keys[i + 1..];
    } else {
      DistinctAt(keys, i);
      assert ActivateNames(keys, i + 1) == front + keys[i + 1..];
      assert ActivateNames(keys, i) == front + [k] + keys[i + 1..];
      RemoveOnce(front, k, keys[i + 1..]);
    }
  }

  /** The browser's cache storage: cache names in creation order and each cache's entries. */
  class CacheStorage {
    var names: seq<string>
    var entries: map<string, Cache>

    ghost predicate Valid()
      reads this
    {
      (forall n :: n in entries <==> n in names) && Distinct(names)
    }

    constructor ()
      ensures Valid() && names == [] && entries == map[]
    {
      names := [];
      entries := map[];
    }

    /** `caches.open(name)`. */
    method Open(name: string)
      requires Valid()
      modifies this
      ensures Valid()
      ensures names == Opened(old(names), name)
      ensures entries == old(entries)[name := CacheOr(old(entries), name)]
    {
      if name !in entries {
        names := names + [name];
        entries := entries[name := map[]];
      }
    }

    /** `cache.put(request, response)` into the open cache `name`. */
    method Put(name: string, url: string, response: Response)
      requires Valid() && name in entries
      modifies this`entries
      ensures Valid()
      ensures entries == Stored(old(entries), name, url, response)
    {
      entries := entries[name := entries[name][url := response]];
    }

    /** `cache.addAll` once every response has arrived: all of them are written together. */
    method PutAll(name: string, batch: Cache)
      requires Valid() && name in entries
      modifies this`entries
      ensures Valid()
      ensures entries == old(entries)[name := old(entries)[name] + batch]
    {
      entries := entries[name := entries[name] + batch];
    }

    /** `caches.delete(name)`; the result says whether the cache existed. */
    method Delete(name: string) returns (existed: bool)
      requires Valid()
      modifies this
      ensures Valid()
      ensures existed == (name in old(entries))
      ensures names == RemoveName(old(names), name) && entries == old(entries) - {name}
    {
      existed := name in entries;
      RemoveNameSpec(names, name);
      forall n
        ensures n in RemoveName(names, name) <==> n in names && n != name
      {
        assert n in RemoveName(names, name) <==> multiset(RemoveName(names, name))[n] > 0;
      }
      names := RemoveName(names, name);
      entries := entries - {name};
    }

    /** `caches.match(request)`. */
    function Match(request: Request): Option<Response>
      reads this
    {
      if request.verb == "GET" then MatchIn(names, entries, request.url) else None
    }
  }

  /**
   * The `install` event: opens the static cache and stores the four static
   * assets, fetched from `origin` through `network`; when any of them fails
   * `addAll` stores none.
   */
  method Install(storage: CacheStorage, origin: string, network: string -> NetResult) returns (installed: bool)
    requires storage.Valid()
    modifies storage
    ensures storage.Valid()
    ensures installed == AllAssetsOk(origin, network)
    ensures storage.names == Opened(old(storage.names), STATIC_CACHE)
    ensures storage.entries == old(storage.entries)[STATIC_CACHE := CacheOr(old(storage.entries), STATIC_CACHE)
                                 + if installed then AssetEntries(origin, network) else map[]]
  {
    storage.Open(STATIC_CACHE);
    installed := AllAssetsOk(origin, network);
    if installed {
      storage.PutAll(STATIC_CACHE, AssetEntries(origin, network));
    } else {
      assert CacheOr(old(storage.entries), STATIC_CACHE) + map[] == CacheOr(old(storage.entries), STATIC_CACHE);
    }
  }

  /**
   * A first install that succeeds holds exactly the four static assets,
   * and each of them is then answered offline with the response fetched at
   * install time.
   */
  lemma FirstInstallServesAssets(origin: string, network: string -> NetResult, a: string)
    requires AllAssetsOk(origin, network) && a in STATIC_ASSETS
    ensures var entries := map[][STATIC_CACHE := CacheOr(map[], STATIC_CACHE) + AssetEntries(origin, network)];
      && AssetEntries(origin, network).Keys == AssetUrls(origin)
      && OfflineAnswer(Opened([], STATIC_CACHE), entries, Request(origin + a, a, "GET"))
         == Some(network(origin + a).response)
  {
    assert origin + a in AssetUrls(origin);
  }

  /**
   * The `fetch` event: the network's answer when it gives one, copied into
   * the static cache for a successful GET of a static asset; the offline
   * answer when it fails.
   */
  method HandleFetch(storage: CacheStorage, request: Request, result: NetResult) returns (answer: Option<Response>)
    requires storage.Valid()
    modifies storage
    ensures storage.Valid()
    ensures answer == FetchAnswer(old(storage.names), old(storage.entries), request, result)
    ensures if result.Delivered? && ShouldCache(request, result.response) then
              storage.names == Opened(old(storage.names), STATIC_CACHE)
              && storage.entries == Stored(old(storage.entries), STATIC_CACHE, request.url, result.response)
            else storage.names == old(storage.names) && storage.entries == old(storage.entries)
  {
    match result
    case Delivered(response) =>
      if ShouldCache(request, response) {
        storage.Open(STATIC_CACHE);
        storage.Put(STATIC_CACHE, request.url, response);
      }
      answer := Some(response);
    case NetworkError =>
      answer := if IsStaticAsset(request.path) then storage.Match(request) else Some(OFFLINE_RESPONSE);
  }

  /**
   * The `activate` event: deletes every cache other than the two current
   * ones and leaves those two, and their contents, as they were.
   */
  method Activate(storage: CacheStorage)
    requires storage.Valid()
    modifies storage
    ensures storage.Valid()
    ensures storage.names == Filter(old(storage.names), IsCurrentCache)
    ensures forall n :: n in storage.entries <==> n in old(storage.entries) && IsCurrentCache(n)
    ensures forall n :: n in storage.entries ==> storage.entries[n] == old(storage.entries)[n]
  {
    var keys := storage.names;
    ghost var before := storage.entries;
    ghost var gone: set<string> := {};
    assert before - gone == before;
    assert Distinct(keys);
    assert forall n :: n in before <==> n in keys;
    var i := 0;
    while i < |keys|
      invariant 0 <= i <= |keys|
      invariant storage.Valid() && Distinct(keys)
      invariant storage.names == ActivateNames(keys, i)
      invariant storage.entries == before - gone
    {
      gone := ActivateAt(storage, keys, i, before, gone);
      i := i + 1;
    }
    ActivateKeeps(keys, before, gone, storage.names, storage.entries);
    RemainingUnchanged(before, gone);
  }

  /** One turn of the walk: the cache at position i is deleted when it is stale. */
  method ActivateAt(storage: CacheStorage, keys: seq<string>, i: nat, ghost before: map<string, Cache>, ghost gone: set<string>)
      returns (ghost gone': set<string>)
    requires i < |keys| && Distinct(keys)
    requires storage.Valid() && storage.names == ActivateNames(keys, i) && storage.entries == before - gone
    modifies storage
    ensures storage.Valid() && storage.names == ActivateNames(keys, i + 1) && storage.entries == before - gone'
  {
    ActivateStep(keys, i);
    gone' := gone;
    if !IsCurrentCache(keys[i]) {
      var _ := storage.Delete(keys[i]);
      RemoveAnother(before, gone, keys[i]);
      gone' := gone + {keys[i]};
    }
  }

  /** The caches left after deletions hold what they held before. */
  lemma RemainingUnchanged(before: map<string, Cache>, gone: set<string>)
    ensures forall n :: n in before - gone ==> (before - gone)[n] == before[n]
  {
  }

  /** Deleting one more cache from what is left is deleting it together with the earlier ones. */
  lemma RemoveAnother(before: map<string, Cache>, gone: set<string>, name: string)
    ensures (before - gone) - {name} == before - (gone + {name})
  {
  }

  /** After the walk: exactly the current caches that existed remain. */
  lemma ActivateKeeps(keys: seq<string>, before: map<string, Cache>, gone: set<string>,
                      names: seq<string>, entries: map<string, Cache>)
    requires forall n :: n in before <==> n in keys
    requires forall n :: n in entries <==> n in names
    requires names == ActivateNames(keys, |keys|) && entries == before - gone
    ensures names == Filter(keys, IsCurrentCache)
    ensures forall n :: n in entries <==> n in before && IsCurrentCache(n)
  {
    assert keys[..|keys|] == keys && keys[|keys|..] == [];
    assert names == Filter(keys, IsCurrentCache);
    forall n
      ensures n in entries <==> n in before && IsCurrentCache(n)
    {
      FilterMembership(keys, IsCurrentCache, n);
      assert n in entries <==> n in names;
    }
  }
}
