/**
 * The offline cache of the editor's service worker: the install handler fills the
 * static cache from a fixed manifest, the activate handler deletes the caches of
 * earlier versions, the fetch handler routes every request through the caches and
 * the network, and the message handler lets the page ask for `skipWaiting`.
 *
 * Cache storage is ordered (caches are matched in the order they were created), so it
 * is modelled as the list of cache names plus, for each name, a map from request URL to
 * stored response. The network is an oracle from absolute URL to a response or a failure.
 */
module ServiceWorker {
  import opened Wrappers

  const StaticCacheName: string := "static-v1.0.0"
  const DynamicCacheName: string := "dynamic-v1.0.0"

  /** The manifest cached at install time. Entries that start with `/` are relative to
      the worker's origin; the other two are absolute. */
  const StaticFiles: seq<string> := [
    "/",
    "/index.html",
    "/style.css",
    "/app.js",
    "/manifest.json",
    "https://cdn.jsdelivr.net/npm/marked/marked.min.js",
    "https://r2cdn.perplexity.ai/fonts/FKGroteskNeue.woff2"
  ]

  datatype Response = Response(status: int, body: string)

  /** What `fetch` settles to: a response (whatever its status) or a rejection. */
  datatype NetResult = NetOk(response: Response) | NetFail

  type Network = string -> NetResult

  /** One cache: request URL to response. */
  type Cache = map<string, Response>

  datatype Storage = Storage(names: seq<string>, caches: map<string, Cache>)

  /** A request as the fetch handler sees it: the method, the absolute URL, and the
      `protocol` and `pathname` of that URL as `new URL(...)` reports them. */
  datatype Request = Request(httpMethod: string, url: string, protocol: string, pathname: string)

  /** What the fetch handler does with a request: leave it to the browser (it did not
      call `respondWith`), or answer with the response the promise settles to. `None`
      is a promise settling to `undefined`, which the page sees as a network error. */
  datatype Outcome = PassThrough | Respond(response: Option<Response>)

  /** One run of the fetch handler: its outcome, the cache storage after it, and
      whether it went to the network. */
  datatype Step = Step(outcome: Outcome, storage: Storage, usedNetwork: bool)

  /** The message a page posts to the worker: `event.data` when it is set, with its
      `type` property when it has one. */
  datatype Message = Message(msgType: Option<string>)

  // ---------------------------------------------------------------------------
  // Cache storage

  ghost predicate Distinct(ns: seq<string>)
  {
    forall i, j :: 0 <= i < j < |ns| ==> ns[i] != ns[j]
  }

  /** Every cache name appears once in the creation order, and the names in the order
      are exactly the caches that exist. */
  ghost predicate WellFormed(s: Storage)
  {
    Distinct(s.names) && (forall n :: n in s.caches <==> n in s.names)
  }

  predicate Holds(caches: map<string, Cache>, name: string, key: string)
  {
    name in caches && key in caches[name]
  }

  /** `cache.match(key)` on a single cache. */
  function Lookup(c: Cache, key: string): Option<Response>
  {
    if key in c then Some(c[key]) else None
  }

  /** The first cache in `names` that holds `key`, and what it holds there. */
  function MatchIn(names: seq<string>, caches: map<string, Cache>, key: string): (r: Option<Response>)
    ensures r.None? <==> forall i :: 0 <= i < |names| ==> !Holds(caches, names[i], key)
    ensures r.Some? ==> exists i :: 0 <= i < |names| && Holds(caches, names[i], key)
                                   && r.value == caches[names[i]][key]
                                   && forall j :: 0 <= j < i ==> !Holds(caches, names[j], key)
    decreases |names|
  {
    if names == [] then None
    else if Holds(caches, names[0], key) then Some(caches[names[0]][key])
    else
      var r := MatchIn(names[1..], caches, key);
      assert forall i :: 0 <= i < |names| - 1 ==> names[1..][i] == names[i + 1];
      assert r.Some? ==> exists i :: 1 <= i < |names| && Holds(caches, names[i], key)
                                    && r.value == caches[names[i]][key]
                                    && forall j :: 1 <= j < i ==> !Holds(caches, names[j], key);
      r
  }

  /** `caches.match(key)`: the caches are searched in creation order. */
  function MatchAll(s: Storage, key: string): Option<Response>
  {
    MatchIn(s.names, s.caches, key)
  }

  /** `caches.open(name)`: the named cache, created empty (and last in order) when it
      does not exist yet. */
  function Opened(s: Storage, name: string): Storage
  {
    if name in s.caches then s else Storage(s.names + [name], s.caches[name := map[]])
  }

  /** `cache.put(key, resp)` on the named cache. */
  function Put(s: Storage, name: string, key: string, resp: Response): Storage
    requires name in s.caches
  {
    Storage(s.names, s.caches[name := s.caches[name][key := resp]])
  }

  /** `ns` without the names in `drop`, in the same order. */
  function Without(ns: seq<string>, drop: set<string>): (r: seq<string>)
    ensures forall n :: n in r <==> n in ns && n !in drop
    ensures |r| <= |ns|
    decreases |ns|
  {
    if ns == [] then []
    else
      var rest := Without(ns[1..], drop);
      assert forall n :: n in ns <==> n == ns[0] || n in ns[1..];
      if ns[0] in drop then rest else [ns[0]] + rest
  }

  /** `caches.delete(name)` */
  function Deleted(s: Storage, name: string): Storage
  {
    Storage(Without(s.names, {name}), s.caches - {name})
  }

  lemma {:induction false} WithoutDistinct(ns: seq<string>, drop: set<string>)
    requires Distinct(ns)
    ensures Distinct(Without(ns, drop))
    decreases |ns|
  {
    if ns != [] {
      assert Distinct(ns[1..]) by {
        forall i, j | 0 <= i < j < |ns[1..]| ensures ns[1..][i] != ns[1..][j] {
          assert ns[1..][i] == ns[i + 1] && ns[1..][j] == ns[j + 1];
        }
      }
      WithoutDistinct(ns[1..], drop);
      var rest := Without(ns[1..], drop);
      if ns[0] !in drop {
        assert ns[0] !in ns[1..] by {
          forall k | 0 <= k < |ns[1..]| ensures ns[1..][k] != ns[0] { assert ns[1..][k] == ns[k + 1]; }
        }
        var r := [ns[0]] + rest;
        forall i, j | 0 <= i < j < |r| ensures r[i] != r[j] {
          if i == 0 { assert r[j] == rest[j - 1]; } else { assert r[i] == rest[i - 1] && r[j] == rest[j - 1]; }
        }
      }
    }
  }

  /** Removing names twice is removing them all at once. */
  lemma {:induction false} WithoutTwice(ns: seq<string>, a: set<string>, b: set<string>)
    ensures Without(Without(ns, a), b) == Without(ns, a + b)
    decreases |ns|
  {
    if ns != [] {
      WithoutTwice(ns[1..], a, b);
      var rest := Without(ns[1..], a);
      if ns[0] !in a {
        assert ([ns[0]] + rest)[1..] == rest;
      }
    }
  }

  /** Removing names that do not occur changes nothing. */
  lemma {:induction false} WithoutAbsent(ns: seq<string>, drop: set<string>)
    requires forall n :: n in ns ==> n !in drop
    ensures Without(ns, drop) == ns
    decreases |ns|
  {
    if ns != [] {
      assert ns[0] in ns;
      WithoutAbsent(ns[1..], drop);
      assert [ns[0]] + ns[1..] == ns;
    }
  }

  // ---------------------------------------------------------------------------
  // Activation: deleting the caches of earlier versions

  predicate IsCurrent(name: string)
  {
    name == StaticCacheName || name == DynamicCacheName
  }

  /** The names among `ns` that the activate handler deletes. */
  function Stale(ns: seq<string>): set<string>
  {
    set n | n in ns && !IsCurrent(n)
  }

  /** The storage the activate handler leaves. */
  function Evict(s: Storage): Storage
  {
    Storage(Without(s.names, Stale(s.names)), map n | n in s.caches && IsCurrent(n) :: s.caches[n])
  }

  /** The storage once the activate handler has gone through the first `i` of the
      names it listed, deleting the stale ones. */
  ghost function ActivatePrefix(s: Storage, i: nat): Storage
    requires i <= |s.names|
  {
    var gone := Stale(s.names[..i]);
    Storage(Without(s.names, gone), map n | n in s.caches && n !in gone :: s.caches[n])
  }

  lemma ActivateStart(s: Storage)
    requires WellFormed(s)
    ensures ActivatePrefix(s, 0) == s
  {
    assert Stale(s.names[..0]) == {};
    WithoutAbsent(s.names, {});
  }

  lemma ActivatePrefixWellFormed(s: Storage, i: nat)
    requires WellFormed(s) && i <= |s.names|
    ensures WellFormed(ActivatePrefix(s, i))
  {
    WithoutDistinct(s.names, Stale(s.names[..i]));
  }

  /** The stale set grows by the name just looked at, when that name is stale. */
  lemma StaleStep(ns: seq<string>, i: nat)
    requires i < |ns|
    ensures !IsCurrent(ns[i]) ==> Stale(ns[..i + 1]) == Stale(ns[..i]) + {ns[i]}
    ensures IsCurrent(ns[i]) ==> Stale(ns[..i + 1]) == Stale(ns[..i])
  {
    assert ns[..i + 1] == ns[..i] + [ns[i]];
  }

  lemma ActivateDeletes(s: Storage, i: nat)
    requires WellFormed(s) && i < |s.names| && !IsCurrent(s.names[i])
    ensures ActivatePrefix(s, i + 1) == Deleted(ActivatePrefix(s, i), s.names[i])
  {
    var name := s.names[i];
    var gone := Stale(s.names[..i]);
    StaleStep(s.names, i);
    WithoutTwice(s.names, gone, {name});
    var p := ActivatePrefix(s, i);
    assert Deleted(p, name).caches == map n | n in s.caches && n !in gone + {name} :: s.caches[n];
  }

  /** One step of the activate loop: a stale name is deleted, a current one kept. */
  lemma ActivateStep(s: Storage, i: nat)
    requires WellFormed(s) && i < |s.names|
    ensures WellFormed(ActivatePrefix(s, i))
    ensures var p := ActivatePrefix(s, i);
            var name := s.names[i];
            ActivatePrefix(s, i + 1) == if IsCurrent(name) then p else Deleted(p, name)
  {
    ActivatePrefixWellFormed(s, i);
    if IsCurrent(s.names[i]) {
      StaleStep(s.names, i);
    } else {
      ActivateDeletes(s, i);
    }
  }

  lemma ActivateEnd(s: Storage)
    requires WellFormed(s)
    ensures ActivatePrefix(s, |s.names|) == Evict(s)
  {
    assert s.names[..|s.names|] == s.names;
  }

  /** Activation keeps exactly the caches with a current name, untouched, and never
      deletes a current one. */
  lemma EvictKeepsCurrent(s: Storage)
    requires WellFormed(s)
    ensures var e := Evict(s);
            && WellFormed(e)
            && (forall n :: n in e.names <==> n in s.names && IsCurrent(n))
            && (forall n :: n in e.caches <==> n in s.caches && IsCurrent(n))
            && (forall n :: n in e.caches ==> e.caches[n] == s.caches[n])
  {
    WithoutDistinct(s.names, Stale(s.names));
  }

  /** Activating twice leaves what activating once leaves. */
  lemma EvictIdempotent(s: Storage)
    requires WellFormed(s)
    ensures Evict(Evict(s)) == Evict(s)
  {
    var e := Evict(s);
    EvictKeepsCurrent(s);
    assert Stale(e.names) == {};
    WithoutAbsent(e.names, {});
  }

  // ---------------------------------------------------------------------------
  // Installation: `cache.addAll(STATIC_FILES)`

  /** The URL a manifest entry is fetched and stored under. */
  function Resolve(origin: string, entry: string): string
  {
    if |entry| > 0 && entry[0] == '/' then origin + entry else entry
  }

  function ManifestUrls(origin: string): (urls: seq<string>)
    ensures |urls| == |StaticFiles|
    ensures forall k :: 0 <= k < |StaticFiles| ==> urls[k] == Resolve(origin, StaticFiles[k])
  {
    seq(|StaticFiles|, k requires 0 <= k < |StaticFiles| => Resolve(origin, StaticFiles[k]))
  }

  /** `addAll` stores its responses only when every fetch settles to a response whose
      status is ok (200 to 299) and is not 206 Partial Content. */
  predicate AddAllAccepts(r: NetResult)
  {
    r.NetOk? && 200 <= r.response.status <= 299 && r.response.status != 206
  }

  predicate AddAllSucceeds(origin: string, net: Network)
  {
    forall u :: u in ManifestUrls(origin) ==> AddAllAccepts(net(u))
  }

  /** The cache `c` after `put(u, net(u))` for each of `urls` in order. */
  function PutAll(c: Cache, urls: seq<string>, net: Network): Cache
    requires forall u :: u in urls ==> net(u).NetOk?
    decreases |urls|
  {
    if urls == [] then c
    else PutAll(c, urls[..|urls| - 1], net)[urls[|urls| - 1] := net(urls[|urls| - 1]).response]
  }

  lemma {:induction false} PutAllStores(c: Cache, urls: seq<string>, net: Network)
    requires forall u :: u in urls ==> net(u).NetOk?
    ensures forall u :: u in urls ==> u in PutAll(c, urls, net) && PutAll(c, urls, net)[u] == net(u).response
    ensures forall u :: u !in urls ==> (u in PutAll(c, urls, net) <==> u in c)
    ensures forall u :: u !in urls && u in c ==> PutAll(c, urls, net)[u] == c[u]
    decreases |urls|
  {
    if urls != [] {
      var init := urls[..|urls| - 1];
      assert forall u :: u in urls <==> u in init || u == urls[|urls| - 1] by {
        assert urls == init + [urls[|urls| - 1]];
      }
      PutAllStores(c, init, net);
    }
  }

  /** The storage the install handler leaves: the static cache is opened (and so
      created) in any case; the manifest is stored only when `addAll` succeeds. */
  function InstallSpec(s: Storage, origin: string, net: Network): Storage
  {
    var s1 := Opened(s, StaticCacheName);
    if AddAllSucceeds(origin, net) then
      Storage(s1.names, s1.caches[StaticCacheName := PutAll(s1.caches[StaticCacheName], ManifestUrls(origin), net)])
    else s1
  }

  lemma OpenedWellFormed(s: Storage, name: string)
    requires WellFormed(s)
    ensures WellFormed(Opened(s, name)) && name in Opened(s, name).caches
    ensures Opened(s, name).caches[name] == if name in s.caches then s.caches[name] else map[]
    ensures forall n :: n in s.caches ==> n in Opened(s, name).caches && Opened(s, name).caches[n] == s.caches[n]
  {
    if name !in s.caches {
      var r := Opened(s, name);
      forall i, j | 0 <= i < j < |r.names| ensures r.names[i] != r.names[j] {
        if j == |s.names| { assert r.names[j] == name && r.names[i] == s.names[i]; }
      }
    }
  }

  /** A successful install leaves every manifest entry in the static cache, stored under
      its resolved URL with the response the network gave for it; whatever else the
      static cache held, and every other cache, is kept. */
  lemma InstallStoresManifest(s: Storage, origin: string, net: Network)
    requires WellFormed(s) && AddAllSucceeds(origin, net)
    ensures var t := InstallSpec(s, origin, net);
            && WellFormed(t) && StaticCacheName in t.caches
            && (forall k :: 0 <= k < |StaticFiles| ==>
                  var u := Resolve(origin, StaticFiles[k]);
                  u in t.caches[StaticCacheName] && t.caches[StaticCacheName][u] == net(u).response)
            && (forall n :: n in s.caches && n != StaticCacheName ==> n in t.caches && t.caches[n] == s.caches[n])
  {
    OpenedWellFormed(s, StaticCacheName);
    var urls := ManifestUrls(origin);
    var s1 := Opened(s, StaticCacheName);
    PutAllStores(s1.caches[StaticCacheName], urls, net);
    forall k | 0 <= k < |StaticFiles| ensures Resolve(origin, StaticFiles[k]) in urls {
      assert urls[k] == Resolve(origin, StaticFiles[k]);
    }
  }

  /** A failed install stores nothing and deletes nothing; it only creates the static
      cache if it was missing. */
  lemma InstallFailureStoresNothing(s: Storage, origin: string, net: Network)
    requires WellFormed(s) && !AddAllSucceeds(origin, net)
    ensures InstallSpec(s, origin, net) == Opened(s, StaticCacheName)
    ensures exists k :: 0 <= k < |StaticFiles| && !AddAllAccepts(net(Resolve(origin, StaticFiles[k])))
  {
    var urls := ManifestUrls(origin);
    var u :| u in urls && !AddAllAccepts(net(u));
    var k :| 0 <= k < |urls| && urls[k] == u;
    assert !AddAllAccepts(net(Resolve(origin, StaticFiles[k])));
  }

  // ---------------------------------------------------------------------------
  // The fetch handler

  /** The handler answers GET requests whose protocol starts with "http"; it leaves the
      others to the browser. */
  predicate Intercepted(req: Request)
  {
    req.httpMethod == "GET" && "http" <= req.protocol
  }

  /** A request for a manifest file, named by its path or by its full URL. */
  predicate IsStaticRequest(req: Request)
  {
    req.pathname in StaticFiles || req.url in StaticFiles
  }

  /** The cache a successful network response is written to. */
  function RouteCache(req: Request): string
  {
    if IsStaticRequest(req) then StaticCacheName else DynamicCacheName
  }

  /** What the fetch handler does. A stored response is served without going to the
      network. Otherwise a manifest file is fetched with the static cache open, its
      response stored there when the status is 200, and on a network failure the
      static cache is consulted; any other request is fetched, its response stored in
      the dynamic cache when the status is 200, and on a network failure all caches
      are consulted. */
  function FetchStep(s: Storage, req: Request, net: Network): Step
  {
    if !Intercepted(req) then Step(PassThrough, s, false)
    else match MatchAll(s, req.url)
      case Some(hit) => Step(Respond(Some(hit)), s, false)
      case None =>
        if IsStaticRequest(req) then
          var s1 := Opened(s, StaticCacheName);
          match net(req.url)
          case NetOk(resp) =>
            Step(Respond(Some(resp)), if resp.status == 200 then Put(s1, StaticCacheName, req.url, resp) else s1, true)
          case NetFail =>
            Step(Respond(Lookup(s1.caches[StaticCacheName], req.url)), s1, true)
        else
          match net(req.url)
          case NetOk(resp) =>
            var s2 := if resp.status == 200 then Put(Opened(s, DynamicCacheName), DynamicCacheName, req.url, resp) else s;
            Step(Respond(Some(resp)), s2, true)
          case NetFail =>
            Step(Respond(MatchAll(s, req.url)), s, true)
  }

  /** A request the handler does not intercept gets no answer from it and touches
      neither the caches nor the network. */
  lemma PassThroughTouchesNothing(s: Storage, req: Request, net: Network)
    requires !Intercepted(req)
    ensures FetchStep(s, req, net) == Step(PassThrough, s, false)
  {
  }

  /** A cache hit is served as stored, whatever the network would answer, and changes
      nothing. */
  lemma CacheHitIgnoresNetwork(s: Storage, req: Request, net1: Network, net2: Network)
    requires Intercepted(req) && MatchAll(s, req.url).Some?
    ensures FetchStep(s, req, net1) == FetchStep(s, req, net2)
    ensures FetchStep(s, req, net1) == Step(Respond(MatchAll(s, req.url)), s, false)
  {
  }

  /** On the network path the page gets exactly what the network answered. */
  lemma NetworkResponseReturned(s: Storage, req: Request, net: Network)
    requires Intercepted(req) && MatchAll(s, req.url).None? && net(req.url).NetOk?
    ensures FetchStep(s, req, net).outcome == Respond(Some(net(req.url).response))
    ensures FetchStep(s, req, net).usedNetwork
  {
  }

  /** A `caches.match` that misses means the request's URL is in no cache, so after
      opening any cache the single-cache lookup misses too. */
  lemma MissAfterOpen(s: Storage, name: string, key: string)
    requires WellFormed(s) && MatchAll(s, key).None?
    ensures WellFormed(Opened(s, name)) && name in Opened(s, name).caches
    ensures Lookup(Opened(s, name).caches[name], key).None?
  {
    OpenedWellFormed(s, name);
    if name in s.caches {
      var i :| 0 <= i < |s.names| && s.names[i] == name;
      assert !Holds(s.caches, s.names[i], key);
    }
  }

  /** Offline, a request that no cache holds is answered with no response: the handler
      never makes one up. */
  lemma OfflineMissGivesNoResponse(s: Storage, req: Request, net: Network)
    requires WellFormed(s) && Intercepted(req)
    requires MatchAll(s, req.url).None? && net(req.url).NetFail?
    ensures FetchStep(s, req, net).outcome == Respond(None)
  {
    MissAfterOpen(s, StaticCacheName, req.url);
  }

  /** What a fetch does to the caches: nothing is lost or overwritten, and the one entry
      it may add is the request's URL, in the cache its route names, holding the network
      response, and only when that response has status 200. */
  lemma FetchWritesBack(s: Storage, req: Request, net: Network)
    requires WellFormed(s)
    ensures var t := FetchStep(s, req, net).storage;
            && WellFormed(t)
            && (forall n, k :: Holds(s.caches, n, k) ==> Holds(t.caches, n, k) && t.caches[n][k] == s.caches[n][k])
            && (forall n, k :: Holds(t.caches, n, k) && !Holds(s.caches, n, k) ==>
                  && k == req.url && n == RouteCache(req)
                  && net(req.url).NetOk? && net(req.url).response.status == 200
                  && t.caches[n][k] == net(req.url).response)
  {
    if Intercepted(req) && MatchAll(s, req.url).None? {
      var n := RouteCache(req);
      MissAfterOpen(s, n, req.url);
      match net(req.url)
      case NetOk(resp) =>
        if resp.status == 200 {
          PutNewEntry(s, n, req.url, resp);
        } else {
          OpenedAddsNothing(s, n);
        }
      case NetFail =>
        OpenedAddsNothing(s, n);
    }
  }

  /** Opening a cache adds no entry: a created cache is empty. */
  lemma OpenedAddsNothing(s: Storage, name: string)
    requires WellFormed(s)
    ensures WellFormed(Opened(s, name))
    ensures forall n, k :: Holds(Opened(s, name).caches, n, k) <==> Holds(s.caches, n, k)
    ensures forall n, k :: Holds(s.caches, n, k) ==> Opened(s, name).caches[n][k] == s.caches[n][k]
  {
    OpenedWellFormed(s, name);
  }

  /** Storing a key that the opened cache does not hold yet adds exactly that entry. */
  lemma PutNewEntry(s: Storage, name: string, key: string, resp: Response)
    requires WellFormed(s) && name in Opened(s, name).caches
    requires Lookup(Opened(s, name).caches[name], key).None?
    ensures var t := Put(Opened(s, name), name, key, resp);
            && WellFormed(t)
            && (forall n, k :: Holds(s.caches, n, k) ==> Holds(t.caches, n, k) && t.caches[n][k] == s.caches[n][k])
            && (forall n, k :: Holds(t.caches, n, k) && !Holds(s.caches, n, k) ==>
                  n == name && k == key && t.caches[n][k] == resp)
  {
    OpenedAddsNothing(s, name);
  }

  /** After a miss, the request's URL ends up in the static cache exactly when it is a
      manifest request answered with status 200, and in the dynamic cache exactly when
      it is any other request answered with status 200. */
  lemma WriteBackRoute(s: Storage, req: Request, net: Network)
    requires WellFormed(s) && Intercepted(req) && MatchAll(s, req.url).None?
    ensures var t := FetchStep(s, req, net).storage;
            var stored := net(req.url).NetOk? && net(req.url).response.status == 200;
            && (Holds(t.caches, StaticCacheName, req.url) <==> IsStaticRequest(req) && stored)
            && (Holds(t.caches, DynamicCacheName, req.url) <==> !IsStaticRequest(req) && stored)
  {
    MissAfterOpen(s, StaticCacheName, req.url);
    MissAfterOpen(s, DynamicCacheName, req.url);
    FetchWritesBack(s, req, net);
  }

  /** A cache name that exists is found by `caches.match` whenever it holds the key. */
  lemma MatchFindsHeld(s: Storage, name: string, key: string)
    requires WellFormed(s) && Holds(s.caches, name, key)
    ensures MatchAll(s, key).Some?
  {
    var i :| 0 <= i < |s.names| && s.names[i] == name;
    assert Holds(s.caches, s.names[i], key);
  }

  /** Once a fetch has been served from the cache or has stored a 200 response, the
      same request is served from the cache afterwards, whatever the network does. */
  lemma CachedStaysAvailable(s: Storage, req: Request, net1: Network, net2: Network)
    requires WellFormed(s) && Intercepted(req)
    requires MatchAll(s, req.url).Some? || (net1(req.url).NetOk? && net1(req.url).response.status == 200)
    ensures var t := FetchStep(s, req, net1).storage;
            var r := FetchStep(t, req, net2);
            && r.outcome.Respond? && r.outcome.response.Some?
            && !r.usedNetwork && r.storage == t
  {
    var t := FetchStep(s, req, net1).storage;
    if MatchAll(s, req.url).None? {
      FetchWritesBack(s, req, net1);
      var n := RouteCache(req);
      OpenedWellFormed(s, n);
      assert Holds(t.caches, n, req.url);
      MatchFindsHeld(t, n, req.url);
    }
  }

  /** After a successful install, every manifest file is served from the cache, even
      with no network at all. */
  lemma InstalledManifestServedOffline(s: Storage, origin: string, net: Network, k: nat, req: Request, net2: Network)
    requires WellFormed(s) && AddAllSucceeds(origin, net)
    requires k < |StaticFiles| && req.url == Resolve(origin, StaticFiles[k]) && Intercepted(req)
    ensures var r := FetchStep(InstallSpec(s, origin, net), req, net2);
            r.outcome.Respond? && r.outcome.response.Some? && !r.usedNetwork
  {
    var t := InstallSpec(s, origin, net);
    InstallStoresManifest(s, origin, net);
    MatchFindsHeld(t, StaticCacheName, req.url);
  }

  /** No cache holds a response with an error status: fetch stores only 200 and
      `addAll` only ok statuses other than 206. */
  ghost predicate StoredOk(s: Storage)
  {
    forall n, k :: Holds(s.caches, n, k) ==> 200 <= s.caches[n][k].status <= 299
  }

  lemma FetchKeepsStoredOk(s: Storage, req: Request, net: Network)
    requires WellFormed(s) && StoredOk(s)
    ensures StoredOk(FetchStep(s, req, net).storage)
  {
    FetchWritesBack(s, req, net);
  }

  lemma InstallKeepsStoredOk(s: Storage, origin: string, net: Network)
    requires WellFormed(s) && StoredOk(s)
    ensures StoredOk(InstallSpec(s, origin, net))
  {
    OpenedWellFormed(s, StaticCacheName);
    if AddAllSucceeds(origin, net) {
      var urls := ManifestUrls(origin);
      var s1 := Opened(s, StaticCacheName);
      PutAllStores(s1.caches[StaticCacheName], urls, net);
    }
  }

  lemma EvictKeepsStoredOk(s: Storage)
    requires WellFormed(s) && StoredOk(s)
    ensures StoredOk(Evict(s))
  {
  }

  /** The message handler asks for `skipWaiting` exactly for a message whose `type` is
      "SKIP_WAITING". */
  predicate RequestsSkipWaiting(data: Option<Message>)
  {
    data.Some? && data.value.msgType == Some("SKIP_WAITING")
  }

  /** The first half of `addAll`: fetch every URL, and give up unless every response
      is acceptable. */
  method FetchAll(urls: seq<string>, net: Network) returns (responses: Option<seq<Response>>)
    ensures responses.Some? <==> forall u :: u in urls ==> AddAllAccepts(net(u))
    ensures responses.Some? ==> |responses.value| == |urls|
    ensures responses.Some? ==> forall k :: 0 <= k < |urls| ==> net(urls[k]) == NetOk(responses.value[k])
  {
    var got: seq<Response> := [];
    var i := 0;
    while i < |urls|
      invariant 0 <= i <= |urls| && |got| == i
      invariant forall k :: 0 <= k < i ==> AddAllAccepts(net(urls[k])) && net(urls[k]) == NetOk(got[k])
    {
      var r := net(urls[i]);
      if !AddAllAccepts(r) {
        assert urls[i] in urls;
        return None;
      }
      got := got + [r.response];
      i := i + 1;
    }
    forall u | u in urls ensures AddAllAccepts(net(u)) {
      var k :| 0 <= k < |urls| && urls[k] == u;
    }
    return Some(got);
  }

  // ---------------------------------------------------------------------------
  // The worker

  class Worker {
    var names: seq<string>
    var caches: map<string, Cache>
    /** `self.skipWaiting()` has been called. */
    var skipWaitingRequested: bool
    /** `self.clients.claim()` has been called. */
    var clientsClaimed: bool
    /** The origin relative manifest entries are resolved against. */
    const origin: string

    function Snapshot(): Storage
      reads this
    {
      Storage(names, caches)
    }

    ghost predicate Valid()
      reads this
    {
      WellFormed(Snapshot())
    }

    /** A freshly started worker over the cache storage earlier versions left. */
    constructor (origin: string, existing: Storage)
      requires WellFormed(existing)
      ensures Valid() && Snapshot() == existing && this.origin == origin
      ensures !skipWaitingRequested && !clientsClaimed
    {
      this.origin := origin;
      names, caches := existing.names, existing.caches;
      skipWaitingRequested, clientsClaimed := false, false;
    }

    method OpenCache(name: string)
      requires Valid()
      modifies this`names, this`caches
      ensures Valid() && name in caches
      ensures Snapshot() == Opened(old(Snapshot()), name)
    {
      OpenedWellFormed(Snapshot(), name);
      if name !in caches {
        names := names + [name];
        caches := caches[name := map[]];
      }
    }

    method PutEntry(name: string, key: string, resp: Response)
      requires Valid() && name in caches
      modifies this`caches
      ensures Valid()
      ensures Snapshot() == Put(old(Snapshot()), name, key, resp)
    {
      caches := caches[name := caches[name][key := resp]];
    }

    method DeleteCache(name: string)
      requires Valid()
      modifies this`names, this`caches
      ensures Valid()
      ensures Snapshot() == Deleted(old(Snapshot()), name)
    {
      WithoutDistinct(names, {name});
      names := Without(names, {name});
      caches := caches - {name};
    }

    /** `cache.put(urls[k], responses[k])` for each `k` in order, on the named cache:
        the second half of `addAll`, once every fetch has been accepted. */
    method StoreAll(name: string, urls: seq<string>, responses: seq<Response>, ghost net: Network)
      requires Valid() && name in caches
      requires |responses| == |urls|
      requires forall k :: 0 <= k < |urls| ==> net(urls[k]) == NetOk(responses[k])
      modifies this`caches
      ensures Valid() && names == old(names)
      ensures caches == old(caches)[name := PutAll(old(caches)[name], urls, net)]
    {
      assert forall u :: u in urls ==> net(u).NetOk?;
      var k := 0;
      while k < |urls|
        invariant 0 <= k <= |urls|
        invariant Valid() && names == old(names)
        invariant caches == old(caches)[name := PutAll(old(caches)[name], urls[..k], net)]
      {
        assert urls[..k + 1][..k] == urls[..k];
        PutEntry(name, urls[k], responses[k]);
        k := k + 1;
      }
      assert urls[..k] == urls;
    }

    /** The install event: open the static cache, `addAll` the manifest, and on success
        request `skipWaiting`. A failure is caught and logged; the worker still installs. */
    method Install(net: Network) returns (addAllSucceeded: bool)
      requires Valid()
      modifies this`names, this`caches, this`skipWaitingRequested
      ensures Valid()
      ensures addAllSucceeded == AddAllSucceeds(origin, net)
      ensures Snapshot() == InstallSpec(old(Snapshot()), origin, net)
      ensures skipWaitingRequested == (old(skipWaitingRequested) || addAllSucceeded)
    {
      OpenCache(StaticCacheName);
      var urls := ManifestUrls(origin);
      var responses := FetchAll(urls, net);
      if responses.None? {
        return false;
      }
      StoreAll(StaticCacheName, urls, responses.value, net);
      skipWaitingRequested := true;
      addAllSucceeded := true;
    }

    /** The activate event: delete every cache whose name is not current, one by one
        over the names `caches.keys()` reported, and claim the open clients. */
    method Activate()
      requires Valid()
      modifies this`names, this`caches, this`clientsClaimed
      ensures Valid()
      ensures Snapshot() == Evict(old(Snapshot()))
      ensures clientsClaimed
    {
      var cacheNames := names;
      ghost var s0 := Snapshot();
      ActivateStart(s0);
      var i := 0;
      while i < |cacheNames|
        invariant 0 <= i <= |cacheNames|
        invariant Valid() && Snapshot() == ActivatePrefix(s0, i)
      {
        var name := cacheNames[i];
        ActivateStep(s0, i);
        if name != StaticCacheName && name != DynamicCacheName {
          DeleteCache(name);
        }
        i := i + 1;
      }
      ActivateEnd(s0);
      clientsClaimed := true;
    }

    /** The fetch event. `usedNetwork` says whether `fetch` was called. */
    method Fetch(req: Request, net: Network) returns (outcome: Outcome, usedNetwork: bool)
      requires Valid()
      modifies this`names, this`caches
      ensures Valid()
      ensures Step(outcome, Snapshot(), usedNetwork) == FetchStep(old(Snapshot()), req, net)
    {
      if req.httpMethod != "GET" {
        return PassThrough, false;
      }
      if !("http" <= req.protocol) {
        return PassThrough, false;
      }
      var cached := MatchAll(Snapshot(), req.url);
      if cached.Some? {
        return Respond(cached), false;
      }
      usedNetwork := true;
      if IsStaticRequest(req) {
        OpenCache(StaticCacheName);
        var result := net(req.url);
        if result.NetOk? {
          if result.response.status == 200 {
            PutEntry(StaticCacheName, req.url, result.response);
          }
          outcome := Respond(Some(result.response));
        } else {
          outcome := Respond(Lookup(caches[StaticCacheName], req.url));
        }
      } else {
        var result := net(req.url);
        if result.NetOk? {
          if result.response.status == 200 {
            OpenCache(DynamicCacheName);
            PutEntry(DynamicCacheName, req.url, result.response);
          }
          outcome := Respond(Some(result.response));
        } else {
          outcome := Respond(MatchAll(Snapshot(), req.url));
        }
      }
    }

    /** The message event. */
    method OnMessage(data: Option<Message>)
      modifies this`skipWaitingRequested
      ensures skipWaitingRequested == (old(skipWaitingRequested) || RequestsSkipWaiting(data))
    {
      if data.Some? && data.value.msgType == Some("SKIP_WAITING") {
        skipWaitingRequested := true;
      }
    }
  }

  /** The page's "CLIENT_READY" message, or a message without a type, changes nothing. */
  lemma OtherMessagesIgnored(t: Option<string>)
    requires t != Some("SKIP_WAITING")
    ensures !RequestsSkipWaiting(Some(Message(t)))
    ensures !RequestsSkipWaiting(None)
  {
  }
}
