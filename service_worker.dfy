/**
 The service worker of the SiteInspector app: an install handler that
 pre-fills the current cache generation with the app shell and its
 libraries, an activate handler that drops every older generation, and a
 fetch handler that routes each request (Routing.RouteOf) and serves it
 network-first or cache-first. The browser's cache store is the state of a
 `Worker`; the network is an input.
 */
module ServiceWorker {
  import opened Routing
  import opened CacheStorage

  /** The current cache generation; bumping it invalidates every older one. */
  const CACHE_NAME: string := "siteinspector-v5"

  /** The assets fetched and stored at install time, in order. */
  const STATIC_ASSETS: seq<Key> := [
    "./",
    "./index.html",
    "./manifest.json",
    "https://fonts.googleapis.com/css2?family=DM+Sans:wght@400;500;600;700&family=JetBrains+Mono:wght@400;500&display=swap",
    "https://cdnjs.cloudflare.com/ajax/libs/pouchdb/9.0.0/pouchdb.min.js",
    "https://cdnjs.cloudflare.com/ajax/libs/jspdf/2.5.1/jspdf.umd.min.js",
    "https://cdnjs.cloudflare.com/ajax/libs/jspdf-autotable/3.5.31/jspdf.plugin.autotable.min.js",
    "https://cdnjs.cloudflare.com/ajax/libs/xlsx/0.18.5/xlsx.full.min.js"
  ]

  /** The app shell, the offline fallback for pages. */
  const SHELL: Key := "./index.html"

  /** How the fetch handler settles a request: it does not call `respondWith`
      (the browser fetches as usual), it answers with a response, or it
      answers with `undefined`, which the page sees as a network error. */
  datatype Outcome = PassThrough | Respond(resp: Resp) | NetworkError

  /** The answer for a cache lookup handed to `respondWith`. */
  function Served(hit: Option<Resp>): (out: Outcome)
    ensures out != PassThrough
    ensures out.Respond? <==> hit.Some?
    ensures out.Respond? ==> out.resp == hit.value
  {
    match hit
    case Some(r) => Respond(r)
    case None => NetworkError
  }

  /** The shipped asset list names no asset twice, as a worker's configuration
      must, and it includes the shell, so an installed worker can fall back on it. */
  lemma StaticAssetsDistinct()
    ensures NoDup(STATIC_ASSETS)
    ensures |STATIC_ASSETS| == 8 && STATIC_ASSETS[1] == SHELL
  {
  }

  class Worker {
    /** The name of the current cache generation. */
    const cacheName: string
    /** The assets fetched and stored at install time, in order. */
    const staticAssets: seq<Key>
    /** Generation names in creation order (what `caches.keys()` lists). */
    var order: seq<string>
    /** Each generation's entries. */
    var gens: map<string, Generation>

    ghost predicate Valid()
      reads this
    {
      NoDup(staticAssets) && NoDup(order) && forall n :: n in order <==> n in gens
    }

    /** A worker configured with a generation name and an asset list, starting
        over whatever generations earlier versions left. The deployed worker is
        `new Worker(CACHE_NAME, STATIC_ASSETS, ...)`. */
    constructor (cacheName: string, staticAssets: seq<Key>, order0: seq<string>, gens0: map<string, Generation>)
      requires NoDup(staticAssets)
      requires NoDup(order0) && forall n :: n in order0 <==> n in gens0
      ensures Valid()
      ensures this.cacheName == cacheName && this.staticAssets == staticAssets
      ensures order == order0 && gens == gens0
    {
      this.cacheName, this.staticAssets := cacheName, staticAssets;
      order, gens := order0, gens0;
    }

    /** `caches.match(key)`, searching every generation in creation order. */
    method Match(key: Key) returns (r: Option<Resp>)
      requires Valid()
      ensures r == Lookup(order, gens, key)
    {
      var i := 0;
      while i < |order|
        invariant 0 <= i <= |order|
        invariant Lookup(order, gens, key) == Lookup(order[i..], gens, key)
      {
        assert order[i..][1..] == order[i + 1..];
        var gen := gens[order[i]];
        if key in gen {
          return Some(gen[key]);
        }
        i := i + 1;
      }
      return None;
    }

    /** `caches.open(cacheName).then(cache => cache.put(key, resp))`. */
    method Put(key: Key, resp: Resp)
      requires Valid()
      modifies this
      ensures Valid()
      ensures order == Opened(old(order), cacheName)
      ensures gens == Stored(old(gens), cacheName, key, resp)
    {
      var gen := GenOf(gens, cacheName);
      order := Opened(order, cacheName);
      gens := gens[cacheName := gen[key := resp]];
    }

    /** `caches.delete(name)`. */
    method Delete(name: string)
      modifies this
      ensures old(Valid()) ==> Valid()
      ensures order == Without(old(order), {name})
      ensures gens == old(gens) - {name}
    {
      if Valid() {
        WithoutNoDup(order, {name});
        WithoutMembers(order, {name});
      }
      order := Without(order, {name});
      gens := gens - {name};
    }

    /** The install handler: open the current generation, then `addAll` the
        static assets. `net[i]` is what fetching `staticAssets[i]` yields.
        `addAll` stores nothing unless every fetch resolves with an ok
        response, and then stores them all. */
    method Install(net: seq<NetResult>) returns (ok: bool)
      requires Valid() && |net| == |staticAssets|
      modifies this
      ensures Valid()
      ensures ok <==> AllOk(net)
      ensures order == Opened(old(order), cacheName)
      ensures gens == old(gens)[cacheName := if ok then Fill(GenOf(old(gens), cacheName), staticAssets, net)
                                                  else GenOf(old(gens), cacheName)]
      ensures ok ==> forall i :: 0 <= i < |staticAssets| ==>
                       staticAssets[i] in gens[cacheName] && gens[cacheName][staticAssets[i]] == net[i].resp
    {
      // caches.open(cacheName) creates the generation when it is missing
      var gen := GenOf(gens, cacheName);
      order := Opened(order, cacheName);
      // addAll: store every asset if every fetch resolves ok, else nothing
      ok := FetchedAllOk(net);
      if ok {
        var before := gen;
        gen := PutAll(before, staticAssets, net);
        forall i | 0 <= i < |staticAssets|
          ensures staticAssets[i] in gen && gen[staticAssets[i]] == net[i].resp
        {
          FillAt(before, staticAssets, net, i);
        }
      }
      gens := gens[cacheName := gen];
    }

    /** The activate handler: delete every generation not named `cacheName`.
        The current generation keeps all its entries. */
    method Activate()
      requires Valid()
      modifies this
      ensures Valid()
      ensures order == if cacheName in old(order) then [cacheName] else []
      ensures gens == if cacheName in old(gens) then map[cacheName := old(gens)[cacheName]] else map[]
    {
      var keys, current := order, cacheName;
      ghost var gens0 := gens;
      ghost var deleted: set<string> := {};
      WithoutAllNone(keys);
      assert Dropped(gens0, {}) == gens0;
      var i := 0;
      while i < |keys|
        invariant 0 <= i <= |keys|
        invariant current !in deleted
        invariant forall j :: 0 <= j < i ==> keys[j] == current || keys[j] in deleted
        invariant order == Without(keys, deleted)
        invariant gens == Dropped(gens0, deleted)
      {
        if keys[i] != current {
          WithoutWithout(keys, deleted, keys[i]);
          DroppedDropped(gens0, deleted, keys[i]);
          Delete(keys[i]);
          deleted := deleted + {keys[i]};
        }
        i := i + 1;
      }
      assert forall j :: 0 <= j < |keys| ==> keys[j] == current || keys[j] in deleted;
      WithoutAllBut(keys, deleted, current);
      assert forall m :: m in gens0 && m != current ==> m in deleted by {
        forall m | m in gens0 && m != current ensures m in deleted {
          var j :| 0 <= j < |keys| && keys[j] == m;
        }
      }
      RemoveAllBut(gens0, deleted, current);
    }

    /** The fetch handler. `net` is what `fetch(req)` yields if the worker calls it;
        `fetched` says whether it did. */
    method Fetch(req: Request, net: NetResult) returns (out: Outcome, fetched: bool)
      requires Valid()
      modifies this
      ensures Valid()
      // bypass: no response, no fetch, no cache write
      ensures RouteOf(req) == Bypass ==>
                out == PassThrough && !fetched && order == old(order) && gens == old(gens)
      // network-first
      ensures RouteOf(req) == NetworkFirst ==> fetched && out != PassThrough
      ensures RouteOf(req) == NetworkFirst && net.Resolved? ==> out == Respond(net.resp)
      ensures RouteOf(req) == NetworkFirst && net.Rejected? ==>
                out == Served(if Lookup(old(order), old(gens), req.url).Some? then Lookup(old(order), old(gens), req.url)
                              else Lookup(old(order), old(gens), SHELL))
      // cache-first; a rejected fetch never reaches the shell fallback, since no
      // navigation is routed here (Routing.NavigationIsNetworkFirst)
      ensures RouteOf(req) == CacheFirst && Lookup(old(order), old(gens), req.url).Some? ==>
                out == Respond(Lookup(old(order), old(gens), req.url).value) && !fetched
      ensures RouteOf(req) == CacheFirst && Lookup(old(order), old(gens), req.url).None? ==>
                fetched && out == if net.Resolved? then Respond(net.resp) else NetworkError
      // writes: only a fetched ok response, into the current generation under the request's key
      ensures fetched && net.Resolved? && net.resp.ok ==>
                order == Opened(old(order), cacheName) && gens == Stored(old(gens), cacheName, req.url, net.resp)
      ensures !(fetched && net.Resolved? && net.resp.ok) ==> order == old(order) && gens == old(gens)
    {
      var route := RouteOf(req);
      match route
      case Bypass =>
        out, fetched := PassThrough, false;
      case NetworkFirst =>
        out, fetched := FetchNetworkFirst(req, net);
      case CacheFirst =>
        out, fetched := FetchCacheFirst(req, net);
    }

    /** Network first: answer with whatever the network gives, storing it when
        ok; when the network rejects, answer from the cache, else with the shell. */
    method FetchNetworkFirst(req: Request, net: NetResult) returns (out: Outcome, fetched: bool)
      requires Valid()
      modifies this
      ensures Valid() && fetched
      ensures net.Resolved? ==> out == Respond(net.resp)
      ensures net.Resolved? && net.resp.ok ==>
                order == Opened(old(order), cacheName) && gens == Stored(old(gens), cacheName, req.url, net.resp)
      ensures !(net.Resolved? && net.resp.ok) ==> order == old(order) && gens == old(gens)
      ensures net.Rejected? ==>
                out == Served(if Lookup(old(order), old(gens), req.url).Some? then Lookup(old(order), old(gens), req.url)
                              else Lookup(old(order), old(gens), SHELL))
    {
      fetched := true;
      match net
      case Resolved(response) =>
        if response.ok {
          Put(req.url, response);
        }
        out := Respond(response);
      case Rejected =>
        var cached := Match(req.url);
        if cached.None? {
          cached := Match(SHELL);
        }
        out := Served(cached);
    }

    /** Cache first: answer from the cache when it holds the request; otherwise
        fetch, storing an ok response. When that fetch rejects, a navigation
        gets the shell and anything else gets no response. */
    method FetchCacheFirst(req: Request, net: NetResult) returns (out: Outcome, fetched: bool)
      requires Valid()
      modifies this
      ensures Valid()
      ensures Lookup(old(order), old(gens), req.url).Some? ==>
                out == Respond(Lookup(old(order), old(gens), req.url).value) && !fetched
      ensures Lookup(old(order), old(gens), req.url).None? ==> fetched
      ensures fetched && net.Resolved? ==> out == Respond(net.resp)
      ensures fetched && net.Resolved? && net.resp.ok ==>
                order == Opened(old(order), cacheName) && gens == Stored(old(gens), cacheName, req.url, net.resp)
      ensures !(fetched && net.Resolved? && net.resp.ok) ==> order == old(order) && gens == old(gens)
      ensures fetched && net.Rejected? ==>
                out == if req.mode == "navigate" then Served(Lookup(old(order), old(gens), SHELL)) else NetworkError
    {
      var cached := Match(req.url);
      if cached.Some? {
        return Respond(cached.value), false;
      }
      fetched := true;
      match net
      case Resolved(response) =>
        if response.ok {
          Put(req.url, response);
        }
        out := Respond(response);
      case Rejected =>
        if req.mode == "navigate" {
          var shell := Match(SHELL);
          out := Served(shell);
        } else {
          out := NetworkError;
        }
    }
  }
}
