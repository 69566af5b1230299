/**
 End-to-end scenarios, checked from the handlers' contracts alone: a deploy that installs and activates a new version, a
 page fetched online and then offline, live-data traffic left alone, and
 an asset served from the cache without the network.
 */
module Scenarios {
  import opened Routing
  import opened CacheStorage
  import opened ServiceWorker

  /** Resolved ok responses for every static asset, ids 1, 2, .... */
  function OkResults(n: nat): (net: seq<NetResult>)
    ensures |net| == n && AllOk(net)
  {
    seq(n, (i: int) requires 0 <= i => Resolved(Resp(i + 1, true)))
  }

  /** Deploying the shipped worker over version 4's cache: install, then
      activate. The new generation holds the shell and the old generation is gone. */
  method DeployReplacesOldVersion()
  {
    var old4: Generation := map[SHELL := Resp(100, true)];
    StaticAssetsDistinct();
    var w := new Worker(CACHE_NAME, STATIC_ASSETS, ["siteinspector-v4"], map["siteinspector-v4" := old4]);

    var ok := w.Install(OkResults(8));
    assert ok;
    assert w.gens[CACHE_NAME][SHELL] == Resp(2, true);

    w.Activate();
    assert w.order == [CACHE_NAME];
    assert "siteinspector-v4" !in w.gens;
    assert w.gens[CACHE_NAME][SHELL] == Resp(2, true);
  }

  /** On an activated worker whose cache holds the shell: a page fetched online
      is answered by the network and stored; a page never fetched, requested
      offline, is answered with the shell. */
  method PageOnlineThenOffline(w: Worker, shell: Resp)
    requires w.Valid() && w.order == [w.cacheName]
    requires SHELL in w.gens[w.cacheName] && w.gens[w.cacheName][SHELL] == shell
    requires "https://app/report.html" !in w.gens[w.cacheName]
    modifies w
  {
    // /about.html online: answered by the network and stored
    var about := Request("https://app/about.html", "/about.html", "navigate", "document");
    assert RouteOf(about) == NetworkFirst by { assert "/about.html"[..3] != DB_PREFIX by { assert "/about.html"[1] != DB_PREFIX[1]; } }
    var out, fetched := w.Fetch(about, Resolved(Resp(7, true)));
    assert out == Respond(Resp(7, true)) && fetched;
    assert w.gens[w.cacheName][about.url] == Resp(7, true);

    // a page never fetched, offline: the shell answers
    assert "https://app/report.html" != about.url;
    var other := Request("https://app/report.html", "/report.html", "navigate", "document");
    assert RouteOf(other) == NetworkFirst by { assert "/report.html"[..3] != DB_PREFIX by { assert "/report.html"[1] != DB_PREFIX[1]; } }
    assert w.order == [w.cacheName];
    LookupOnlyCurrent(w.cacheName, w.gens, other.url);
    LookupOnlyCurrent(w.cacheName, w.gens, SHELL);
    out, fetched := w.Fetch(other, Rejected);
    assert out == Respond(shell);
  }

  /** Live-data sync traffic: no response from the worker and no cache write,
      whatever the cache holds. */
  method SyncTrafficBypasses(w: Worker)
    requires w.Valid()
    modifies w
  {
    var sync := Request("https://app/db/sync", "/db/sync", "cors", "");
    assert RouteOf(sync) == Bypass by { assert "/db/sync"[..3] == DB_PREFIX; }
    ghost var before := w.gens;
    var out, fetched := w.Fetch(sync, Resolved(Resp(9, true)));
    assert out == PassThrough && !fetched && w.gens == before;
  }

  /** A cached script is served without calling the network, even offline. */
  method CachedAssetNeedsNoNetwork(w: Worker, url: string, r: Resp)
    requires w.Valid() && w.order == [w.cacheName]
    requires url in w.gens[w.cacheName] && w.gens[w.cacheName][url] == r
    modifies w
  {
    var lib := Request(url, "/lib.js", "no-cors", "script");
    assert RouteOf(lib) == CacheFirst by { assert "/lib.js"[..3] != DB_PREFIX by { assert "/lib.js"[1] != DB_PREFIX[1]; } }
    LookupOnlyCurrent(w.cacheName, w.gens, url);
    var out, fetched := w.Fetch(lib, Rejected);
    assert out == Respond(r) && !fetched;
  }
}
