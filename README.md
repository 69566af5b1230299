# SiteInspector service worker, modelled in Dafny

The SiteInspector web app ships a service worker, `app/sw.js`. It intercepts the
page's requests and keeps an offline copy of the app in versioned cache
generations. This project models that worker and proves what it promises.

- **Routing** (`routing.dfy`). Every request is classified from its pathname,
  mode and destination, and the first rule that applies wins:
  - `Bypass`: the path starts with `/db`, the live CouchDB sync traffic.
  - `NetworkFirst`: a navigation, a document, an `.html` path, or the root.
  - `CacheFirst`: everything else.
- **Cache storage** (`cache_storage.dfy`). These are the browser CacheStorage
  operations the worker uses, written as functions on values:
  - generations are kept in creation order;
  - `match` returns the entry of the first generation that holds the key;
  - `open`, `put` and `delete` work on one generation at a time;
  - `addAll` is all or nothing.

  This file also holds the read-only loops behind `addAll`, proved against
  those functions.
- **The worker** (`service_worker.dfy`). Class `Worker` holds the generations
  (`order`, `gens`) and its configuration: the generation name and the asset
  list. The shipped values are `CACHE_NAME` and `STATIC_ASSETS`. The install,
  activate and fetch handlers are methods. Each method's postcondition states
  the handler's whole effect and what it answers. The network is an input:
  each fetch resolves with a response (`ok` or not) or rejects.
- **Scenarios** (`scenarios.dfy`). These clients use only the handlers'
  contracts to show end-to-end behaviour:
  - a deploy replaces an older generation;
  - a page is served online and then offline;
  - sync traffic is left alone;
  - a cached asset needs no network.

Two facts that follow from the code:
- The shell fallback in the cache-first branch's `catch` (app/sw.js:75-77) is
  dead. Every navigation that is not bypassed is routed network-first
  (`NavigationIsNetworkFirst`). So a rejected cache-first fetch always ends
  with no response (`Worker.Fetch`).
- Lookups search every generation, not only the current one. After `Activate`,
  only the current generation remains. From then on no stale entry can answer
  a request (`LookupOnlyCurrent`).

Three behaviours of app/sw.js worth knowing:
- The network-first branch (app/sw.js:46-52) returns a non-ok network response
  as it is, and does not store it.
- Offline lookups (app/sw.js:55-56) use `caches.match`, which searches every
  generation, not only `CACHE_NAME`.
- The shell fallback (app/sw.js:56) answers only when the shell is cached. With
  an empty cache, an offline page gets no response.
- The comment at app/sw.js:13 says `index.html` is not pre-cached, but the list
  includes it (`StaticAssetsDistinct`).

## Model

| member | source | states |
|---|---|---|
| Routing.RouteOf | app/sw.js:34-64 | A request is bypassed exactly when its pathname starts with `/db`; a request routed cache-first is never a navigation or a document |
| Routing.StartsWith | app/sw.js:35 | `startsWith` holds exactly when the prefix is no longer than the string and matches it character by character from the front |
| Routing.EndsWith | app/sw.js:42 | `endsWith` holds exactly when the suffix is no longer than the string and matches its last characters one by one |
| Routing.PageRequestIsNetworkFirst | app/sw.js:40-44 | The page-request test (navigation, document, `.html` path, `/` or empty path) decides the route of every request that is not bypassed: network-first exactly when it holds, cache-first exactly when it does not |
| Routing.StartsWithIsPrefixChars | app/sw.js:35 | The `startsWith` test agrees with a character-by-character prefix definition |
| Routing.BypassWins | app/sw.js:35-37 | Any path beginning with `/db` (so `/dbx` too) is bypassed, whatever its mode or destination |
| Routing.RouteExamples | app/sw.js:35-44 | `/db/sync` as a navigation and `/dbx` bypass; `/about.html` and `/` are network-first; `/d` is cache-first; `/DB` is not bypassed |
| Routing.NavigationIsNetworkFirst | app/sw.js:40 | A navigation that is not bypassed is always routed network-first, never cache-first |
| Routing.CacheFirstExactly | app/sw.js:40-44 | Cache-first holds exactly when the path is not bypassed, the request is not a navigation or a document, the path does not end in `.html`, and the path is neither `/` nor empty |
| CacheStorage.Lookup | app/sw.js:55-56 | `caches.match` (also app/sw.js:65 and 76): a hit is an entry that some listed generation holds for the key |
| CacheStorage.Opened | app/sw.js:16 | Opening a generation keeps the existing names in their order and adds the new name last, only if it was missing; the list stays free of repeats |
| CacheStorage.Stored | app/sw.js:50 | A put adds or replaces only that key in only that generation; every other generation and entry is unchanged |
| CacheStorage.LookupFound | app/sw.js:55 | A hit is the entry of the first generation, in creation order, that holds the key |
| CacheStorage.LookupMiss | app/sw.js:55-56 | A lookup misses exactly when no generation holds the key |
| CacheStorage.LookupAfterStored | app/sw.js:70 | After a put into a generation, a lookup of the key returns the new response exactly when no generation listed before it holds the key; otherwise the older entry of the first such generation wins |
| CacheStorage.StaleEntryShadowsWrite | app/sw.js:65-70 | Example: while an old generation `v4` is still listed before `v5`, a key written to `v5` is still answered from `v4` |
| CacheStorage.LookupOnlyCurrent | app/sw.js:24-25 | Once only the current generation is left, lookups answer from it alone |
| CacheStorage.Without | app/sw.js:25 | Filtering out the deleted names never lengthens the name list |
| CacheStorage.WithoutAppend | app/sw.js:25 | Filtering a list is filtering its parts and joining them, so the remaining names keep their relative order |
| CacheStorage.WithoutMembers | app/sw.js:25 | Deleting names leaves exactly the names not deleted |
| CacheStorage.WithoutNoDup | app/sw.js:25 | Deleting names keeps the name list free of repeats |
| CacheStorage.WithoutWithout | app/sw.js:25 | Deleting names one at a time equals deleting them all at once |
| CacheStorage.WithoutAllBut | app/sw.js:25 | Deleting every name except the current one leaves just that name if it was there, otherwise nothing |
| CacheStorage.Dropped | app/sw.js:25 | Deleting generations leaves exactly the names that were not deleted |
| CacheStorage.DroppedKeeps | app/sw.js:25 | Every generation that survives a deletion keeps all its entries |
| CacheStorage.DroppedDropped | app/sw.js:25 | Deleting generations one at a time equals deleting them all at once |
| CacheStorage.RemoveAllBut | app/sw.js:24-25 | Deleting every other generation leaves only the current one, with all its entries, or nothing if it did not exist |
| CacheStorage.Fill | app/sw.js:16 | A successful `addAll` adds exactly the listed keys and keeps every unlisted entry unchanged |
| CacheStorage.FillAt | app/sw.js:16 | After a successful `addAll` of distinct URLs, each URL maps to the response fetched for it |
| CacheStorage.FetchedAllOk | app/sw.js:16 | The loop reports success exactly when every fetch resolved with an ok response |
| CacheStorage.PutAll | app/sw.js:16 | The batch-put loop produces the generation that `addAll` specifies |
| ServiceWorker.Served | app/sw.js:55-57 | A cache hit is answered with that response; a miss gets no response |
| ServiceWorker.StaticAssetsDistinct | app/sw.js:2-11 | The shipped asset list has 8 distinct URLs, and the second one is the shell `./index.html` |
| ServiceWorker.Worker.constructor | app/sw.js:1-11 | The worker starts with its configuration and the generations earlier versions left |
| ServiceWorker.Worker.Match | app/sw.js:55 | The search loop returns the first entry for the key in creation order |
| ServiceWorker.Worker.Put | app/sw.js:50 | Opens the current generation and writes one entry; nothing else changes |
| ServiceWorker.Worker.Delete | app/sw.js:25 | Removes one generation and its name; nothing else changes |
| ServiceWorker.Worker.Install | app/sw.js:14-19 | The current generation is created if missing. It gains every asset, each with its own response, exactly when every fetch resolved ok; otherwise it is unchanged |
| ServiceWorker.Worker.Activate | app/sw.js:22-29 | Only the current generation remains, with its entries unchanged. If it did not exist, the store is empty |
| ServiceWorker.Worker.Fetch | app/sw.js:31-80 | Bypass: no response, no fetch, no cache write. Network-first: the network's answer is returned; when it rejects, the cached entry or else the cached shell. Cache-first: a hit is served without the network. A rejected miss gets no response. Only a fetched ok response is stored, under the request key, in the current generation |
| ServiceWorker.Worker.FetchNetworkFirst | app/sw.js:45-58 | The network response is returned whether or not it is ok. It is stored iff ok. On rejection the store is unchanged, and the answer is the cached request, else the cached shell, else no response |
| ServiceWorker.Worker.FetchCacheFirst | app/sw.js:64-79 | A hit is returned without fetching, leaving the store unchanged. A miss fetches, returns the response and stores it iff ok. A rejection gives a navigation the cached shell and anything else no response |

## Left out

- `self.skipWaiting()` (app/sw.js:18) and `self.clients.claim()` (app/sw.js:28) change only the browser's lifecycle state. Neither carries data.
- `waitUntil`, promise scheduling and concurrent fetches are not modelled. Each handler runs as one atomic step.
- The `cache.put` calls at app/sw.js:50 and app/sw.js:70 are not awaited. So a write can land after the response is returned, and same-key writes race. Neither is modelled.
- The model does not parse `event.request.url` (app/sw.js:32): `Request.pathname` is taken as given and is not tied to `url`.
- ServiceWorker.Worker.Fetch: for a bypassed request it states that nothing is fetched, answered or written; cache reads are not tracked, so it does not state that the cache is not read.
- Cache keys are URL strings compared as written. Resolving `./index.html` against the worker script's URL is not modelled. Neither are `match` options, `Vary` and request methods.
- Responses carry only an identity and the `ok` flag. Bodies, headers, status codes and `clone()` are not modelled.
- The network is an input, so a fetch that never settles is not modelled.
- Cache-store failures such as quota or an unavailable store are not modelled. The code only propagates them.
- The list in `STATIC_ASSETS` (app/sw.js:2-11) is configuration. The proofs hold for any list without repeats.
- `addAll`'s atomicity is taken from the platform: `Fill` and `Install` state it as the operation's meaning. It is not proved about the browser.
- ServiceWorker.Worker.Install: does not model `addAll` rejecting a 206 response or a list with repeated URLs. `Resp` has no status, and the constructor requires a list without repeats.
