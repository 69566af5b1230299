/**
 The request routing rule of the service worker's fetch handler: every
 intercepted request is classified, from its pathname, its mode and its
 destination, as live-data traffic that the worker leaves alone, a page
 load served network-first, or an asset served cache-first.
 */
module Routing {

  /** The three routing policies, tried in this order; the first that applies wins. */
  datatype Route = Bypass | NetworkFirst | CacheFirst

  /** What the handler reads of an intercepted request. `url` is the cache key;
      `pathname` is the path component of that URL, taken as given. */
  datatype Request = Request(url: string, pathname: string, mode: string, destination: string)

  /** Path prefix of the live CouchDB sync traffic, never cached. */
  const DB_PREFIX: string := "/db"

  /** Path suffix of HTML documents. */
  const HTML_SUFFIX: string := ".html"

  /** `s.startsWith(p)`: the first |p| characters of s are p. */
  predicate StartsWith(s: string, p: string)
    ensures StartsWith(s, p) <==> |p| <= |s| && forall i :: 0 <= i < |p| ==> s[i] == p[i]
  {
    |p| <= |s| && s[..|p|] == p
  }

  /** `s.endsWith(t)`: the last |t| characters of s are t. */
  predicate EndsWith(s: string, t: string)
    ensures EndsWith(s, t) <==> |t| <= |s| && forall i :: 0 <= i < |t| ==> s[|s| - |t| + i] == t[i]
  {
    |t| <= |s| && s[|s| - |t|..] == t
  }

  /** Reference definition of a prefix, character by character. */
  predicate PrefixChars(s: string, p: string)
    decreases p
  {
    p == [] || (s != [] && s[0] == p[0] && PrefixChars(s[1..], p[1..]))
  }

  /** The network-first test: a navigation, a document, an `.html` path or the root. */
  predicate IsPageRequest(req: Request)
  {
    || req.mode == "navigate"
    || req.destination == "document"
    || EndsWith(req.pathname, HTML_SUFFIX)
    || req.pathname == "/"
    || req.pathname == ""
  }

  /** The policy the fetch handler applies to `req`. */
  function RouteOf(req: Request): (r: Route)
    ensures r == Bypass <==> StartsWith(req.pathname, DB_PREFIX)
    ensures r == CacheFirst ==> req.mode != "navigate" && req.destination != "document"
  {
    if StartsWith(req.pathname, DB_PREFIX) then Bypass
    else if IsPageRequest(req) then NetworkFirst
    else CacheFirst
  }

  /** `startsWith` agrees with the character-by-character reference definition. */
  lemma {:induction false} StartsWithIsPrefixChars(s: string, p: string)
    ensures StartsWith(s, p) <==> PrefixChars(s, p)
    decreases p
  {
    if p != [] && s != [] {
      StartsWithIsPrefixChars(s[1..], p[1..]);
      if StartsWith(s, p) {
        assert s[1..][..|p| - 1] == s[..|p|][1..];
      }
      if PrefixChars(s, p) {
        assert s[..|p|] == [s[0]] + s[1..][..|p[1..]|];
        assert p == [p[0]] + p[1..];
      }
    }
  }

  /** The bypass is a raw prefix test, checked before anything else: any path
      beginning with "/db" bypasses, whatever its mode or destination. */
  lemma BypassWins(req: Request)
    requires |req.pathname| >= 3 && req.pathname[0] == '/' && req.pathname[1] == 'd' && req.pathname[2] == 'b'
    ensures RouteOf(req) == Bypass
  {
  }

  /** Examples: "/db/sync" and "/dbx" bypass even as navigations; "/about.html"
      and "/" are network-first; "/d" and "/DB" are not bypassed. */
  lemma RouteExamples()
    ensures RouteOf(Request("/db/sync", "/db/sync", "navigate", "document")) == Bypass
    ensures RouteOf(Request("/dbx", "/dbx", "no-cors", "script")) == Bypass
    ensures RouteOf(Request("/about.html", "/about.html", "cors", "")) == NetworkFirst
    ensures RouteOf(Request("/", "/", "cors", "")) == NetworkFirst
    ensures RouteOf(Request("/d", "/d", "cors", "image")) == CacheFirst
    ensures RouteOf(Request("/DB", "/DB", "navigate", "")) == NetworkFirst
  {
    assert StartsWith("/db/sync", DB_PREFIX) by { assert "/db/sync"[..3] == DB_PREFIX; }
    assert StartsWith("/dbx", DB_PREFIX) by { assert "/dbx"[..3] == DB_PREFIX; }
    assert !StartsWith("/about.html", DB_PREFIX) by { assert "/about.html"[1] != DB_PREFIX[1]; }
    assert EndsWith("/about.html", HTML_SUFFIX) by { assert "/about.html"[6..] == HTML_SUFFIX; }
    assert !StartsWith("/", DB_PREFIX) && !StartsWith("/d", DB_PREFIX);
    assert !EndsWith("/d", HTML_SUFFIX);
    assert !StartsWith("/DB", DB_PREFIX) by { assert "/DB"[1] != DB_PREFIX[1]; }
  }

  /** Every request that is not bypassed and is a navigation goes network-first;
      the cache-first branch never sees a navigation. */
  lemma NavigationIsNetworkFirst(req: Request)
    requires req.mode == "navigate"
    ensures RouteOf(req) == (if StartsWith(req.pathname, DB_PREFIX) then Bypass else NetworkFirst)
  {
  }

  /** Past the bypass, the page-request test alone decides between the two
      remaining policies: network-first exactly for page requests. */
  lemma PageRequestIsNetworkFirst(req: Request)
    requires !StartsWith(req.pathname, DB_PREFIX)
    ensures IsPageRequest(req) <==> RouteOf(req) == NetworkFirst
    ensures !IsPageRequest(req) <==> RouteOf(req) == CacheFirst
  {
  }

  /** Cache-first is exactly what is neither bypassed nor a page request. */
  lemma CacheFirstExactly(req: Request)
    ensures RouteOf(req) == CacheFirst <==>
              && !StartsWith(req.pathname, DB_PREFIX)
              && req.mode != "navigate"
              && req.destination != "document"
              && !EndsWith(req.pathname, HTML_SUFFIX)
              && req.pathname != "/"
              && req.pathname != ""
  {
  }
}
