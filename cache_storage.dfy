/**
 The slice of the browser's CacheStorage that the service worker relies on,
 as values: named cache generations, kept in creation order, each mapping
 request keys to responses. `match` searches every generation in order;
 `open` creates a generation on first use; `put` writes one entry;
 `delete` drops a generation; `addAll` fills one from fetched responses,
 all or nothing.
 */
module CacheStorage {

  /** A request identity: the request's (resolved) URL. */
  type Key = string

  /** A response: an identity standing for its body and headers, and whether
      its status is in the successful range (`response.ok`). */
  datatype Resp = Resp(id: nat, ok: bool)

  /** What a call to `fetch` yields: a response (of any status) or a rejection. */
  datatype NetResult = Resolved(resp: Resp) | Rejected

  datatype Option<T> = None | Some(value: T)

  type Generation = map<Key, Resp>

  predicate NoDup(s: seq<string>)
  {
    forall i, j :: 0 <= i < j < |s| ==> s[i] != s[j]
  }

  /** The generation named `name` holds an entry for `key`. */
  predicate HoldsKey(gens: map<string, Generation>, name: string, key: Key)
  {
    name in gens && key in gens[name]
  }

  /** `caches.match(key)`: the entry of the first generation, in creation
      order, that holds the key. */
  function Lookup(order: seq<string>, gens: map<string, Generation>, key: Key): (r: Option<Resp>)
    ensures r.Some? ==> exists n :: n in order && HoldsKey(gens, n, key) && gens[n][key] == r.value
    decreases order
  {
    if order == [] then None
    else if HoldsKey(gens, order[0], key) then Some(gens[order[0]][key])
    else Lookup(order[1..], gens, key)
  }

  /** The generation named `name`, or an empty one if there is none. */
  function GenOf(gens: map<string, Generation>, name: string): Generation
  {
    if name in gens then gens[name] else map[]
  }

  /** The generation names after `caches.open(name)`. */
  function Opened(order: seq<string>, name: string): (r: seq<string>)
    ensures name in r && (forall n :: n in r <==> n in order || n == name)
    ensures |order| <= |r| <= |order| + 1 && r[..|order|] == order
    ensures NoDup(order) ==> NoDup(r)
  {
    if name in order then order else order + [name]
  }

  /** The generations after `caches.open(name).then(c => c.put(key, resp))`. */
  function Stored(gens: map<string, Generation>, name: string, key: Key, resp: Resp): (r: map<string, Generation>)
    ensures r.Keys == gens.Keys + {name}
    ensures forall n :: n in gens && n != name ==> r[n] == gens[n]
    ensures r[name].Keys == GenOf(gens, name).Keys + {key} && r[name][key] == resp
    ensures forall k :: k in GenOf(gens, name) && k != key ==> r[name][k] == GenOf(gens, name)[k]
  {
    gens[name := GenOf(gens, name)[key := resp]]
  }

  /** `s` with every name in `dead` removed, order kept. */
  function Without(s: seq<string>, dead: set<string>): (r: seq<string>)
    ensures |r| <= |s|
    decreases s
  {
    if s == [] then []
    else if s[0] in dead then Without(s[1..], dead)
    else [s[0]] + Without(s[1..], dead)
  }

  /** Every fetch resolved with an ok response. */
  predicate AllOk(net: seq<NetResult>)
  {
    forall i :: 0 <= i < |net| ==> net[i].Resolved? && net[i].resp.ok
  }

  /** `gen` after putting `keys[i] -> net[i].resp` for each i in turn (the batch
      put of a successful `addAll`). */
  function Fill(gen: Generation, keys: seq<Key>, net: seq<NetResult>): (r: Generation)
    requires |keys| == |net| && AllOk(net)
    ensures forall k :: k in r <==> k in gen || k in keys
    ensures forall k :: k in gen && k !in keys ==> r[k] == gen[k]
    decreases |keys|
  {
    if keys == [] then gen
    else
      var n := |keys| - 1;
      assert forall k :: k in keys <==> k in keys[..n] || k == keys[n] by {
        assert keys == keys[..n] + [keys[n]];
      }
      Fill(gen, keys[..n], net[..n])[keys[n] := net[n].resp]
  }

  // ---------------------------------------------------------------------------
  // Lookup

  /** A hit comes from the first generation, in creation order, holding the key. */
  lemma {:induction false} LookupFound(order: seq<string>, gens: map<string, Generation>, key: Key, r: Resp)
    requires Lookup(order, gens, key) == Some(r)
    ensures exists i :: 0 <= i < |order| && HoldsKey(gens, order[i], key) && gens[order[i]][key] == r &&
                        forall j :: 0 <= j < i ==> !HoldsKey(gens, order[j], key)
    decreases order
  {
    if HoldsKey(gens, order[0], key) {
      assert HoldsKey(gens, order[0], key) && gens[order[0]][key] == r;
    } else {
      LookupFound(order[1..], gens, key, r);
      var i :| 0 <= i < |order[1..]| && HoldsKey(gens, order[1..][i], key) && gens[order[1..][i]][key] == r &&
               forall j :: 0 <= j < i ==> !HoldsKey(gens, order[1..][j], key);
      assert forall j :: 0 <= j < i + 1 ==> !HoldsKey(gens, order[j], key) by {
        forall j | 0 <= j < i + 1 ensures !HoldsKey(gens, order[j], key) {
          if j > 0 { assert order[j] == order[1..][j - 1]; }
        }
      }
      assert HoldsKey(gens, order[i + 1], key) && gens[order[i + 1]][key] == r;
    }
  }

  /** A miss means no listed generation holds the key. */
  lemma {:induction false} LookupMiss(order: seq<string>, gens: map<string, Generation>, key: Key)
    ensures Lookup(order, gens, key) == None <==> forall i :: 0 <= i < |order| ==> !HoldsKey(gens, order[i], key)
    decreases order
  {
    if order != [] {
      LookupMiss(order[1..], gens, key);
      assert forall i :: 1 <= i < |order| ==> order[i] == order[1..][i - 1];
    }
  }

  /** Once every generation but `name` is deleted, a lookup answers from
      `name` alone: no stale generation can leak into a response. */
  lemma LookupOnlyCurrent(name: string, gens: map<string, Generation>, key: Key)
    ensures Lookup(if name in gens then [name] else [], if name in gens then map[name := gens[name]] else map[], key)
            == if name in gens && key in gens[name] then Some(gens[name][key]) else None
  {
  }

  /** The names listed before the first `name` (all of them when `name` is absent). */
  function Before(order: seq<string>, name: string): (r: seq<string>)
    ensures name !in r
    decreases order
  {
    if order == [] || order[0] == name then [] else [order[0]] + Before(order[1..], name)
  }

  /** After a put into `name`, a lookup of the key returns the new response
      unless a generation listed before `name` holds the key, whose older entry
      then wins. */
  lemma {:induction false} LookupAfterStored(order: seq<string>, gens: map<string, Generation>, name: string, key: Key, resp: Resp)
    ensures Lookup(Opened(order, name), Stored(gens, name, key, resp), key)
            == if Lookup(Before(order, name), gens, key).Some? then Lookup(Before(order, name), gens, key) else Some(resp)
    decreases order
  {
    var o, g := Opened(order, name), Stored(gens, name, key, resp);
    if order == [] {
      assert o == [name];
    } else if order[0] != name {
      LookupAfterStored(order[1..], gens, name, key, resp);
      assert (name in order) == (name in order[1..]);
      assert o[0] == order[0] && o[1..] == Opened(order[1..], name);
      assert HoldsKey(g, order[0], key) == HoldsKey(gens, order[0], key);
      assert Before(order, name)[0] == order[0] && Before(order, name)[1..] == Before(order[1..], name);
    }
  }

  /** Example: before the old generation "v4" is deleted, it still answers for a
      key just written to "v5". */
  lemma StaleEntryShadowsWrite()
    ensures Lookup(Opened(["v4", "v5"], "v5"),
                   Stored(map["v4" := map["k" := Resp(1, true)], "v5" := map[]], "v5", "k", Resp(2, true)), "k")
            == Some(Resp(1, true))
  {
    LookupAfterStored(["v4", "v5"], map["v4" := map["k" := Resp(1, true)], "v5" := map[]], "v5", "k", Resp(2, true));
    assert Before(["v4", "v5"], "v5") == ["v4"] by {
      assert ["v4", "v5"][1..] == ["v5"];
    }
  }

  // ---------------------------------------------------------------------------
  // Without

  /** What is left is exactly what was listed and not removed. */
  lemma {:induction false} WithoutMembers(s: seq<string>, dead: set<string>)
    ensures forall n :: n in Without(s, dead) <==> n in s && n !in dead
    decreases s
  {
    if s != [] {
      WithoutMembers(s[1..], dead);
      assert forall n :: n in s <==> n == s[0] || n in s[1..];
    }
  }

  /** Removing names works segment by segment, so the names left keep their
      relative order. */
  lemma {:induction false} WithoutAppend(a: seq<string>, b: seq<string>, dead: set<string>)
    ensures Without(a + b, dead) == Without(a, dead) + Without(b, dead)
    decreases a
  {
    if a == [] {
      assert a + b == b;
    } else {
      assert a + b == [a[0]] + (a[1..] + b);
      WithoutAppend(a[1..], b, dead);
    }
  }

  /** Removing names one at a time is removing them all at once. */
  lemma {:induction false} WithoutWithout(s: seq<string>, dead: set<string>, x: string)
    ensures Without(Without(s, dead), {x}) == Without(s, dead + {x})
    decreases s
  {
    if s != [] {
      WithoutWithout(s[1..], dead, x);
      if s[0] !in dead {
        assert ([s[0]] + Without(s[1..], dead))[1..] == Without(s[1..], dead);
      }
    }
  }

  /** Removing every name but `n` from a list without repeats leaves `[n]` if
      it was listed, and nothing otherwise. */
  lemma {:induction false} WithoutAllBut(s: seq<string>, dead: set<string>, n: string)
    requires NoDup(s) && n !in dead
    requires forall i :: 0 <= i < |s| ==> s[i] == n || s[i] in dead
    ensures Without(s, dead) == if n in s then [n] else []
    decreases s
  {
    if s != [] {
      assert NoDup(s[1..]) by {
        assert forall i :: 0 <= i < |s[1..]| ==> s[1..][i] == s[i + 1];
      }
      WithoutAllBut(s[1..], dead, n);
      if s[0] == n {
        assert n !in s[1..] by {
          assert forall i :: 0 <= i < |s[1..]| ==> s[1..][i] == s[i + 1];
        }
      } else {
        assert (n in s) == (n in s[1..]);
      }
    }
  }

  /** Removing nothing leaves the list as it was. */
  lemma {:induction false} WithoutAllNone(s: seq<string>)
    ensures Without(s, {}) == s
    decreases s
  {
    if s != [] {
      WithoutAllNone(s[1..]);
    }
  }

  /** Removing names keeps a list free of repeats. */
  lemma {:induction false} WithoutNoDup(s: seq<string>, dead: set<string>)
    requires NoDup(s)
    ensures NoDup(Without(s, dead))
    decreases s
  {
    if s != [] {
      assert NoDup(s[1..]) by {
        assert forall i :: 0 <= i < |s[1..]| ==> s[1..][i] == s[i + 1];
      }
      WithoutNoDup(s[1..], dead);
      WithoutMembers(s[1..], dead);
      assert s[0] !in s[1..] by {
        assert forall i :: 0 <= i < |s[1..]| ==> s[1..][i] == s[i + 1];
      }
    }
  }

  /** The generations left after deleting every name in `dead`. */
  function Dropped(gens: map<string, Generation>, dead: set<string>): (r: map<string, Generation>)
    ensures r.Keys == gens.Keys - dead
  {
    gens - dead
  }

  /** Every generation that survives keeps all its entries. */
  lemma DroppedKeeps(gens: map<string, Generation>, dead: set<string>)
    ensures forall n :: n in Dropped(gens, dead) ==> n !in dead && Dropped(gens, dead)[n] == gens[n]
  {
  }

  /** Deleting names one at a time is deleting them all at once. */
  lemma DroppedDropped(gens: map<string, Generation>, dead: set<string>, x: string)
    ensures Dropped(gens, dead) - {x} == Dropped(gens, dead + {x})
  {
  }

  /** Deleting every generation but `n` leaves `n` alone, with its entries. */
  lemma RemoveAllBut(gens: map<string, Generation>, dead: set<string>, n: string)
    requires n !in dead
    requires forall m :: m in gens && m != n ==> m in dead
    ensures Dropped(gens, dead) == if n in gens then map[n := gens[n]] else map[]
  {
  }

  // ---------------------------------------------------------------------------
  // Fill (addAll)

  /** After `addAll` of distinct keys, each key maps to its own response. */
  lemma {:induction false} FillAt(gen: Generation, keys: seq<Key>, net: seq<NetResult>, i: nat)
    requires |keys| == |net| && AllOk(net) && NoDup(keys) && i < |keys|
    ensures keys[i] in Fill(gen, keys, net) && Fill(gen, keys, net)[keys[i]] == net[i].resp
    decreases |keys|
  {
    var n := |keys| - 1;
    assert Fill(gen, keys, net) == Fill(gen, keys[..n], net[..n])[keys[n] := net[n].resp];
    if i < n {
      assert NoDup(keys[..n]);
      FillAt(gen, keys[..n], net[..n], i);
      assert keys[..n][i] == keys[i] != keys[n];
    }
  }

  // ---------------------------------------------------------------------------
  // addAll, step by step

  /** The check `addAll` makes of its fetches: did every one resolve ok? */
  method FetchedAllOk(net: seq<NetResult>) returns (ok: bool)
    ensures ok <==> AllOk(net)
  {
    ok := true;
    var i := 0;
    while i < |net|
      invariant 0 <= i <= |net|
      invariant ok <==> AllOk(net[..i])
    {
      if net[i].Rejected? || !net[i].resp.ok {
        ok := false;
      }
      i := i + 1;
    }
    assert net[..i] == net;
  }

  /** The batch put of a successful `addAll`, in list order. */
  method PutAll(gen: Generation, keys: seq<Key>, net: seq<NetResult>) returns (g: Generation)
    requires |keys| == |net| && AllOk(net)
    ensures g == Fill(gen, keys, net)
  {
    g := gen;
    var i := 0;
    while i < |keys|
      invariant 0 <= i <= |keys|
      invariant g == Fill(gen, keys[..i], net[..i])
    {
      assert keys[..i + 1][..i] == keys[..i];
      assert net[..i + 1][..i] == net[..i];
      g := g[keys[i] := net[i].resp];
      i := i + 1;
    }
    assert keys[..i] == keys && net[..i] == net;
  }
}
