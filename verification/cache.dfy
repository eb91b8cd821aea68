/**
  The in-memory cache shared by every scraper: one map per TTL namespace,
  created the first time the namespace is used, keyed by the call's argument
  tuple.

  The namespaces are keyed by the TTL itself (`str` is injective on integers,
  so this separates exactly the namespaces the string keys separate); the key is
  the argument tuple itself rather than its JSON encoding and MD5 digest. Expiry
  and size-bounded eviction are not modelled: an entry stays until it is
  overwritten, invalidated or cleared.
*/
module Cache {
  import opened Base

  /** One argument value as it enters a cache key. */
  datatype KeyPart = KStr(s: string) | KInt(i: int) | KNone

  /** The positional and keyword arguments a cache key is derived from. */
  datatype CacheKey = CacheKey(args: seq<KeyPart>, kwargs: map<string, KeyPart>)

  /** `CacheManager.make_cache_key`. */
  function MakeCacheKey(args: seq<KeyPart>, kwargs: map<string, KeyPart>): CacheKey {
    CacheKey(args, kwargs)
  }

  /** Equal arguments give equal keys, and distinct arguments distinct keys. */
  lemma MakeCacheKeyExact(args1: seq<KeyPart>, kwargs1: map<string, KeyPart>, args2: seq<KeyPart>, kwargs2: map<string, KeyPart>)
    ensures MakeCacheKey(args1, kwargs1) == MakeCacheKey(args2, kwargs2) <==> args1 == args2 && kwargs1 == kwargs2
  {
  }

  /** The contents of the cache: namespace TTL to that namespace's entries. */
  type Store<V> = map<int, map<CacheKey, V>>

  /** The value `get` finds, or None. */
  function Lookup<V>(c: Store<V>, ttl: int, key: CacheKey): Option<V> {
    if ttl in c && key in c[ttl] then Some(c[ttl][key]) else None
  }

  /** `_get_cache`: the store once the namespace exists. Creating it changes no lookup. */
  function WithNamespace<V>(c: Store<V>, ttl: int): (r: Store<V>)
    ensures r.Keys == c.Keys + {ttl}
    ensures ttl in c ==> r == c
    ensures forall t, k :: Lookup(r, t, k) == Lookup(c, t, k)
  {
    if ttl in c then c else c[ttl := map[]]
  }

  /** The store after `set(ttl, value, key)`. */
  function Stored<V>(c: Store<V>, ttl: int, key: CacheKey, value: V): (r: Store<V>)
    ensures r.Keys == c.Keys + {ttl}
    ensures Lookup(r, ttl, key) == Some(value)
    ensures forall t, k | t != ttl || k != key :: Lookup(r, t, k) == Lookup(c, t, k)
  {
    var n := WithNamespace(c, ttl);
    n[ttl := n[ttl][key := value]]
  }

  /** The store after `invalidate(ttl, key)`. */
  function Invalidated<V>(c: Store<V>, ttl: int, key: CacheKey): (r: Store<V>)
    ensures r.Keys == c.Keys + {ttl}
    ensures Lookup(r, ttl, key) == None
    ensures forall t, k | t != ttl || k != key :: Lookup(r, t, k) == Lookup(c, t, k)
    // removing an absent entry changes no lookup
    ensures Lookup(c, ttl, key) == None ==> forall t, k :: Lookup(r, t, k) == Lookup(c, t, k)
  {
    var n := WithNamespace(c, ttl);
    n[ttl := n[ttl] - {key}]
  }

  /** The store after `clear_all()`: every namespace kept, and emptied. */
  function Cleared<V>(c: Store<V>): (r: Store<V>)
    ensures r.Keys == c.Keys
    ensures forall t, k :: Lookup(r, t, k) == None
  {
    map t | t in c :: map[]
  }

  /** `CacheManager`. */
  class CacheManager<V> {
    var caches: Store<V>
    /** The namespaces in the order they were created, which is the order `clear_all` visits them. */
    var order: seq<int>

    ghost predicate Valid()
      reads this
    {
      forall t :: t in caches <==> t in order
    }

    /** A manager starts with no namespace at all. */
    constructor()
      ensures Valid() && caches == map[]
    {
      caches := map[];
      order := [];
    }

    /** `get(ttl, *args, **kwargs)`. */
    method Get(ttl: int, args: seq<KeyPart>, kwargs: map<string, KeyPart>) returns (v: Option<V>)
      requires Valid()
      modifies this
      ensures Valid()
      ensures v == Lookup(old(caches), ttl, MakeCacheKey(args, kwargs))
      ensures caches == WithNamespace(old(caches), ttl)
    {
      GetCache(ttl);
      var key := MakeCacheKey(args, kwargs);
      v := if key in caches[ttl] then Some(caches[ttl][key]) else None;
    }

    /** `set(ttl, value, *args, **kwargs)`. */
    method Set(ttl: int, value: V, args: seq<KeyPart>, kwargs: map<string, KeyPart>)
      requires Valid()
      modifies this
      ensures Valid()
      ensures caches == Stored(old(caches), ttl, MakeCacheKey(args, kwargs), value)
    {
      GetCache(ttl);
      var key := MakeCacheKey(args, kwargs);
      caches := caches[ttl := caches[ttl][key := value]];
    }

    /** `invalidate(ttl, *args, **kwargs)`: `pop` with a default never raises. */
    method Invalidate(ttl: int, args: seq<KeyPart>, kwargs: map<string, KeyPart>)
      requires Valid()
      modifies this
      ensures Valid()
      ensures caches == Invalidated(old(caches), ttl, MakeCacheKey(args, kwargs))
    {
      GetCache(ttl);
      var key := MakeCacheKey(args, kwargs);
      caches := caches[ttl := caches[ttl] - {key}];
    }

    /** `clear_all()`: clears the namespaces one by one. */
    method ClearAll()
      requires Valid()
      modifies this
      ensures Valid() && order == old(order)
      ensures caches == Cleared(old(caches))
    {
      var i := 0;
      while i < |order|
        invariant 0 <= i <= |order| && order == old(order)
        invariant caches.Keys == old(caches).Keys && Valid()
        invariant forall t | t in caches :: caches[t] == if t in order[..i] then map[] else old(caches)[t]
      {
        caches := caches[order[i] := map[]];
        assert forall t :: t in order[..i + 1] <==> t in order[..i] || t == order[i];
        i := i + 1;
      }
      assert order[..i] == order;
      assert forall t | t in caches :: caches[t] == Cleared(old(caches))[t];
    }

    /** `_get_cache(ttl)`: creates the namespace on first use. */
    method GetCache(ttl: int)
      requires Valid()
      modifies this
      ensures Valid() && ttl in caches
      ensures caches == WithNamespace(old(caches), ttl)
      ensures order == if ttl in old(caches) then old(order) else old(order) + [ttl]
    {
      if ttl !in caches {
        caches := caches[ttl := map[]];
        order := order + [ttl];
      }
    }
  }

  /** The repository's own cache tests, replayed on the store. */
  lemma CacheScenarios<V>(a: V, b: V)
    ensures var k1, k2 := MakeCacheKey([KStr("key1")], map[]), MakeCacheKey([KStr("key2")], map[]);
      var c := Stored(Stored(map[], 60, k1, a), 60, k2, b);
      && Lookup(c, 60, k1) == Some(a) && Lookup(c, 60, k2) == Some(b)
      && Lookup(Invalidated(c, 60, k1), 60, k1) == None
    ensures var k1, k2 := MakeCacheKey([KStr("k1")], map[]), MakeCacheKey([KStr("k2")], map[]);
      var c := Cleared(Stored(Stored(map[], 60, k1, a), 120, k2, b));
      Lookup(c, 60, k1) == None && Lookup(c, 120, k2) == None
    ensures Lookup<V>(map[], 60, MakeCacheKey([KStr("nonexistent")], map[])).None?
  {
    assert [KStr("key1")] != [KStr("key2")];
  }
}
