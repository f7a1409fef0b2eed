/**
 * `findProductLocally` of bot.js and lib/core.js: a trimmed-key lookup fronted by an
 * insertion-ordered product cache of at most 2000 entries. A hit moves the key to the newest
 * position; a found product is appended as newest and the oldest entry is evicted when the
 * cache grows past its limit; misses and database errors leave the cache alone.
 */
module Resolver {
  import opened Base
  import opened Js
  import opened Catalog

  /** `PRODUCT_CACHE_LIMIT` */
  const ProductCacheLimit: nat := 2000

  /** The `Map`'s entries in insertion order, oldest first. */
  type Cache = seq<(string, Product)>

  predicate DistinctKeys(c: Cache) {
    forall i, j :: 0 <= i < j < |c| ==> c[i].0 != c[j].0
  }

  /** What a JavaScript `Map` guarantees (one entry per key) and the size bound the code keeps. */
  predicate ValidCache(c: Cache) {
    DistinctKeys(c) && |c| <= ProductCacheLimit
  }

  /** `map.get(k)` */
  function Get(c: Cache, k: string): (r: Option<Product>)
    ensures r.Some? <==> exists i :: 0 <= i < |c| && c[i].0 == k
    decreases |c|
  {
    if c == [] then None
    else if c[0].0 == k then Some(c[0].1)
    else
      assert forall i :: 1 <= i < |c| ==> c[1..][i - 1] == c[i];
      Get(c[1..], k)
  }

  /** `map.delete(k)`: the entries without key `k`, order kept. */
  function Without(c: Cache, k: string): (r: Cache)
    ensures |r| <= |c|
    decreases |c|
  {
    if c == [] then []
    else (if c[0].0 == k then [] else [c[0]]) + Without(c[1..], k)
  }

  lemma {:induction false} GetWithout(c: Cache, k: string, x: string)
    ensures Get(Without(c, k), x) == if x == k then None else Get(c, x)
    decreases |c|
  {
    if c != [] {
      GetWithout(c[1..], k, x);
      if c[0].0 != k {
        assert Without(c, k) == [c[0]] + Without(c[1..], k);
        assert ([c[0]] + Without(c[1..], k))[1..] == Without(c[1..], k);
      } else {
        assert Without(c, k) == Without(c[1..], k);
      }
    }
  }

  lemma {:induction false} WithoutKeys(c: Cache, k: string)
    ensures forall i :: 0 <= i < |Without(c, k)| ==>
              Without(c, k)[i].0 != k && Without(c, k)[i] in c
    ensures DistinctKeys(c) ==> DistinctKeys(Without(c, k))
    ensures DistinctKeys(c) && Get(c, k).Some? ==> |Without(c, k)| == |c| - 1
    decreases |c|
  {
    if c != [] {
      WithoutKeys(c[1..], k);
      var rest := Without(c[1..], k);
      assert forall i :: 0 <= i < |rest| ==> rest[i] in c;
      if DistinctKeys(c) {
        assert DistinctKeys(c[1..]);
        forall i | 0 <= i < |rest|
          ensures rest[i].0 != c[0].0
        {
          var j :| 0 <= j < |c[1..]| && c[1..][j] == rest[i];
          assert c[j + 1] == rest[i];
        }
        if Get(c, k).Some? && c[0].0 != k {
          assert Get(c[1..], k).Some?;
        }
        if c[0].0 == k {
          assert Get(c[1..], k).None?;
          NotPresentUnchanged(c[1..], k);
        }
      }
    }
  }

  lemma {:induction false} NotPresentUnchanged(c: Cache, k: string)
    requires Get(c, k).None?
    ensures Without(c, k) == c
    decreases |c|
  {
    if c != [] {
      assert c[0].0 != k;
      NotPresentUnchanged(c[1..], k);
      assert c == [c[0]] + c[1..];
    }
  }

  lemma {:induction false} GetAppend(c: Cache, k: string, v: Product, x: string)
    ensures Get(c + [(k, v)], x) == if Get(c, x).Some? then Get(c, x) else if x == k then Some(v) else None
    decreases |c|
  {
    if c != [] {
      assert (c + [(k, v)])[1..] == c[1..] + [(k, v)];
      GetAppend(c[1..], k, v, x);
    } else {
      assert [(k, v)][1..] == [];
    }
  }

  /** Dropping the oldest entry forgets its key and nothing else. */
  lemma GetEvict(c: Cache, x: string)
    requires DistinctKeys(c) && c != []
    ensures Get(c[1..], x) == if x == c[0].0 then None else Get(c, x)
  {
    assert forall i :: 0 <= i < |c[1..]| ==> c[1..][i] == c[i + 1];
  }

  /** A hit: `map.delete(key)` then `map.set(key, v)`, which makes the key the newest entry. */
  function Touch(c: Cache, key: string, v: Product): Cache {
    Without(c, key) + [(key, v)]
  }

  /** A found product: `map.set(key, v)`, then the oldest entry evicted when past the limit. */
  function Admit(c: Cache, key: string, v: Product): Cache {
    var grown := c + [(key, v)];
    if |grown| > ProductCacheLimit then grown[1..] else grown
  }

  /**
   * Moving a cached key to the newest position keeps the cache valid, keeps its size, keeps
   * every key's entry and ends with the key's entry.
   */
  lemma TouchKeeps(c: Cache, key: string, x: string)
    requires ValidCache(c) && Get(c, key).Some?
    ensures var t := Touch(c, key, Get(c, key).value);
            && ValidCache(t) && |t| == |c|
            && Get(t, x) == Get(c, x)
            && t[|t| - 1] == (key, Get(c, key).value)
  {
    WithoutKeys(c, key);
    GetWithout(c, key, x);
    GetAppend(Without(c, key), key, Get(c, key).value, x);
    var w := Without(c, key);
    assert forall i :: 0 <= i < |w| ==> w[i].0 != key;
  }

  /**
   * Admitting a key the cache lacks keeps it valid and makes the key's entry the newest; when
   * the cache was full the oldest key is forgotten. Every other key keeps its entry.
   */
  lemma AdmitKeeps(c: Cache, key: string, v: Product, x: string)
    requires ValidCache(c) && Get(c, key).None?
    ensures var a := Admit(c, key, v);
            && ValidCache(a)
            && (|c| < ProductCacheLimit ==> |a| == |c| + 1)
            && (|c| == ProductCacheLimit ==> |a| == |c| && Get(a, c[0].0).None?)
            && a[|a| - 1] == (key, v)
            && (x == key ==> Get(a, x) == Some(v))
            && (x != key && (|c| < ProductCacheLimit || x != c[0].0) ==> Get(a, x) == Get(c, x))
  {
    var grown := c + [(key, v)];
    GetAppend(c, key, v, x);
    assert DistinctKeys(grown);
    if |grown| > ProductCacheLimit {
      GetEvict(grown, x);
      GetAppend(c, key, v, c[0].0);
      GetEvict(grown, c[0].0);
      assert c[0].0 != key;
    }
  }

  /** The outcome of one lookup: what it returns and the cache it leaves. */
  datatype Lookup = Lookup(found: Option<Product>, cache: Cache)

  /** One call of `findProductLocally(query)` over the cache `c` and the database `store`. */
  function LookupStep(c: Cache, store: Store, query: Value): Lookup {
    var key := Trim(OrText(query, ""));
    if key == [] then Lookup(None, c)
    else
      var cached := Get(c, key);
      if cached.Some? then Lookup(cached, Touch(c, key, cached.value))
      else
        match store
        case Failing => Lookup(None, c)
        case Available(rows) =>
          var product := Resolve(rows, key);
          if product.None? then Lookup(None, c) else Lookup(product, Admit(c, key, product.value))
  }

  /** The cache keeps one entry per key and never holds more than 2000. */
  lemma LookupStepValid(c: Cache, store: Store, query: Value)
    requires ValidCache(c)
    ensures ValidCache(LookupStep(c, store, query).cache)
  {
    var key := Trim(OrText(query, ""));
    var r := LookupStep(c, store, query);
    if key != [] {
      if Get(c, key).Some? {
        TouchKeeps(c, key, key);
      } else if r.found.Some? {
        AdmitKeeps(c, key, r.found.value, key);
      }
    }
  }

  /**
   * A hit returns the cached product, keeps every key's entry as it was, and makes the key
   * the newest entry.
   */
  lemma LookupStepHit(c: Cache, store: Store, query: Value, x: string)
    requires ValidCache(c)
    requires Trim(OrText(query, "")) != [] && Get(c, Trim(OrText(query, ""))).Some?
    ensures var key := Trim(OrText(query, ""));
            var r := LookupStep(c, store, query);
            && r.found == Get(c, key)
            && Get(r.cache, x) == Get(c, x)
            && |r.cache| == |c|
            && r.cache[|r.cache| - 1] == (key, Get(c, key).value)
  {
    TouchKeeps(c, Trim(OrText(query, "")), x);
  }

  /**
   * A miss that finds a product adds it as the newest entry; when the cache was full the
   * oldest key is forgotten. Every other key keeps its entry.
   */
  lemma LookupStepInsert(c: Cache, store: Store, query: Value, x: string)
    requires ValidCache(c)
    requires Trim(OrText(query, "")) != [] && Get(c, Trim(OrText(query, ""))).None?
    requires LookupStep(c, store, query).found.Some?
    ensures var key := Trim(OrText(query, ""));
            var r := LookupStep(c, store, query);
            && (|c| < ProductCacheLimit ==> |r.cache| == |c| + 1)
            && (|c| == ProductCacheLimit ==> |r.cache| == |c| && Get(r.cache, c[0].0).None?)
            && r.cache[|r.cache| - 1] == (key, r.found.value)
            && (x == key ==> Get(r.cache, x) == r.found)
            && (x != key && (|c| < ProductCacheLimit || x != c[0].0) ==> Get(r.cache, x) == Get(c, x))
  {
    var key := Trim(OrText(query, ""));
    var r := LookupStep(c, store, query);
    assert r.cache == Admit(c, key, r.found.value);
    AdmitKeeps(c, key, r.found.value, x);
  }

  /** A miss that finds nothing, or a database error, changes nothing. */
  lemma LookupStepMissKeeps(c: Cache, store: Store, query: Value)
    requires LookupStep(c, store, query).found.None?
    ensures LookupStep(c, store, query).cache == c
  {
    var key := Trim(OrText(query, ""));
    if key != [] {
      assert Get(c, key).None?;
    }
  }

  /** Every cached entry is what the catalog gives for its key. */
  predicate Coherent(c: Cache, rows: seq<Product>) {
    forall i :: 0 <= i < |c| ==> c[i].0 != [] && Resolve(rows, c[i].0) == Some(c[i].1)
  }

  lemma {:induction false} GetCoherent(c: Cache, rows: seq<Product>, k: string)
    requires Coherent(c, rows) && Get(c, k).Some?
    ensures Resolve(rows, k) == Get(c, k)
    decreases |c|
  {
    if c[0].0 != k {
      assert Coherent(c[1..], rows);
      GetCoherent(c[1..], rows, k);
    }
  }

  /** Re-inserting a key with what the catalog gives for it keeps the cache coherent. */
  lemma TouchCoherent(c: Cache, rows: seq<Product>, key: string, v: Product)
    requires Coherent(c, rows) && key != [] && Resolve(rows, key) == Some(v)
    ensures Coherent(Touch(c, key, v), rows)
  {
    WithoutKeys(c, key);
    var w := Without(c, key);
    assert forall i :: 0 <= i < |w| ==> w[i] in c;
  }

  /** Admitting a key with what the catalog gives for it keeps the cache coherent. */
  lemma AdmitCoherent(c: Cache, rows: seq<Product>, key: string, v: Product)
    requires Coherent(c, rows) && key != [] && Resolve(rows, key) == Some(v)
    ensures Coherent(Admit(c, key, v), rows)
  {
    var grown := c + [(key, v)];
    assert Coherent(grown, rows);
  }

  /**
   * The cache is invisible: while the catalog does not change, a lookup through a coherent
   * cache returns what the catalog lookup alone returns for the trimmed key, and the cache
   * stays coherent.
   */
  lemma LookupStepTransparent(c: Cache, rows: seq<Product>, query: Value)
    requires Coherent(c, rows)
    ensures var key := Trim(OrText(query, ""));
            var r := LookupStep(c, Available(rows), query);
            && r.found == (if key == [] then None else Resolve(rows, key))
            && Coherent(r.cache, rows)
  {
    var key := Trim(OrText(query, ""));
    var r := LookupStep(c, Available(rows), query);
    if key != [] {
      if Get(c, key).Some? {
        GetCoherent(c, rows, key);
        TouchCoherent(c, rows, key, Get(c, key).value);
      } else if r.found.Some? {
        AdmitCoherent(c, rows, key, r.found.value);
      }
    }
  }

  /** The module-level `productCache` together with `findProductLocally`. */
  class ProductResolver {
    var cache: Cache

    constructor()
      ensures cache == []
    {
      cache := [];
    }

    ghost predicate Valid()
      reads this
    {
      ValidCache(cache)
    }

    /** One lookup, updating the cache in place. */
    method FindProductLocally(store: Store, query: Value) returns (found: Option<Product>)
      modifies this
      ensures Lookup(found, cache) == LookupStep(old(cache), store, query)
      ensures old(Valid()) ==> Valid()
    {
      if ValidCache(cache) {
        LookupStepValid(cache, store, query);
      }
      var key := Trim(OrText(query, ""));
      if key == [] {
        return None;
      }
      var cached := Get(cache, key);
      if cached.Some? {
        cache := Without(cache, key);
        cache := cache + [(key, cached.value)];
        assert cache == Touch(old(cache), key, cached.value);
        return cached;
      }
      if store.Failing? {
        return None;
      }
      found := Resolve(store.rows, key);
      if found.Some? {
        cache := cache + [(key, found.value)];
        if |cache| > ProductCacheLimit {
          cache := cache[1..];
        }
        assert cache == Admit(old(cache), key, found.value);
      }
    }
  }
}
