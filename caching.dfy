/**
 * 65_caching_strategies.py: the value of expensive_function and the manual
 * memoisation of cached_function in the module-level `cache` dict. The
 * `lru_cache` bookkeeping and `cache_info()` are left out.
 */
module Caching {
  import Recursion
  import Generators
  import Profiling

  /** expensive_function(n): `sum(i ** 2 for i in range(n))`. */
  function ExpensiveFunction(n: int): int
  {
    Recursion.SumList(Generators.GetSquaresGen(n))
  }

  /** The generator sum is the sum of the squares below n, with its closed form. */
  lemma {:induction false} ExpensiveFunctionValue(n: nat)
    ensures ExpensiveFunction(n) == Profiling.SumOfSquares(n)
    ensures 6 * ExpensiveFunction(n) == (n - 1) * n * (2 * n - 1)
  {
    if n > 0 {
      ExpensiveFunctionValue(n - 1);
      assert Generators.GetSquaresGen(n) == Generators.GetSquaresGen(n - 1) + [(n - 1) * (n - 1)];
      Recursion.SumListSnoc(Generators.GetSquaresGen(n - 1), (n - 1) * (n - 1));
    }
    Profiling.SumOfSquaresFormula(n);
  }

  /** The demo value: expensive_function(1000) is 332833500. */
  lemma ExpensiveFunctionDemo()
    ensures ExpensiveFunction(1000) == 332833500
  {
    ExpensiveFunctionValue(1000);
  }

  /** The module-level `cache = {}` that cached_function fills. */
  class Cache {
    var entries: map<int, int>

    constructor ()
      ensures entries == map[]
    {
      entries := map[];
    }

    /** cached_function(key): key ** 2, stored under key on the first call and read back after. */
    method CachedFunction(key: int) returns (r: int)
      modifies this
      ensures key in old(entries) ==> entries == old(entries) && r == old(entries)[key]
      ensures key !in old(entries) ==> entries == old(entries)[key := key * key] && r == key * key
    {
      if key !in entries {
        entries := entries[key := key * key];
      }
      r := entries[key];
    }
  }

  /** Every entry the function writes is the square of its key. */
  ghost predicate Squares(entries: map<int, int>)
  {
    forall k :: k in entries ==> entries[k] == k * k
  }

  /**
   * On a cache holding only squares the call returns key ** 2, stores it,
   * keeps the others, and keeps the cache a cache of squares.
   */
  method CachedSquare(cache: Cache, key: int) returns (r: int)
    requires Squares(cache.entries)
    modifies cache
    ensures r == key * key
    ensures Squares(cache.entries)
    ensures key in cache.entries && cache.entries[key] == key * key
    ensures cache.entries.Keys == old(cache.entries.Keys) + {key}
    ensures forall k :: k in old(cache.entries) && k != key ==> cache.entries[k] == old(cache.entries)[k]
  {
    r := cache.CachedFunction(key);
  }

  /** Calling again with the same key changes nothing and returns the same value. */
  method CachedTwice(cache: Cache, key: int) returns (first: int, second: int)
    modifies cache
    ensures first == second
    ensures cache.entries == old(cache.entries)[key := first]
  {
    first := cache.CachedFunction(key);
    var between := cache.entries;
    second := cache.CachedFunction(key);
    assert cache.entries == between;
  }

  /** The demo: from an empty cache, cached_function(5) is 25 and the cache has one entry. */
  method CachingDemo() returns (r: int, size: int)
    ensures r == 25 && size == 1
  {
    var cache := new Cache();
    r := cache.CachedFunction(5);
    size := |cache.entries|;
  }
}
