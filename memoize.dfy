/**
 * `memoize` from lib/performance.ts: a wrapper with a cache keyed by the JSON
 * encoding of the argument list. The encoding is the parameter `key`; the
 * wrapped function is a Dafny function, so it is deterministic.
 */
module Memoize {

  /** The closure `memoize(func)` returns, with its cache. */
  class Memo<A(!new), R> {
    const func: A -> R
    const key: A -> string
    var cache: map<string, R>

    /** Every cached value is what `func` gives for any argument list with that key. */
    ghost predicate Valid()
      reads this
    {
      forall a :: key(a) in cache ==> cache[key(a)] == func(a)
    }

    /** Argument lists with equal encodings get equal results: no encoding collision matters. */
    ghost predicate KeyDeterminesResult() {
      forall a, b :: key(a) == key(b) ==> func(a) == func(b)
    }

    constructor(func: A -> R, key: A -> string)
      ensures this.func == func && this.key == key
      ensures cache == map[]
      ensures Valid()
    {
      this.func := func;
      this.key := key;
      cache := map[];
    }

    /**
     * One call of the memoized function. A cached key answers from the cache
     * without calling `func`; a new key calls `func` once and stores its result.
     * Nothing already cached is removed or overwritten. Without encoding
     * collisions every call answers what `func` answers.
     */
    method Call(args: A) returns (r: R, called: bool)
      modifies this
      ensures called <==> key(args) !in old(cache)
      ensures !called ==> r == old(cache)[key(args)] && cache == old(cache)
      ensures called ==> r == func(args) && cache == old(cache)[key(args) := r]
      ensures old(cache).Keys <= cache.Keys
      ensures forall k :: k in old(cache) ==> k in cache && cache[k] == old(cache)[k]
      ensures old(Valid()) && KeyDeterminesResult() ==> Valid() && r == func(args)
    {
      var k := key(args);
      if k in cache {
        return cache[k], false;
      }
      r := func(args);
      cache := cache[k := r];
      called := true;
    }
  }
}
