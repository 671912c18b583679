/**
 * The scenarios of the unit tests in src/cache.rs, written as clients of the
 * cache: each assertion follows from the operations' contracts alone.
 * A pause of the test thread becomes a later clock reading.
 */
module CacheScenarios {
  import opened CacheOptions
  import opened TtlCache

  method ValueUndefined<T>(key: string, now: nat)
  {
    var cache := new Cache<T>(1000);
    assert cache.Get(key, now).IsUndefined();
  }

  method ValueEmpty<T>(key: string, now: nat)
  {
    var cache := new Cache<T>(1000);
    cache.Create(key);
    assert cache.Get(key, now).IsEmpty();
  }

  method ValueMatch<T>(key: string, value: T, written: nat, read: nat)
    requires written <= read <= written + 1000
  {
    var cache := new Cache<T>(1000);
    cache.Create(key);
    cache.Update(key, value, written);
    assert cache.Get(key, read).IsValue();
    assert cache.Get(key, read).Unwrap() == value;
  }

  method ValueExpired<T>(key: string, value: T, written: nat)
  {
    var cache := new Cache<T>(0);
    cache.Create(key);
    cache.Update(key, value, written);
    assert cache.Get(key, written + 1).IsExpired();
  }

  method ValueUnwrapOr<T>(key: string, default: T, now: nat)
  {
    var cache := new Cache<T>(5);
    cache.Create(key);
    assert cache.Get(key, now).UnwrapOr(default) == default;
  }

  method ValueRemove<T>(key: string, value: T, written: nat, read: nat)
  {
    var cache := new Cache<T>(1000);
    cache.Create(key);
    cache.Update(key, value, written);
    var removed := cache.Remove(key);
    assert removed.Some? && removed.value.Some?;
    assert cache.Get(key, read).IsUndefined();
  }

  method ValueClean<T>(key: string, value: T, written: nat, read: nat, rewritten: nat)
  {
    var cache := new Cache<T>(1000);
    cache.Create(key);
    cache.Update(key, value, written);
    cache.Clean(key);
    assert cache.Get(key, read).IsEmpty();
    cache.Update(key, value, rewritten);
    assert cache.Get(key, rewritten).Unwrap() == value;
  }

  method UpdateWithoutCreate<T>(key: string, value: T, written: nat, read: nat)
  {
    var cache := new Cache<T>(1000);
    cache.Update(key, value, written);
    assert cache.Get(key, read).IsEmpty();
  }
}
