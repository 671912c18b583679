# TTL cache model

A Dafny model of the generic time-to-live key/value cache of `src/cache.rs`.

- `CacheOption<T>` (module `CacheOptions`, file `cache_option.dfy`) is the four-way result of a read: `Value(v)`, `Empty`, `Undefined` or `Expired`, with `Unwrap`, `UnwrapOr` and the four variant predicates.
- `CacheValue<T>` (module `TtlCache`, file `cache.dfy`) pairs a payload with the absolute instant `ttlTimestamp` up to which it is fresh. `CacheValue.New` stamps a value written at `now` with `ttl + now`.
- `Cache<T>` (class in `TtlCache`) holds `items: map<string, Option<CacheValue<T>>>` and a fixed `ttl`. A key that is absent was never declared. A key mapped to `None` is declared and empty. A key mapped to `Some(cv)` holds a timestamped value. `Create`, `Update`, `Remove` and `Clean` change `items` in place. `Get` reads it without changing it.
- Each state-changing method is specified by the pure transition `Apply(items, ttl, op)` over an `Op` (one constructor per method). `Run` folds a whole history of operations. `Lookup` is the read classification that `Get` uses.
- `CacheLaws` (file `cache_laws.dfy`) proves laws over whole histories. Keys that no operation names keep their slot. Without removals, declared keys stay declared. When all writes fall within an interval of instants, all stored timestamps fall within that interval shifted by `ttl`, so reads no later than `ttl` after the earliest write never see `Expired`, and reads more than `ttl` after the latest write never see a value. An update of a declared key decides every later read of it until another operation names that key.
- `CacheScenarios` (file `cache_tests.dfy`) restates the unit tests of `src/cache.rs` as clients of the class. Their assertions follow from the method contracts alone.

The clock is an explicit `now: nat` argument to `Update` and `Get`. At the boundary, a read at exactly `ttlTimestamp` still gives `Value`.

On an undeclared key, `update` (src/cache.rs:105-111) only calls `create` and drops the value, so a later `Get` gives `Empty`; see `TtlCache.Cache.Update` and the scenario `UpdateWithoutCreate`.

## Model

| member | source | states |
|---|---|---|
| `CacheOptions.CacheOption.Unwrap` | src/cache.rs:25-31 | defined only on `Value`; the result is the payload, i.e. `Value(Unwrap())` is the outcome itself |
| `CacheOptions.CacheOption.UnwrapOr` | src/cache.rs:33-39 | on `Value(v)` gives `v`; on `Empty`, `Undefined` and `Expired` gives the default |
| `CacheOptions.ExactlyOneVariant` | src/cache.rs:41-67 | exactly one of `IsValue`, `IsEmpty`, `IsUndefined`, `IsExpired` holds, each for its own variant only |
| `TtlCache.CacheValue.New` | src/cache.rs:76-81 | keeps the payload; the new value is fresh at exactly the instants up to `ttl + now` |
| `TtlCache.Cache.constructor` | src/cache.rs:94-99 | stores `ttl` as given; no key is declared, every read is `Undefined` |
| `TtlCache.Cache.Create` | src/cache.rs:101-103 | the key's slot becomes empty whether or not it existed or held a value; every read of it is `Empty`; reads of other keys are unchanged |
| `TtlCache.Cache.Update` | src/cache.rs:105-111 | on a declared key, reads at `t <= ttl + now` give `Value(value)` and later reads give `Expired`; on an undeclared key the key becomes declared and empty and the value is not stored; other keys are unchanged |
| `TtlCache.Cache.Get` | src/cache.rs:113-127 | `Undefined` iff the key is absent, `Empty` iff its slot is empty, `Value` of the stored payload iff its timestamp is `>= now`, `Expired` iff it is `< now`; reads only |
| `TtlCache.Cache.Remove` | src/cache.rs:129-131 | returns the former slot, or `None` for an undeclared key; afterwards every read of the key is `Undefined`; other keys are unchanged |
| `TtlCache.Cache.Clean` | src/cache.rs:133-137 | a declared key becomes empty and reads as `Empty`; an undeclared key is left undeclared and the map is unchanged; other keys are unchanged |
| `CacheLaws.RunAppend` | src/cache.rs:101-137 | the operations compose sequentially: a history split in two runs as its two halves in turn |
| `CacheLaws.RunFrame` | src/cache.rs:101-137 | a key that no operation of a history names keeps its slot, so every read of it is unchanged |
| `CacheLaws.RunKeepsDeclared` | src/cache.rs:101-137 | only removal undeclares a key: without removals, declared keys stay declared and never read as `Undefined` |
| `CacheLaws.RunStampsWithin` | src/cache.rs:105-107 | writes within `[lo, hi]` keep all timestamps within `[ttl + lo, ttl + hi]` |
| `CacheLaws.NoValueAfterTtl` | src/cache.rs:189-198 | a read more than `ttl` after the last write never yields a value (with `ttl = 0`, any strictly later read) |
| `CacheLaws.NothingExpiredWithinTtl` | src/cache.rs:113-122 | a read no later than `ttl` after the first write never yields `Expired` |
| `CacheLaws.LastWriteWins` | src/cache.rs:105-122 | after an update of a declared key, and whatever happens to other keys, reads up to `ttl` later give the written value and later reads give `Expired` |
| `CacheLaws.ReadsAgeMonotonically` | src/cache.rs:117-121 | expiry is decided lazily at read time: an expired value stays expired at later reads, and a value read fresh was fresh at every earlier read |
| `CacheLaws.CreateIdempotent` | src/cache.rs:101-103 | declaring a key twice in a row has the effect of declaring it once |

## Left out

- `runtime/src/http_server.rs`, the HTTP listener, is not part of this model: it is network I/O over a foreign server library and holds no cache logic.
- `time_now` (src/cache.rs:7-14) and its "Time went backwards" panic: the clock is an explicit `now: nat` argument.
- The `u128` width of timestamps and `ttl`, and the possible overflow of `ttl + time_now()`: both are unbounded naturals.
- Rust ownership: the source's `get` consumes the cache; here `Get` is a read-only function and the cache stays usable.
- The `Default`, `Debug`, `PartialEq` and `Clone` bounds on `T`: `T` is an unconstrained type parameter and a read returns the payload value itself.
- The panic of `unwrap` on a non-`Value` outcome: `Unwrap` requires `IsValue()`, so a misuse is rejected by the verifier instead of aborting at run time.
- Concurrency: the cache is single-owner, as in the source.
- The test harness's one-millisecond `sleep`: the scenarios read with a strictly larger `now` instead.
