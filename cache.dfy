/**
 * A time-to-live key/value cache (src/cache.rs, `CacheValue<T>` and `Cache<T>`).
 *
 * A key is in one of three states: absent from `items` (never declared),
 * mapped to `None` (declared, empty) or mapped to `Some(cv)` (holding a value
 * stamped with its absolute expiry time). The wall clock is an explicit
 * `now` argument, and timestamps are unbounded naturals.
 */
module TtlCache {
  import opened Wrappers
  import opened CacheOptions

  /** A payload together with the absolute instant up to which it is fresh. */
  datatype CacheValue<T> = CacheValue(value: T, ttlTimestamp: nat)
  {
    /** A read at instant `now` sees the value as fresh: the boundary instant itself still counts. */
    predicate IsFreshAt(now: nat)
    {
      ttlTimestamp >= now
    }

    /** The value `value` written at instant `now` into a cache whose time-to-live is `ttl`. */
    static function New(value: T, ttl: nat, now: nat): (cv: CacheValue<T>)
      ensures cv.value == value
      ensures forall t: nat {:trigger cv.IsFreshAt(t)} :: cv.IsFreshAt(t) <==> t <= ttl + now
    {
      CacheValue(value, ttl + now)
    }
  }

  /** The slot of each key: absent, `None` or `Some`. */
  type Items<T> = map<string, Option<CacheValue<T>>>

  /** The state-changing operations of the cache, with the clock reading an update takes. */
  datatype Op<T> =
    | Create(key: string)
    | Update(key: string, value: T, now: nat)
    | Remove(key: string)
    | Clean(key: string)
  {
    function Key(): string
    {
      match this
      case Create(k) => k
      case Update(k, _, _) => k
      case Remove(k) => k
      case Clean(k) => k
    }
  }

  /** The slot map after `op`, in a cache whose time-to-live is `ttl`. */
  function Apply<T>(items: Items<T>, ttl: nat, op: Op<T>): Items<T>
  {
    match op
    case Create(key) => items[key := None]
    case Update(key, value, now) =>
      if key in items then items[key := Some(CacheValue.New(value, ttl, now))]
      // an undeclared key is only declared: the value is dropped
      else items[key := None]
    case Remove(key) => items - {key}
    case Clean(key) => if key in items then items[key := None] else items
  }

  /** The slot map after the operations of `ops`, in order. */
  function Run<T>(items: Items<T>, ttl: nat, ops: seq<Op<T>>): Items<T>
    decreases |ops|
  {
    if ops == [] then items else Run(Apply(items, ttl, ops[0]), ttl, ops[1..])
  }

  /** The classification of `key` by a read at instant `now`. */
  function Lookup<T>(items: Items<T>, key: string, now: nat): CacheOption<T>
  {
    if key !in items then Undefined
    else match items[key]
      case None => Empty
      case Some(cv) => if cv.IsFreshAt(now) then Value(cv.value) else Expired
  }

  class Cache<T> {
    var items: Items<T>
    const ttl: nat

    /** An empty cache: every key is undeclared. */
    constructor (ttl: nat)
      ensures this.ttl == ttl
      ensures items == map[]
      ensures forall key, now :: Get(key, now) == Undefined
    {
      this.ttl := ttl;
      items := map[];
    }

    /** Declares `key`, resetting it to empty even when it already holds a value. */
    method Create(key: string)
      modifies this
      ensures items == Apply(old(items), ttl, Op.Create(key))
      ensures forall now :: Get(key, now) == Empty
      ensures forall k, now :: k != key ==> Get(k, now) == old(Get(k, now))
    {
      items := items[key := None];
    }

    /**
     * Stores `value` under a declared `key`, fresh up to `ttl + now`;
     * an undeclared `key` is declared and the value is not stored.
     */
    method Update(key: string, value: T, now: nat)
      modifies this
      ensures items == Apply(old(items), ttl, Op.Update(key, value, now))
      ensures key in old(items) ==> forall t: nat :: t <= ttl + now ==> Get(key, t) == Value(value)
      ensures key in old(items) ==> forall t: nat :: t > ttl + now ==> Get(key, t) == Expired
      ensures key !in old(items) ==> forall t :: Get(key, t) == Empty
      ensures forall k, t :: k != key ==> Get(k, t) == old(Get(k, t))
    {
      if key in items {
        items := items[key := Some(CacheValue.New(value, ttl, now))];
      } else {
        Create(key);
      }
    }

    /** The outcome of reading `key` at instant `now`; nothing changes. */
    function Get(key: string, now: nat): (r: CacheOption<T>)
      reads this
      ensures r.Undefined? <==> key !in items
      ensures r.Empty? <==> key in items && items[key].None?
      ensures r.Value? <==> key in items && items[key].Some? && items[key].value.ttlTimestamp >= now
      ensures r.Expired? <==> key in items && items[key].Some? && items[key].value.ttlTimestamp < now
      ensures r.Value? ==> r.value == items[key].value.value
    {
      Lookup(items, key, now)
    }

    /** Deletes `key` and returns its former slot, or `None` when it was undeclared. */
    method Remove(key: string) returns (removed: Option<Option<CacheValue<T>>>)
      modifies this
      ensures items == Apply(old(items), ttl, Op.Remove(key))
      ensures removed == if key in old(items) then Some(old(items)[key]) else None
      ensures forall now :: Get(key, now) == Undefined
      ensures forall k, now :: k != key ==> Get(k, now) == old(Get(k, now))
    {
      removed := if key in items then Some(items[key]) else None;
      items := items - {key};
    }

    /** Resets a declared `key` to empty; an undeclared `key` stays undeclared. */
    method Clean(key: string)
      modifies this
      ensures items == Apply(old(items), ttl, Op.Clean(key))
      ensures key in old(items) ==> forall now :: Get(key, now) == Empty
      ensures key !in old(items) ==> items == old(items)
      ensures forall k, now :: k != key ==> Get(k, now) == old(Get(k, now))
    {
      if key in items {
        items := items[key := None];
      }
    }
  }
}
