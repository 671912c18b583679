/**
 * The four-way result of a cache lookup (src/cache.rs, `CacheOption<T>`):
 * a fresh value, a declared but empty key, a key that was never declared,
 * or a key whose stored value has outlived its time-to-live.
 */
module CacheOptions {

  datatype CacheOption<T> = Value(value: T) | Empty | Undefined | Expired
  {
    /** The payload of a `Value`; on any other outcome the source panics, so it is excluded here. */
    function Unwrap(): (v: T)
      requires IsValue()
      ensures this == Value(v)
    {
      value
    }

    /** The payload of a `Value`, and `default` for every outcome that carries no usable value. */
    function UnwrapOr(default: T): (v: T)
      ensures IsValue() ==> this == Value(v)
      ensures !IsValue() ==> v == default
    {
      if Value? then value else default
    }

    predicate IsValue() { Value? }

    predicate IsEmpty() { Empty? }

    predicate IsUndefined() { Undefined? }

    predicate IsExpired() { Expired? }

    /** How many of the four variant predicates hold; exactly one is meant to. */
    function CountTrue(): nat
    {
      (if IsValue() then 1 else 0) + (if IsEmpty() then 1 else 0)
      + (if IsUndefined() then 1 else 0) + (if IsExpired() then 1 else 0)
    }
  }

  /** Exactly one of the four predicates holds, and each holds for its own variant only. */
  lemma ExactlyOneVariant<T>(o: CacheOption<T>)
    ensures o.CountTrue() == 1
    ensures o.IsValue() <==> o.Value?
    ensures o.IsEmpty() <==> o == Empty
    ensures o.IsUndefined() <==> o == Undefined
    ensures o.IsExpired() <==> o == Expired
  {
  }
}
