/**
 * Laws of the cache over whole sequences of operations: what a read sees
 * after a history of creates, updates, removals and cleans.
 */
module CacheLaws {
  import opened CacheOptions
  import opened TtlCache

  /** No operation of `ops` names `key`. */
  predicate Untouched<T>(ops: seq<Op<T>>, key: string)
  {
    forall i :: 0 <= i < |ops| ==> ops[i].Key() != key
  }

  /** No operation of `ops` is a removal. */
  predicate NoRemoval<T>(ops: seq<Op<T>>)
  {
    forall i :: 0 <= i < |ops| ==> !ops[i].Remove?
  }

  /** Every update of `ops` reads the clock at an instant within `[lo, hi]`. */
  predicate WritesWithin<T>(ops: seq<Op<T>>, lo: nat, hi: nat)
  {
    forall i :: 0 <= i < |ops| && ops[i].Update? ==> lo <= ops[i].now <= hi
  }

  /** Every stored expiry timestamp lies within `[lo, hi]`. */
  predicate StampsWithin<T>(items: Items<T>, lo: nat, hi: nat)
  {
    forall k :: k in items && items[k].Some? ==> lo <= items[k].value.ttlTimestamp <= hi
  }

  /** Running two histories one after the other is running their concatenation. */
  lemma {:induction false} RunAppend<T>(items: Items<T>, ttl: nat, a: seq<Op<T>>, b: seq<Op<T>>)
    ensures Run(items, ttl, a + b) == Run(Run(items, ttl, a), ttl, b)
    decreases |a|
  {
    if a == [] {
      assert a + b == b;
    } else {
      assert (a + b)[0] == a[0];
      assert (a + b)[1..] == a[1..] + b;
      RunAppend(Apply(items, ttl, a[0]), ttl, a[1..], b);
    }
  }

  /** A key that no operation names keeps its slot, and so every read of it is unchanged. */
  lemma {:induction false} RunFrame<T>(items: Items<T>, ttl: nat, ops: seq<Op<T>>, key: string)
    requires Untouched(ops, key)
    ensures key in Run(items, ttl, ops) <==> key in items
    ensures key in items ==> Run(items, ttl, ops)[key] == items[key]
    ensures forall now :: Lookup(Run(items, ttl, ops), key, now) == Lookup(items, key, now)
    decreases |ops|
  {
    if ops != [] {
      assert ops[0].Key() != key;
      assert Untouched(ops[1..], key) by {
        forall i | 0 <= i < |ops| - 1 ensures ops[1..][i].Key() != key {
          assert ops[1..][i] == ops[i + 1];
        }
      }
      RunFrame(Apply(items, ttl, ops[0]), ttl, ops[1..], key);
    }
  }

  /** Without removals a declared key stays declared: a read of it is never `Undefined`. */
  lemma {:induction false} RunKeepsDeclared<T>(items: Items<T>, ttl: nat, ops: seq<Op<T>>)
    requires NoRemoval(ops)
    ensures items.Keys <= Run(items, ttl, ops).Keys
    ensures forall key, now :: key in items ==> !Lookup(Run(items, ttl, ops), key, now).Undefined?
    decreases |ops|
  {
    if ops != [] {
      assert !ops[0].Remove?;
      assert NoRemoval(ops[1..]) by {
        forall i | 0 <= i < |ops| - 1 ensures !ops[1..][i].Remove? {
          assert ops[1..][i] == ops[i + 1];
        }
      }
      RunKeepsDeclared(Apply(items, ttl, ops[0]), ttl, ops[1..]);
    }
  }

  /**
   * Every expiry timestamp is a write instant plus `ttl`: when all writes fall
   * within `[lo, hi]`, so do all stored timestamps, shifted by `ttl`.
   */
  lemma {:induction false} RunStampsWithin<T>(items: Items<T>, ttl: nat, ops: seq<Op<T>>, lo: nat, hi: nat)
    requires StampsWithin(items, ttl + lo, ttl + hi)
    requires WritesWithin(ops, lo, hi)
    ensures StampsWithin(Run(items, ttl, ops), ttl + lo, ttl + hi)
    decreases |ops|
  {
    if ops != [] {
      assert ops[0].Update? ==> lo <= ops[0].now <= hi;
      assert WritesWithin(ops[1..], lo, hi) by {
        forall i | 0 <= i < |ops| - 1 && ops[1..][i].Update? ensures lo <= ops[1..][i].now <= hi {
          assert ops[1..][i] == ops[i + 1];
        }
      }
      RunStampsWithin(Apply(items, ttl, ops[0]), ttl, ops[1..], lo, hi);
    }
  }

  /**
   * A read made more than `ttl` after the last write never yields a value; in
   * particular, with `ttl == 0` every read strictly after the last write does not.
   */
  lemma NoValueAfterTtl<T>(ttl: nat, ops: seq<Op<T>>, last: nat, key: string, now: nat)
    requires WritesWithin(ops, 0, last)
    requires now > ttl + last
    ensures !Lookup(Run(map[], ttl, ops), key, now).Value?
  {
    RunStampsWithin(map[], ttl, ops, 0, last);
  }

  /** A read no later than `ttl` after the first write never finds an expired value. */
  lemma NothingExpiredWithinTtl<T>(ttl: nat, ops: seq<Op<T>>, first: nat, last: nat, key: string, now: nat)
    requires WritesWithin(ops, first, last)
    requires now <= ttl + first
    ensures !Lookup(Run(map[], ttl, ops), key, now).Expired?
  {
    RunStampsWithin(map[], ttl, ops, first, last);
  }

  /**
   * The last update of a declared key decides what reads see: up to `ttl`
   * after it the written value, later `Expired`, whatever other keys went through.
   */
  lemma LastWriteWins<T>(items: Items<T>, ttl: nat, before: seq<Op<T>>, value: T, at: nat,
                         after: seq<Op<T>>, key: string, now: nat)
    requires key in Run(items, ttl, before)
    requires Untouched(after, key)
    ensures now <= ttl + at ==>
      Lookup(Run(items, ttl, before + [Update(key, value, at)] + after), key, now) == Value(value)
    ensures now > ttl + at ==>
      Lookup(Run(items, ttl, before + [Update(key, value, at)] + after), key, now) == Expired
  {
    var written := Run(items, ttl, before + [Update(key, value, at)]);
    RunAppend(items, ttl, before, [Update(key, value, at)]);
    RunAppend(items, ttl, before + [Update(key, value, at)], after);
    RunFrame(written, ttl, after, key);
    assert written == Apply(Run(items, ttl, before), ttl, Update(key, value, at));
  }

  /** Once a value has expired it stays expired, and a value seen fresh was fresh at every earlier read. */
  lemma ReadsAgeMonotonically<T>(items: Items<T>, key: string, earlier: nat, later: nat)
    requires earlier <= later
    ensures Lookup(items, key, earlier).Expired? ==> Lookup(items, key, later).Expired?
    ensures Lookup(items, key, later).Value? ==> Lookup(items, key, earlier) == Lookup(items, key, later)
  {
  }

  /** Declaring a key twice in a row is the same as declaring it once. */
  lemma CreateIdempotent<T>(items: Items<T>, ttl: nat, key: string)
    ensures Apply(Apply(items, ttl, Create(key)), ttl, Create(key)) == Apply(items, ttl, Create(key))
  {
  }
}
