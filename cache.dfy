/** The cache-aside store shared by the gateway and copied into every service:
    `withCache(key, ttlSeconds, producer)` and `invalidate(keys)` over Redis.
    Redis is a map from key to the JSON value that was serialised into it;
    `ttlSeconds` is carried but has no effect because expiry is not modelled.
    The producer is represented by the value it would settle to: a JSON value
    or a rejection. */
module CacheAside {
  import opened Json

  type Entries = map<string, Json>

  /** The outcome of one `withCache` call: the store afterwards, what the call
      resolves or rejects with, and how many times the producer ran. */
  datatype Read = Read(entries: Entries, result: Result<Json>, calls: nat)

  /** `withCache`: a stored entry is parsed and returned; otherwise the producer
      runs, a value it yields is stored under `key`, and its outcome is passed on. */
  function WithCacheSpec(entries: Entries, key: string, produced: Result<Json>): (r: Read)
    ensures r.calls <= 1
    ensures r.entries.Keys == entries.Keys + (if r.result.Ok? then {key} else {})
    ensures forall k :: k in entries && k != key ==> k in r.entries && r.entries[k] == entries[k]
  {
    if key in entries then Read(entries, Ok(entries[key]), 0)
    else if produced.Ok? then Read(entries[key := produced.value], produced, 1)
    else Read(entries, produced, 1)
  }

  /** `invalidate(keys)`: every listed key is deleted; absent keys are skipped. */
  function Without(entries: Entries, keys: seq<string>): (r: Entries)
    ensures forall k :: k in keys ==> k !in r
    ensures forall k :: k in entries && k !in keys ==> k in r && r[k] == entries[k]
    ensures r.Keys <= entries.Keys
  {
    entries - (set k | k in keys)
  }

  // ---------------------------------------------------------------------------
  // Properties of the cache-aside protocol.

  /** A hit returns the stored value, never runs the producer, and writes nothing. */
  lemma HitServesStored(entries: Entries, key: string, produced: Result<Json>)
    requires key in entries
    ensures WithCacheSpec(entries, key, produced) == Read(entries, Ok(entries[key]), 0)
  {
  }

  /** A miss runs the producer exactly once; a value it yields is stored verbatim
      and returned, whatever its shape (a not-found or fallback body included). */
  lemma MissStoresProduced(entries: Entries, key: string, v: Json)
    requires key !in entries
    ensures WithCacheSpec(entries, key, Ok(v)) == Read(entries[key := v], Ok(v), 1)
  {
  }

  /** A producer that rejects writes nothing, and the rejection propagates. */
  lemma FailureWritesNothing(entries: Entries, key: string, f: Fault)
    requires key !in entries
    ensures WithCacheSpec(entries, key, Err(f)) == Read(entries, Err(f), 1)
  {
  }

  /** Two consecutive reads of one key run the producer at most once between
      them, and the second returns what the first did whenever the first succeeded. */
  lemma {:induction false} AtMostOneProducerCall(entries: Entries, key: string, first: Result<Json>, second: Result<Json>)
    ensures var r1 := WithCacheSpec(entries, key, first);
            var r2 := WithCacheSpec(r1.entries, key, second);
            r1.calls + r2.calls <= 1 || (r1.result.Err? && r2.calls == 1)
    ensures var r1 := WithCacheSpec(entries, key, first);
            var r2 := WithCacheSpec(r1.entries, key, second);
            r1.result.Ok? ==> r2.calls == 0 && r2.result == r1.result && r2.entries == r1.entries
  {
  }

  /** Deleting a set of keys is idempotent. */
  lemma InvalidateIdempotent(entries: Entries, keys: seq<string>)
    ensures Without(Without(entries, keys), keys) == Without(entries, keys)
  {
  }

  /** Deleting keys none of which is stored changes nothing. */
  lemma InvalidateAbsentIsNoOp(entries: Entries, keys: seq<string>)
    requires forall k :: k in keys ==> k !in entries
    ensures Without(entries, keys) == entries
  {
  }

  /** The order of the deletions and their repetition do not matter. */
  lemma InvalidateOrderIrrelevant(entries: Entries, keys: seq<string>, other: seq<string>)
    requires forall k :: k in keys <==> k in other
    ensures Without(entries, keys) == Without(entries, other)
  {
    assert (set k | k in keys) == (set k | k in other);
  }

  /** Invalidating twice is invalidating once with both lists. */
  lemma InvalidateCompose(entries: Entries, keys: seq<string>, more: seq<string>)
    ensures Without(Without(entries, keys), more) == Without(entries, keys + more)
  {
    assert (set k | k in keys + more) == (set k | k in keys) + (set k | k in more);
  }

  /** After `key` is invalidated, the next read is a miss that runs the producer. */
  lemma ReadAfterInvalidateMisses(entries: Entries, keys: seq<string>, key: string, produced: Result<Json>)
    requires key in keys
    ensures WithCacheSpec(Without(entries, keys), key, produced).calls == 1
    ensures WithCacheSpec(Without(entries, keys), key, produced).result == produced
  {
  }

  /** A cached entry that no invalidation names is still served, without a producer call. */
  lemma ReadOfUntouchedKeyHits(entries: Entries, keys: seq<string>, key: string, produced: Result<Json>)
    requires key in entries && key !in keys
    ensures WithCacheSpec(Without(entries, keys), key, produced) == Read(Without(entries, keys), Ok(entries[key]), 0)
  {
  }

  // ---------------------------------------------------------------------------
  // The store itself: Redis as seen through one client connection.

  class Cache {
    var entries: Entries

    constructor ()
      ensures entries == map[]
    {
      entries := map[];
    }

    /** `withCache(key, ttlSeconds, producer)`; `calls` counts producer runs. */
    method WithCache(key: string, ttlSeconds: int, produced: Result<Json>) returns (result: Result<Json>, calls: nat)
      modifies this
      ensures var r := WithCacheSpec(old(entries), key, produced);
              entries == r.entries && result == r.result && calls == r.calls
    {
      if key in entries {
        return Ok(entries[key]), 0;
      }
      calls := 1;
      result := produced;
      if produced.Ok? {
        entries := entries[key := produced.value];
      }
    }

    /** `invalidate(keys)`: one `del` per listed key. */
    method Invalidate(keys: seq<string>)
      modifies this
      ensures entries == Without(old(entries), keys)
    {
      var i := 0;
      while i < |keys|
        invariant 0 <= i <= |keys|
        invariant entries.Keys <= old(entries).Keys
        invariant forall k :: k in keys[..i] ==> k !in entries
        invariant forall k :: k in old(entries) && k !in keys[..i] ==> k in entries && entries[k] == old(entries)[k]
      {
        assert keys[..i + 1] == keys[..i] + [keys[i]];
        entries := entries - {keys[i]};
        i := i + 1;
      }
      assert keys[..i] == keys;
      ghost var spec := Without(old(entries), keys);
      assert entries.Keys == spec.Keys;
    }
  }
}
