/**
 * The producer cache: Guava's `Cache<Properties, Producer>` as the manager
 * builds it (a removal listener that closes the producer, a maximum size and
 * access expiry), reduced to what the manager can observe. Producers are
 * opaque ids; `closeCalls` records every `close()` the removal listener makes.
 * Guava decides which entry to evict and when an idle entry expires; the
 * model lets the victim of a size eviction be any older entry, and takes
 * expiry as the removal of any one cached key at any time.
 */
module ProducerCaching {
  import opened Wrappers
  import opened ProducerProperties

  /** An opaque producer: distinct `new KafkaProducer` calls give distinct ids. */
  type ProducerId = nat

  /** What a thrown exception is, as Guava's `get(key, loader)` classifies it. */
  datatype ExceptionKind = Checked | Unchecked | JvmError

  /** What the loader (the producer factory) does when it is called. */
  datatype LoadOutcome =
    | Created(producer: ProducerId)
    | ReturnedNull
    | Threw(kind: ExceptionKind, cause: string)

  /** The exception `get(key, loader)` throws when loading fails. */
  datatype LoadFailure =
    | ExecutionException(cause: string)
    | UncheckedExecutionException(cause: string)
    | ExecutionError(cause: string)
    | InvalidCacheLoadException

  /** The result of `get` on a miss: the loader's producer, or the loader's failure wrapped by kind. */
  function LoadResult(o: LoadOutcome): (r: Result<ProducerId, LoadFailure>)
    ensures r.Success? <==> o.Created?
    ensures o.Created? ==> r.value == o.producer
    ensures o.ReturnedNull? ==> r == Failure(InvalidCacheLoadException)
    ensures o.Threw? ==> r.Failure? && !r.error.InvalidCacheLoadException? && r.error.cause == o.cause
    ensures o.Threw? ==> (r.error.ExecutionException? <==> o.kind == Checked)
  {
    match o
    case Created(p) => Success(p)
    case ReturnedNull => Failure(InvalidCacheLoadException)
    case Threw(Checked, c) => Failure(ExecutionException(c))
    case Threw(Unchecked, c) => Failure(UncheckedExecutionException(c))
    case Threw(JvmError, c) => Failure(ExecutionError(c))
  }

  /** No producer is cached under two fingerprints. */
  ghost predicate Injective(m: map<Properties, ProducerId>) {
    forall k, k' :: k in m && k' in m && k != k' ==> m[k] != m[k']
  }

  /** No producer is closed twice. */
  ghost predicate Distinct(closeCalls: seq<ProducerId>) {
    forall i, j :: 0 <= i < j < |closeCalls| ==> closeCalls[i] != closeCalls[j]
  }

  /**
   * The cache's bookkeeping: no producer is closed twice, no cached producer
   * is closed, no producer is cached under two fingerprints, and every
   * created producer is either cached or closed (none leaks).
   */
  ghost predicate CacheInvariant(entries: map<Properties, ProducerId>, closeCalls: seq<ProducerId>, created: set<ProducerId>) {
    && Distinct(closeCalls)
    && entries.Values !! (set p | p in closeCalls)
    && Injective(entries)
    && created == entries.Values + (set p | p in closeCalls)
  }

  /** Caching a producer never created before keeps the invariant. */
  lemma InvariantAfterInsert(entries: map<Properties, ProducerId>, closeCalls: seq<ProducerId>, created: set<ProducerId>,
                             key: Properties, p: ProducerId)
    requires CacheInvariant(entries, closeCalls, created)
    requires key !in entries && p !in created
    ensures CacheInvariant(entries[key := p], closeCalls, created + {p})
  {
    var m' := entries[key := p];
    forall v | v in entries.Values
      ensures v in m'.Values
    {
      var k :| k in entries && entries[k] == v;
      assert m'[k] == v;
    }
    assert m'[key] == p;
    assert m'.Values == entries.Values + {p};
    forall k | k in entries
      ensures m'[k] != p
    {
      assert entries[k] in entries.Values;
    }
  }

  /** Removing an entry and closing its producer keeps the invariant. */
  lemma InvariantAfterRemove(entries: map<Properties, ProducerId>, closeCalls: seq<ProducerId>, created: set<ProducerId>,
                             key: Properties)
    requires CacheInvariant(entries, closeCalls, created)
    requires key in entries
    ensures CacheInvariant(entries - {key}, closeCalls + [entries[key]], created)
  {
    var m' := entries - {key};
    var p := entries[key];
    forall v | v in entries.Values && v != p
      ensures v in m'.Values
    {
      var k :| k in entries && entries[k] == v;
      assert m'[k] == v;
    }
    assert m'.Values == entries.Values - {p};
    assert p in entries.Values;
    assert (set q | q in closeCalls + [p]) == (set q | q in closeCalls) + {p};
  }

  /** Evicting an older entry after caching a new one is caching the new one in the map without the victim. */
  lemma EvictAfterInsert(m: map<Properties, ProducerId>, key: Properties, p: ProducerId, victim: Properties)
    requires victim != key
    ensures m[key := p] - {victim} == (m - {victim})[key := p]
  {
  }

  /** What `get(key, loader)` returns: the cached producer on a hit, the load's result on a miss. */
  function GetResult(entries: map<Properties, ProducerId>, key: Properties, loader: LoadOutcome): Result<ProducerId, LoadFailure> {
    if key in entries then Success(entries[key]) else LoadResult(loader)
  }

  /**
   * How `get(key, loader)` moves the cache from entries `e0`, close log `c0`,
   * loader-call count `n0` and created producers `g0` to `e1`, `c1`, `n1`, `g1`.
   * A hit changes nothing and calls no loader. A miss calls the loader once.
   * A failed load changes nothing else. A created producer is cached; when
   * the cache was full, exactly one older entry is evicted and its producer
   * closed, and with capacity zero the new producer itself is closed at once.
   */
  ghost predicate GetTransition(capacity: nat, key: Properties, loader: LoadOutcome,
                                e0: map<Properties, ProducerId>, c0: seq<ProducerId>, n0: nat, g0: set<ProducerId>,
                                e1: map<Properties, ProducerId>, c1: seq<ProducerId>, n1: nat, g1: set<ProducerId>)
  {
    if key in e0 then
      e1 == e0 && c1 == c0 && n1 == n0 && g1 == g0
    else if !loader.Created? then
      e1 == e0 && c1 == c0 && n1 == n0 + 1 && g1 == g0
    else
      && n1 == n0 + 1
      && g1 == g0 + {loader.producer}
      && (|e0| < capacity ==> e1 == e0[key := loader.producer] && c1 == c0)
      && (|e0| == capacity > 0 ==>
            exists victim :: victim in e0 &&
              e1 == (e0 - {victim})[key := loader.producer] && c1 == c0 + [e0[victim]])
      && (capacity == 0 ==> e1 == map[] && c1 == c0 + [loader.producer])
  }

  /**
   * Consequences of one `get` on a cache within its capacity: it stays
   * within capacity, only appends to the close log, closes every producer
   * whose entry left, keeps a failed key absent, and (with a positive
   * capacity) caches a created producer under its key.
   */
  lemma GetTransitionFacts(capacity: nat, key: Properties, loader: LoadOutcome,
                           e0: map<Properties, ProducerId>, c0: seq<ProducerId>, n0: nat, g0: set<ProducerId>,
                           e1: map<Properties, ProducerId>, c1: seq<ProducerId>, n1: nat, g1: set<ProducerId>)
    requires |e0| <= capacity
    requires GetTransition(capacity, key, loader, e0, c0, n0, g0, e1, c1, n1, g1)
    ensures |e1| <= capacity && c0 <= c1
    ensures forall k :: k in e0 && k !in e1 ==> e0[k] in c1
    ensures key !in e0 && !loader.Created? ==> key !in e1
    ensures key !in e0 && loader.Created? && capacity > 0 ==> key in e1 && e1[key] == loader.producer
  {
    if key !in e0 && loader.Created? {
      if |e0| < capacity {
        assert |e1| == |e0| + 1;
      } else if capacity > 0 {
        var victim :| victim in e0 && e1 == (e0 - {victim})[key := loader.producer] && c1 == c0 + [e0[victim]];
        assert |e0 - {victim}| == |e0| - 1;
        forall k | k in e0 && k !in e1
          ensures e0[k] in c1
        {
          assert k == victim;
          assert c1[|c0|] == e0[victim];
        }
      }
    }
  }

  class ProducerCache {
    /** The maximum number of entries. */
    const capacity: nat
    /** The cached producers, keyed by fingerprint. */
    var entries: map<Properties, ProducerId>
    /** Every producer the removal listener has closed, in order. */
    var closeCalls: seq<ProducerId>
    /** How many times a loader has been called. */
    var loads: nat
    /** Every producer a loader has returned. */
    ghost var created: set<ProducerId>

    ghost predicate Consistent()
      reads this
    {
      CacheInvariant(entries, closeCalls, created)
    }

    ghost predicate Valid()
      reads this
    {
      Consistent() && |entries| <= capacity
    }

    constructor (capacity: nat)
      ensures Valid()
      ensures this.capacity == capacity
      ensures entries == map[] && closeCalls == [] && loads == 0 && created == {}
    {
      this.capacity := capacity;
      entries := map[];
      closeCalls := [];
      loads := 0;
      created := {};
    }

    /** Removal of one entry: the removal listener closes its producer. */
    method RemoveEntry(key: Properties)
      requires Consistent() && key in entries
      modifies this
      ensures Consistent()
      ensures entries == old(entries) - {key} && |entries| == |old(entries)| - 1
      ensures closeCalls == old(closeCalls) + [old(entries)[key]]
      ensures loads == old(loads) && created == old(created)
    {
      InvariantAfterRemove(entries, closeCalls, created, key);
      closeCalls := closeCalls + [entries[key]];
      entries := entries - {key};
    }

    /** Caching of a freshly created producer; the entry count may now exceed the capacity. */
    method Insert(key: Properties, producer: ProducerId)
      requires Consistent() && key !in entries && producer !in created
      modifies this
      ensures Consistent()
      ensures entries == old(entries)[key := producer] && |entries| == |old(entries)| + 1
      ensures closeCalls == old(closeCalls) && loads == old(loads)
      ensures created == old(created) + {producer}
    {
      InvariantAfterInsert(entries, closeCalls, created, key, producer);
      entries := entries[key := producer];
      created := created + {producer};
    }

    /**
     * `get(key, loader)`. A hit returns the cached producer and calls no
     * loader. A miss calls the loader once; a created producer is returned
     * and cached, and if the cache was full one older entry is evicted and
     * its producer closed (with capacity zero the new producer itself is
     * evicted at once); a failed load caches nothing.
     */
    method Get(key: Properties, loader: LoadOutcome) returns (r: Result<ProducerId, LoadFailure>)
      requires Valid()
      requires loader.Created? ==> loader.producer !in created
      modifies this
      ensures Valid()
      ensures r == GetResult(old(entries), key, loader)
      ensures GetTransition(capacity, key, loader, old(entries), old(closeCalls), old(loads), old(created),
                            entries, closeCalls, loads, created)
    {
      if key in entries {
        return Success(entries[key]);
      }
      loads := loads + 1;
      r := LoadResult(loader);
      if loader.Created? {
        var before := entries;
        Insert(key, loader.producer);
        if |entries| > capacity {
          if capacity == 0 {
            RemoveEntry(key);
          } else {
            assert |before| == capacity > 0;
            var victim :| victim in before;
            EvictAfterInsert(before, key, loader.producer, victim);
            RemoveEntry(victim);
          }
        }
      }
    }

    /**
     * A removal Guava decides on its own (idle expiry, or eviction ahead of
     * the size bound): a cached entry leaves the cache and its producer is
     * closed; a key that is not cached changes nothing.
     */
    method Expire(key: Properties)
      requires Valid()
      modifies this
      ensures Valid()
      ensures entries == old(entries) - {key}
      ensures key in old(entries) ==> closeCalls == old(closeCalls) + [old(entries)[key]]
      ensures key !in old(entries) ==> closeCalls == old(closeCalls)
      ensures loads == old(loads) && created == old(created)
    {
      if key in entries {
        RemoveEntry(key);
      }
    }
  }
}
