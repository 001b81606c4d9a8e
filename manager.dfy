/**
 * `KafkaProducerManager`: resolves its settings once, owns the producer
 * cache, and hands out a producer for a publish input, reusing the cached one
 * when the input's fingerprint is already cached.
 */
module Manager {
  import opened Wrappers
  import opened Configuration
  import opened Settings
  import opened ProducerProperties
  import opened ProducerCaching

  /** What `getProducer` throws. */
  datatype ProducerError =
    | NullProperty(key: string)                // `NullPointerException` from `Properties.put`
    | WrappedInRuntimeException(cause: string)  // `new RuntimeException(executionException)`
    | Propagated(failure: LoadFailure)          // an unchecked Guava exception, not caught

  /** The `catch (ExecutionException e)` of `getFromCache`: only checked failures are rewrapped. */
  function Rethrow(f: LoadFailure): (e: ProducerError)
    ensures e.WrappedInRuntimeException? <==> f.ExecutionException?
    ensures f.ExecutionException? ==> e.cause == f.cause
    ensures !f.ExecutionException? ==> e == Propagated(f)
  {
    match f
    case ExecutionException(c) => WrappedInRuntimeException(c)
    case _ => Propagated(f)
  }

  /** `getFromCache`'s result for a given result of the cache's `get`. */
  function Rethrown(r: Result<ProducerId, LoadFailure>): (r': Result<ProducerId, ProducerError>)
    ensures r'.Success? <==> r.Success?
    ensures r.Success? ==> r'.value == r.value
    ensures r.Failure? ==> r'.error == Rethrow(r.error)
  {
    match r
    case Success(p) => Success(p)
    case Failure(f) => Failure(Rethrow(f))
  }

  class KafkaProducerManager {
    const settings: ManagerSettings
    const cache: ProducerCache

    ghost predicate Valid()
      reads this, cache
    {
      && CacheBuildError(settings).None?
      && cache.Valid()
      && cache.capacity == EffectiveCapacity(settings)
    }

    /** The constructor, for a configuration whose cache settings Guava accepts. */
    constructor (conf: Config)
      requires CacheBuildError(ResolveSettings(conf)).None?
      ensures Valid() && fresh(cache)
      ensures settings == ResolveSettings(conf)
      ensures cache.entries == map[] && cache.closeCalls == [] && cache.loads == 0 && cache.created == {}
    {
      settings := ResolveSettings(conf);
      cache := new ProducerCache(EffectiveCapacity(ResolveSettings(conf)));
    }

    /** `new KafkaProducerManager(configuration)`: fails with Guava's `IllegalArgumentException` on a negative cache setting. */
    static method Create(conf: Config) returns (r: Result<KafkaProducerManager, BuildError>)
      ensures r.Failure? <==> CacheBuildError(ResolveSettings(conf)).Some?
      ensures r.Failure? ==> Some(r.error) == CacheBuildError(ResolveSettings(conf))
      ensures r.Success? ==>
        && fresh(r.value) && fresh(r.value.cache) && r.value.Valid()
        && r.value.settings == ResolveSettings(conf)
        && r.value.cache.entries == map[] && r.value.cache.closeCalls == []
    {
      var error := CacheBuildError(ResolveSettings(conf));
      if error.Some? {
        return Failure(error.value);
      }
      var m := new KafkaProducerManager(conf);
      return Success(m);
    }

    /**
     * `getFromCache`: the cache's `get` on `props`, with its failures
     * rethrown; the cache moves exactly as `get` moves it.
     */
    method GetFromCache(props: Properties, loader: LoadOutcome) returns (r: Result<ProducerId, ProducerError>)
      requires Valid()
      requires loader.Created? ==> loader.producer !in cache.created
      modifies cache
      ensures Valid()
      ensures r == Rethrown(GetResult(old(cache.entries), props, loader))
      ensures GetTransition(cache.capacity, props, loader,
                            old(cache.entries), old(cache.closeCalls), old(cache.loads), old(cache.created),
                            cache.entries, cache.closeCalls, cache.loads, cache.created)
    {
      var got := cache.Get(props, loader);
      r := Rethrown(got);
    }

    /**
     * `getProducer`: a null copied field throws before the cache is touched;
     * otherwise `getFromCache` on the input's fingerprint, with
     * `new KafkaProducer` as the loader.
     */
    method GetProducer(input: Input, loader: LoadOutcome) returns (r: Result<ProducerId, ProducerError>)
      requires Valid()
      requires loader.Created? ==> loader.producer !in cache.created
      modifies cache
      ensures Valid()
      ensures GetProducerProperties(input, settings).Failure? ==>
        && r == Failure(NullProperty(GetProducerProperties(input, settings).error.key))
        && cache.entries == old(cache.entries) && cache.closeCalls == old(cache.closeCalls)
        && cache.loads == old(cache.loads) && cache.created == old(cache.created)
      ensures GetProducerProperties(input, settings).Success? ==>
        var props := GetProducerProperties(input, settings).value;
        && r == Rethrown(GetResult(old(cache.entries), props, loader))
        && GetTransition(cache.capacity, props, loader,
                         old(cache.entries), old(cache.closeCalls), old(cache.loads), old(cache.created),
                         cache.entries, cache.closeCalls, cache.loads, cache.created)
    {
      var props := GetProducerProperties(input, settings);
      if props.Failure? {
        return Failure(NullProperty(props.error.key));
      }
      r := GetFromCache(props.value, loader);
    }
  }

  /**
   * Two publish inputs with the same effective configuration get the same
   * producer: the second request is a hit and calls no loader.
   */
  method SameEffectiveConfigurationSharesProducer(m: KafkaProducerManager, a: Input, b: Input,
                                                   first: LoadOutcome, second: LoadOutcome)
    returns (p: Result<ProducerId, ProducerError>, q: Result<ProducerId, ProducerError>)
    requires m.Valid() && m.cache.capacity > 0
    requires Buildable(a) && Buildable(b)
    requires a.bootStrapServers == b.bootStrapServers && a.keySerializer == b.keySerializer
    requires EffectiveRequestTimeout(a, m.settings) == EffectiveRequestTimeout(b, m.settings)
    requires EffectiveMaxBlock(a, m.settings) == EffectiveMaxBlock(b, m.settings)
    requires first.Created? ==> first.producer !in m.cache.created
    requires second.Created? ==> second.producer !in m.cache.created && !(first.Created? && first.producer == second.producer)
    modifies m.cache
    ensures p.Success? ==> q == p
  {
    FingerprintEquality(a, b, m.settings);
    ghost var e0, c0, n0, g0 := m.cache.entries, m.cache.closeCalls, m.cache.loads, m.cache.created;
    p := m.GetProducer(a, first);
    GetTransitionFacts(m.cache.capacity, GetProducerProperties(a, m.settings).value, first,
                       e0, c0, n0, g0, m.cache.entries, m.cache.closeCalls, m.cache.loads, m.cache.created);
    q := m.GetProducer(b, second);
  }
}
