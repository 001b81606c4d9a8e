/**
 * The manager-wide settings that the `KafkaProducerManager` constructor
 * resolves from the configuration source, and the checks Guava's
 * `CacheBuilder` applies to the two cache settings.
 */
module Settings {
  import opened Wrappers
  import opened Decimal
  import opened Configuration

  const RequestTimeoutKey := "kafka.publish.request.timeout.ms"
  const MaxBlockKey := "kafka.publish.max.block.ms"
  const SecurityProtocolKey := "kafka.publish.security.protocol"
  const SaslMechanismKey := "kafka.publish.sasl.mechanism"
  const SaslUsernameKey := "kafka.publish.sasl.username"
  const SaslPasswordKey := "kafka.publish.sasl.password"
  const CacheSizeKey := "kafka.publish.producer.cache.size"
  const CacheTimeKey := "kafka.publish.producer.cache.time.ms"

  const DefaultRequestTimeout := "100"
  const DefaultMaxBlock := "500"
  const DefaultSaslMechanism := "PLAIN"
  const DefaultCacheSize := 10
  const DefaultCacheTimeMs := 120000

  /** The constructor's resolved fields; `securityProtocol` is `None` when it stays null. */
  datatype ManagerSettings = ManagerSettings(
    requestTimeout: string,
    maxBlock: string,
    securityProtocol: Option<string>,
    saslMechanism: string,
    saslUsername: string,
    saslPassword: string,
    cacheSize: int,
    cacheTimeMs: int)

  /** Each setting is the configured value, or its default when the source lacks it. */
  function ResolveSettings(conf: Config): (s: ManagerSettings)
    ensures s.securityProtocol.None? <==> SecurityProtocolKey !in conf
    ensures IsInt32(s.cacheSize) && IsInt32(s.cacheTimeMs)
  {
    GetIntPropertyFallsBack(conf, CacheSizeKey, DefaultCacheSize);
    GetIntPropertyFallsBack(conf, CacheTimeKey, DefaultCacheTimeMs);
    ManagerSettings(
      GetProperty(conf, RequestTimeoutKey, DefaultRequestTimeout),
      GetProperty(conf, MaxBlockKey, DefaultMaxBlock),
      GetOptionalProperty(conf, SecurityProtocolKey),
      GetProperty(conf, SaslMechanismKey, DefaultSaslMechanism),
      GetProperty(conf, SaslUsernameKey, ""),
      GetProperty(conf, SaslPasswordKey, ""),
      GetIntProperty(conf, CacheSizeKey, DefaultCacheSize),
      GetIntProperty(conf, CacheTimeKey, DefaultCacheTimeMs))
  }

  /** Text settings: the configured value when present, otherwise the documented default. */
  lemma ResolveTextSettings(conf: Config)
    ensures var s := ResolveSettings(conf);
      && s.requestTimeout == (if RequestTimeoutKey in conf then conf[RequestTimeoutKey] else "100")
      && s.maxBlock == (if MaxBlockKey in conf then conf[MaxBlockKey] else "500")
      && s.securityProtocol == (if SecurityProtocolKey in conf then Some(conf[SecurityProtocolKey]) else None)
      && s.saslMechanism == (if SaslMechanismKey in conf then conf[SaslMechanismKey] else "PLAIN")
      && s.saslUsername == (if SaslUsernameKey in conf then conf[SaslUsernameKey] else "")
      && s.saslPassword == (if SaslPasswordKey in conf then conf[SaslPasswordKey] else "")
  {
  }

  /** Integer settings: a configured decimal is the value used. */
  lemma ResolveCacheSettings(conf: Config, size: int, timeMs: int)
    requires IsInt32(size) && IsInt32(timeMs)
    ensures CacheSizeKey in conf && conf[CacheSizeKey] == IntToString(size) ==> ResolveSettings(conf).cacheSize == size
    ensures CacheTimeKey in conf && conf[CacheTimeKey] == IntToString(timeMs) ==> ResolveSettings(conf).cacheTimeMs == timeMs
  {
    if CacheSizeKey in conf && conf[CacheSizeKey] == IntToString(size) {
      GetIntPropertyReadsDecimal(conf, CacheSizeKey, DefaultCacheSize, size);
    }
    if CacheTimeKey in conf && conf[CacheTimeKey] == IntToString(timeMs) {
      GetIntPropertyReadsDecimal(conf, CacheTimeKey, DefaultCacheTimeMs, timeMs);
    }
  }

  /** Integer settings: an absent or malformed one gives the default, 10 entries and 120000 ms. */
  lemma ResolveCacheSettingsFallBack(conf: Config)
    ensures CacheSizeKey !in conf || ParseInt(conf[CacheSizeKey]).None? ==> ResolveSettings(conf).cacheSize == 10
    ensures CacheTimeKey !in conf || ParseInt(conf[CacheTimeKey]).None? ==> ResolveSettings(conf).cacheTimeMs == 120000
  {
    GetIntPropertyFallsBack(conf, CacheSizeKey, DefaultCacheSize);
    GetIntPropertyFallsBack(conf, CacheTimeKey, DefaultCacheTimeMs);
  }

  /** An empty configuration source gives exactly the documented defaults. */
  lemma EmptyConfigurationDefaults()
    ensures ResolveSettings(map[]) == ManagerSettings("100", "500", None, "PLAIN", "", "", 10, 120000)
  {
  }

  /** Guava's `IllegalArgumentException` from `maximumSize` or `expireAfterAccess`. */
  datatype BuildError = NegativeMaximumSize(size: int) | NegativeExpiry(durationMs: int)

  /** `maximumSize(cacheSize)` is checked before `expireAfterAccess(cacheTimeMs)`; either rejects a negative argument. */
  function CacheBuildError(s: ManagerSettings): (e: Option<BuildError>)
    ensures e.None? <==> s.cacheSize >= 0 && s.cacheTimeMs >= 0
    ensures e.Some? && s.cacheSize < 0 ==> e.value == NegativeMaximumSize(s.cacheSize)
    ensures e.Some? && s.cacheSize >= 0 ==> e.value == NegativeExpiry(s.cacheTimeMs)
  {
    if s.cacheSize < 0 then Some(NegativeMaximumSize(s.cacheSize))
    else if s.cacheTimeMs < 0 then Some(NegativeExpiry(s.cacheTimeMs))
    else None
  }

  /**
   * The number of entries the built cache may hold: `maximumSize`, except that
   * a zero access-expiry makes Guava treat the maximum as zero (every loaded
   * producer is removed at once).
   */
  function EffectiveCapacity(s: ManagerSettings): (n: nat)
    requires CacheBuildError(s).None?
    ensures n <= s.cacheSize
    ensures n == 0 <==> s.cacheSize == 0 || s.cacheTimeMs == 0
  {
    if s.cacheTimeMs == 0 then 0 else s.cacheSize
  }
}
