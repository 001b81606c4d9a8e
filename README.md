# Kafka producer manager, modelled in Dafny

This project models `KafkaProducerManager` from Conductor's Kafka publish
task. The manager hands out Kafka producers for publish requests. It builds
a producer configuration (a `Properties` table) from the request and from
manager-wide settings. That table is the key of a Guava cache of producers.
Requests with the same effective configuration therefore share one producer.
A producer that leaves the cache, by size eviction or by idle expiry, is
closed by the cache's removal listener.

Modules, one per component:

- `Wrappers`: `Option` (a Java `null`) and `Result` (a thrown exception).
- `Decimal`: `String.valueOf(Integer)` and `Integer.parseInt` on decimal text.
- `Configuration`: the configuration source, a string map read with a default.
- `Settings`: the constructor's default resolution. It also holds Guava's
  argument checks on the cache size and expiry, and the capacity the built
  cache really has.
- `ProducerProperties`: `getProducerProperties`. The result is a
  `map<string, string>`, so equality ignores insertion order, as
  `Hashtable` equality does.
- `ProducerCaching`: the cache as the manager observes it. The class
  `ProducerCache` holds the cached entries, the log of `close()` calls made by
  the removal listener, and the number of loader calls.
- `Manager`: the class `KafkaProducerManager`, with `getFromCache` and
  `getProducer`.

The cache keeps this invariant (`ProducerCaching.CacheInvariant`):

- no producer is closed twice;
- no cached producer has been closed;
- no producer is cached under two fingerprints;
- every producer a loader created is either still cached or closed, so none leaks.

The model follows the code in these places:

- Security entries are guarded by `Objects.nonNull` (line 121) alone. An
  empty protocol string still adds all three entries.
- `getFromCache` catches only `ExecutionException` (line 92). Guava raises it
  for checked exceptions from the loader. Unchecked exceptions come out as
  Guava's `UncheckedExecutionException`, errors as `ExecutionError`, and a
  null producer as `InvalidCacheLoadException`. None of these three is
  rewrapped by the manager, so a failed load reaches the caller as one of four
  different exceptions.
- `Properties.put` rejects null values. A null bootstrap-servers or
  key-serializer field in the input therefore throws `NullPointerException`
  before the cache is consulted.
- Guava applies two rules that the source relies on without stating them.
  A negative `maximumSize` or a negative `expireAfterAccess` duration makes
  the constructor throw `IllegalArgumentException`. A zero expiry makes Guava
  treat the maximum size as zero, so every loaded producer is removed and
  closed as soon as it is loaded.

## Model

| member | source | states |
|---|---|---|
| `Decimal.NatToString` | contribs/src/main/java/com/netflix/conductor/contribs/kafka/KafkaProducerManager.java:108 | the decimal text of a magnitude is non-empty, all digits, and has no leading zero unless the value is zero |
| `Decimal.IntToString` | contribs/src/main/java/com/netflix/conductor/contribs/kafka/KafkaProducerManager.java:108 | the text of an override value is non-empty and starts with a minus sign exactly when the value is negative |
| `Decimal.ParseInt` | contribs/src/main/java/com/netflix/conductor/contribs/kafka/KafkaProducerManager.java:72-73 | a parsed integer setting always fits a Java `int`, and a negative result came from text with a leading minus sign |
| `Decimal.NatToStringValue` | contribs/src/main/java/com/netflix/conductor/contribs/kafka/KafkaProducerManager.java:108 | reading the decimal digits back gives the original number |
| `Decimal.ParseIntToString` | contribs/src/main/java/com/netflix/conductor/contribs/kafka/KafkaProducerManager.java:72-73 | every Java `int` written in decimal parses back to itself |
| `Decimal.IntToStringInjective` | contribs/src/main/java/com/netflix/conductor/contribs/kafka/KafkaProducerManager.java:105-118 | two override values have the same text if and only if they are equal |
| `Configuration.GetProperty` | contribs/src/main/java/com/netflix/conductor/contribs/kafka/KafkaProducerManager.java:65-70 | a text setting is the configured value when the key is present, and the caller's default otherwise |
| `Configuration.GetOptionalProperty` | contribs/src/main/java/com/netflix/conductor/contribs/kafka/KafkaProducerManager.java:67 | the security protocol is present exactly when the key is configured, and is then the configured value; otherwise it stays null |
| `Configuration.GetIntProperty` | contribs/src/main/java/com/netflix/conductor/contribs/kafka/KafkaProducerManager.java:72-73 | an integer setting is the parsed configured value when it parses as a Java `int`, and the default when it is absent or malformed |
| `Settings.ResolveSettings` | contribs/src/main/java/com/netflix/conductor/contribs/kafka/KafkaProducerManager.java:64-73 | the security protocol stays null exactly when it is not configured, and both cache settings fit a Java `int` |
| `Configuration.GetIntPropertyReadsDecimal` | contribs/src/main/java/com/netflix/conductor/contribs/kafka/KafkaProducerManager.java:72-73 | a configured integer written in decimal is the value read |
| `Configuration.GetIntPropertyFallsBack` | contribs/src/main/java/com/netflix/conductor/contribs/kafka/KafkaProducerManager.java:72-73 | an absent or unparsable integer setting reads as the default; a read value stays within 32 bits |
| `Settings.ResolveTextSettings` | contribs/src/main/java/com/netflix/conductor/contribs/kafka/KafkaProducerManager.java:65-70 | each text setting is the configured value if present, else "100", "500", null, "PLAIN", "" and "" respectively |
| `Settings.ResolveCacheSettings` | contribs/src/main/java/com/netflix/conductor/contribs/kafka/KafkaProducerManager.java:72-73 | a cache size or cache time configured as the decimal text of a Java `int` is that value |
| `Settings.ResolveCacheSettingsFallBack` | contribs/src/main/java/com/netflix/conductor/contribs/kafka/KafkaProducerManager.java:72-73 | an absent or malformed cache size gives 10, and an absent or malformed cache time gives 120000 |
| `Settings.EmptyConfigurationDefaults` | contribs/src/main/java/com/netflix/conductor/contribs/kafka/KafkaProducerManager.java:64-73 | an empty configuration resolves to exactly the documented defaults |
| `Settings.CacheBuildError` | contribs/src/main/java/com/netflix/conductor/contribs/kafka/KafkaProducerManager.java:74-76 | building the cache fails if and only if the size or the expiry is negative, with the size checked first |
| `Settings.EffectiveCapacity` | contribs/src/main/java/com/netflix/conductor/contribs/kafka/KafkaProducerManager.java:74-76 | the built cache holds at most the configured size, and holds nothing exactly when the size or the expiry is zero |
| `ProducerProperties.GetProducerProperties` | contribs/src/main/java/com/netflix/conductor/contribs/kafka/KafkaProducerManager.java:98-128 | the builder fails exactly when servers or key serializer is null, naming the first null field put; otherwise the keys are the five base keys, plus the three security keys exactly when a protocol is configured |
| `ProducerProperties.EffectiveRequestTimeout` | contribs/src/main/java/com/netflix/conductor/contribs/kafka/KafkaProducerManager.java:105-109 | without an override the timeout text is the manager's setting; with a 32-bit override it is text that parses back to that override |
| `ProducerProperties.EffectiveMaxBlock` | contribs/src/main/java/com/netflix/conductor/contribs/kafka/KafkaProducerManager.java:111-115 | without an override the max-block text is the manager's setting; with a 32-bit override it is text that parses back to that override |
| `ProducerProperties.JaasConfig` | contribs/src/main/java/com/netflix/conductor/contribs/kafka/KafkaProducerManager.java:124 | the JAAS line is the fixed prefix, the username, the fixed middle, the password and the fixed suffix; a quote-free username is the text up to the first double quote after the prefix |
| `ProducerProperties.CopiedAndFixedEntries` | contribs/src/main/java/com/netflix/conductor/contribs/kafka/KafkaProducerManager.java:101-119 | bootstrap servers and key serializer are copied unchanged, and the value serializer is always the `StringSerializer` class name |
| `ProducerProperties.OverrideOrDefault` | contribs/src/main/java/com/netflix/conductor/contribs/kafka/KafkaProducerManager.java:105-118 | request timeout and max block are the decimal text of a non-null override, else the manager's setting |
| `ProducerProperties.SecurityAllOrNothing` | contribs/src/main/java/com/netflix/conductor/contribs/kafka/KafkaProducerManager.java:121-125 | without a protocol there are exactly five entries and no security key; with one, even an empty one, exactly eight entries including all three security keys |
| `ProducerProperties.SecurityEntries` | contribs/src/main/java/com/netflix/conductor/contribs/kafka/KafkaProducerManager.java:121-125 | the security entries are the protocol, the mechanism, and the PLAIN login-module line with the username and password inserted |
| `ProducerProperties.FingerprintEquality` | contribs/src/main/java/com/netflix/conductor/contribs/kafka/KafkaProducerManager.java:98-128 | two inputs share a fingerprint if and only if they agree on servers, key serializer, effective request timeout and effective max block |
| `ProducerProperties.NullOverridesShareFingerprint` | contribs/src/main/java/com/netflix/conductor/contribs/kafka/KafkaProducerManager.java:105-118 | inputs with null overrides and the same copied fields get the same fingerprint |
| `ProducerProperties.OverridesDistinguishFingerprints` | contribs/src/main/java/com/netflix/conductor/contribs/kafka/KafkaProducerManager.java:105-118 | when both inputs set both overrides, equal fingerprints hold exactly for equal inputs |
| `ProducerProperties.LengthBeforeQuoteOfConcat` | contribs/src/main/java/com/netflix/conductor/contribs/kafka/KafkaProducerManager.java:124 | in the JAAS line, a quote-free username ends at the first double quote |
| `ProducerProperties.JaasConfigDeterminesCredentials` | contribs/src/main/java/com/netflix/conductor/contribs/kafka/KafkaProducerManager.java:124 | for usernames without a double quote, the JAAS line is equal exactly when username and password are equal |
| `ProducerProperties.JaasConfigCollidesOnQuotes` | contribs/src/main/java/com/netflix/conductor/contribs/kafka/KafkaProducerManager.java:124 | the template does not escape quotes, so two different credential pairs can give the same JAAS line |
| `ProducerCaching.LoadResult` | contribs/src/main/java/com/netflix/conductor/contribs/kafka/KafkaProducerManager.java:91 | a miss returns the loader's producer; a failure keeps its cause and is an `ExecutionException` exactly for a checked exception; a null producer is an `InvalidCacheLoadException` |
| `ProducerCaching.InvariantAfterInsert` | contribs/src/main/java/com/netflix/conductor/contribs/kafka/KafkaProducerManager.java:91 | caching a newly created producer keeps the cache invariant |
| `ProducerCaching.InvariantAfterRemove` | contribs/src/main/java/com/netflix/conductor/contribs/kafka/KafkaProducerManager.java:36-42 | removing an entry and closing its producer keeps the cache invariant, so no producer is closed twice or leaked |
| `ProducerCaching.GetTransitionFacts` | contribs/src/main/java/com/netflix/conductor/contribs/kafka/KafkaProducerManager.java:36-42 | one `get` keeps the size within capacity, only appends to the close log, closes every producer whose entry left, keeps a failed key absent, and caches a created producer when the capacity is positive |
| `ProducerCaching.ProducerCache.constructor` | contribs/src/main/java/com/netflix/conductor/contribs/kafka/KafkaProducerManager.java:74-76 | a new cache is empty, has closed nothing, and keeps the invariant |
| `ProducerCaching.ProducerCache.RemoveEntry` | contribs/src/main/java/com/netflix/conductor/contribs/kafka/KafkaProducerManager.java:36-42 | a removed entry's producer is closed exactly once and nothing else changes |
| `ProducerCaching.ProducerCache.Insert` | contribs/src/main/java/com/netflix/conductor/contribs/kafka/KafkaProducerManager.java:91 | a loaded producer is cached under its key, and nothing is closed |
| `ProducerCaching.ProducerCache.Get` | contribs/src/main/java/com/netflix/conductor/contribs/kafka/KafkaProducerManager.java:89-95 | a hit returns the cached producer and changes nothing; a miss calls the loader once and returns its result; a failed load changes nothing else; a created producer is cached, and a full cache evicts and closes exactly one older entry (with capacity zero, the new producer itself); the size never exceeds the capacity |
| `ProducerCaching.ProducerCache.Expire` | contribs/src/main/java/com/netflix/conductor/contribs/kafka/KafkaProducerManager.java:74-76 | an expired entry leaves the cache and its producer is closed; a key that is not cached changes nothing |
| `Manager.Rethrow` | contribs/src/main/java/com/netflix/conductor/contribs/kafka/KafkaProducerManager.java:92-93 | exactly the `ExecutionException` is rewrapped in a `RuntimeException`, keeping its cause; other failures propagate unchanged |
| `Manager.Rethrown` | contribs/src/main/java/com/netflix/conductor/contribs/kafka/KafkaProducerManager.java:89-95 | `getFromCache` returns what the cache returns and rethrows its failures as `Rethrow` says |
| `Manager.KafkaProducerManager.constructor` | contribs/src/main/java/com/netflix/conductor/contribs/kafka/KafkaProducerManager.java:64-77 | the manager's settings are the resolved configuration, and its cache is empty with the effective capacity |
| `Manager.KafkaProducerManager.Create` | contribs/src/main/java/com/netflix/conductor/contribs/kafka/KafkaProducerManager.java:64-77 | construction fails exactly when Guava rejects the cache settings; otherwise the manager is fresh with an empty cache |
| `Manager.KafkaProducerManager.GetFromCache` | contribs/src/main/java/com/netflix/conductor/contribs/kafka/KafkaProducerManager.java:89-95 | the result is the cache's `get` result with failures rethrown, and the cache moves exactly as `get` moves it: a hit changes nothing, a failed load only counts the loader call, and a created producer is cached with at most one older entry evicted and closed, only when the cache is full |
| `Manager.KafkaProducerManager.GetProducer` | contribs/src/main/java/com/netflix/conductor/contribs/kafka/KafkaProducerManager.java:80-86 | a null copied field throws before the cache is touched and leaves it unchanged; otherwise the result and the cache's new state are those of `getFromCache` on the input's fingerprint |
| `Manager.SameEffectiveConfigurationSharesProducer` | contribs/src/main/java/com/netflix/conductor/contribs/kafka/KafkaProducerManager.java:80-95 | two requests with the same effective configuration get the same producer when the cache can hold one |

## Left out

- Network I/O and the construction of `KafkaProducer` (line 84) are left out. The loader is a parameter: it either creates a new producer or fails. The requirement that a created producer is new stands for `new KafkaProducer`.
- Guava's concurrency is left out: single-flight loading and segment locking cannot be expressed in this sequential model.
- Wall-clock access expiry is left out. `ProducerCaching.ProducerCache.Expire` removes any one cached key whenever the environment calls it. The access-time bookkeeping is not modelled.
- `ProducerCaching.ProducerCache.Get`: the victim of a size eviction is any older entry, not the least recently accessed one, because Guava chooses it internally and only approximately in LRU order. Strict LRU order (the oldest of three fingerprints evicted at capacity two) is therefore not proved. Evictions that Guava makes per segment before the total size is reached are covered only as `Expire` calls.
- Whether `close()` runs before or after the entry leaves the map, and the swallowing of exceptions thrown by `close()`, are not modelled. The log records that `close()` was called.
- Logging (line 40) is left out.
- `Configuration` is not part of this model. It is modelled as a string map read with a default. Integer settings are read with `Integer.parseInt`, falling back to the default on malformed text, and only ASCII digits are accepted.
- `KafkaPublishTask.Input` is not part of this model. It is modelled as a record with two nullable strings and two nullable integers.
