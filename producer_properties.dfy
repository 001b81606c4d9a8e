/**
 * The producer-configuration fingerprint: `getProducerProperties` turns a
 * publish input and the manager's settings into the `Properties` handed to
 * `new KafkaProducer` and used, by value, as the producer cache key.
 * A `Properties` is a hash table, so its equality ignores insertion order:
 * it is modelled as a `map`.
 */
module ProducerProperties {
  import opened Wrappers
  import opened Decimal
  import opened Settings

  type Properties = map<string, string>

  // Kafka client configuration names used as property keys.
  const BootstrapServersKey := "bootstrap.servers"
  const KeySerializerKey := "key.serializer"
  const RequestTimeoutMsKey := "request.timeout.ms"
  const MaxBlockMsKey := "max.block.ms"
  const ValueSerializerKey := "value.serializer"
  const SecurityProtocolConfigKey := "security.protocol"
  const SaslMechanismConfigKey := "sasl.mechanism"
  const SaslJaasConfigKey := "sasl.jaas.config"

  const StringSerializer := "org.apache.kafka.common.serialization.StringSerializer"

  const JaasPrefix := "org.apache.kafka.common.security.plain.PlainLoginModule required username=\""
  const JaasMiddle := "\" password=\""
  const JaasSuffix := "\";"

  /** The keys present whatever the security settings. */
  const BaseKeys: set<string> :=
    {BootstrapServersKey, KeySerializerKey, RequestTimeoutMsKey, MaxBlockMsKey, ValueSerializerKey}

  /** The keys present exactly when a security protocol is configured. */
  const SecurityKeys: set<string> := {SecurityProtocolConfigKey, SaslMechanismConfigKey, SaslJaasConfigKey}

  /** The publish task's input as the builder sees it; `None` is a null field. */
  datatype Input = Input(
    bootStrapServers: Option<string>,
    keySerializer: Option<string>,
    requestTimeoutMs: Option<int>,
    maxBlockMs: Option<int>)

  /** `Properties.put` with a null value throws `NullPointerException`. */
  datatype PropertiesError = NullValue(key: string)

  /** The request timeout: the input's override in decimal when non-null, else the manager's setting. */
  function EffectiveRequestTimeout(input: Input, s: ManagerSettings): (t: string)
    ensures input.requestTimeoutMs.None? ==> t == s.requestTimeout
    ensures input.requestTimeoutMs.Some? && IsInt32(input.requestTimeoutMs.value) ==> ParseInt(t) == input.requestTimeoutMs
  {
    match input.requestTimeoutMs
    case Some(ms) => if IsInt32(ms) then ParseIntToString(ms); IntToString(ms) else IntToString(ms)
    case None => s.requestTimeout
  }

  /** The max-block time, under the same override rule. */
  function EffectiveMaxBlock(input: Input, s: ManagerSettings): (t: string)
    ensures input.maxBlockMs.None? ==> t == s.maxBlock
    ensures input.maxBlockMs.Some? && IsInt32(input.maxBlockMs.value) ==> ParseInt(t) == input.maxBlockMs
  {
    match input.maxBlockMs
    case Some(ms) => if IsInt32(ms) then ParseIntToString(ms); IntToString(ms) else IntToString(ms)
    case None => s.maxBlock
  }

  /** The PLAIN login-module line; username and password are inserted without escaping. */
  function JaasConfig(username: string, password: string): (line: string)
    ensures |line| == |JaasPrefix| + |username| + |JaasMiddle| + |password| + |JaasSuffix|
    ensures line[..|JaasPrefix|] == JaasPrefix && line[|line| - |JaasSuffix|..] == JaasSuffix
    ensures '"' !in username ==>
      var rest := line[|JaasPrefix|..];
      rest[..LengthBeforeQuote(rest)] == username
  {
    var line := JaasPrefix + username + JaasMiddle + password + JaasSuffix;
    assert line[|JaasPrefix|..] == username + (JaasMiddle + password + JaasSuffix);
    if '"' !in username then
      LengthBeforeQuoteOfConcat(username, JaasMiddle + password + JaasSuffix);
      line
    else
      line
  }

  /** `getProducerProperties`. */
  function GetProducerProperties(input: Input, s: ManagerSettings): (r: Result<Properties, PropertiesError>)
    ensures r.Failure? <==> input.bootStrapServers.None? || input.keySerializer.None?
    ensures r.Failure? ==> r.error == NullValue(if input.bootStrapServers.None? then BootstrapServersKey else KeySerializerKey)
    ensures r.Success? ==> r.value.Keys == BaseKeys + (if s.securityProtocol.Some? then SecurityKeys else {})
  {
    match (input.bootStrapServers, input.keySerializer)
    case (None, _) => Failure(NullValue(BootstrapServersKey))
    case (Some(_), None) => Failure(NullValue(KeySerializerKey))
    case (Some(servers), Some(serializer)) =>
      var base := map[
        BootstrapServersKey := servers,
        KeySerializerKey := serializer,
        RequestTimeoutMsKey := EffectiveRequestTimeout(input, s),
        MaxBlockMsKey := EffectiveMaxBlock(input, s),
        ValueSerializerKey := StringSerializer];
      match s.securityProtocol
      case None => Success(base)
      case Some(protocol) =>
        Success(base[SecurityProtocolConfigKey := protocol]
                    [SaslMechanismConfigKey := s.saslMechanism]
                    [SaslJaasConfigKey := JaasConfig(s.saslUsername, s.saslPassword)])
  }

  /** The builder succeeds exactly when both copied fields are non-null. */
  predicate Buildable(input: Input) {
    input.bootStrapServers.Some? && input.keySerializer.Some?
  }

  /** Bootstrap servers and key serializer are copied unchanged; the value serializer is always the string serializer. */
  lemma CopiedAndFixedEntries(input: Input, s: ManagerSettings)
    requires Buildable(input)
    ensures GetProducerProperties(input, s).Success?
    ensures var p := GetProducerProperties(input, s).value;
      && p[BootstrapServersKey] == input.bootStrapServers.value
      && p[KeySerializerKey] == input.keySerializer.value
      && p[ValueSerializerKey] == "org.apache.kafka.common.serialization.StringSerializer"
  {
  }

  /** Request timeout and max block: the decimal text of a non-null override, otherwise the configured default. */
  lemma OverrideOrDefault(input: Input, s: ManagerSettings)
    requires Buildable(input)
    ensures var p := GetProducerProperties(input, s).value;
      && p[RequestTimeoutMsKey] == (if input.requestTimeoutMs.Some? then IntToString(input.requestTimeoutMs.value) else s.requestTimeout)
      && p[MaxBlockMsKey] == (if input.maxBlockMs.Some? then IntToString(input.maxBlockMs.value) else s.maxBlock)
  {
  }

  /** Security entries are all present or all absent: five keys without a protocol, eight with one (even an empty one). */
  lemma SecurityAllOrNothing(input: Input, s: ManagerSettings)
    requires Buildable(input)
    ensures var p := GetProducerProperties(input, s).value;
      && (s.securityProtocol.None? <==> |p| == 5)
      && (s.securityProtocol.Some? <==> |p| == 8)
      && (s.securityProtocol.None? ==> p.Keys !! SecurityKeys)
      && (s.securityProtocol.Some? ==> SecurityKeys <= p.Keys)
  {
  }

  /** With a protocol configured, the three security entries carry the protocol, the mechanism and the JAAS line. */
  lemma SecurityEntries(input: Input, s: ManagerSettings)
    requires Buildable(input) && s.securityProtocol.Some?
    ensures var p := GetProducerProperties(input, s).value;
      && p[SecurityProtocolConfigKey] == s.securityProtocol.value
      && p[SaslMechanismConfigKey] == s.saslMechanism
      && p[SaslJaasConfigKey] == "org.apache.kafka.common.security.plain.PlainLoginModule required username=\""
                                 + s.saslUsername + "\" password=\"" + s.saslPassword + "\";"
  {
  }

  /**
   * Two buildable inputs give the same fingerprint exactly when they agree on
   * servers and key serializer and their effective timeout and max-block text agree.
   */
  lemma FingerprintEquality(a: Input, b: Input, s: ManagerSettings)
    requires Buildable(a) && Buildable(b)
    ensures GetProducerProperties(a, s) == GetProducerProperties(b, s) <==>
      && a.bootStrapServers == b.bootStrapServers
      && a.keySerializer == b.keySerializer
      && EffectiveRequestTimeout(a, s) == EffectiveRequestTimeout(b, s)
      && EffectiveMaxBlock(a, s) == EffectiveMaxBlock(b, s)
  {
  }

  /** Inputs whose overrides are both null share the fingerprint of their copied fields. */
  lemma NullOverridesShareFingerprint(a: Input, b: Input, s: ManagerSettings)
    requires a.requestTimeoutMs.None? && b.requestTimeoutMs.None?
    requires a.maxBlockMs.None? && b.maxBlockMs.None?
    requires a.bootStrapServers == b.bootStrapServers && a.keySerializer == b.keySerializer
    ensures GetProducerProperties(a, s) == GetProducerProperties(b, s)
  {
  }

  /** When both inputs set both overrides, equal fingerprints mean equal inputs. */
  lemma OverridesDistinguishFingerprints(a: Input, b: Input, s: ManagerSettings)
    requires Buildable(a) && Buildable(b)
    requires a.requestTimeoutMs.Some? && b.requestTimeoutMs.Some?
    requires a.maxBlockMs.Some? && b.maxBlockMs.Some?
    ensures GetProducerProperties(a, s) == GetProducerProperties(b, s) <==> a == b
  {
    FingerprintEquality(a, b, s);
    IntToStringInjective(a.requestTimeoutMs.value, b.requestTimeoutMs.value);
    IntToStringInjective(a.maxBlockMs.value, b.maxBlockMs.value);
  }

  /** The number of characters before the first double quote of `s` (all of them when there is none). */
  function LengthBeforeQuote(s: string): (n: nat)
    ensures n <= |s|
  {
    if s == [] || s[0] == '"' then 0 else 1 + LengthBeforeQuote(s[1..])
  }

  lemma {:induction false} LengthBeforeQuoteOfConcat(u: string, rest: string)
    requires '"' !in u && |rest| > 0 && rest[0] == '"'
    ensures LengthBeforeQuote(u + rest) == |u|
  {
    if u != [] {
      assert (u + rest)[1..] == u[1..] + rest;
      LengthBeforeQuoteOfConcat(u[1..], rest);
    }
  }

  /** Credentials without a double quote can be read back from the JAAS line, so they are part of the fingerprint. */
  lemma JaasConfigDeterminesCredentials(u1: string, p1: string, u2: string, p2: string)
    requires '"' !in u1 && '"' !in u2
    ensures JaasConfig(u1, p1) == JaasConfig(u2, p2) <==> u1 == u2 && p1 == p2
  {
    if JaasConfig(u1, p1) == JaasConfig(u2, p2) {
      var s := JaasConfig(u1, p1);
      var n := |JaasPrefix|;
      assert s[n..] == u1 + (JaasMiddle + p1 + JaasSuffix);
      assert s[n..] == u2 + (JaasMiddle + p2 + JaasSuffix);
      LengthBeforeQuoteOfConcat(u1, JaasMiddle + p1 + JaasSuffix);
      LengthBeforeQuoteOfConcat(u2, JaasMiddle + p2 + JaasSuffix);
      assert s[n..n + |u1|] == u1;
      assert s[n..n + |u2|] == u2;
      var m := n + |u1| + |JaasMiddle|;
      assert s[m..m + |p1|] == p1;
      assert s[m..m + |p2|] == p2;
    }
  }

  /** Without escaping, a quote in the username can make two credential pairs share one JAAS line. */
  lemma JaasConfigCollidesOnQuotes()
    ensures JaasConfig("a\" password=\"b", "c") == JaasConfig("a", "b\" password=\"c")
  {
  }
}
