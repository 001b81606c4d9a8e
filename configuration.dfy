/**
 * The configuration source the manager reads once, in its constructor: a
 * key/value lookup where the caller supplies the value to use when a key is
 * absent. Integer settings are read as text and parsed; text that does not
 * parse as a Java `int` falls back to the caller's default.
 */
module Configuration {
  import opened Wrappers
  import opened Decimal

  type Config = map<string, string>

  /** `getProperty(key, default)` with a non-null default. */
  function GetProperty(conf: Config, key: string, default: string): (v: string)
    ensures key in conf ==> v == conf[key]
    ensures key !in conf ==> v == default
  {
    if key in conf then conf[key] else default
  }

  /** `getProperty(key, null)`: `None` when the key is absent. */
  function GetOptionalProperty(conf: Config, key: string): (r: Option<string>)
    ensures r.Some? <==> key in conf
    ensures r.Some? ==> r.value == conf[key]
  {
    if key in conf then Some(conf[key]) else None
  }

  /** `getIntProperty(key, default)`. */
  function GetIntProperty(conf: Config, key: string, default: int): (v: int)
    ensures key in conf && ParseInt(conf[key]).Some? ==> v == ParseInt(conf[key]).value
    ensures key !in conf || ParseInt(conf[key]).None? ==> v == default
  {
    if key !in conf then default
    else match ParseInt(conf[key])
      case Some(v) => v
      case None => default
  }

  /** A configured integer written in decimal is read back as that integer. */
  lemma GetIntPropertyReadsDecimal(conf: Config, key: string, default: int, n: int)
    requires IsInt32(n) && key in conf && conf[key] == IntToString(n)
    ensures GetIntProperty(conf, key, default) == n
  {
    ParseIntToString(n);
  }

  /** An absent or malformed integer setting gives the default, a well-formed one never leaves the 32-bit range. */
  lemma GetIntPropertyFallsBack(conf: Config, key: string, default: int)
    ensures key !in conf || ParseInt(conf[key]).None? ==> GetIntProperty(conf, key, default) == default
    ensures IsInt32(default) ==> IsInt32(GetIntProperty(conf, key, default))
  {
  }
}
