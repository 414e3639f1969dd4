/**
 * Process configuration read from the environment (index.js:19-20, 39, 57, 66,
 * 75). Each setting modelled here falls back to a default through JavaScript's `||`,
 * which replaces any falsy value: for the cache TTLs the raw environment
 * string (unset or empty falls back, "0" does not), for the rate-limit
 * settings the result of `parseInt` (NaN and 0 fall back).
 */
module Config {
  import opened Wrappers

  const DefaultListTtl: nat := 300
  const DefaultDetailTtl: nat := 600
  const DefaultWindowMs: int := 60000
  const DefaultMaxRequests: int := 100

  /**
   * The environment as the process sees it. A cache TTL is `None` when the
   * variable is unset or the empty string, otherwise the number it denotes in
   * seconds. A rate-limit setting is `None` when `parseInt` gives NaN.
   */
  datatype Env = Env(
    cacheTtlEarthquakes: Option<nat>,
    cacheTtlEarthquakeDetails: Option<nat>,
    rateLimitWindowMs: Option<int>,
    rateLimitMaxRequests: Option<int>)

  /** The settings the handlers and the limiter actually use. */
  datatype Settings = Settings(listTtl: nat, detailTtl: nat, windowMs: int, maxRequests: int)

  /** `env || default` on an environment string already read as seconds. */
  function TtlOr(v: Option<nat>, default: nat): nat
  {
    match v
    case Some(s) => s
    case None => default
  }

  /** `parseInt(env) || default`: NaN and 0 are both falsy. */
  function ParsedOr(parsed: Option<int>, default: int): int
  {
    if parsed.Some? && parsed.value != 0 then parsed.value else default
  }

  function Resolve(env: Env): (s: Settings)
    // a TTL falls back exactly when the variable is unset or empty, and a
    // present value, zero included, is taken as it is
    ensures s.listTtl == (if env.cacheTtlEarthquakes.Some? then env.cacheTtlEarthquakes.value else 300)
    ensures s.detailTtl == (if env.cacheTtlEarthquakeDetails.Some? then env.cacheTtlEarthquakeDetails.value else 600)
    // the limiter never sees a zero window or a zero ceiling
    ensures s.windowMs != 0 && s.maxRequests != 0
    // a rate-limit setting falls back when it does not parse or parses to 0,
    // and is taken as parsed otherwise
    ensures s.windowMs == 60000 <== env.rateLimitWindowMs.None? || env.rateLimitWindowMs == Some(0)
    ensures s.maxRequests == 100 <== env.rateLimitMaxRequests.None? || env.rateLimitMaxRequests == Some(0)
    ensures env.rateLimitWindowMs.Some? && env.rateLimitWindowMs.value != 0 ==> s.windowMs == env.rateLimitWindowMs.value
    ensures env.rateLimitMaxRequests.Some? && env.rateLimitMaxRequests.value != 0 ==> s.maxRequests == env.rateLimitMaxRequests.value
  {
    Settings(
      TtlOr(env.cacheTtlEarthquakes, DefaultListTtl),
      TtlOr(env.cacheTtlEarthquakeDetails, DefaultDetailTtl),
      ParsedOr(env.rateLimitWindowMs, DefaultWindowMs),
      ParsedOr(env.rateLimitMaxRequests, DefaultMaxRequests))
  }
}
