/**
 * config/config.py: the configuration dataclasses with their defaults, the
 * validation every `Config` runs when built, the copy-with-override helpers,
 * and the lazily created global configuration.
 */
module Configuration {
  import opened Wrappers
  import opened Validation
  import Limits

  datatype CacheConfig = CacheConfig(directory: string, ttlSeconds: int, enabled: bool)
  datatype ApiConfig = ApiConfig(timeoutSeconds: int, maxRetries: int, retryDelaySeconds: real, rateLimitBuffer: int)
  datatype LimitConfig = LimitConfig(defaultLimit: int, maxLimit: int, unlimitedValue: int)
  datatype OutputConfig = OutputConfig(defaultFormat: string, maxTableWidth: int, jsonIndent: int, summaryLanguagesCount: int)
  datatype LoggingConfig = LoggingConfig(level: string, format: string, stream: string, autoLogFile: bool, maxLogFiles: int)

  datatype Config = Config(
    githubToken: Option<string>,
    cache: CacheConfig,
    api: ApiConfig,
    limits: LimitConfig,
    output: OutputConfig,
    logging: LoggingConfig)

  // The dataclass defaults.
  const DefaultCache := CacheConfig(".cache", 3600, true)
  const DefaultApi := ApiConfig(30, 3, 1.0, 10)
  const DefaultLimits := LimitConfig(100, 10000, -1)
  const DefaultOutput := OutputConfig("table", 120, 2, 5)
  const DefaultLogging := LoggingConfig("INFO", "%(message)s", "stderr", true, 7)

  const TokenRequiredMessage := "GitHub token is required. Set GITHUB_TOKEN environment variable or pass token parameter."

  /** What `_validate` checks. */
  predicate Valid(c: Config) {
    && Truthy(c.githubToken)
    && c.cache.ttlSeconds >= 0
    && c.api.timeoutSeconds > 0
    && c.limits.defaultLimit > 0
    && c.limits.maxLimit > c.limits.defaultLimit
  }

  const NegativeTtlMessage := "Cache TTL must be non-negative"
  const TimeoutMessage := "API timeout must be positive"
  const DefaultLimitMessage := "Default limit must be positive"
  const MaxLimitMessage := "Max limit must be greater than default limit"

  /**
   * `_validate`, run by `__post_init__`: the first failing check names the
   * problem, in the order token, TTL, timeout, default limit, maximum limit.
   */
  function Validate(c: Config): (r: Result<Config, string>)
    ensures r.Success? <==> Valid(c)
    ensures r.Success? ==> r.value == c
    ensures !Truthy(c.githubToken) ==> r == Failure(TokenRequiredMessage)
    ensures Truthy(c.githubToken) && c.cache.ttlSeconds < 0 ==> r == Failure(NegativeTtlMessage)
    ensures (&& Truthy(c.githubToken) && c.cache.ttlSeconds >= 0
             && c.api.timeoutSeconds <= 0)
            ==> r == Failure(TimeoutMessage)
    ensures (&& Truthy(c.githubToken) && c.cache.ttlSeconds >= 0 && c.api.timeoutSeconds > 0
             && c.limits.defaultLimit <= 0)
            ==> r == Failure(DefaultLimitMessage)
    ensures (&& Truthy(c.githubToken) && c.cache.ttlSeconds >= 0 && c.api.timeoutSeconds > 0
             && c.limits.defaultLimit > 0 && c.limits.maxLimit <= c.limits.defaultLimit)
            ==> r == Failure(MaxLimitMessage)
  {
    if !Truthy(c.githubToken) then Failure(TokenRequiredMessage)
    else if c.cache.ttlSeconds < 0 then Failure(NegativeTtlMessage)
    else if c.api.timeoutSeconds <= 0 then Failure(TimeoutMessage)
    else if c.limits.defaultLimit <= 0 then Failure(DefaultLimitMessage)
    else if c.limits.maxLimit <= c.limits.defaultLimit then Failure(MaxLimitMessage)
    else Success(c)
  }

  /** `Config()`: every part at its default, the token taken from the environment. */
  function DefaultConfig(environmentToken: Option<string>): (r: Result<Config, string>)
    ensures r.Success? <==> Truthy(environmentToken)
    ensures r.Failure? ==> r.error == TokenRequiredMessage
    ensures r.Success? ==> r.value.githubToken == environmentToken
    ensures r.Success? ==> r.value.cache.directory == ".cache" && r.value.cache.ttlSeconds == 3600
                           && r.value.cache.enabled
    ensures r.Success? ==> r.value.api.timeoutSeconds == 30 && r.value.api.maxRetries == 3
                           && r.value.api.retryDelaySeconds == 1.0 && r.value.api.rateLimitBuffer == 10
    ensures r.Success? ==> r.value.limits.defaultLimit == Limits.DefaultLimit
                           && r.value.limits.maxLimit == Limits.MaximumLimit
                           && r.value.limits.unlimitedValue == -1
    ensures r.Success? ==> r.value.output == OutputConfig("table", 120, 2, 5)
                           && r.value.logging == LoggingConfig("INFO", "%(message)s", "stderr", true, 7)
  {
    Validate(Config(environmentToken, DefaultCache, DefaultApi, DefaultLimits, DefaultOutput, DefaultLogging))
  }

  /**
   * `with_cache_disabled`: caching off, and the cache directory and TTL back
   * at their defaults; everything else is kept.
   */
  function WithCacheDisabled(c: Config): (r: Result<Config, string>)
    ensures Valid(c) ==> r == Success(c.(cache := CacheConfig(".cache", 3600, false)))
    ensures r.Success? ==> Valid(r.value) && !r.value.cache.enabled
  {
    Validate(c.(cache := CacheConfig(".cache", 3600, false)))
  }

  /**
   * `with_custom_cache`: the given directory and TTL with caching on (even if
   * it was off); a negative TTL is refused.
   */
  function WithCustomCache(c: Config, directory: string, ttlSeconds: int): (r: Result<Config, string>)
    ensures Valid(c) ==> (r.Success? <==> ttlSeconds >= 0)
    ensures r.Success? ==> r.value == c.(cache := CacheConfig(directory, ttlSeconds, true)) && Valid(r.value)
  {
    Validate(c.(cache := CacheConfig(directory, ttlSeconds, true)))
  }

  /** `with_custom_token`: the given token; an empty one is refused. */
  function WithCustomToken(c: Config, token: string): (r: Result<Config, string>)
    ensures Valid(c) ==> (r.Success? <==> token != [])
    ensures r.Success? ==> r.value == c.(githubToken := Some(token)) && Valid(r.value)
  {
    Validate(c.(githubToken := Some(token)))
  }

  /** Overriding one part and then another gives the same as overriding the second alone. */
  lemma {:induction false} CustomCacheOverridesDisabled(c: Config, directory: string, ttlSeconds: int)
    requires Valid(c)
    ensures var d := WithCacheDisabled(c);
            d.Success? && WithCustomCache(d.value, directory, ttlSeconds) == WithCustomCache(c, directory, ttlSeconds)
  {
    var d := WithCacheDisabled(c);
    assert d.value.(cache := CacheConfig(directory, ttlSeconds, true)) == c.(cache := CacheConfig(directory, ttlSeconds, true));
  }

  // ---------------------------------------------------------------- create_config

  /** The cache part `create_config` puts in place when any cache option is given. */
  function CacheOverride(global: CacheConfig, cacheDir: Option<string>, cacheTtl: Option<int>, noCache: bool): (r: CacheConfig)
    ensures r.directory == if Truthy(cacheDir) then cacheDir.value else global.directory
    ensures r.ttlSeconds == if cacheTtl.Some? then cacheTtl.value else global.ttlSeconds
    ensures r.enabled == !noCache
  {
    CacheConfig(
      if Truthy(cacheDir) then cacheDir.value else global.directory,
      if cacheTtl.Some? then cacheTtl.value else global.ttlSeconds,
      !noCache)
  }

  /**
   * `create_config` over the global configuration, as written: the merged
   * configuration is validated when built, and the cache and API overrides
   * are assigned to it afterwards, without validation.
   */
  function CustomizeAsWritten(global: Config, token: Option<string>, cacheDir: Option<string>, cacheTtl: Option<int>,
                              timeout: Option<int>, noCache: bool): (r: Result<Config, string>)
    ensures r.Success? ==> r.value.githubToken == (if Truthy(token) then token else global.githubToken)
    ensures r.Success? ==> r.value.limits == global.limits && r.value.output == global.output
                           && r.value.logging == global.logging
    ensures r.Success? ==>
              r.value.cache == (if cacheDir.Some? || cacheTtl.Some? || noCache
                                then CacheOverride(global.cache, cacheDir, cacheTtl, noCache)
                                else global.cache)
    ensures r.Success? ==>
              r.value.api == (if timeout.Some? then global.api.(timeoutSeconds := timeout.value) else global.api)
    ensures r.Success? <==> Valid(global.(githubToken := if Truthy(token) then token else global.githubToken))
  {
    var merged :- Validate(global.(githubToken := if Truthy(token) then token else global.githubToken));
    var withCache := if cacheDir.Some? || cacheTtl.Some? || noCache
      then merged.(cache := CacheOverride(global.cache, cacheDir, cacheTtl, noCache))
      else merged;
    var withApi := if timeout.Some? then withCache.(api := global.api.(timeoutSeconds := timeout.value)) else withCache;
    Success(withApi)
  }

  /**
   * The overrides escape validation: a negative TTL or a zero timeout comes
   * back in a configuration that `_validate` rejects.
   */
  lemma {:induction false} CustomizeSkipsValidation(global: Config)
    requires Valid(global)
    ensures CustomizeAsWritten(global, None, None, Some(-1), None, false).Success?
    ensures !Valid(CustomizeAsWritten(global, None, None, Some(-1), None, false).value)
    ensures !Valid(CustomizeAsWritten(global, None, None, None, Some(0), false).value)
  {
  }

  /** `create_config` with the merged configuration validated once the overrides are in. */
  function Customize(global: Config, token: Option<string>, cacheDir: Option<string>, cacheTtl: Option<int>,
                     timeout: Option<int>, noCache: bool): (r: Result<Config, string>)
    ensures r.Success? ==> Valid(r.value)
    ensures r.Success? ==> r == CustomizeAsWritten(global, token, cacheDir, cacheTtl, timeout, noCache)
    ensures var w := CustomizeAsWritten(global, token, cacheDir, cacheTtl, timeout, noCache);
            w.Success? && Valid(w.value) ==> r == w
  {
    var merged :- CustomizeAsWritten(global, token, cacheDir, cacheTtl, timeout, noCache);
    Validate(merged)
  }

  /**
   * The process-wide configuration `get_config` creates on first use.
   * `environmentToken` is `GITHUB_TOKEN` at the time of the call.
   */
  class ConfigRegistry {
    var current: Option<Config>

    constructor()
      ensures current.None?
    {
      current := None;
    }

    /** `get_config`: built once, then the same configuration every time. */
    method GetConfig(environmentToken: Option<string>) returns (r: Result<Config, string>)
      modifies this
      ensures old(current).Some? ==> r == Success(old(current).value) && current == old(current)
      ensures old(current).None? ==> r == DefaultConfig(environmentToken)
      ensures old(current).None? ==> current == if r.Success? then Some(r.value) else None
      ensures r.Success? ==> current == Some(r.value)
    {
      if current.None? {
        var created := DefaultConfig(environmentToken);
        if created.Failure? {
          return created;
        }
        current := Some(created.value);
      }
      return Success(current.value);
    }

    /** `create_config` as written. */
    method CreateConfigAsWritten(token: Option<string>, cacheDir: Option<string>, cacheTtl: Option<int>,
                                 timeout: Option<int>, noCache: bool, environmentToken: Option<string>)
      returns (r: Result<Config, string>)
      modifies this
      ensures old(current).Some? ==> current == old(current)
      ensures old(current).None? ==>
        current == if DefaultConfig(environmentToken).Success? then Some(DefaultConfig(environmentToken).value) else None
      ensures current.Some? ==> r == CustomizeAsWritten(current.value, token, cacheDir, cacheTtl, timeout, noCache)
      ensures current.None? ==> r == Failure(TokenRequiredMessage)
    {
      var global :- GetConfig(environmentToken);
      var custom :- Validate(global.(githubToken := if Truthy(token) then token else global.githubToken));
      if cacheDir.Some? || cacheTtl.Some? || noCache {
        custom := custom.(cache := CacheOverride(global.cache, cacheDir, cacheTtl, noCache));
      }
      if timeout.Some? {
        custom := custom.(api := global.api.(timeoutSeconds := timeout.value));
      }
      return Success(custom);
    }

    /** `create_config`, refusing a result that breaks the configuration invariant. */
    method CreateConfig(token: Option<string>, cacheDir: Option<string>, cacheTtl: Option<int>,
                        timeout: Option<int>, noCache: bool, environmentToken: Option<string>)
      returns (r: Result<Config, string>)
      modifies this
      ensures old(current).Some? ==> current == old(current)
      ensures old(current).None? ==>
        current == if DefaultConfig(environmentToken).Success? then Some(DefaultConfig(environmentToken).value) else None
      ensures current.Some? ==> r == Customize(current.value, token, cacheDir, cacheTtl, timeout, noCache)
      ensures current.None? ==> r == Failure(TokenRequiredMessage)
      ensures r.Success? ==> Valid(r.value)
    {
      var custom :- CreateConfigAsWritten(token, cacheDir, cacheTtl, timeout, noCache, environmentToken);
      r := Validate(custom);
    }
  }
}
