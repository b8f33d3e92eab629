/**
 * The `dittofeed` configuration array as the core reads it. A setting the
 * source reads with `?? default` is an `Option` here, and the accessor below
 * applies the same fallback the source does, so the constants live in one place.
 */
module Config {
  import opened Basics
  import opened Values

  datatype Settings = Settings(
    writeKey: Option<string>,
    adminKey: Option<string>,
    workspaceId: Option<string>,
    host: Option<string>,
    testing: Option<bool>,
    retryAttempts: Option<int>,
    retryDelay: Option<nat>,
    retryMultiplier: Option<nat>,
    batchSize: Option<int>,
    autoFlush: Option<bool>,
    contextEnabled: Option<bool>,
    contextIp: Option<bool>,
    contextUserAgent: Option<bool>,
    contextTimezone: Option<bool>,
    contextLocale: Option<bool>,
    queueEnabled: Option<bool>,
    cookieName: Option<string>,
    cookieLifetime: Option<int>,
    excludedRoutes: seq<string>,
    excludedUrls: seq<string>,
    autoTrackEnabled: Value,
    autoTrackModelEvents: Value)

  const DefaultHost := "https://app.dittofeed.com"
  const DefaultAttempts := 3
  const DefaultDelay: nat := 1000
  const DefaultMultiplier: nat := 2
  const DefaultBatchSize := 100
  const DefaultCookieName := "dittofeed_anonymous_id"
  const DefaultCookieLifetime := 525600

  /** The host with every trailing '/' removed, as both HTTP clients use it. */
  function Host(s: Settings): string {
    TrimRight(s.host.GetOr(DefaultHost), '/')
  }

  predicate Testing(s: Settings) { s.testing.GetOr(false) }
  function MaxAttempts(s: Settings): int { s.retryAttempts.GetOr(DefaultAttempts) }
  function InitialDelay(s: Settings): nat { s.retryDelay.GetOr(DefaultDelay) }
  function Multiplier(s: Settings): nat { s.retryMultiplier.GetOr(DefaultMultiplier) }
  function BatchSize(s: Settings): int { s.batchSize.GetOr(DefaultBatchSize) }
  predicate AutoFlush(s: Settings) { s.autoFlush.GetOr(true) }
  predicate ContextEnabled(s: Settings) { s.contextEnabled.GetOr(true) }
  predicate QueueEnabled(s: Settings) { s.queueEnabled.GetOr(false) }
  function CookieName(s: Settings): string { s.cookieName.GetOr(DefaultCookieName) }
  function CookieLifetime(s: Settings): int { s.cookieLifetime.GetOr(DefaultCookieLifetime) }

  /** Which request-derived context keys are enabled, each defaulting to on. */
  function EnrichmentKeys(s: Settings): (keys: set<string>)
    ensures keys <= {"ip", "userAgent", "timezone", "locale"}
  {
    (if s.contextIp.GetOr(true) then {"ip"} else {})
    + (if s.contextUserAgent.GetOr(true) then {"userAgent"} else {})
    + (if s.contextTimezone.GetOr(true) then {"timezone"} else {})
    + (if s.contextLocale.GetOr(true) then {"locale"} else {})
  }

  /** Each request-derived key is enriched unless its flag is explicitly off;
      an unset flag counts as on. */
  lemma EnrichmentFlags(s: Settings)
    ensures "ip" in EnrichmentKeys(s) <==> s.contextIp != Some(false)
    ensures "userAgent" in EnrichmentKeys(s) <==> s.contextUserAgent != Some(false)
    ensures "timezone" in EnrichmentKeys(s) <==> s.contextTimezone != Some(false)
    ensures "locale" in EnrichmentKeys(s) <==> s.contextLocale != Some(false)
  {
  }
}
