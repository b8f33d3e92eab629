/**
 * Everything the core looks up from its surroundings at call time: whether
 * it runs in the console, the current request, the authenticated user, the
 * anonymous-id cookie, the clock and the UUID generator. The model receives
 * these as plain values instead of reading process-wide state.
 */
module Ambient {
  import opened Basics
  import opened Values

  datatype Surroundings = Surroundings(
    /** `app()->runningInConsole()`. */
    console: bool,
    /** `request()->ip()`, `request()->userAgent()`, `config('app.timezone')`, `app()->getLocale()`. */
    ip: Value,
    userAgent: Value,
    timezone: Value,
    locale: Value,
    /** `request()->fullUrl()`, `request()->path()`, `request()->header('referer')`. */
    fullUrl: string,
    path: string,
    referer: Option<string>,
    /** `Auth::id()` cast to a string when `Auth::check()` holds, else absent. */
    authId: Option<string>,
    /** The anonymous-id cookie as read back, if any. */
    cookie: Option<string>,
    /** `now()->toIso8601String()`. */
    now: string,
    /** The n-th message id `Uuid::uuid4()` hands out while building payloads. */
    messageIds: nat -> string,
    /** The UUID a new anonymous id would get. */
    freshAnonymousId: string)
}
