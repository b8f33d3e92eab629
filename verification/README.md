# Dittofeed SDK for Laravel — a Dafny model

This project models the core of the Laravel SDK for Dittofeed. It covers the following parts.

- **Event client** (`DittofeedClient`):
  - identify, track, page, screen, group and batch;
  - per-verb validation;
  - payload and context enrichment;
  - the in-memory event queue with auto-flush;
  - the retrying HTTP request loop with exponential back-off, and error classification.
- **Admin client** (`AdminClient`): its endpoint table and request shape.
- **Exception factories**: `DittofeedException` and `ValidationException`.
- **Manager** (`DittofeedManager`):
  - user-id and anonymous-id resolution, including the anonymous-id cookie;
  - web-context enrichment of page calls;
  - the choice between sending now and queueing a `SendDittofeedEvent` job.
- **Queued job**: `SendDittofeedEvent` and its dispatch by event type.
- **Test double** (`FakeDittofeed`): the calls it records and its assertions.
- **Page-view middleware** (`TrackPageViews`).
- **Model-event trait** (`TracksDittofeedEvents`).
- **Key masking** in the statistics command.

PHP arrays are `map<string, Value>`, where `Value` is null, bool, int, string, a nested array or a list. PHP `empty()`, `??` and `array_merge` are written out in `Values`. Errors are values of a `Result` type.

The world outside the SDK is passed in as parameters:
- **Request outcomes**: the HTTP exchange is a sequence of per-attempt outcomes (a response, a transport error, an HTTP error).
- **Ambient state**: console or web, IP, user agent, URL, referer, cookie, the authenticated user, the clock, and the ids `Str::uuid()` would produce. These live in one `Ambient.Surroundings` value.
- **Framework string helpers**: `Str::is` and `Str::title`.
- **The facade**: the trait calls it as a function.

The facade's verbs are one datatype, `Manager.Args`. The middleware and the trait produce it, and the manager and the fake consume it. This lets a lemma follow an event from the trait or the middleware into the fake's assertions.

Modules, in dependency order:

| File | Module | Contents |
|---|---|---|
| `basics.dfy` | `Basics` | option type, string helpers, decimal conversion |
| `values.dfy` | `Values` | PHP values and array helpers |
| `errors.dfy` | `Errors` | exception factories and `Result` |
| `config.dfy` | `Config` | settings and their defaults |
| `ambient.dfy` | `Ambient` | surroundings |
| `validation.dfy` | `Validation` | per-verb validation rules |
| `transport.dfy` | `Transport` | request loop |
| `payload.dfy` | `Payload` | payload and context building |
| `client.dfy` | `Client` | event client verbs |
| `queue.dfy` | `EventQueue` | event queue |
| `admin.dfy` | `Admin` | admin client |
| `jobs.dfy` | `Jobs` | queued job |
| `manager.dfy` | `Manager` | manager |
| `fake.dfy` | `FakeFacade` | test double |
| `page_views.dfy` | `PageViews` | page-view middleware |
| `model_tracking.dfy` | `ModelTracking` | model-event trait |
| `mask_key.dfy` | `KeyMask` | key masking |

## Model

| member | source | states |
|---|---|---|
| Basics.TrimRight | src/DittofeedClient.php:31 | `rtrim($host, '/')` returns a prefix of the host that does not end in '/', and everything it cut off is '/' |
| Basics.ReplaceChars | src/Middleware/TrackPageViews.php:110-113 | `str_replace` of a set of separators by a space keeps the length, turns every separator into a space and leaves every other character in place |
| Basics.Repeat | src/Commands/DittofeedStatsCommand.php:127 | `str_repeat('*', n)` has length n and holds only '*' |
| Basics.NatToStringRoundTrip | src/DittofeedClient.php:154 | the decimal text of a count reads back as that count |
| Basics.IntToString | src/DittofeedClient.php:154 | an integer is written with a minus sign exactly when it is negative, followed by digits without leading zeros, so never "-0" or "007" |
| Basics.IntToStringRoundTrip | src/DittofeedClient.php:154 | the decimal text of an integer, with its sign, reads back as that integer |
| Values.Get | src/DittofeedClient.php:58 | `$a[$k] ?? null` gives the stored value for a present key and null for an absent one |
| Values.GetOr | src/DittofeedClient.php:206-207 | `$a[$k] ?? $default` gives the stored value for a present non-null key and the default otherwise |
| Values.Merge | src/DittofeedClient.php:205-208 | `array_merge` of two arrays with non-numeric string keys has the union of the keys, the right-hand value wins, and left-only keys keep their value |
| Values.AsArray | src/DittofeedClient.php:212 | a value is accepted where a string-keyed array is demanded exactly when it is such an array or the empty list; a non-empty list is refused (see Left out) |
| Errors.ApiError | src/Exceptions/DittofeedException.php:12-15 | the message is "Dittofeed API Error: " followed by the given one, and the code is the status |
| Errors.ConfigurationError | src/Exceptions/DittofeedException.php:20-23 | the message is "Dittofeed Configuration Error: " followed by the given one, with code 0 |
| Errors.ValidationError | src/Exceptions/DittofeedException.php:28-31 | the message is "Dittofeed Validation Error: " followed by the given one, with code 0 |
| Errors.NetworkError | src/Exceptions/DittofeedException.php:36-39 | the message is "Dittofeed Network Error: " followed by the given one, with code 0 |
| Errors.AuthenticationError | src/Exceptions/DittofeedException.php:44-47 | the message has the authentication prefix, with "Invalid or missing API key" when no message is given, and code 401 |
| Errors.RateLimitError | src/Exceptions/DittofeedException.php:52-55 | the message has the rate-limit prefix, with "Rate limit exceeded" when no message is given, and code 429 |
| Errors.PrefixesDiffer | src/Exceptions/DittofeedException.php:12-55 | no factory's message prefix is a prefix of another's |
| Errors.FactoryMessageIdentifiesKind | src/Exceptions/DittofeedException.php:12-55 | the kind of error can be read back from the message of any factory-made error |
| Errors.MissingRequired | src/Exceptions/ValidationException.php:31-34 | the message is "The <field> field is required.", and the error list holds that message under the field only |
| Errors.InvalidType | src/Exceptions/ValidationException.php:39-45 | the message is "The <field> field must be of type <expected>.", and the error list holds it under the field only |
| Errors.Multiple | src/Exceptions/ValidationException.php:50-53 | the message is "Validation failed." and the error list is the given one |
| Errors.GetErrorsReturnsConstructed | src/Exceptions/ValidationException.php:14-26 | `getErrors()` gives back the list the exception was built with |
| Config.EnrichmentFlags | src/DittofeedClient.php:235-249 | the enrichment keys are exactly those of ip, userAgent, timezone and locale whose flag is not switched off; each flag defaults to on |
| Validation.ValidateIdentity | src/DittofeedClient.php:347-352 | succeeds if and only if userId or anonymousId is non-empty in the PHP sense; otherwise "The userId or anonymousId field is required." |
| Validation.ValidateWithField | src/DittofeedClient.php:357-400 | track and group succeed if and only if there is an identity and their own field (event, groupId) is non-empty; the identity error comes first, then "The <field> field is required." |
| Validation.ZeroUserIdIsNoIdentity | src/DittofeedClient.php:347-400 | a user id of "0" alone fails every verb's identity rule |
| Transport.Classify | src/DittofeedClient.php:317-328 | 401 and 403 give an authentication error, 429 a rate-limit error, and anything else an API error with the status |
| Transport.MakeRequest | src/DittofeedClient.php:257-312 | the loop computes the same result as the recursive definition of retrying, answers locally in testing mode, and sleeps once between consecutive attempts |
| Transport.RetryStopsAtFirstSettled | src/DittofeedClient.php:266-307 | the outcome is decided at the first attempt that is not retryable, or at the last allowed one, and the sleeps grow by the multiplier |
| Transport.SendShape | src/DittofeedClient.php:257-312 | no request is made exactly in testing mode or with no attempts allowed; attempts stay within max_attempts; sleeps are one fewer than attempts, the i-th being delay times multiplier to the i |
| Transport.ClientErrorIsNotRetried | src/DittofeedClient.php:285-289 | a 4xx other than 429 on the first attempt ends the call at once with that error |
| Transport.ExhaustedRetries | src/DittofeedClient.php:291-307 | when every attempt is retryable, all max_attempts are made and the last failure is reported |
| Transport.SuccessCharacterized | src/DittofeedClient.php:266-283 | a call succeeds if and only if some attempt within the budget answers 2xx and every earlier one was retryable; an empty body then reads as `{success: true}` |
| Payload.BuildContext | src/DittofeedClient.php:225-252 | in the console the context is the caller's; on the web every enabled key is written over the caller's context, and the caller's other keys are kept |
| Payload.CustomContext | src/DittofeedClient.php:211-213 | a missing or null context is the empty array; a scalar context, and in this model a non-empty list, is the `buildContext` type error |
| Payload.DropNulls | src/DittofeedClient.php:215-219 | the final filter keeps exactly the non-null entries and those under anonymousId and context, unchanged |
| Payload.BuildPayload | src/DittofeedClient.php:203-220 | the payload fails only when a context is due and the caller's is not an array; when enabled the context is always present and built from the caller's |
| Payload.PayloadKeepsEventFields | src/DittofeedClient.php:205-219 | every non-null event field is sent unchanged, null fields are dropped except anonymousId and context, and nothing is added beyond messageId, timestamp and context |
| Payload.PayloadDefaults | src/DittofeedClient.php:205-208 | messageId and timestamp are the event's own, else the caller's non-null ones, else a fresh id and the current time |
| Payload.ResendDiffersOnlyInFreshValues | src/DittofeedClient.php:203-220 | building a payload again with a new clock reading and UUID but the same request succeeds or fails alike, and changes at most the generated messageId and timestamp; the event's own or the caller's non-null ones are kept |
| Payload.ContextInConsoleIsCallerContext | src/DittofeedClient.php:225-231 | in the console the payload's context is exactly the caller's; on the web the enabled request values override the caller's keys |
| Client.Connect | src/DittofeedClient.php:28-47 | an empty write key is a configuration error; otherwise the host is the configured one without trailing slashes |
| Client.Validate | src/DittofeedClient.php:347-400 | each verb applies its own rule; without an identity every verb fails with the identity error |
| Client.PageProperties | src/DittofeedClient.php:94-102 | url, path, referrer and title taken from the top-level data win over the caller's properties, whose other keys are kept; properties that are not an array are a type error |
| Client.EventData | src/DittofeedClient.php:53-140 | each verb sends userId and anonymousId from the data plus its own fields only; a page also sends its forced properties and fails only when they are not an array |
| Client.Prepare | src/DittofeedClient.php:53-140 | a verb without identity, or failing its own rule, stops with that validation error before any request; a prepared request goes to the verb's endpoint |
| Client.PreparedIsBuilt | src/DittofeedClient.php:53-140 | a prepared request has passed validation and carries the payload built from the verb's event data |
| Client.PrepareSucceeds | src/DittofeedClient.php:53-140 | a verb reaches its request if and only if its validation passes, a page's properties are an array, and the context is an array whenever one is due |
| Client.Deliver | src/DittofeedClient.php:53-64 | an error while preparing sends nothing; a prepared request is sent through the retry loop |
| Client.BuildItems | src/DittofeedClient.php:158-162 | one item per event, the i-th being the payload built from the i-th event alone; it fails, with the context type error, exactly when some event's context is not an array |
| Client.PrepareBatch | src/DittofeedClient.php:145-164 | an empty batch and an oversized batch are rejected with their messages; a batch of allowed size fails with the context type error exactly when some item's context is not an array, and otherwise posts exactly the built items under `batch` |
| Client.NoIdentityNoRequest | src/DittofeedClient.php:347-400 | a call with neither identifier makes no HTTP attempt and fails with the identity error |
| Client.PreparedPayloadCarriesIdentity | src/DittofeedClient.php:203-220 | a prepared payload always has anonymousId and messageId keys, and one of the two identifiers in it is non-empty |
| Client.PagePropertiesForced | src/DittofeedClient.php:90-103 | a page call that can be prepared carries properties holding url, path, referrer and title from the top-level data, over the caller's own |
| Client.BatchSizeBoundary | src/DittofeedClient.php:151-156 | a batch within the limit is accepted and one above it is rejected with the limit in the message |
| Client.BatchItemKeepsType | src/DittofeedClient.php:159-161 | an event's own non-null type is kept in its batch item |
| EventQueue.Record | src/DittofeedClient.php:172 | the queued record is the data with its type added unless the data already had one |
| EventQueue.Flush | src/DittofeedClient.php:182-198 | an empty queue sends nothing; otherwise the queue is sent as a batch and emptied only on success |
| EventQueue.QueueEvent | src/DittofeedClient.php:170-177 | the event is appended, and the queue is flushed when auto-flush is on and the batch size is reached |
| EventQueue.QueueStaysBelowBatchSize | src/DittofeedClient.php:333-342 | with auto-flush on, a successful queueing leaves fewer than batch_size events queued |
| EventQueue.OverfullQueueNeverFlushes | src/DittofeedClient.php:182-198 | a queue longer than the batch limit is never accepted by flush and stays as it is |
| EventQueue.FailedFlushResendsSameBatch | src/DittofeedClient.php:182-208 | a failed flush keeps the queue, so a later flush sends the same events; each item agrees with its first sending except in a generated messageId or timestamp the event did not carry |
| EventQueue.FillingTheQueueFlushesIt | src/DittofeedClient.php:170-198 | with auto-flush on, the event that fills the queue to batch_size sends the whole queue as one batch; the queue is emptied exactly when that batch succeeds, and kept whole otherwise; in testing mode it succeeds without a request |
| Admin.Connect | src/AdminClient.php:22-35 | the admin key and the workspace id are each required, in that order; the host loses trailing slashes |
| Admin.AuthorizationHeader | src/AdminClient.php:44 | the header is "Bearer " followed by the admin key |
| Admin.Request | src/AdminClient.php:220-259 | testing mode answers locally without a request; otherwise one request is made, a 2xx answer returns its body or the success reply, and a transport failure is a network error |
| Admin.RouteMethodAndBody | src/AdminClient.php:52-215 | exactly the creations, updates and the broadcast send carry a JSON body, the given data; updates use PUT, deletions DELETE, and the other body-carrying operations POST |
| Admin.EndpointRoundTrip | src/AdminClient.php:52-215 | given the workspace, every admin path parses back to its resource and id, even when the id contains '/' |
| Admin.RequestIdentifiesOperation | src/AdminClient.php:52-215 | two operations make the same request (method, path and body) if and only if they are the same operation; reading and deleting one template share a path and differ only in method |
| Admin.SameClassificationAsEventClient | src/AdminClient.php:244-254 | an admin request goes to its route's method, URL and body, and its answer turns into the same result or error as on the event client |
| Jobs.VerbOf | src/Jobs/SendDittofeedEvent.php:38-45 | the five verb names map to their verbs, and every other name, batch included, is unknown |
| Jobs.Handle | src/Jobs/SendDittofeedEvent.php:32-56 | a client that cannot be built fails first; an unknown type is an invalid-argument error; otherwise the job makes the client call and rethrows its failure |
| Jobs.VerbNameRoundTrip | src/Jobs/SendDittofeedEvent.php:38-43 | every verb's name dispatches back to that verb |
| Jobs.BatchIsNotAJobType | src/Jobs/SendDittofeedEvent.php:38-45 | a job of type batch fails as unknown |
| Jobs.FailuresAreRethrown | src/Jobs/SendDittofeedEvent.php:46-55 | the job's failure is the client's failure, unchanged |
| Jobs.LateValidation | src/Jobs/SendDittofeedEvent.php:35-43 | a job whose data has no identity fails with the identity error at handling time |
| Manager.New | src/DittofeedManager.php:19-41 | the manager fails exactly when the event client cannot be built, with its error; an admin client is present exactly when one can be built |
| Manager.ResolveUserId | src/DittofeedManager.php:184-191 | a registered resolver decides; without one the authenticated user's id is used |
| Manager.GetAnonymousId | src/DittofeedManager.php:196-215 | in the console there is no anonymous id (null) and no cookie; outside it a non-empty cookie is reused, and otherwise a fresh id is stored in a new cookie under the configured name |
| Manager.Assemble | src/DittofeedManager.php:46-133 | both ids are always present; an explicit id wins, a missing user id is resolved, and a missing anonymous id comes from the cookie lookup, whose new cookie is passed on |
| Manager.Dispatch | src/DittofeedManager.php:220-244 | with queueing on the call becomes a job and replies at once; otherwise it goes through the client |
| Manager.Batch | src/DittofeedManager.php:138-141 | a batch always goes straight to the client and is never queued |
| Manager.Flush | src/DittofeedManager.php:146-149 | the manager's flush is the client's flush |
| Manager.AdminClientOf | src/DittofeedManager.php:154-161 | the admin client is returned when there is one; without one, asking for it is a runtime error telling to set the admin key and workspace id |
| Manager.ResolveUserIdUsing | src/DittofeedManager.php:174-179 | after registering a resolver, user ids come from it |
| Manager.UserIdPrecedence | src/DittofeedManager.php:49 | an explicit user id is sent as given, and only an absent one is resolved |
| Manager.AnonymousIdPrecedence | src/DittofeedManager.php:50 | an explicit anonymous id is sent as given, and only an absent one comes from the cookie |
| Manager.AnonymousIdIsStable | src/DittofeedManager.php:202-212 | a second request carrying the cookie set by the first gets the same anonymous id |
| Manager.ExplicitIdsIgnoreSurroundings | src/DittofeedManager.php:46-133 | with both ids given, what identify, track, screen or group sends, and the cookie, do not depend on the surroundings (page is excluded: it reads the request) |
| Manager.PageInWebContext | src/DittofeedManager.php:88-94 | a page on the web carries the request's URL, path and referrer and its name as title |
| Manager.QueueingDefersValidation | src/DittofeedManager.php:54-56 | with queueing on, even invalid data is accepted at once, and the failure moves to the job |
| Manager.QueuedJobReplaysCall | src/DittofeedManager.php:220-236 | handling the queued job makes the same client call the manager would have made directly |
| Manager.AdminFailureDeferred | src/DittofeedManager.php:24-36 | a bad admin configuration does not stop the manager; it fails only when the admin client is asked for |
| FakeFacade.Entry | src/Testing/FakeDittofeed.php:19-64 | the recorded entry of a verb call holds its arguments under the source's key names |
| FakeFacade.Call | src/Testing/FakeDittofeed.php:19-64 | a verb call appends one entry to its own log, leaves the other logs alone and replies success |
| FakeFacade.Batch | src/Testing/FakeDittofeed.php:69-74 | a batch appends its events to the batch log only |
| FakeFacade.FilterCalls | src/Testing/FakeDittofeed.php:350-361 | a call is kept if and only if it was recorded and every given criterion equals its field |
| FakeFacade.NullCriteriaMatchAll | src/Testing/FakeDittofeed.php:352-357 | criteria that are all null filter nothing out |
| FakeFacade.TrackThenAssertTracked | src/Testing/FakeDittofeed.php:146-168 | after a track call, `assertTracked` with its event, properties and user passes |
| FakeFacade.GroupThenAssertGrouped | src/Testing/FakeDittofeed.php:232-254 | after a group call, `assertGrouped` with its group, traits and user passes |
| FakeFacade.IdentifyThenAssertIdentified | src/Testing/FakeDittofeed.php:113-130 | after an identify call, `assertIdentified` with its user and traits passes |
| FakeFacade.PageThenAssertPageViewed | src/Testing/FakeDittofeed.php:188-205 | after a page call, `assertPageViewed` with its name and properties passes |
| FakeFacade.NotTrackedIsNegation | src/Testing/FakeDittofeed.php:173-183 | `assertNotTracked` passes exactly when `assertTracked` with the same criteria fails |
| FakeFacade.NothingCalledIffFresh | src/Testing/FakeDittofeed.php:283-297 | `assertNothingCalled` passes if and only if every log is empty |
| FakeFacade.CountsFollowCalls | src/Testing/FakeDittofeed.php:259-278 | each identify or track call raises its own count by exactly one, leaves the other count alone, and adds one to the total |
| PageViews.AnyMatches | src/Middleware/TrackPageViews.php:128-134 | an exclusion list applies if and only if some pattern matches |
| PageViews.TitleSource | src/Middleware/TrackPageViews.php:90-113 | a route name wins over the path; separators become spaces, other characters stay; the root path has none |
| PageViews.PageName | src/Middleware/TrackPageViews.php:90-105 | the root path without a route name is "Home", and every other page is the title-cased text |
| PageViews.Handle | src/Middleware/TrackPageViews.php:15-35 | the response is returned unchanged, and a page call is made if and only if the request should be tracked |
| PageViews.TrackedExactly | src/Middleware/TrackPageViews.php:40-68 | tracked exactly for a non-ajax, non-JSON GET below status 400 that no route or URL pattern excludes |
| PageViews.EmptyListsExcludeNothing | src/Middleware/TrackPageViews.php:118-124 | with both exclusion lists empty, every plain successful GET is tracked |
| PageViews.SeparatorsAreInterchangeable | src/Middleware/TrackPageViews.php:110-113 | route names that differ only in which separator they use get the same page name |
| PageViews.TrackedPageIsAssertable | src/Middleware/TrackPageViews.php:73-85 | the middleware's page call, made on the fake, satisfies `assertPageViewed` with the page name, which is also the title |
| ModelTracking.Hooks | src/Traits/TracksDittofeedEvents.php:12-32 | created, updated and deleted are hooked if and only if both auto-track switches are on |
| ModelTracking.StringCast | src/Traits/TracksDittofeedEvents.php:149 | a string is kept, an integer becomes its canonical decimal text, which reads back as it, true becomes "1", null and false become "", and an array "Array" |
| ModelTracking.EventName | src/Traits/TracksDittofeedEvents.php:103-119 | a mapped name wins; otherwise only the three hooked events have a name |
| ModelTracking.EventProperties | src/Traits/TracksDittofeedEvents.php:124-140 | model type, id and event type, with the model's own properties over them |
| ModelTracking.UserId | src/Traits/TracksDittofeedEvents.php:145-164 | the model's own key, then its user's key, then user_id, then the authenticated user |
| ModelTracking.TrackEvent | src/Traits/TracksDittofeedEvents.php:37-66 | no call for an empty event name; otherwise identify then track for the same user; it never fails |
| ModelTracking.TrackCustomEvent | src/Traits/TracksDittofeedEvents.php:91-98 | one track call for the model's user; its failure is the method's failure |
| ModelTracking.DefaultEventNames | src/Traits/TracksDittofeedEvents.php:110-118 | an unmapped model gets "<Basename> Created/Updated/Deleted", and no call for any other event |
| ModelTracking.FailuresAreSwallowed | src/Traits/TracksDittofeedEvents.php:37-66 | what the facade answers changes neither the calls made nor the method's result |
| ModelTracking.OwnUserBeatsAuth | src/Traits/TracksDittofeedEvents.php:145-164 | a model that carries its own user is attributed to it, whoever is logged in |
| ModelTracking.CallerPropertiesWin | src/Traits/TracksDittofeedEvents.php:95 | in a custom event the caller's properties override the defaults, and the other defaults are kept |
| ModelTracking.TrackedEventIsAssertable | src/Traits/TracksDittofeedEvents.php:41-55 | a tracked model event, replayed on the fake, satisfies `assertIdentified` and `assertTracked` |
| KeyMask.MaskKey | src/Commands/DittofeedStatsCommand.php:120-131 | an empty key shows "Not set"; a key of up to 8 characters becomes all stars; a longer one keeps its first and last four characters, with stars between |
| KeyMask.AtMostEightShown | src/Commands/DittofeedStatsCommand.php:126-130 | a masked key shows at most eight characters, each in its original position |
| KeyMask.MiddleIsHidden | src/Commands/DittofeedStatsCommand.php:130 | two long keys of the same length with the same ends mask identically |

## Left out

- **Effects not modelled.**
  - HTTP through Guzzle, JSON encoding and decoding, logging and `usleep`.
  - A request is a sequence of per-attempt outcomes.
  - A 2xx body is a JSON object, or none when it is empty or not JSON (PHP's `json_decode` gives null and the success reply is used).
  - Sleeping is recorded as a list of delays.
- Transport.MakeRequest:
  - `retry.multiplier` may be a float in the configuration. The model takes both the delay and the multiplier as natural numbers.
  - The environment must supply at least `max_attempts` outcomes.
  - `attempts` counts the requests issued. The source's own counter is not bumped on the successful attempt.
- **Array key order.** PHP arrays are ordered and the model's maps are not. The fake's `===` on arrays compares key order too; the model compares contents only.
- **Strings.**
  - `strlen` counts bytes, while the model counts characters.
  - `Str::uuid()`, `Str::is` and `Str::title` are parameters.
  - The HTTP method is taken to be upper case.
- **PHP lists and integer keys.** The model's arrays are maps with string keys, and `List` stands for a JSON list only. PHP treats both as one array type, so the following are not modelled.
- Values.AsArray: a non-empty PHP list passed where an array is demanded is refused, while PHP accepts it as an array with keys 0, 1, …
- Values.Merge: PHP's `array_merge` renumbers integer and numeric-string keys from 0 (caller properties `{"42": v}` are sent under `0`); the model keeps every key as written and lets the right-hand value win.
- Payload.CustomContext: a non-empty list context is a type error here, while PHP adds the enrichment keys beside its integer keys and sends it. Scalar contexts are a type error in both. PHP's coercions in non-strict mode are not modelled.
- Client.PageProperties: list-shaped page properties are a type error here, while PHP's `array_merge` accepts them and renumbers their elements; numeric caller keys are renumbered by PHP and kept here.
- Client.BuildItems: because of the above, one event whose context is a non-empty list fails the whole batch here, while PHP sends it.
- Transport.Outcome: a 2xx body that decodes to a JSON scalar (PHP raises a TypeError through `makeRequest`'s `array` return type) or to a JSON list (PHP returns it as is) cannot be expressed; a 2xx outcome carries a JSON object or nothing.
- Manager.Assemble: the page method's `$data['url'] ?? …` fallbacks read the array the method has just built, which never holds url, path, referrer or title, so they always take the request's values; the model writes those values directly. Page properties are never read there.
- The manager's web path assumes `request()` is present whenever the application is not running in the console.
- The job's `tries`, `backoff`, queue name and connection are not modelled. Retrying a failed job is the queue worker's business.
- Client.BuildItems: the clock is read once per batch, so every item without its own timestamp gets the same one; PHP calls `now()` once per item inside the `array_map`, and item timestamps may differ across a second boundary.
- ModelTracking.TrackEvent:
  - `getDittofeedTraits` is taken as a precomputed field of the model, because it only reads model attributes.
  - The debug logging is left out.
- **Test double passive methods.** `flush`, `admin`, `getClient`, `resolveUserIdUsing` and the call-list getters of `FakeDittofeed` are not modelled. Each returns a stored value or does nothing, and the getters are the `Fake` datatype's fields.
- **Other parts of the repository.** Not part of this model:
  - the service provider;
  - the facade class;
  - the event listeners;
  - the Artisan commands other than key masking;
  - `config/dittofeed.php` (its defaults appear as the constants in `Config`).
- Client.Call and Client.Batch carry no contract of their own. Their behaviour is stated by `Client.Deliver`, `Client.NoIdentityNoRequest`, `Client.PrepareBatch` and `EventQueue.Flush`.
