# Telemetry ingestor: a Dafny model

This project models the request-handling core of a telemetry ingestion service (NestJS).
Devices post temperature and humidity readings. The service stores them in an append-only store and keeps the newest reading of each device in a key-value cache. It raises threshold alerts, and answers "latest reading of a device" and "summary of a site over a time window" queries. An interceptor derives a cache key from the route of each of those two queries and writes the response under it. It never reads that cache, so stored responses are never served (see "## Findings").
Guards, a pipe and DTO rules shape the requests. A catch-all filter turns exceptions into error responses.

Modules, one per source file, plus shared ones:

- `Results`: `Option`, `Result`, and JavaScript truthiness of an optional string (`Present`).
- `HttpErrors`: the Nest HTTP exceptions, with a string or object response.
- `TelemetryTypes`: the record and summary shapes.
- `Service`: the telemetry service. It is a class whose `cache: map<string, Telemetry>` and `store: seq<Telemetry>` fields are updated by `CacheLatest` and `Create`. `GetLatest` and `GetTelemetrySummary` are read-only functions over that state. The cache refresh is specified by the left fold `RefreshAll`.
- `UriEncoding`: `encodeURIComponent` (section 19.2.6 of ECMA-262) and a left-inverse decoder, used to prove that the response-cache keys are collision-free.
- `CacheInterceptor`: `trackBy` key derivation, and the write-only `intercept` as a class over the cache's entries, beside a corrected read-through version.
- `ParamPatterns`, `ParamsGuard`, `ParamsPipe`: the endpoint-parameter rules, the guard and the pipe.
- `DeviceThrottle`: the rate-limit tracker key, the limit and the window.
- `IngestToken`: the Bearer-token guard, with `split(' ')` modelled and proved.
- `ExceptionFilter`: the catch-all filter, as a function from the thrown value to the response.
- `Json`, `TelemetryDto`, `TelemetryRecordDto`: the class-validator rules of the two DTO variants, as predicates over a parsed body.

Things outside the program become parameters:
- store and cache failures (`insertFails`, `cacheFailures`, `cacheReadFails`, `queryFails`, `aggregateFails`, `setFails`);
- date parsing (`parse`/`instant: string -> Option<int>`, where `None` is `NaN`);
- the ISO 8601 and date-string checks (`string -> bool`);
- the outcome of the webhook POST;
- `NODE_ENV`, `INGEST_TOKEN` and `ALERT_WEBHOOK_URL`;
- the stack trace of a freshly created `Error`.

The `forbidNonWhitelisted` rule is part of both DTO predicates. It comes from `src/main.ts:26-28` (`OnlyDeclared`).

## Model

| member | source | states |
|---|---|---|
| `Service.LatestKeyInjective` | src/telemetry/telemetry.service.ts:80-83 | `latestTelemetry:` keys of two devices are equal iff the device ids are |
| `Service.Refresh` | src/telemetry/telemetry.service.ts:80-84 | one record's cache step: the device's entry becomes the record when absent or strictly older; an equal or newer cached ts leaves the whole cache unchanged; every other key keeps its value |
| `Service.RefreshAll` | src/telemetry/telemetry.service.ts:76-97 | `cacheLatest` over a batch as a left fold of `Refresh`, skipping the records whose cache call failed; its properties are the lemmas below |
| `Service.RefreshAllKeys` | src/telemetry/telemetry.service.ts:76-97 | a batch adds exactly the keys of the records whose cache calls succeeded, and removes none |
| `Service.RefreshAllNeverRegresses` | src/telemetry/telemetry.service.ts:76-97 | a batch refresh never removes a key nor lowers the ts cached under it |
| `Service.RefreshAllFrame` | src/telemetry/telemetry.service.ts:76-97 | keys of devices outside the batch are left exactly as they were |
| `Service.RefreshAllOrigin` | src/telemetry/telemetry.service.ts:76-97 | each cached value afterwards is the old one or a record of the batch |
| `Service.RefreshAllConsistent` | src/telemetry/telemetry.service.ts:80-83 | every entry stays stored under its own device's key |
| `Service.RefreshAllCatchesUp` | src/telemetry/telemetry.service.ts:76-97 | every record whose cache call did not fail is covered: its device's entry is at least as new |
| `Service.EitherOrderKeepsNewer` | src/telemetry/telemetry.service.ts:78-84 | two readings of one device processed in either order leave the newer one cached |
| `Service.RefreshAllKeepsNewest` | src/telemetry/telemetry.service.ts:47-50 | with no cache failures, a cache as new as the store stays as new as the store plus the saved batch |
| `Service.NewestFor` | src/telemetry/telemetry.service.ts:125-129 | the store query: `None` iff the device has no record; otherwise a stored record of the device with the greatest ts |
| `Service.NewestCacheAgreesWithStore` | src/telemetry/telemetry.service.ts:105-135 | under the cache invariants, a cache hit has the same ts the store query would return |
| `Service.InWindow` | src/telemetry/telemetry.service.ts:162-164 | the window applies only when both bounds are non-empty; then a record matches iff both bounds parse and its ts lies between them inclusively |
| `Service.Matches` | src/telemetry/telemetry.service.ts:161-164 | the `$match` filter: the site and the window |
| `Service.Matching` | src/telemetry/telemetry.service.ts:161-167 | the `$match` stage keeps exactly the records of the site inside the inclusive window, each as often as stored (multiset); empty iff nothing matches |
| `Service.WindowNeedsBothBounds` | src/telemetry/telemetry.service.ts:162-164 | with either bound absent or empty, only the site selects |
| `Service.Max` | src/telemetry/telemetry.service.ts:174-176 | `$max` is one of the values and bounds all of them |
| `Service.AverageAtMostMax` | src/telemetry/telemetry.service.ts:173-176 | `$avg` never exceeds `$max` |
| `Service.AverageAtLeastMin` | src/telemetry/telemetry.service.ts:173-176 | `$avg` is never below the least value |
| `Service.Summarize` | src/telemetry/telemetry.service.ts:166-207 | count is the number of matches, uniqueDevices the number of distinct device ids; the maxima bound and are attained; each average lies between some reading and the maximum; all six fields 0 when nothing matched |
| `Service.EvaluateAlerts` | src/telemetry/telemetry.service.ts:239-260 | at most two alerts, copying the record's ids and ts, each with reason "High Temperature" or "High Humidity"; a temperature alert iff temperature > 50 with that value; a humidity alert iff humidity > 90 with that value; temperature first |
| `Service.AlertThresholdExamples` | src/telemetry/telemetry.service.ts:242-260 | 50/90 raise nothing, 51/90 one temperature alert, 51/91 both in order |
| `Service.BatchAlerts` | src/telemetry/telemetry.service.ts:51-53 | the batch's alerts are exactly the alerts of its records |
| `Service.FailureReason` | src/telemetry/telemetry.service.ts:288-296 | a failed POST is logged with "Request timed out" for ECONNABORTED, the error's message otherwise, "unknown error" for non-errors |
| `Service.SendAlert` | src/telemetry/telemetry.service.ts:272-277 | no POST iff no webhook URL is configured; otherwise the alert is posted to that URL and a failure never raises |
| `Service.TelemetryService.CacheLatest` | src/telemetry/telemetry.service.ts:76-97 | the loop leaves the cache equal to the fold `RefreshAll` over the batch, keeps the cache invariant and never raises |
| `Service.TelemetryService.Create` | src/telemetry/telemetry.service.ts:38-70 | a failed insert raises InternalServerError and changes nothing; otherwise the records are appended, the cache is refreshed, the alerts are those of the batch, and a single input gives a single record, an array an array |
| `Service.TelemetryService.GetLatest` | src/telemetry/telemetry.service.ts:105-148 | a hit returns the cached record; a miss returns the newest stored record or NotFound; a failed cache read or query is InternalServerError; the cache is only read |
| `Service.TelemetryService.GetTelemetrySummary` | src/telemetry/telemetry.service.ts:155-232 | the summary of the matching records; the zero summary when nothing matches; InternalServerError when the aggregate fails |
| `UriEncoding.EncodeURIComponent` | src/interceptors/custom-cache.interceptor.ts:44-46 | the encoded component never contains `:` |
| `UriEncoding.EncodeUnreserved` | src/interceptors/custom-cache.interceptor.ts:44-46 | letters, digits and `-_.!~*'()` are kept as they are |
| `UriEncoding.DecodeEncode` | src/interceptors/custom-cache.interceptor.ts:44-46 | decoding gives back every encoded string |
| `UriEncoding.EncodeInjective` | src/interceptors/custom-cache.interceptor.ts:44-46 | two strings have the same encoding iff they are equal |
| `CacheInterceptor.TrackBy` | src/interceptors/custom-cache.interceptor.ts:36-58 | no key for non-GET; the summary key when the path contains `site` and `summary` (tested first); else the latest key when it contains `device` and `latest`; else the parent's key |
| `CacheInterceptor.SummaryKeyInjective` | src/interceptors/custom-cache.interceptor.ts:44-47 | distinct (siteId, from, to) triples give distinct summary keys, and conversely |
| `CacheInterceptor.ParamText` | src/interceptors/custom-cache.interceptor.ts:44 | the route parameter, or `''` when it is missing or empty |
| `CacheInterceptor.QueryText` | src/interceptors/custom-cache.interceptor.ts:45-46 | the query value as `encodeURIComponent` converts it after the `''` fallback: a string as is, an array joined with commas, an object as `[object Object]`, missing as empty |
| `CacheInterceptor.SummaryKey` | src/interceptors/custom-cache.interceptor.ts:44-47 | the template `summary:${siteId}:${from}:${to}` over the encoded components |
| `CacheInterceptor.LatestRouteKey` | src/interceptors/custom-cache.interceptor.ts:52-53 | the template `latest:${deviceId}` over the encoded id |
| `CacheInterceptor.SummaryKeyVerbatim` | src/interceptors/custom-cache.interceptor.ts:44-47 | unreserved components appear in the key as `summary:site:from:to` |
| `CacheInterceptor.LatestRouteKeyInjective` | src/interceptors/custom-cache.interceptor.ts:52-53 | distinct device ids give distinct latest-route keys |
| `CacheInterceptor.NamespacesDisjoint` | src/interceptors/custom-cache.interceptor.ts:47-53 | `summary:`, `latest:` and the service's `latestTelemetry:` keys never coincide |
| `CacheInterceptor.RouteKeysPresent` | src/interceptors/custom-cache.interceptor.ts:43-54 | the two route keys are never empty, so those routes are never delegated |
| `CacheInterceptor.NonGetHasNoKey` | src/interceptors/custom-cache.interceptor.spec.ts:36-44 | a POST to the summary path has no key |
| `CacheInterceptor.SummaryKeyExample` | src/interceptors/custom-cache.interceptor.spec.ts:46-56 | the summary path gives `SummaryKey("site-A", "2025-10-01", "2025-09-30")`; with `SummaryKeyVerbatim` that is `summary:site-A:2025-10-01:2025-09-30` |
| `CacheInterceptor.LatestKeyExample` | src/interceptors/custom-cache.interceptor.spec.ts:58-66 | `/api/v1/device/dev-2/latest` gives `latest:dev-2` |
| `CacheInterceptor.OtherRouteUsesParentKey` | src/interceptors/custom-cache.interceptor.spec.ts:68-84 | `/api/v1/users` gets the parent's key |
| `CacheInterceptor.LatestKeyWithoutParam` | src/interceptors/custom-cache.interceptor.spec.ts:86-94 | a missing deviceId gives `latest:` |
| `CacheInterceptor.SummaryKeyWithoutParam` | src/interceptors/custom-cache.interceptor.spec.ts:96-104 | a missing siteId gives the key with an empty first component, `summary::2025-01-01:2025-01-31` by `SummaryKeyVerbatim` |
| `CacheInterceptor.ResponseCache.Intercept` | src/interceptors/custom-cache.interceptor.ts:65-98 | no (or an empty) key delegates and stores nothing; otherwise the handler's outcome is passed on unchanged, and an emitted response is stored under the key with the TTL metadata or 60, unless the write fails |
| `CacheInterceptor.EffectiveTtl` | src/interceptors/custom-cache.interceptor.ts:72-74 | the handler's TTL metadata, 60 when there is none; `??` keeps a metadata 0 |
| `CacheInterceptor.StoredResponseNotServed` | src/interceptors/custom-cache.interceptor.ts:65-98 | two GETs of `/api/v1/device/dev-2/latest` answered 1 then 2: the first is stored, and the second request still gets 2 |
| `CacheInterceptor.ResponseCache.InterceptReadThrough` | src/interceptors/custom-cache.interceptor.ts:65-98 | corrected `intercept`: a stored entry under the key is returned without the handler and nothing changes; on a miss it behaves as `Intercept` |
| `CacheInterceptor.StoredResponseServed` | src/interceptors/custom-cache.interceptor.ts:65-98 | the same two GETs through the read-through interceptor: the second gets the stored 1 |
| `ParamPatterns.SiteIdShape` | src/guards/endpoint-params-validation.guard.ts:36 | `^site-[A-Z]$` accepts exactly `site-` plus one capital letter |
| `ParamPatterns.DeviceIdShape` | src/guards/endpoint-params-validation.guard.ts:35 | `^dev-\d+$` accepts exactly `dev-` plus one or more ASCII digits |
| `ParamPatterns.MatchesSiteId` | src/guards/endpoint-params-validation.guard.ts:36 | `/^site-[A-Z]$/`: `site-` and exactly one ASCII capital |
| `ParamPatterns.MatchesDeviceId` | src/guards/endpoint-params-validation.guard.ts:35 | `/^dev-\d+$/`: `dev-` and one or more ASCII digits |
| `ParamPatterns.ValidParams` | src/guards/endpoint-params-validation.guard.ts:43-66 | the guard's acceptance: a non-empty siteId must match and then needs both dates parsing with from ≤ to; a non-empty deviceId must match |
| `ParamPatterns.PatternsDisjoint` | src/guards/endpoint-params-validation.guard.ts:35-36 | no string is both a site id and a device id |
| `ParamPatterns.FirstViolation` | src/guards/endpoint-params-validation.guard.ts:43-66 | no violation iff the parameters are valid; a site-format violation iff a given siteId is malformed, so siteId errors come first |
| `ParamPatterns.DatesIgnoredWithoutSite` | src/guards/endpoint-params-validation.guard.ts:43-61 | without a (non-empty) siteId the dates do not affect the outcome |
| `ParamsGuard.StringField` | src/guards/endpoint-params-validation.guard.ts:21-32 | only string values are read; anything else is absent |
| `ParamsGuard.CanActivate` | src/guards/endpoint-params-validation.guard.ts:17-82 | true iff the parameters are valid; otherwise BadRequest with the message of the first failed check |
| `ParamsGuard.SiteErrorFirst` | src/guards/endpoint-params-validation.guard.ts:43-50 | a malformed siteId is reported as "Invalid siteId" whatever the other fields are |
| `ParamsGuard.DeviceOnlyIgnoresDates` | src/guards/endpoint-params-validation.guard.ts:43-66 | a well-formed deviceId without siteId passes with any or no dates |
| `ParamsGuard.EqualBoundsAccepted` | src/guards/endpoint-params-validation.guard.ts:38-39 | equal instants pass the order check |
| `ParamsGuard.NonStringIsAbsent` | src/guards/endpoint-params-validation.guard.ts:21-24 | a non-string siteId is treated exactly as a missing one |
| `ParamsPipe.Transform` | src/pipes/endpoint-params-validation.pipe.ts:13-44 | returns its input unchanged iff the parameters are valid; otherwise BadRequest with the message of the first failed check |
| `ParamsPipe.GuardAndPipeAgree` | src/pipes/endpoint-params-validation.pipe.ts:26-41 | guard and pipe accept the same requests and fail at the same check with status 400 |
| `ParamsPipe.SameIdentifierMessages` | src/pipes/endpoint-params-validation.pipe.ts:26-41 | the two messages agree exactly for the identifier checks |
| `DeviceThrottle.GetTracker` | src/guards/device-throttle.guard.ts:17-25 | `device_` plus the header iff the header is present and non-empty; otherwise Unauthorized "Device ID is required" |
| `DeviceThrottle.GetLimit` | src/guards/device-throttle.guard.ts:27-36 | 5 iff the header is present and non-empty; otherwise the same Unauthorized |
| `DeviceThrottle.GetTtl` | src/guards/device-throttle.guard.ts:38-40 | the window is the constant 60, so positive |
| `DeviceThrottle.TrackerRoundTrip` | src/guards/device-throttle.guard.ts:24 | the device id is recovered from its tracker |
| `DeviceThrottle.TrackerInjective` | src/guards/device-throttle.guard.ts:24 | distinct devices get distinct trackers |
| `DeviceThrottle.SameCounterSameDevice` | src/guards/device-throttle.guard.ts:17-25 | two requests share a counter iff they name the same device |
| `DeviceThrottle.LimitAgreesWithTracker` | src/guards/device-throttle.guard.ts:17-36 | the limit and the tracker refuse the same requests with the same error |
| `IngestToken.Split` | src/guards/ingest-token.guard.ts:31 | `split` gives at least one segment, none containing the separator |
| `IngestToken.TakeUntil` | src/guards/ingest-token.guard.ts:31 | the prefix before the first separator |
| `IngestToken.JoinSplit` | src/guards/ingest-token.guard.ts:31 | joining the segments gives the string back |
| `IngestToken.FirstSegment` | src/guards/ingest-token.guard.ts:31 | the first segment runs up to the first separator |
| `IngestToken.SplitAfterWord` | src/guards/ingest-token.guard.ts:31 | a separator-free word and a separator split off as the first segment |
| `IngestToken.SecondSegmentIsToken` | src/guards/ingest-token.guard.ts:25-31 | after `Bearer `, `split(' ')[1]` exists and is the text up to the next space |
| `IngestToken.NewIngestTokenGuard` | src/guards/ingest-token.guard.ts:12-17 | construction succeeds iff `INGEST_TOKEN` is set and non-empty, keeping it as the token |
| `IngestToken.CanActivate` | src/guards/ingest-token.guard.ts:19-37 | true iff the header starts with `Bearer ` and its second segment is the token; "Missing or invalid Authorization header" iff the header is missing, empty or has another prefix; "Invalid token" whenever the prefix is right but the token differs; always 401 |
| `IngestToken.EmptyTokenNeverMatches` | src/guards/ingest-token.guard.ts:31-33 | `Bearer ` alone or followed by a second space is "Invalid token" for every constructed guard |
| `IngestToken.ConfiguredTokenAdmitted` | src/guards/ingest-token.guard.ts:31-36 | the configured token after `Bearer ` is admitted whatever follows the next space |
| `ExceptionFilter.Catch` | src/filters/all-exceptions.filter.ts:21-83 | status is the HttpException's own or 500; message its string response, else "Request failed", or "Internal server error" for non-HTTP; body statusCode equals the status; stack iff not production; warning iff 400 ≤ status < 500 |
| `ExceptionFilter.StackOf` | src/filters/all-exceptions.filter.ts:44-45 | the stack of the thrown Error, or of the new Error wrapping a non-error |
| `ExceptionFilter.BuiltInMessagesHidden` | src/filters/all-exceptions.filter.ts:31-34 | the built-in exceptions keep their status but reach clients as "Request failed" |
| `ExceptionFilter.ServerErrorsNotWarned` | src/filters/all-exceptions.filter.ts:61-63 | non-HTTP failures and non-4xx statuses draw no client warning |
| `ExceptionFilter.EnvironmentOnlyAffectsStack` | src/filters/all-exceptions.filter.ts:77-82 | status and message do not depend on `NODE_ENV`; production sends no stack |
| `Json.ValidatorLength` | src/telemetry/dto/create-telemetryRecord.dto.ts:21 | the counted length never exceeds the number of code points |
| `Json.PlainLength` | src/telemetry/dto/create-telemetryRecord.dto.ts:21 | without variation selectors every code point counts |
| `Json.OnlyDeclared` | src/main.ts:26-28 | `whitelist` with `forbidNonWhitelisted`: every property present is declared |
| `Json.IsString` | src/telemetry/dto/create-telemetry.dto.ts:21 | `@IsString()`: present and a string |
| `Json.IsNotEmpty` | src/telemetry/dto/create-telemetry.dto.ts:22 | `@IsNotEmpty()`: present and neither `''` nor `null`; an empty array passes |
| `Json.IsFinite` | src/telemetry/dto/create-telemetry.dto.ts:11 | the number literal parses to a finite double: magnitude below 2^1024 - 2^970 |
| `Json.IsNumber` | src/telemetry/dto/create-telemetry.dto.ts:11 | `@IsNumber()` without `allowInfinity`: a number that parses to a finite double |
| `Json.IsObject` | src/telemetry/dto/create-telemetryRecord.dto.ts:31 | `@IsObject()`: an object, not an array and not null |
| `Json.MaxLength` | src/telemetry/dto/create-telemetryRecord.dto.ts:21 | `@MaxLength(max)`: a string of at most `max` counted characters |
| `TelemetryDto.ValidFields` | src/telemetry/dto/create-telemetry.dto.ts:20-35 | a valid body has exactly the four fields, non-empty string ids, an ISO 8601 ts and nested metrics |
| `TelemetryDto.WellFormedAccepted` | src/telemetry/dto/create-telemetry.dto.ts:10-35 | non-empty ids, an ISO ts and a two-number metrics object are accepted |
| `TelemetryDto.UnknownPropertyRejected` | src/main.ts:26-28 | an undeclared property makes the body fail |
| `TelemetryDto.EmptyMetricsArrayAccepted` | src/telemetry/dto/create-telemetry.dto.ts:32-35 | `metrics: []` passes |
| `TelemetryDto.MetricArrays` | src/telemetry/dto/create-telemetry.dto.ts:32-35 | an array of metrics passes iff each part does |
| `TelemetryDto.MetricsMustBeNested` | src/telemetry/dto/create-telemetry.dto.ts:32-35 | missing, null, numeric or string metrics fail |
| `TelemetryDto.ValidMetric` | src/telemetry/dto/create-telemetry.dto.ts:10-18 | `Metric`: exactly the two readings, each a finite number |
| `TelemetryDto.NestedMetric` | src/telemetry/dto/create-telemetry.dto.ts:32-35 | `@ValidateNested()`: an object is a `Metric`, an array is checked element by element, anything else fails |
| `TelemetryDto.Valid` | src/telemetry/dto/create-telemetry.dto.ts:20-35 | the whole DTO: declared properties only, non-empty string ids, an ISO 8601 ts, non-empty nested metrics |
| `TelemetryDto.OverflowingReadingRejected` | src/telemetry/dto/create-telemetry.dto.ts:11-17 | a reading whose literal overflows the double range fails validation |
| `TelemetryRecordDto.ValidFields` | src/telemetry/dto/create-telemetryRecord.dto.ts:11-34 | a valid body has the four fields, string ids of at most 50 counted characters, a date-string ts and a metrics object of exactly two numbers |
| `TelemetryRecordDto.UnknownPropertyRejected` | src/main.ts:26-28 | an undeclared property makes the body fail |
| `TelemetryRecordDto.VariantsAgreeOnWellFormed` | src/telemetry/dto/create-telemetryRecord.dto.ts:11-34 | both variants accept bodies of the documented shape |
| `TelemetryRecordDto.EmptyIdsOnlyHere` | src/telemetry/dto/create-telemetryRecord.dto.ts:20-26 | empty ids pass here and fail the other variant |
| `TelemetryRecordDto.LongIdsOnlyThere` | src/telemetry/dto/create-telemetryRecord.dto.ts:20-22 | a deviceId over 50 characters fails here and passes the other variant |
| `TelemetryRecordDto.MetricArraysOnlyThere` | src/telemetry/dto/create-telemetryRecord.dto.ts:31-34 | a metrics array fails `@IsObject()` here and passes the other variant |
| `TelemetryRecordDto.ValidMetrics` | src/telemetry/dto/create-telemetryRecord.dto.ts:11-17 | `MetricsDto`: exactly the two readings, each a finite number |
| `TelemetryRecordDto.Valid` | src/telemetry/dto/create-telemetryRecord.dto.ts:19-35 | the whole DTO: declared properties only, string ids of at most 50 counted characters, a date-string ts, a metrics object |
| `TelemetryRecordDto.OverflowingReadingRejected` | src/telemetry/dto/create-telemetryRecord.dto.ts:12-16 | a reading whose literal overflows the double range fails validation here too |

## Left out

- Concurrency: `cacheLatest` runs its per-record get/set calls in parallel, and `create` fires it and the alerts without awaiting. The model processes the batch left to right and returns the alerts. Two records of one device interleaving so that the older one wins is not modelled.
- The webhook POST itself, its 5-second timeout, the retry comment and the `process.env` reads. Only the no-URL rule and the logged failure reason are kept; the POST's outcome is a parameter.
- Database engine behaviour: partial inserts, `findOne().sort()` tie-breaking among equal timestamps, and the aggregation pipeline's internals. The store is a sequence, an insert appends everything or fails, and the aggregate is a function.
- Float arithmetic: readings and averages are `real`, so rounding and the float value of `$avg` are not modelled. A reading keeps the exact value of its JSON literal; only overflow to an infinity is modelled (`Json.IsFinite`), so a literal that rounds to a finite double is accepted at its exact value.
- Time: `Date.parse`, `new Date(x)`, ISO 8601 and `IsDateString` are parameters. Cache TTL expiry and wall-clock time are not modelled; the TTL value (60, or the handler's metadata) is recorded as given, and its unit is not interpreted.
- Service.InWindow: a bound that does not parse is modelled as matching nothing, which is how a comparison with an invalid date behaves. How the database treats an invalid `Date` in `$gte`/`$lte` is not part of this model.
- Rate-limit counting: the fixed-window counter of the throttler base class is not part of this model; only the three overridden hooks are.
- Logging everywhere, including the request-logging middleware and the filter's log lines. Only the filter's decision to warn on 4xx is kept, as `clientWarning`.
- The controller, the bootstrap and module files, the health checks, the database connection setup, and the small filters under `src/common/filters`.
- The parent `CacheInterceptor`: its own key is the `parentKey` parameter, and its own `intercept` is `Delegated`.
- CacheInterceptor.ResponseCache.InterceptReadThrough: TTL expiry is not modelled, so every stored entry counts as a hit.
- CacheInterceptor.ResponseCache.Intercept: the response cache is a map of entries; the unawaited `set` is modelled as taking effect at once, or not at all when it fails; the `tap` on an observable emitting more than once is not modelled.
- CacheInterceptor.SummaryKeyExample and CacheInterceptor.SummaryKeyWithoutParam state the expected key as `SummaryKey(...)` of the literal components, with `SummaryKeyVerbatim` giving the concatenated text, and not as one string literal, because spelling out the encoding of the whole literal is too costly for the verifier.
- The conversion `ts: new Date(d.ts)` in `create`: records enter the model with `ts` already an instant.
- Request bodies that are not JSON objects, and the error list the validation pipe builds: the DTO rules are predicates over a body's fields.
- Json.ValidatorLength counts code points and skips U+FE0E/U+FE0F, as validator.js's length check does. The record schema's own `maxlength: 50`, which counts UTF-16 units, is not part of this model.
- The `Error` wrapper for a non-error thrown value is represented only by its stack trace (`freshStack`); its message appears only in logs.

## Findings

| source | as written | input that shows it | evidently intended | confidence | as-written member | corrected member |
|---|---|---|---|---|---|---|
| src/interceptors/custom-cache.interceptor.ts:65-98 | the override of `intercept` only writes the handler's response under the route key; it never reads the cache, so a stored response is never served | two GETs of `/api/v1/device/dev-2/latest`, the handler answering 1 then 2: `latest:dev-2` holds 1, and the second request still gets 2 from the handler | a response stored under the key is returned without running the handler, as a read-through cache (and the parent interceptor) does | medium, not executed | `CacheInterceptor.ResponseCache.Intercept`, `CacheInterceptor.StoredResponseNotServed` | `CacheInterceptor.ResponseCache.InterceptReadThrough`, `CacheInterceptor.StoredResponseServed` |
