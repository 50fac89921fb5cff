# Vigilant health checks for WordPress — verified model

This project models the decision logic of the Vigilant health-checks plugin
for WordPress in Dafny, and proves properties of that model. It covers:

- the settings layer: the probe catalogue, the on/off toggle maps, and the
  API token that is stored as a SHA-256 digest;
- the bearer-token gate of the `/health` REST endpoint;
- four health checks: WP-Cron heartbeat, Site Health critical issues,
  WordPress core version, plugin updates;
- the database-size metric with its two-tier TTL cache;
- the probe registry and the scheduler that fills it from the toggles.

WordPress and PHP are not modelled; they are inputs. This means stored
options, the clock, the `$wpdb` object, site transients, the filters,
`sanitize_text_field`, `version_compare` and SHA-256. PHP values are a
small datatype (`Php.Value`). Its helpers follow PHP's rules for
truthiness, `empty()`, `isset()`, `??`, `(int)` casts, `trim()` and
`ctype_xdigit()`. SHA-256 is any function whose output is 64 lower-case hex
digits (`Hashing.Sha256`). An error that PHP raises and the code does not
catch ends a check's run as `Results.CheckRun.Threw`. Examples are a
`TypeError` under `strict_types` or an uncaught `RuntimeException`.

Modules, one per source file, plus shared helpers:

| module | models |
|---|---|
| `Wrappers`, `PhpStrings`, `Php`, `Hashing`, `Results` | option/result types, PHP string and value semantics, digest shape, result records |
| `Options` | `src/Settings/Options.php` |
| `HealthEndpoint` | `checkPermissions` in `src/Rest/HealthEndpoint.php` |
| `CronCheck` | `src/Checks/CronCheck.php` |
| `DatabaseSizeMetric` | `src/Checks/Metrics/DatabaseSizeMetric.php` |
| `PluginUpdatesCheck` | `src/Checks/PluginUpdatesCheck.php` |
| `SiteHealthCheck` | `src/Checks/SiteHealthCheck.php` |
| `CoreVersionCheck` | `src/Checks/CoreVersionCheck.php` |
| `Registry` | `src/HealthCheckRegistry.php` |
| `Scheduler` | `src/Cron/Scheduler.php` |

Code that updates state step by step is imperative Dafny. That covers the
toggle loops, the registry, the size cache, the scheduler's event list and
options, Site Health memoisation, and the collecting loops. Each such
method is proved against a pure function, and the lemmas are about those
functions.

## Model

| member | source | states |
|---|---|---|
| `PhpStrings.Trim` | src/Settings/Options.php:151 | PHP `trim()` with its default character set: the result neither starts nor ends with a trimmed character |
| `PhpStrings.TrimIdempotent` | src/Settings/Options.php:151 | trimming a trimmed string changes nothing |
| `PhpStrings.ParseNatToDecimal` | src/Checks/CronCheck.php:48 | the `%d` rendering of a count reads back as that count |
| `PhpStrings.IntToDecimalRoundTrip` | src/Checks/CronCheck.php:48 | the `%d` rendering of any integer, negative ones included, parses back to it |
| `PhpStrings.ToLowerAscii` | src/Checks/SiteHealthCheck.php:92-98 | PHP's case folding of function and method names: same length, no upper-case ASCII letter left, every other character kept |
| `PhpStrings.ToLowerAsciiAppend` | src/Checks/SiteHealthCheck.php:92 | folding works character by character, so folding `get_test_` followed by a name is folding each part and joining them |
| `Php.Lookup` | src/Settings/Options.php:212-214 | an array lookup finds a value exactly when the key is present, and the value is the one stored under it |
| `Php.LookupDistinct` | src/Settings/Options.php:212-214 | in an array without repeated keys, looking up an entry's key gives that entry's value |
| `Results.FieldValueAppend` | src/Checks/CronCheck.php:71-83 | a data map built in parts answers a lookup from the first part that has the key |
| `Hashing.DigestShape` | src/Settings/Options.php:187-192 | a SHA-256 hex digest is unchanged by `trim` and passes `ctype_xdigit` |
| `Options.DefaultTogglesEnableAll` | src/Settings/Options.php:38-107 | the default toggles list all six checks and all four metrics, in catalogue order, all on, with no repeated key |
| `Options.DefaultCheckToggles` | src/Settings/Options.php:96-99 | one toggle per available check, with its key, in catalogue order, all on |
| `Options.DefaultMetricToggles` | src/Settings/Options.php:104-107 | one toggle per available metric, with its key, in catalogue order, all on |
| `Options.SanitizeToggleOption` | src/Settings/Options.php:227-238 | exactly the default keys in default order; a key is on iff the submitted array holds a non-empty value under it; a non-array submission turns everything off |
| `Options.SanitizeCheckToggles` | src/Settings/Options.php:135-138 | check toggles sanitised against the check defaults |
| `Options.SanitizeMetricToggles` | src/Settings/Options.php:144-147 | metric toggles sanitised against the metric defaults |
| `Options.NormalizeToggleValues` | src/Settings/Options.php:205-220 | exactly the default keys in default order; a stored key keeps its value cast to bool, a missing key takes its default, and a non-array stored value gives the defaults |
| `Options.EnabledChecks` | src/Settings/Options.php:112-117 | the stored check toggles, normalised against the check defaults |
| `Options.EnabledMetrics` | src/Settings/Options.php:123-128 | the stored metric toggles, normalised against the metric defaults |
| `Options.ToggleArrayLookup` | src/Settings/Options.php:212-214 | a stored toggle map answers each of its keys with the saved boolean |
| `Options.SanitizeIdempotent` | src/Settings/Options.php:227-238 | sanitising an already sanitised toggle map returns it unchanged |
| `Options.NormalizeReadsBackSanitized` | src/Settings/Options.php:205-238 | a sanitised map, once stored, reads back exactly as saved, and no default overrides a stored key |
| `Options.SanitizeCheckTogglesExample` | src/Settings/Options.php:135-138 | `['database' => '1', 'cron' => 0]` turns on `database` only |
| `Options.EnabledChecksExample` | src/Settings/Options.php:112-117 | stored `['database' => false, 'cron' => true]` reads back with `database` off and every other check on |
| `Options.GetApiToken` | src/Settings/Options.php:149-152 | the stored token, trimmed; trimming it again changes nothing |
| `Options.GetApiTokenDigest` | src/Settings/Options.php:164-193 | non-empty iff the trimmed stored value is 64 hex digits, and then it is that value; otherwise '' |
| `Options.IsHashedToken` | src/Settings/Options.php:190-193 | a value of digest shape is left unchanged by `trim` |
| `Options.HasApiToken` | src/Settings/Options.php:154-157 | true iff the trimmed stored value is 64 hex digits |
| `Options.SanitizeApiToken` | src/Settings/Options.php:171-188 | a non-string or blank submission clears the token; the placeholder keeps the stored token; anything else becomes the SHA-256 hex digest of the trimmed, sanitised text |
| `Options.SavedTokenIsConfigured` | src/Settings/Options.php:154-188 | saving a real token stores a value that reads back as its digest, so a token is configured |
| `Options.DigestReadsBack` | src/Settings/Options.php:164-169 | a stored SHA-256 hex digest is recognised and returned unchanged |
| `Options.PlaceholderKeepsDigest` | src/Settings/Options.php:183-185 | submitting the placeholder leaves the configured digest, or its absence, as it was |
| `Options.BlankSubmissionClearsToken` | src/Settings/Options.php:173-181 | a blank or non-string submission leaves no token configured |
| `HealthEndpoint.MatchBearer` | src/Rest/HealthEndpoint.php:71 | every capture it returns is a match of `/^Bearer\s+(.*)$/i`, and the capture does not start with whitespace because `\s+` is greedy |
| `HealthEndpoint.MatchBearerComplete` | src/Rest/HealthEndpoint.php:71 | whenever the pattern matches the header at all, `MatchBearer` finds a match |
| `HealthEndpoint.BearerHeaderCapture` | src/Rest/HealthEndpoint.php:71-79 | `Bearer <token>` captures exactly the token when the token is one line and does not start with whitespace |
| `HealthEndpoint.CheckPermissions` | src/Rest/HealthEndpoint.php:47-99 | guards in order: no digest, missing header, wrong scheme, blank or mismatching token; access is granted iff a digest is configured, the header uses the Bearer scheme, and the digest of the trimmed token equals the stored digest |
| `HealthEndpoint.SavedTokenAuthenticates` | src/Rest/HealthEndpoint.php:47-99 | a token saved through the settings sanitiser and presented as `Bearer <token>` is accepted |
| `HealthEndpoint.MatchingTokenIsGranted` | src/Rest/HealthEndpoint.php:79-99 | a non-blank trimmed token carried by the header whose digest equals the stored digest is accepted |
| `HealthEndpoint.WrongTokenIsRejected` | src/Rest/HealthEndpoint.php:89-97 | a token whose digest differs from the stored one is an invalid-token error |
| `HealthEndpoint.BareBearerIsSchemeError` | src/Rest/HealthEndpoint.php:71-77 | a bare `Bearer` with no whitespace after it is a scheme error |
| `HealthEndpoint.BlankBearerTokenIsInvalid` | src/Rest/HealthEndpoint.php:79-87 | `Bearer` followed only by spaces carries a blank token and is an invalid-token error |
| `HealthEndpoint.LowerCaseSchemeIsAccepted` | src/Rest/HealthEndpoint.php:71 | the scheme word is matched in any letter case |
| `CronCheck.BuildResult` | src/Checks/CronCheck.php:69-91 | the data map holds exactly the non-null values among last_run, threshold_seconds and elapsed_seconds, and is null when all are null |
| `CronCheck.DataFields` | src/Checks/CronCheck.php:71-83 | each of last_run, threshold_seconds and elapsed_seconds is found in the data map with its own value, or is absent when null |
| `CronCheck.LastRun` | src/Checks/CronCheck.php:30 | 0 when no heartbeat is stored; a stored integer as is; a stored numeral through the `(int)` cast |
| `CronCheck.IsDisabled` | src/Checks/CronCheck.php:64-67 | false when `DISABLE_WP_CRON` is undefined; for a boolean its value; for a string, true unless it is '' or '0' (so 'false' disables cron) |
| `CronCheck.Available` | src/Checks/CronCheck.php:59-62 | when unavailable, every run reports "WP-Cron is disabled via DISABLE_WP_CRON." |
| `CronCheck.Run` | src/Checks/CronCheck.php:18-57 | never Unhealthy; Healthy iff cron is enabled, the heartbeat is non-zero and at most the threshold old, and then the message is "WP-Cron has run within the expected timeframe."; disabled and not-yet-run Warnings carry their messages and data; a stale heartbeat names the elapsed seconds |
| `CronCheck.RecentHeartbeatIsHealthy` | src/Checks/CronCheck.php:31-47 | a heartbeat 100 s old is healthy under the default 300 s threshold |
| `CronCheck.StaleHeartbeatReportsElapsed` | src/Checks/CronCheck.php:43-56 | a heartbeat 400 s old gives Warning "WP-Cron has not run for 400 seconds." |
| `CronCheck.DisabledCronIsWarning` | src/Checks/CronCheck.php:20-67 | a truthy `DISABLE_WP_CRON` makes the check unavailable and a Warning |
| `CronCheck.MissingHeartbeatIsNotRun` | src/Checks/CronCheck.php:30-41 | with no stored heartbeat the monitor has not run yet |
| `DatabaseSizeMetric.TotalBytesAppend` | src/Checks/Metrics/DatabaseSizeMetric.php:104-110 | the summed size is additive over any split of the rows |
| `DatabaseSizeMetric.RowsWithoutLengthsAddNothing` | src/Checks/Metrics/DatabaseSizeMetric.php:107-108 | rows without Data_length and Index_length count as 0 |
| `DatabaseSizeMetric.SumTableSizes` | src/Checks/Metrics/DatabaseSizeMetric.php:104-110 | the loop's total is the sum of Data_length + Index_length over the rows |
| `DatabaseSizeMetric.CacheTtl` | src/Checks/Metrics/DatabaseSizeMetric.php:185-194 | 300 without filters; otherwise the filtered value when it is not negative, else 0; never negative |
| `DatabaseSizeMetric.Available` | src/Checks/Metrics/DatabaseSizeMetric.php:56-76 | true iff a `wpdb` instance is resolved; `Measure` fails with the error meta when it is false |
| `DatabaseSizeMetric.StoredSizeIsServed` | src/Checks/Metrics/DatabaseSizeMetric.php:122-174 | after a store with a positive TTL, the size is served from the cache up to and including its expiry second |
| `DatabaseSizeMetric.ExpiredEntryIsEvicted` | src/Checks/Metrics/DatabaseSizeMetric.php:130-140 | without an object-cache hit, an expired local entry is a miss and is removed |
| `DatabaseSizeMetric.LookupIsStable` | src/Checks/Metrics/DatabaseSizeMetric.php:122-143 | eviction removes only entries that were already misses, so a repeated lookup answers the same |
| `DatabaseSizeMetric.ZeroTtlStoresNothing` | src/Checks/Metrics/DatabaseSizeMetric.php:160-166 | a TTL of 0 writes neither cache tier |
| `DatabaseSizeMetric.SizeMetric.GetCachedSize` | src/Checks/Metrics/DatabaseSizeMetric.php:122-158 | an object-cache hit wins; otherwise a local entry is a hit until it expires, and an expired one is removed |
| `DatabaseSizeMetric.SizeMetric.SetCachedSize` | src/Checks/Metrics/DatabaseSizeMetric.php:160-183 | with a positive TTL, stores `(value, now + ttl)` locally and `(value, ttl)` in the object cache when the site has one; otherwise writes nothing |
| `DatabaseSizeMetric.SizeMetric.CalculateSize` | src/Checks/Metrics/DatabaseSizeMetric.php:78-115 | a cache hit returns without the prefix check or a scan; otherwise an empty prefix or a non-array scan fails, leaving the local cache as the lookup left it (an expired entry evicted) and the object cache untouched; a scanned total is cached and returned |
| `DatabaseSizeMetric.SizeMetric.Measure` | src/Checks/Metrics/DatabaseSizeMetric.php:30-76 | unit always MB; `meta.error` is present iff the database is missing, the prefix is empty or the scan is not an array, and then the value is 0; both caches are stated in every case: untouched without a database, as the lookup left them after a hit or a failure, and holding the new total after a scan |
| `DatabaseSizeMetric.MeasureTwice` | src/Checks/Metrics/DatabaseSizeMetric.php:30-115 | two measurements within the default TTL report the same total, and only the first one scans |
| `PluginUpdatesCheck.CollectOutdatedPlugins` | src/Checks/PluginUpdatesCheck.php:76-101 | nothing when the record is not an object or its response is empty or not an array; otherwise one record per object entry, in order |
| `PluginUpdatesCheck.Outdated` | src/Checks/PluginUpdatesCheck.php:76-101 | empty when there is nothing to collect, otherwise as many records as object entries in the response |
| `PluginUpdatesCheck.CollectedAppend` | src/Checks/PluginUpdatesCheck.php:84-98 | the records and the object count of concatenated entries concatenate and add up |
| `PluginUpdatesCheck.CollectedCountsObjects` | src/Checks/PluginUpdatesCheck.php:84-98 | exactly one record per object entry |
| `PluginUpdatesCheck.CollectedInOrder` | src/Checks/PluginUpdatesCheck.php:84-98 | the record for an object entry sits at the position given by the number of object entries before it; its name is the string slug or else the key, and its versions are kept only when they are strings |
| `PluginUpdatesCheck.NonObjectsAreSkipped` | src/Checks/PluginUpdatesCheck.php:85-87 | entries that are not objects yield no records |
| `PluginUpdatesCheck.ResultFor` | src/Checks/PluginUpdatesCheck.php:31-43 | Healthy "All plugins are up to date." iff the count is 0, else Warning with the count; never Unhealthy |
| `PluginUpdatesCheck.UpdatesMessageIdentifiesCount` | src/Checks/PluginUpdatesCheck.php:36 | different counts give different messages |
| `PluginUpdatesCheck.Run` | src/Checks/PluginUpdatesCheck.php:20-70 | missing update functions raise an exception that is not caught; otherwise Healthy iff there are no object entries to report |
| `PluginUpdatesCheck.Available` | src/Checks/PluginUpdatesCheck.php:46-74 | true iff the update functions load; `Run` throws exactly when it is false |
| `SiteHealthCheck.CriticalIssues` | src/Checks/SiteHealthCheck.php:62-110 | defined iff no test raises a `TypeError`; then the issues are exactly the critical results of the tests, in test order (`CriticalResults`), each an array whose status is 'critical' |
| `SiteHealthCheck.DirectTests` | src/Checks/SiteHealthCheck.php:64-67 | the values of `$tests['direct'] ?? []`, in order; none without a `direct` key |
| `SiteHealthCheck.CallbackResult` | src/Checks/SiteHealthCheck.php:88-104 | a string test resolves first to the `get_test_<name>` method, then to the global function `name`, both case-insensitively; a closure is called; anything else is not callable |
| `SiteHealthCheck.MethodShadowsFunction` | src/Checks/SiteHealthCheck.php:91-100 | when the `get_test_<name>` method exists, the global functions play no part |
| `SiteHealthCheck.TestNameCaseIsIgnored` | src/Checks/SiteHealthCheck.php:91-100 | test names that differ only in letter case resolve to the same callback |
| `SiteHealthCheck.ExecuteTest` | src/Checks/SiteHealthCheck.php:82-110 | skipped iff the entry is an array with no `test` or nothing callable; raises iff the entry is not an array or the filtered result is neither an array nor null; otherwise returns the filtered result |
| `SiteHealthCheck.IsCritical` | src/Checks/SiteHealthCheck.php:70 | a critical result is an array whose `status` is present and exactly 'critical' |
| `SiteHealthCheck.CriticalResultsAppend` | src/Checks/SiteHealthCheck.php:67-73 | the critical results of two runs of tests are those of each, in order |
| `SiteHealthCheck.NoCriticalResults` | src/Checks/SiteHealthCheck.php:67-73 | no critical result iff no test returns a critical result |
| `SiteHealthCheck.CriticalResultIsGathered` | src/Checks/SiteHealthCheck.php:67-73 | every test's critical result is among the issues |
| `SiteHealthCheck.NonCriticalTestsAddNothing` | src/Checks/SiteHealthCheck.php:70-104 | skipped and non-critical tests add no issue |
| `SiteHealthCheck.MissingDirectMeansNoIssues` | src/Checks/SiteHealthCheck.php:67 | without a `direct` key there are no issues |
| `SiteHealthCheck.CollectCriticalIssues` | src/Checks/SiteHealthCheck.php:62-76 | the loop collects exactly the critical results of the direct tests, and stops on a raised error |
| `SiteHealthCheck.BuildDetails` | src/Checks/SiteHealthCheck.php:36-38 | the details are built iff every issue's label, description or test value is a string, and each detail is that value |
| `SiteHealthCheck.Detail` | src/Checks/SiteHealthCheck.php:36-38 | the label when set, else the description, else the test, else "Unknown test"; None when the chosen value is not a string |
| `SiteHealthCheck.Outcome` | src/Checks/SiteHealthCheck.php:19-46 | never Warning; Healthy iff no direct test returns a critical result, else Unhealthy with the count of critical results; a `TypeError` from a test's result or from an issue's detail leaves the check |
| `SiteHealthCheck.OneCriticalTestIsUnhealthy` | src/Checks/SiteHealthCheck.php:19-96 | a direct test resolved through its `get_test_<name>` method and returning a critical result makes the check Unhealthy with count 1 |
| `SiteHealthCheck.SiteHealthCheck.constructor` | src/Checks/SiteHealthCheck.php:17 | an injected instance is held |
| `SiteHealthCheck.SiteHealthCheck.ResolveSiteHealth` | src/Checks/SiteHealthCheck.php:112-130 | a held instance is reused; otherwise a new one is created and memoised, or "WP_Site_Health class is unavailable." fails with nothing kept |
| `SiteHealthCheck.SiteHealthCheck.Available` | src/Checks/SiteHealthCheck.php:48-57 | true iff an instance is held or the class can be loaded |
| `SiteHealthCheck.SiteHealthCheck.Run` | src/Checks/SiteHealthCheck.php:19-46 | a resolution failure is Unhealthy with the exception's message; otherwise the outcome for the resolved instance, which stays memoised (a held instance is kept, a created one is stored, nothing is kept on failure) |
| `CoreVersionCheck.FirstQualifying` | src/Checks/CoreVersionCheck.php:87-95 | the first offer whose response is 'upgrade' or 'latest' and whose `current` is not empty, and none before it qualifies; none when no offer qualifies |
| `CoreVersionCheck.Qualifies` | src/Checks/CoreVersionCheck.php:87-94 | only an object offer with a set `current` qualifies |
| `CoreVersionCheck.FetchLatestVersion` | src/Checks/CoreVersionCheck.php:76-98 | an empty update list gives no version; otherwise the result is the `current` of the first qualifying offer when it is a string, a `TypeError` (the `?string` return type) exactly when that `current` is not a string, and no version when no offer qualifies |
| `CoreVersionCheck.BuildResult` | src/Checks/CoreVersionCheck.php:105-119 | null versions are left out of the data, and the data is null when both versions are null |
| `CoreVersionCheck.Run` | src/Checks/CoreVersionCheck.php:20-48 | never Unhealthy; Healthy iff the update functions exist, a latest version is known and the current version is at least it; with a known latest version the message is "WordPress core is up to date (version …)." or "WordPress core update available: … → …." naming both versions, and `latest_version` holds it; the unavailable and unknown cases are Warnings that carry only the current version |
| `CoreVersionCheck.Available` | src/Checks/CoreVersionCheck.php:50-74 | when unavailable, every run is a Warning "WordPress update functions are unavailable." carrying only the current version |
| `CoreVersionCheck.FirstOfferWins` | src/Checks/CoreVersionCheck.php:87-95 | the first qualifying offer wins over a later one |
| `CoreVersionCheck.EmptyCurrentIsSkipped` | src/Checks/CoreVersionCheck.php:88-94 | an offer with an empty `current` is passed over |
| `Registry.HealthCheckRegistry.constructor` | src/HealthCheckRegistry.php:12-16 | a new registry has no checks and no metrics |
| `Registry.HealthCheckRegistry.RegisterCheck` | src/HealthCheckRegistry.php:18-21 | appends the check, with no deduplication, and leaves the metrics unchanged |
| `Registry.HealthCheckRegistry.RegisterMetric` | src/HealthCheckRegistry.php:23-26 | appends the metric, with no deduplication, and leaves the checks unchanged |
| `Registry.HealthCheckRegistry.GetChecks` | src/HealthCheckRegistry.php:31-34 | returns the checks in registration order |
| `Registry.HealthCheckRegistry.GetMetrics` | src/HealthCheckRegistry.php:39-42 | returns the metrics in registration order |
| `Registry.HealthCheckRegistry.Clear` | src/HealthCheckRegistry.php:44-48 | empties both lists |
| `Scheduler.RegisterSchedule` | src/Cron/Scheduler.php:49-57 | adds the 60-second 'vigilant_healthchecks_minutely' schedule and keeps every other schedule |
| `Scheduler.RegisterScheduleIdempotent` | src/Cron/Scheduler.php:49-57 | applying the filter twice gives the same schedules as once |
| `Scheduler.NextScheduled` | src/Cron/Scheduler.php:61 | no time is found iff no event is scheduled for the hook |
| `Scheduler.NextScheduledAppend` | src/Cron/Scheduler.php:61-62 | a newly added event is the next one only when none was scheduled before |
| `Scheduler.ScheduleEventIdempotent` | src/Cron/Scheduler.php:59-64 | once the heartbeat is scheduled at a non-zero time, scheduling again changes nothing |
| `Scheduler.RepeatedSchedulingLeavesOneEvent` | src/Cron/Scheduler.php:35-64 | starting without a heartbeat, repeated scheduling leaves exactly one heartbeat event |
| `Scheduler.Site.ScheduleEvent` | src/Cron/Scheduler.php:59-64 | adds a minutely heartbeat event at the current time only when nothing is scheduled |
| `Scheduler.Site.Deactivate` | src/Cron/Scheduler.php:40-43 | removes every heartbeat event and keeps the others in order |
| `Scheduler.Site.RecordCronRun` | src/Cron/Scheduler.php:66-69 | stores the current time under the last-cron option, which the cron check then reads as its heartbeat |
| `Scheduler.HeartbeatKeepsCronCheckHealthy` | src/Cron/Scheduler.php:66-69 | after the heartbeat runs at a non-zero time, the cron check is Healthy until the threshold has passed |
| `Scheduler.SelectedMembership` | src/Cron/Scheduler.php:73-95 | a probe is registered iff some enabled toggle's key maps to it in the catalogue |
| `Scheduler.DefaultsSelectAll` | src/Cron/Scheduler.php:75-95 | the all-on default toggles register the whole catalogue in catalogue order |
| `Scheduler.NothingStoredRegistersAllChecks` | src/Cron/Scheduler.php:73-83 | with nothing stored, all six checks are registered, in catalogue order |
| `Scheduler.NothingStoredRegistersAllMetrics` | src/Cron/Scheduler.php:85-95 | with nothing stored, all four metrics are registered, in catalogue order |
| `Scheduler.RegisterChecks` | src/Cron/Scheduler.php:75-83 | appends exactly the enabled catalogue checks, in toggle order, and leaves the metrics unchanged |
| `Scheduler.RegisterMetrics` | src/Cron/Scheduler.php:87-95 | appends exactly the enabled catalogue metrics, in toggle order, and leaves the checks unchanged |
| `Scheduler.RegisterChecksAndMetrics` | src/Cron/Scheduler.php:71-96 | appends the enabled catalogue checks in toggle order, then the enabled catalogue metrics in toggle order |

## Left out

- WordPress hooks and wiring are not modelled. This covers `Scheduler::boot`, `HealthEndpoint::boot`, `registerRoutes` and `handleRequest`, activation and deactivation hook registration, `do_action`/`apply_filters` dispatch (filters are inputs), `require_once` bootstrapping, and `error_log`. They are host side effects.
- `src/HealthCheckResponder.php` is not part of this model. It delegates to the base library's response builder, which is not available.
- `src/Checks/DatabaseCheck.php` and `src/Checks/RedisCheck.php` are not part of this model. They are thin wrappers over network clients.
- `src/Admin/SettingsPage.php` and the plugin's main file are not part of this model. They are presentation and constant definitions.
- The base library's classes are not part of this model, including the CPU, memory and disk metrics. A registered probe is represented by its class.
- `DatabaseSizeMetric.SizeMetric.Measure`: reports the size in bytes. The bytes-to-MB conversion `round(bytes / 1048576, 2)` is floating point. `(float)` casts of row lengths are modelled as `(int)` casts.
- `DatabaseSizeMetric.SizeMetric`: the object cache's own expiry of entries, and values placed there by other code, are not modelled. Its entries record the TTL they were stored with. The local cache is a field of one instance, whereas PHP shares it statically across instances.
- `DatabaseSizeMetric`: the `SHOW TABLE STATUS` query text, `esc_like` and `prepare` are not modelled. The query's result is an input.
- `HealthEndpoint.CheckPermissions`: `hash_equals` is modelled as string equality. Its constant-time behaviour cannot be expressed. Error messages are the untranslated strings returned by `__()`.
- `HealthEndpoint.CheckPermissions`: a missing `Authorization` header is `None`; a header is otherwise its string value.
- `Options`: PHP arrays have string keys only. Integer keys and the key normalisation of PHP arrays are not modelled.
- `Options.GetApiToken`: takes the stored option already cast to string.
- `PhpStrings.StrToInt`: `(int)` casts of strings with leading whitespace, a `+` sign, or trailing non-digits are read as 0.
- `PhpStrings.StrToInt`: integers are unbounded. PHP's `(int)` of a numeral outside the 64-bit range saturates to `PHP_INT_MAX` or `PHP_INT_MIN`; the model returns the exact value.
- `CronCheck.Run`: `now - lastRun` is exact. In PHP it overflows to a float when the stored heartbeat is a huge negative number, and that float then violates the `?int` parameter of `buildResult` under `strict_types`, raising a `TypeError`; the model reports the exact difference instead.
- `CoreVersionCheck.Run`: `version_compare` is an input function, and `get_bloginfo('version')` is taken as a string. The forced `wp_version_check` refresh is a side effect; the update list is read after it.
- `PluginUpdatesCheck.Run`: the forced `wp_update_plugins` refresh is a side effect; the transient is read after it.
- `SiteHealthCheck.CallbackResult`: invokable objects (with `__invoke`), array callables and `Class::method` strings are not resolved as callables; such a test is skipped. Function and method maps are keyed by lower-cased names, and only ASCII letters are folded.
- `SiteHealthCheck`: exceptions raised inside test callbacks are not modelled. A test's callback is modelled by the value it returns.
- `Scheduler`: the WP-Cron event store is an ordered list. WordPress keys it by timestamp, which is not modelled. Schedule display names are the untranslated strings.
- `Scheduler.ScheduleEventIdempotent`: stated for a first heartbeat event with a non-zero time. A time of 0 is falsy in `! wp_next_scheduled(...)`, so every call would add another event.
