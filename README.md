# Atomic Clock Display — a Dafny model

The Atomic Clock Display is a kiosk page: a clock, a weather panel and a
theme panel that switches between twelve stylesheets, with optional
automatic rotation. It ships with:

- a web client (`script.js`) and a hardened variant of it
  (`script.hardened.js`) with input validation, a rate-limited call queue,
  retry back-off and keyboard shortcuts;
- a monitoring script (`monitor.hardened.js`) that keeps bounded logs and
  rolls four health checks into healthy, degraded or unhealthy;
- a service worker (`sw.hardened.js`) that routes requests to cache-first,
  network-first or stale-while-revalidate strategies over Cache Storage;
- three local web servers: a hardened Python one (`server.hardened.py`),
  with a rate limiter, a bounded response cache and a path screen; an
  optimized Python one (`server.optimized.py`), with an mtime-validated
  file cache and gzip; and a Node.js one (`server.js`).

The model has one Dafny module per source file, plus shared modules:

| file | module | models |
|---|---|---|
| `wrappers.dfy` | `Wrappers`, `Strings`, `Seqs` | `Option`; `startsWith`/`includes`/`lower`/`lstrip`; `indexOf`/`slice(-n)` |
| `theme_catalog.dfy` | `ThemeCatalog` | the twelve-theme catalog, its allow-list, names and the next-index rule, shared by both clients |
| `layout.dfy` | `Layout` | time-of-day, breakpoints, drag and resize clamps of `script.js` |
| `open_meteo.dfy` | `OpenMeteo` | the Open-Meteo response parser, the code tables, the location fallback loop and the populate retry loop of `script.js` |
| `clock_display.dfy` | `ClockDisplay` | the `StatusDisplay` object of `script.js` as a class |
| `hardened_display.dfy` | `HardenedDisplay` | `script.hardened.js`: validation, providers, call queue, back-off, keys, and its `StatusDisplay` class |
| `monitor.dfy` | `Monitor` | `monitor.hardened.js`: windows, health aggregation, URL screen, and the monitor class |
| `service_worker.dfy` | `ServiceWorker` | `sw.hardened.js`: URL checks, routing, `parseInt`, expiry, Cache Storage, and the worker class |
| `hardened_server.dfy` | `HardenedServer` | `server.hardened.py`: rate limiter, cache manager, path screen, request handler |
| `optimized_server.dfy` | `OptimizedServer` | `server.optimized.py`: path check, mtime cache, gzip decision, headers |
| `node_server.dfy` | `NodeServer` | `server.js`: `path.extname`, content types, URL routing |

Objects whose fields the source updates in place are classes with
`modifies` frames: the two `StatusDisplay` controllers, the monitor, the
service worker, the rate limiter, both caches and the request handler.
Pure computations are functions, with lemmas relating them. Timers are
modelled as handles kept in state, and each firing is an explicit method
call. The network, the file system, the clock, `localStorage` contents,
geolocation, gzip, md5, `mimetypes`, `normpath`/`unquote` and URL parsing
are passed in as parameters:

- weather request outcomes are a sequence consumed in order;
- a file lookup is a datatype: missing, unreadable, or present with bytes (for the hardened server also outside the directory);
- a parsed URL is an optional record with origin, path name and search.

## Model

| member | source | states |
|---|---|---|
| ThemeCatalog.ValidateStylePathIsCatalog | script.js:422-438 | the `validPaths` allow-list accepts a path iff it is one of the twelve catalog `themes` |
| ThemeCatalog.ValidateStylePath | script.js:422-438 | `validateStylePath`: membership in the twelve-entry `validPaths` list (partner: `ValidateStylePathIsCatalog`) |
| ThemeCatalog.ThemesDistinct | script.js:5-18 | the catalog has twelve pairwise distinct entries |
| ThemeCatalog.CatalogIndex | script.js:5-18 | `themes.indexOf(p)`: -1 iff p is not in the catalog, else the position holding p |
| ThemeCatalog.CatalogIndexIsIndexOf | script.js:5-18 | the lookup table agrees with a first-occurrence `indexOf` over the catalog for every path |
| ThemeCatalog.CatalogIndexOfEntry | script.js:5-18 | every catalog position is the index of its own entry |
| ThemeCatalog.ThemeName | script.js:1053-1069 | a catalog path gets the display name at its position; any other path is shown as itself |
| ThemeCatalog.NextIndex | script.js:1261-1264 | `(i + 1) % 12` stays in [0,12), moves to i+1 below the end, and wraps 11 and a failed -1 to 0 |
| ThemeCatalog.AdvanceIsModular | script.js:1261-1264 | n rotation steps from index i land on (i+n) mod 12, so twelve steps return to the start |
| Layout.TimeOfDay | script.js:552-558 | Morning iff hour < 12, Afternoon iff 12 ≤ hour < 17, Evening iff 17 ≤ hour < 21, Night otherwise |
| Layout.TimeOfDayMonotone | script.js:552-558 | as the hour grows the greeting never moves back through the day |
| Layout.ViewClass | script.js:1187-1205 | mobile-view iff width ≤ 768, tablet-view iff 768 < width ≤ 1024, desktop-view iff wider |
| Layout.ApplyResponsiveAdjustments | script.js:1187-1205 | afterwards exactly one view class is on the body, the one for the width, and no other class changes |
| Layout.DragClamp | script.js:380-386 | the clamped offset lies in [0, max(0, viewport − size)], keeps an in-range offset, and pins a negative one to 0 and a too-large one to the edge |
| Layout.ResizeClamp | script.js:1146-1185 | the resize adjustment caps the offset at the maximum and then raises it to 0 (partner: `ResizeClampAgreesWithDrag`) |
| Layout.ResizeClampAgreesWithDrag | script.js:1146-1185 | the resize adjustment computes the same clamp as dragging, so it also keeps the panel in bounds |
| Layout.AdjustPanelPosition | script.js:1146-1185 | no transform means no move; otherwise both offsets are clamped into the viewport |
| OpenMeteo.Round | script.js:653-681 | `Math.round` returns the integer within half of x, rounding halves up |
| OpenMeteo.TablesCoverSameCodes | script.js:683-707 | the icon and description tables list the same codes; no listed code maps to 'Unknown' or to the default icon |
| OpenMeteo.WeatherIconFromCode | script.js:683-694 | a listed code gets its icon; the default icon is given iff the code is absent or unlisted |
| OpenMeteo.WeatherDescriptionFromCode | script.js:696-707 | a listed code gets its text; 'Unknown' is given iff the code is absent or unlisted |
| OpenMeteo.UnknownCodeGetsDefaultIcon | script.js:683-707 | a code gets the default icon exactly when it gets the 'Unknown' text |
| OpenMeteo.TimeIndex | script.js:653-681 | the matched hour index is -1 or a position in the hourly time series |
| OpenMeteo.Truthy | script.js:70 | a reading counts as truthy iff it is '--' (a non-empty string) or a non-zero number |
| OpenMeteo.RoundedIfTruthy | script.js:667 | a present non-zero value is rounded, a missing or zero one is '--' |
| OpenMeteo.SeriesMissing | script.js:660-673 | one of the five hourly series read at the matched hour is absent |
| OpenMeteo.ParseThrows | script.js:653-681 | `parseWeatherResponse` throws: an hour matches and a series it indexes is missing |
| OpenMeteo.ParseWeatherResponse | script.js:653-681 | it throws iff an hour matches and one of the hourly series is missing; with no matching hour, humidity, pressure, UV, feels-like and visibility are '--'; temperature and wind speed are '--' iff missing or 0, else rounded; description and icon follow the code tables |
| OpenMeteo.ParseReadsMatchedHour | script.js:653-681 | when the current time first occurs at hour k and every series is present, the readings, visibility in miles included, are taken from position k |
| OpenMeteo.FallbackIsPopulated | script.js:709-723 | the fixed fallback record passes the truthy temperature and location check |
| OpenMeteo.DropStep | script.js:564-629 | consuming a request outcome moves on to the next one |
| OpenMeteo.Answer | script.js:572-628 | a failed request gives no record; a delivered one gives what the parser returns, nothing when it throws |
| OpenMeteo.Located | script.js:564-629 | a parsed record is stamped with the candidate's location name and the fetch time, and nothing else in it changes |
| OpenMeteo.UpdateWeatherResult | script.js:564-629 | `updateWeather` makes between one and three requests |
| OpenMeteo.TryLocations | script.js:572-628 | the loop over the candidates from k: the first answer is stamped and kept, else the fallback after the last (partners: `TryLocationsBounds`, `TryLocationsFirstDelivered`, `TryLocationsAllFailed`) |
| OpenMeteo.TryLocationsBounds | script.js:572-628 | from candidate k on, at least one and at most the remaining candidates are requested |
| OpenMeteo.TryLocationsFirstDelivered | script.js:572-628 | when candidates k..j−1 give no answer and j's response is delivered and parses, j's record is kept after j+1 requests |
| OpenMeteo.TryLocationsAllFailed | script.js:572-628 | when every remaining candidate fails, the fallback record is installed after three requests |
| OpenMeteo.FirstAnsweringLocationWins | script.js:572-628 | the candidates are tried in order and the first whose response is delivered and parses is kept |
| OpenMeteo.AllLocationsFailedFallsBack | script.js:620-628 | when no candidate's response is delivered and parses, `updateWeather` installs the fallback |
| OpenMeteo.ThrowingParseSkipsLocation | script.js:572-628 | a delivered response whose parse throws is skipped like a failed request, and the next candidate's answer is kept after two requests |
| OpenMeteo.PopulateFromBounds | script.js:60-91 | the retry loop calls `updateWeather` once to three times, reports failure only after all its attempts and then leaves the fallback, and always ends with a populated record |
| OpenMeteo.PopulateFromStep | script.js:60-91 | one attempt either ends the loop with a populated record or leaves the rest of the loop one call shorter |
| OpenMeteo.PopulateFrom | script.js:60-91 | the retry loop from a given attempt: stop populated on success, else try again until three attempts, then the fallback (partners: `PopulateFromBounds`, `PopulateFromStep`) |
| OpenMeteo.EnsureWeatherPopulatesResult | script.js:60-91 | `ensureWeatherPopulates` makes one to three calls, always ends populated, and on failure has made three calls and left the fallback |
| OpenMeteo.NetworkDownPopulatesWithFallback | script.js:60-91 | with the network down, the first attempt already counts as populated because `updateWeather` installed the fallback |
| ClockDisplay.Toggled | script.js:259-279 | toggling flips the minimised class and shows '+' when minimised and '−' otherwise |
| ClockDisplay.SyncIndex | script.js:787-803 | the re-synced index is the dropdown theme's position, or 0 for a theme outside the catalog |
| ClockDisplay.RestoredIndex | script.js:184-194 | after start-up the index is the saved style's position when the saved style passes the allow-list, else 0 |
| ClockDisplay.StatusDisplay.AtMostOneRotation | script.js:787-803 | at most one rotation interval is armed, and one is armed exactly when a handle is held |
| ClockDisplay.StatusDisplay.constructor | script.js:2-21 | index 0, no interval, no weather data |
| ClockDisplay.StatusDisplay.ApplyStyle | script.js:410-438 | an allow-listed path sets the link, the dropdown and the saved `selectedStyle`; any other path changes none of them |
| ClockDisplay.StatusDisplay.ChangeTheme | script.js:1242-1258 | with both elements present, the path is applied and the saved style and dropdown are written even for a rejected path |
| ClockDisplay.StatusDisplay.CycleTheme | script.js:1261-1270 | the index advances to `NextIndex` and the new catalog theme is applied |
| ClockDisplay.StatusDisplay.StopAutoRotate | script.js:1004-1012 | afterwards no handle is held and no interval is armed; stopping when stopped changes nothing |
| ClockDisplay.StatusDisplay.StartAutoRotate | script.js:787-841 | the old interval is cleared first, exactly one new interval is armed, and the index is re-synced to the dropdown |
| ClockDisplay.StatusDisplay.RotationTick | script.js:814-837 | a tick always advances the index; it applies the theme only when the checkbox is checked and both elements exist, and otherwise stops rotation |
| ClockDisplay.StatusDisplay.DropdownChanged | script.js:213-228 | a manual choice is applied; with the checkbox checked it unchecks it, saves 'false' and stops rotation |
| ClockDisplay.StatusDisplay.CheckboxChanged | script.js:231-243 | the checkbox state is saved and starts or stops rotation; checking it after verification leaves one pending one-second check |
| ClockDisplay.StatusDisplay.VerificationTimeout | script.js:123-128 | the pending check is consumed; with no rotation running, rotation is started even if the box has since been unchecked; otherwise nothing else changes |
| ClockDisplay.StatusDisplay.ToggleMinimize | script.js:259-279 | with the panel and button present the panel toggles and the state is saved; otherwise nothing changes |
| ClockDisplay.StatusDisplay.RestoreSavedStyle | script.js:184-194 | an allow-listed saved style is applied and its index restored; anything else leaves index 0 |
| ClockDisplay.StatusDisplay.RestoreAutoRotate | script.js:197-204 | the checkbox takes the saved flag, and rotation starts iff the flag is 'true' |
| ClockDisplay.StatusDisplay.InitStyleSelector | script.js:167-244 | without the dropdown or the link nothing happens; otherwise the saved style and flag are restored and the listeners installed |
| ClockDisplay.StatusDisplay.VerifyAutoRotateFunctionality | script.js:93-137 | with a checkbox and a saved 'true' it checks the box and starts rotation, otherwise no state changes; the checkbox listener is installed |
| ClockDisplay.StatusDisplay.SetWeatherFallback | script.js:709-723 | the fixed fallback record is stored |
| ClockDisplay.StatusDisplay.Fetch | script.js:564-629 | a request meets the next outcome and consumes it |
| ClockDisplay.StatusDisplay.UpdateWeather | script.js:564-629 | the stored record and remaining outcomes are those of `UpdateWeatherResult`: first answering candidate, else the fallback |
| ClockDisplay.StatusDisplay.EnsureWeatherPopulates | script.js:60-91 | the return value, record and requests consumed are those of `EnsureWeatherPopulatesResult`, so weather data is always populated afterwards |
| HardenedDisplay.GetWeatherIcon | build-output-optimized/web/script.hardened.js:712-725 | each listed weather group gets its icon, Mist/Fog/Haze share the fog icon, anything else gets the default |
| HardenedDisplay.ValidateWeatherData | build-output-optimized/web/script.hardened.js:233-239 | a numeric temperature strictly between -100 and 150 and string description and location (partner: `OnlyOpenWeatherMapCanSucceed`) |
| HardenedDisplay.Readable | build-output-optimized/web/script.hardened.js:254-270 | a response read without throwing: ok, a JSON object body, and `main`, `weather[0]` and `wind` present |
| HardenedDisplay.FetchOpenWeatherMap | build-output-optimized/web/script.hardened.js:254-270 | the call throws iff there is no response, it is not ok, its body is not a JSON object, or `main`, `weather[0]` or `wind` is missing; otherwise the record carries the temperature rounded, the description, the name and the icon |
| HardenedDisplay.FirstAcceptable | build-output-optimized/web/script.hardened.js:180-199 | nothing is returned iff no provider result passes validation; otherwise the result is one that was returned |
| HardenedDisplay.Acceptable | build-output-optimized/web/script.hardened.js:189 | a result is accepted iff the call returned data that passes `validateWeatherData` |
| HardenedDisplay.ProviderResults | build-output-optimized/web/script.hardened.js:180-276 | the provider list is OpenWeatherMap then WeatherAPI, and the latter always throws |
| HardenedDisplay.OnlyOpenWeatherMapCanSucceed | build-output-optimized/web/script.hardened.js:180-239 | the fallback chain succeeds iff the OpenWeatherMap response is readable and carries a temperature that rounds into (-100, 150), a description and a name, and then yields that data |
| HardenedDisplay.MissingWindFails | build-output-optimized/web/script.hardened.js:254-270 | an ok body without `wind` makes the call throw, so the fallback chain fails however complete the rest is |
| HardenedDisplay.SettleAll | build-output-optimized/web/script.hardened.js:212-230 | draining settles the i-th queued call's promise with the i-th call's result |
| HardenedDisplay.SettleAllAppend | build-output-optimized/web/script.hardened.js:212-230 | draining two queues one after the other settles the same as draining them joined |
| HardenedDisplay.DrainSettlesEachOnce | build-output-optimized/web/script.hardened.js:212-230 | with distinct call ids, each queued call is settled exactly once |
| HardenedDisplay.Tried | build-output-optimized/web/script.hardened.js:186-196 | the results the loop goes through: a prefix of the list, all refused but the last, which is accepted unless the list is used up |
| HardenedDisplay.TriedStopsAt | build-output-optimized/web/script.hardened.js:186-196 | the loop stops at the first accepted result |
| HardenedDisplay.TriedAll | build-output-optimized/web/script.hardened.js:186-196 | when every result is refused, every provider is called |
| HardenedDisplay.WeatherApiOnlyAfterRefusal | build-output-optimized/web/script.hardened.js:180-199 | OpenWeatherMap is always called, and WeatherAPI only after OpenWeatherMap's result is refused |
| HardenedDisplay.Numbered | build-output-optimized/web/script.hardened.js:202-230 | the i-th settlement of calls queued from id n carries id n+i and the i-th result |
| HardenedDisplay.Pow2 | build-output-optimized/web/script.hardened.js:315-326 | `Math.pow(2, n)` is at least 1 |
| HardenedDisplay.RetryDelay | build-output-optimized/web/script.hardened.js:315-326 | a retry is scheduled iff `retryCount ≤ 3`, after 2^retryCount·1000 ms |
| HardenedDisplay.BackoffSchedule | build-output-optimized/web/script.hardened.js:315-326 | the retries wait 2000, 4000 and 8000 ms, and none follows the third |
| HardenedDisplay.BackoffDoubles | build-output-optimized/web/script.hardened.js:315-326 | each scheduled delay is twice the one before |
| HardenedDisplay.PreloadTarget | build-output-optimized/web/script.hardened.js:449-458 | the preloaded sheet is in the catalog: the one after the current theme, or style.css for a theme outside it |
| HardenedDisplay.PreloadFollowsCatalog | build-output-optimized/web/script.hardened.js:449-458 | from position k the preloaded sheet is the one at (k+1) mod 12 |
| HardenedDisplay.KeyActionOf | build-output-optimized/web/script.hardened.js:590-635 | a theme key always selects a catalog index |
| HardenedDisplay.ThemeKey | build-output-optimized/web/script.hardened.js:606-635 | each theme index has a one-character key |
| HardenedDisplay.ThemeKeySelects | build-output-optimized/web/script.hardened.js:606-635 | '1'..'9' select 0..8, '0' selects 9, '-' 10 and '=' 11 |
| HardenedDisplay.SelectingKeyIsThemeKey | build-output-optimized/web/script.hardened.js:606-635 | only those twelve keys, in either case, select a theme |
| HardenedDisplay.StatusDisplay.AtMostOneRotation | build-output-optimized/web/script.hardened.js:518-540 | at most one rotation interval is armed, exactly when a handle is held |
| HardenedDisplay.StatusDisplay.constructor | build-output-optimized/web/script.hardened.js:7-46 | index 0, no interval, no weather, retry count 0, empty queue |
| HardenedDisplay.StatusDisplay.ApplyStyle | build-output-optimized/web/script.hardened.js:426-446 | a catalog path sets link and dropdown, saves `selectedStyle` and preloads the next; any other path resets both to style.css and saves nothing |
| HardenedDisplay.StatusDisplay.PreloadNextTheme | build-output-optimized/web/script.hardened.js:449-458 | one prefetch link for `PreloadTarget` is added |
| HardenedDisplay.StatusDisplay.StopAutoRotate | build-output-optimized/web/script.hardened.js:535-540 | afterwards no handle is held and no interval armed |
| HardenedDisplay.StatusDisplay.StartAutoRotate | build-output-optimized/web/script.hardened.js:518-533 | the old interval is stopped first and exactly one new interval is armed |
| HardenedDisplay.StatusDisplay.RotationTick | build-output-optimized/web/script.hardened.js:521-531 | a tick advances the index; it applies the theme only when the checkbox is checked and the elements exist, and never stops rotation |
| HardenedDisplay.StatusDisplay.RotateTheme | build-output-optimized/web/script.hardened.js:649-657 | the index advances by one mod 12 and, when the elements exist, the new theme is applied (`ShowsTheme`), otherwise page, storage and links stay; no weather state changes |
| HardenedDisplay.StatusDisplay.SelectThemeByNumber | build-output-optimized/web/script.hardened.js:637-647 | an index in [0,12) with the elements present is set and its theme applied (`ShowsTheme`); any other call changes no theme state; no weather state changes |
| HardenedDisplay.StatusDisplay.InitStyleSelector | build-output-optimized/web/script.hardened.js:461-515 | without the dropdown or link nothing happens; otherwise the saved style and flag are restored and listeners installed |
| HardenedDisplay.StatusDisplay.DropdownChanged | build-output-optimized/web/script.hardened.js:488-502 | a manual choice is applied; with rotation checked it is unchecked, saved as 'false' and stopped |
| HardenedDisplay.StatusDisplay.CheckboxChanged | build-output-optimized/web/script.hardened.js:504-513 | the checkbox state is saved and starts or stops rotation |
| HardenedDisplay.StatusDisplay.ProcessAPIQueue | build-output-optimized/web/script.hardened.js:212-230 | the queue is drained in FIFO order, each call settled once with its own result, 100 ms of pause counted per call, ending empty and not processing |
| HardenedDisplay.StatusDisplay.RateLimitedAPICall | build-output-optimized/web/script.hardened.js:202-230 | the call is queued, settled with its own result after one 100 ms pause, and the queue ends empty |
| HardenedDisplay.StatusDisplay.FetchWeatherWithFallback | build-output-optimized/web/script.hardened.js:180-199 | the first validated result is returned; the providers `Tried` are called through the queue in list order, each settled with its own result under consecutive call ids and with one 100 ms pause |
| HardenedDisplay.StatusDisplay.HandleWeatherError | build-output-optimized/web/script.hardened.js:315-326 | `Failed`: the data and its stamp are kept and the retry count goes up by one; a retry is scheduled after `RetryDelay`, or after the third retry the fallback is shown instead |
| HardenedDisplay.StatusDisplay.UpdateWeather | build-output-optimized/web/script.hardened.js:109-138 | fresh cached data skips the fetch and changes no weather or queue state; with a location the providers `Tried` go through the queue; a valid result is stored with the time and resets the retry count; a failure raises the count and schedules the `RetryDelay` retry, or after the third shows the fallback; no theme state changes |
| HardenedDisplay.StatusDisplay.WeatherUpdated | build-output-optimized/web/script.hardened.js:109-138 | the state `updateWeather` leaves: nothing on the weather path changes on a cache hit; with a location the queue settles the providers `Tried`, without one nothing is queued; stored data on success, the retry or fallback the error handler gives on failure |
| HardenedDisplay.StatusDisplay.FetchAndStore | build-output-optimized/web/script.hardened.js:118-133 | past the cache and location checks: the queue settles the providers `Tried` (`Queued`) and the first valid result is stored, or the failure is counted (`Stored`) |
| HardenedDisplay.StatusDisplay.StoreWeather | build-output-optimized/web/script.hardened.js:128-137 | `Stored`: data is stored with the time and the retry count reset, with scheduled retries and fallback kept; no data is `Failed` |
| HardenedDisplay.StatusDisplay.Fetched | build-output-optimized/web/script.hardened.js:118-133 | the queue and weather state after fetching with fallback: `Queued` and `Stored` with the first acceptable result |
| HardenedDisplay.StatusDisplay.Queued | build-output-optimized/web/script.hardened.js:180-230 | each provider `Tried` settled in order under consecutive call ids, with one 100 ms pause each |
| HardenedDisplay.StatusDisplay.Stored | build-output-optimized/web/script.hardened.js:128-137 | data stored with the time and the count reset; no data counted as `Failed` |
| HardenedDisplay.StatusDisplay.Failed | build-output-optimized/web/script.hardened.js:315-326 | data and stamp kept, count up by one, then the `RetryDelay` retry or the fallback |
| HardenedDisplay.StatusDisplay.KeyDown | build-output-optimized/web/script.hardened.js:590-635 | t rotates to the next index and applies its theme when the elements exist; a theme key selects its index and applies its theme; r refreshes the weather as `UpdateWeather` does; f and other keys change no theme or weather state |
| Monitor.Recent | build-output-optimized/web/monitor.hardened.js:297-319 | the window filter keeps only entries younger than the window |
| Monitor.RecentMembers | build-output-optimized/web/monitor.hardened.js:691-733 | an entry is in the window iff it was recorded and is younger than the window |
| Monitor.RecentAppend | build-output-optimized/web/monitor.hardened.js:297-319 | filtering a joined log is joining the filtered parts |
| Monitor.RecentNewEntry | build-output-optimized/web/monitor.hardened.js:297-319 | an event recorded now adds exactly one to the count in the window |
| Monitor.StatusOf | build-output-optimized/web/monitor.hardened.js:647-669 | healthy iff no check fails, degraded iff one or two fail, unhealthy iff more |
| Monitor.FailCount | build-output-optimized/web/monitor.hardened.js:647-669 | the failure count is zero iff every check passes |
| Monitor.FailCountOfFour | build-output-optimized/web/monitor.hardened.js:647-669 | the failure count of the four checks is the number of false ones |
| Monitor.PerformanceHealthy | build-output-optimized/web/monitor.hardened.js:671-689 | fails iff the load time exceeds 10 s or used memory exceeds 80% of the limit |
| Monitor.SecurityHealthy | build-output-optimized/web/monitor.hardened.js:691-704 | fails iff more than 5 security events are under an hour old |
| Monitor.ErrorHealthy | build-output-optimized/web/monitor.hardened.js:706-719 | fails iff more than 10 errors are under an hour old |
| Monitor.NetworkHealthy | build-output-optimized/web/monitor.hardened.js:721-733 | fails iff the browser reports being offline |
| Monitor.HealthCheck | build-output-optimized/web/monitor.hardened.js:647-733 | each check is computed by its own rule, and the status is healthy, degraded or unhealthy by 0, 1–2 or more failures |
| Monitor.IsSuspiciousURL | build-output-optimized/web/monitor.hardened.js:253-290 | invalid iff unparseable; else pattern match iff a pattern matches; else unknown origin iff untrusted; else not suspicious |
| Monitor.ScriptSchemeIsFlagged | build-output-optimized/web/monitor.hardened.js:253-290 | a `javascript:` URL is flagged as a pattern match whatever its origin |
| Monitor.HardenedMonitor.constructor | build-output-optimized/web/monitor.hardened.js:17-23 | all logs empty, no breaches |
| Monitor.HardenedMonitor.RecordError | build-output-optimized/web/monitor.hardened.js:382-402 | the error log is the last 100 of the old log plus the new entry, so it ends with the new entry and grows by one until full |
| Monitor.HardenedMonitor.RecordPerformanceIssue | build-output-optimized/web/monitor.hardened.js:150-167 | the metrics log is the last 1000 of the old log plus the new entry |
| Monitor.HardenedMonitor.RecordSecurityEvent | build-output-optimized/web/monitor.hardened.js:297-319 | the event is always appended, and a breach is handled iff more than 10 events fall in the last minute |
| Monitor.HardenedMonitor.ClearMetrics | build-output-optimized/web/monitor.hardened.js:634-644 | every log and metric group is emptied |
| Monitor.HardenedMonitor.Health | build-output-optimized/web/monitor.hardened.js:647-669 | the monitor's health is `HealthCheck` on its current logs |
| Monitor.ClearedIsHealthy | build-output-optimized/web/monitor.hardened.js:634-669 | after clearing, the status is healthy when online and degraded when offline |
| ServiceWorker.SanitizeCacheKey | deploy/AtomicClockDisplay-iOS/sw.hardened.js:76-83 | the key is null iff the URL does not parse, and is otherwise exactly its path name followed by its search |
| ServiceWorker.IsValidUrl | deploy/AtomicClockDisplay-iOS/sw.hardened.js:66-73 | valid iff the URL parses and its origin is trusted or the worker's own |
| ServiceWorker.RouteOf | deploy/AtomicClockDisplay-iOS/sw.hardened.js:327-371 | non-GET and invalid URLs are ignored; static resources, styles and fonts go cache-first, the weather APIs network-first, the rest stale-while-revalidate (partners: `NeverBlocked`, `ApiGoesNetworkFirst`) |
| ServiceWorker.NeverBlocked | deploy/AtomicClockDisplay-iOS/sw.hardened.js:327-371 | the 403 branch is unreachable, and a request is ignored iff it is not a GET or its URL is not valid |
| ServiceWorker.ApiGoesNetworkFirst | deploy/AtomicClockDisplay-iOS/sw.hardened.js:327-371 | a GET to the weather API origin is served network-first |
| ServiceWorker.ParseInt | deploy/AtomicClockDisplay-iOS/sw.hardened.js:142-146 | `parseInt` yields a number only when the text has a digit |
| ServiceWorker.NatToString | deploy/AtomicClockDisplay-iOS/sw.hardened.js:116-139 | `String(n)` is a non-empty run of digits |
| ServiceWorker.ParseIntOfNatToString | deploy/AtomicClockDisplay-iOS/sw.hardened.js:116-146 | reading back a stamped number gives the number written |
| ServiceWorker.StampedHeaders | deploy/AtomicClockDisplay-iOS/sw.hardened.js:116-139 | the stored headers are the response's plus the two stamp headers, others unchanged |
| ServiceWorker.StampedFreshness | deploy/AtomicClockDisplay-iOS/sw.hardened.js:116-146 | an entry stamped at t with max age m is expired iff now − t > m |
| ServiceWorker.IsExpired | deploy/AtomicClockDisplay-iOS/sw.hardened.js:142-146 | expired iff both stamps read as numbers and the age exceeds the max age (partners: `StampedFreshness`, `UnstampedExpires`) |
| ServiceWorker.HeaderOr0 | deploy/AtomicClockDisplay-iOS/sw.hardened.js:142-146 | a missing or empty header reads as "0" |
| ServiceWorker.UnstampedExpires | deploy/AtomicClockDisplay-iOS/sw.hardened.js:142-146 | an entry without stamps reads both as 0 and is expired at any positive time |
| ServiceWorker.MatchIn | deploy/AtomicClockDisplay-iOS/sw.hardened.js:149-268 | `cache.match` returns the response of the first entry stored under that URL, and nothing iff no entry has the URL |
| ServiceWorker.Without | deploy/AtomicClockDisplay-iOS/sw.hardened.js:116-139 | the entries `cache.put` keeps: exactly the old ones under other URLs |
| ServiceWorker.Match | deploy/AtomicClockDisplay-iOS/sw.hardened.js:149-268 | `caches.match` finds an entry for the URL iff one exists; the response comes from the first cache, in creation order, that holds the URL, and is that cache's first entry for it |
| ServiceWorker.FirstHolding | deploy/AtomicClockDisplay-iOS/sw.hardened.js:149-268 | the position of the first cache holding the URL, or the cache count when none does |
| ServiceWorker.Worker.constructor | deploy/AtomicClockDisplay-iOS/sw.hardened.js:59-63 | empty rate-limit log over the given caches |
| ServiceWorker.Worker.IsRateLimited | deploy/AtomicClockDisplay-iOS/sw.hardened.js:101-113 | limited iff 10 or more stamps are under a minute old; `now` is recorded only when not limited, so at most 10 are held |
| ServiceWorker.Worker.Open | deploy/AtomicClockDisplay-iOS/sw.hardened.js:86-139 | `caches.open` creates the named cache when missing and returns its index |
| ServiceWorker.Worker.CleanupCache | deploy/AtomicClockDisplay-iOS/sw.hardened.js:86-98 | the cache state becomes `Cleaned`: only its last maxEntries entries remain |
| ServiceWorker.Worker.CacheWithExpiration | deploy/AtomicClockDisplay-iOS/sw.hardened.js:116-139 | the named cache is opened first; an URL with no sanitised key stores nothing more; otherwise the stamped copy is stored under the request URL, replacing any older entry for it |
| ServiceWorker.Worker.NetworkFirstFetch | deploy/AtomicClockDisplay-iOS/sw.hardened.js:149-194 | the live response is returned only when not rate-limited, valid and ok, and is then stored stamped in the API cache; otherwise an unexpired cached copy, else the 503 offline reply; `now` joins the rate log iff not limited |
| ServiceWorker.Worker.CachedOrOffline | deploy/AtomicClockDisplay-iOS/sw.hardened.js:181-194 | a present, unexpired cached copy, else the 503 offline reply |
| ServiceWorker.OfflineResponse | deploy/AtomicClockDisplay-iOS/sw.hardened.js:181-194 | the 503 JSON reply `networkFirst` gives when it has nothing else |
| ServiceWorker.Worker.CacheFirstFetch | deploy/AtomicClockDisplay-iOS/sw.hardened.js:197-228 | an unexpired cached copy is returned; otherwise the network answer, stored stamped in the static cache when ok |
| ServiceWorker.Worker.StaleWhileRevalidateFetch | deploy/AtomicClockDisplay-iOS/sw.hardened.js:231-268 | the cached copy is returned at once if present; an ok network answer for a valid URL is stored stamped in the dynamic cache |
| ServiceWorker.Worker.Activate | deploy/AtomicClockDisplay-iOS/sw.hardened.js:291-324 | only the three known caches are kept, each then trimmed to its limit |
| ServiceWorker.ActivationOutcome | deploy/AtomicClockDisplay-iOS/sw.hardened.js:291-324 | after activation every cache is a known one, all three exist, and each is within its entry limit |
| ServiceWorker.Opened | deploy/AtomicClockDisplay-iOS/sw.hardened.js:86-139 | opening keeps existing caches, and appends an empty named cache only when it is missing |
| ServiceWorker.Cleaned | deploy/AtomicClockDisplay-iOS/sw.hardened.js:86-98 | the named cache keeps its last `limit` entries in order, and no other cache changes |
| ServiceWorker.Stored | deploy/AtomicClockDisplay-iOS/sw.hardened.js:116-139 | `cache.put` replaces any entry for the URL and appends the new one |
| ServiceWorker.StoredIsFound | deploy/AtomicClockDisplay-iOS/sw.hardened.js:116-139 | after a put, matching the URL in that cache finds the stored response |
| ServiceWorker.KeptCaches | deploy/AtomicClockDisplay-iOS/sw.hardened.js:296-305 | exactly the caches with one of the three known names survive |
| ServiceWorker.RecentStamps | deploy/AtomicClockDisplay-iOS/sw.hardened.js:101-113 | a stamp is kept iff it is in the log and less than a minute old, and every kept one is |
| HardenedServer.InWindow | build-output-optimized/local-deploy/server.hardened.py:88-108 | a timestamp is kept iff it is in the client's list and younger than 60 s |
| HardenedServer.History | build-output-optimized/local-deploy/server.hardened.py:88-108 | a client's list, empty before its first request |
| HardenedServer.RateLimiter.constructor | build-output-optimized/local-deploy/server.hardened.py:81-86 | no client history |
| HardenedServer.RateLimiter.IsAllowed | build-output-optimized/local-deploy/server.hardened.py:88-108 | old stamps are dropped, the request is refused iff 100 recent remain, only an acceptance records `now`, and each client keeps at most 100 stamps within the window |
| HardenedServer.ShouldCompressExamples | build-output-optimized/local-deploy/server.hardened.py:151-157 | an HTML type with a charset is compressed, a PNG is not |
| HardenedServer.ShouldCompress | build-output-optimized/local-deploy/server.hardened.py:151-157 | compress iff one of the compressible types occurs in the content type |
| HardenedServer.ShouldCompressInContext | build-output-optimized/local-deploy/server.hardened.py:151-157 | any content type containing a compressible type is compressed |
| HardenedServer.ShouldCompressSplits | build-output-optimized/local-deploy/server.hardened.py:151-157 | a compressed content type contains a compressible type at some position |
| HardenedServer.ShortTypesNotCompressed | build-output-optimized/local-deploy/server.hardened.py:151-157 | a content type shorter than every compressible type is not compressed |
| HardenedServer.Lookup | build-output-optimized/local-deploy/server.hardened.py:119-128 | an item is returned iff it is present and younger than 3600 s |
| HardenedServer.NewItem | build-output-optimized/local-deploy/server.hardened.py:130-149 | the stored item has the content, type and time, the given etag or else the content hash, and the compression flag |
| HardenedServer.OldestExists | build-output-optimized/local-deploy/server.hardened.py:134-137 | a non-empty cache has an entry with the minimum timestamp |
| HardenedServer.Oldest | build-output-optimized/local-deploy/server.hardened.py:134-137 | the key `min` by timestamp could pick: present, with no entry older |
| HardenedServer.SetFrom | build-output-optimized/local-deploy/server.hardened.py:130-145 | the cache `set` leaves: the item added, after evicting an oldest entry when full |
| HardenedServer.CacheManager.constructor | build-output-optimized/local-deploy/server.hardened.py:110-117 | the cache starts empty |
| HardenedServer.CacheManager.Get | build-output-optimized/local-deploy/server.hardened.py:119-128 | the result is `Lookup`; a stale entry is deleted and no other key is touched |
| HardenedServer.CacheManager.Set | build-output-optimized/local-deploy/server.hardened.py:130-145 | the cache becomes `SetFrom` the old one: a full cache first evicts an entry of minimum timestamp, so the size stays ≤ 100, the key then maps to the new item and no other key changes |
| HardenedServer.SetThenGet | build-output-optimized/local-deploy/server.hardened.py:119-145 | reading a key right after storing it gives the stored item while it is fresh |
| HardenedServer.IsPathSafeAsWritten | build-output-optimized/local-deploy/server.hardened.py:202-223 | as written: admit a parsed path with no blocked name, no '..', no leading '/' and an allowed extension unless it is '/' |
| HardenedServer.IsPathSafe | build-output-optimized/local-deploy/server.hardened.py:202-223 | the corrected screen: the same tests, refusing only a path still rooted after its own leading '/' |
| HardenedServer.EveryRootedPathRefused | build-output-optimized/local-deploy/server.hardened.py:202-223 | as written, every path starting with '/' is refused |
| HardenedServer.IndexPageRefused | build-output-optimized/local-deploy/server.hardened.py:202-223 | as written, even /index.html is refused |
| HardenedServer.IsPathSafeServesPages | build-output-optimized/local-deploy/server.hardened.py:202-223 | the corrected screen admits / and /index.html and refuses traversal, blocked names and a doubly rooted path |
| HardenedServer.RootHasNoBlockedName | build-output-optimized/local-deploy/server.hardened.py:41-55 | '/' contains no blocked name and no '..' |
| HardenedServer.IndexHasNoBlockedName | build-output-optimized/local-deploy/server.hardened.py:41-55 | '/index.html' contains no blocked name and no '..' |
| HardenedServer.RequestHandler.constructor | build-output-optimized/local-deploy/server.hardened.py:166-169 | the handler shares the given limiter and cache |
| HardenedServer.LookupStatus | build-output-optimized/local-deploy/server.hardened.py:234-286 | 200 iff the file is found inside the directory within 10 MB; 500 iff reading it raises; else 403, 404 or 413 |
| HardenedServer.JoinPath | build-output-optimized/local-deploy/server.hardened.py:229-232 | the `/` join fails iff the directory is a `str`, and otherwise starts with the directory and ends with the part |
| HardenedServer.ServeFileSafeStatusAsWritten | build-output-optimized/local-deploy/server.hardened.py:225-286 | as written the status is 500 when the join fails, else the lookup status |
| HardenedServer.EveryFileRequestFailsAsWritten | build-output-optimized/local-deploy/server.hardened.py:229-232 | with the directory the base handler stores, a `str`, every file request is answered 500 |
| HardenedServer.RequestHandler.ServeFileSafe | build-output-optimized/local-deploy/server.hardened.py:225-286 | with the directory as a `Path`, as evidently intended: outside the directory is 403, missing is 404, over 10 MB is 413, in that order, and a read that raises is 500, all with the cache unchanged; otherwise the file is cached as `SetFrom` gives and served |
| HardenedServer.RequestHandler.DoGet | build-output-optimized/local-deploy/server.hardened.py:171-200 | the corrected handler: the rate limiter's lists change as `IsAllowed` says; 429 comes first, then the corrected path screen `IsPathSafe` (403), then the cache under "ip:path" (a stale entry is dropped), then the file; a refused request touches neither cache nor file |
| OptimizedServer.EveryRequestForbiddenAsWritten | build-output-optimized/local-deploy/server.optimized.py:26-32 | as written, every request path, all of which start with '/', is answered 403 |
| OptimizedServer.IndexForbiddenAsWritten | build-output-optimized/local-deploy/server.optimized.py:26-32 | as written, '/' and '/index.html' are both forbidden |
| OptimizedServer.ForbiddenAsWritten | build-output-optimized/local-deploy/server.optimized.py:26-32 | as written: refuse a path with '..' or, after `/` becomes `/index.html`, a leading '/' |
| OptimizedServer.Forbidden | build-output-optimized/local-deploy/server.optimized.py:26-32 | the corrected check: refuse '..' or a path rooted twice |
| OptimizedServer.ForbiddenServesPages | build-output-optimized/local-deploy/server.optimized.py:26-32 | the corrected check admits '/', '/index.html' and a stylesheet and refuses traversal and a doubly rooted path |
| OptimizedServer.ContentTypeOf | build-output-optimized/local-deploy/server.optimized.py:59-61 | an unknown MIME type becomes application/octet-stream |
| OptimizedServer.CacheKey | build-output-optimized/local-deploy/server.optimized.py:34 | the request path with `/` rewritten and leading slashes stripped |
| OptimizedServer.Hit | build-output-optimized/local-deploy/server.optimized.py:48 | a hit iff the key is cached and its stored time is not before the file's mtime |
| OptimizedServer.UseCompression | build-output-optimized/local-deploy/server.optimized.py:64-67 | compress iff enabled, a text type, over 1024 bytes, and the gzip output under 0.9 of the size |
| OptimizedServer.Prepare | build-output-optimized/local-deploy/server.optimized.py:64-69 | gzip is used iff compression is on, the type starts with text/, the body exceeds 1024 bytes and gzip saves more than a tenth; then the body is the gzip output and shorter, else the original bytes |
| OptimizedServer.ServeCachedContent | build-output-optimized/local-deploy/server.optimized.py:87-109 | status 200, Content-Length is the length of the bytes sent, Content-Encoding gzip iff the entry is compressed |
| OptimizedServer.ServedFreshFile | build-output-optimized/local-deploy/server.optimized.py:64-109 | a fresh file is sent either as is without an encoding, or as its shorter gzip form marked gzip, with a matching length |
| OptimizedServer.StoredEntryHitsUntilModified | build-output-optimized/local-deploy/server.optimized.py:47-73 | a stored entry hits iff the file's mtime is not later than the stored time |
| OptimizedServer.FileCache.constructor | build-output-optimized/local-deploy/server.optimized.py:14-16 | both module-level maps start empty |
| OptimizedServer.FileCache.DoGet | build-output-optimized/local-deploy/server.optimized.py:24-79 | the corrected handler, with the check `Forbidden`: 403, then 404, then a hit served from the cache with no change, then a read failure as 500, else both maps rewritten with the prepared entry and the mtime |
| NodeServer.ExtNameShape | build-output-optimized/local-deploy/server.js:76-79 | the extension is empty, or a '.' and what follows it in the last segment with no other '.'; it is empty iff the segment has no '.', starts with its only '.', or is '..' |
| NodeServer.ExtNameAppend | build-output-optimized/local-deploy/server.js:76-79 | a file name followed by an extension has that extension |
| NodeServer.ExtNameOfPlainName | build-output-optimized/local-deploy/server.js:76-79 | a last segment without '.' has no extension |
| NodeServer.ExtName | build-output-optimized/local-deploy/server.js:76-79 | `path.extname` of the last segment (partners: `ExtNameShape`, `ExtNameAppend`) |
| NodeServer.ContentTypeOfExt | build-output-optimized/local-deploy/server.js:17-79 | the lower-cased extension's `mimeTypes` entry, else application/octet-stream |
| NodeServer.GetContentType | build-output-optimized/local-deploy/server.js:76-79 | `getContentType`: the content type of the extension (partners: `IndexIsHtml`, `PlainNameIsOctetStream`) |
| NodeServer.HtmlExtension | build-output-optimized/local-deploy/server.js:17-33 | .html is text/html |
| NodeServer.UpperCaseHtmlExtension | build-output-optimized/local-deploy/server.js:76-79 | the lookup ignores case: .HTML is text/html |
| NodeServer.NoExtension | build-output-optimized/local-deploy/server.js:76-79 | no extension gives application/octet-stream |
| NodeServer.IndexIsHtml | build-output-optimized/local-deploy/server.js:76-79 | ./index.html is served as text/html |
| NodeServer.UpperCaseExtensionIsHtml | build-output-optimized/local-deploy/server.js:76-79 | ./INDEX.HTML is served as text/html |
| NodeServer.PlainNameIsOctetStream | build-output-optimized/local-deploy/server.js:76-79 | ./README is served as application/octet-stream |
| NodeServer.FilePathOf | build-output-optimized/local-deploy/server.js:120-123 | '/' maps to './index.html', every other URL to '.' + url |
| NodeServer.ServeFile | build-output-optimized/local-deploy/server.js:81-110 | a missing file is 404, another read error is 500, else the bytes with the path's content type |
| NodeServer.HandleRequest | build-output-optimized/local-deploy/server.js:119-161 | the status endpoint is answered first; any other path with '..' is 400; a served file exists and is the URL's path or, when that is missing and has no extension, its '.html' sibling; 404 exactly in the remaining missing cases, and 500 exactly when the file it reads is unreadable |
| NodeServer.TraversalReadsNothing | build-output-optimized/local-deploy/server.js:140-145 | a traversal attempt gets 400 whatever the file system holds |
| NodeServer.NetworkStatusNeedsNoFile | build-output-optimized/local-deploy/server.js:126-138 | the status endpoint is answered whatever the file system holds |
| NodeServer.ServesExistingFile | build-output-optimized/local-deploy/server.js:148-150 | an existing readable file is served as it is |
| NodeServer.RetriesAsHtml | build-output-optimized/local-deploy/server.js:152-154 | a missing path without an extension is answered as its '.html' sibling |
| NodeServer.RootServesIndex | build-output-optimized/local-deploy/server.js:120-150 | '/' serves ./index.html as text/html |
| NodeServer.AboutPageIsHtml | build-output-optimized/local-deploy/server.js:76-79 | ./about.html is served as text/html |
| NodeServer.ExtensionlessUrlServesHtml | build-output-optimized/local-deploy/server.js:152-154 | '/about' with only ./about.html present serves that page as text/html |
| NodeServer.MissingFileWithExtensionIsNotFound | build-output-optimized/local-deploy/server.js:155-159 | a missing '/logo.png' is 404 with no retry |

## Left out

- Rendering: clock text, date and time formatting in the America/New_York zone, weather display text, notifications, the status badge, text-cropping fixes, fullscreen and drag wiring. They are DOM and locale work with no state the model tracks.
- Floating point: the pressure and visibility conversions and their `toFixed` formatting, and the memory and load-time ratios, are kept as reals; `toFixed` is not modelled.
- Visibility: `script.js` divides metres by 1609.344 (`OpenMeteo.MetresPerMile`), kept as a real; the `toFixed(1)` text is not modelled. The hardened client's visibility (divided by 1609.34) is not modelled at all, because `HardenedDisplay.Observation` does not carry it.
- The weather icons in `script.hardened.js` are stored as doubly encoded UTF-8 text. The model uses the emoji the text evidently encodes.
- `HardenedDisplay.Observation` keeps only the validated fields; feels-like, humidity and the other unvalidated readings are not modelled.
- `HardenedDisplay.StatusDisplay.UpdateWeather`: geolocation is an input. A failed lookup or a zero coordinate is the invalid-location case; the geolocation timeout is not modelled.
- `HardenedServer.CacheManager.Set` evicts some entry of minimum timestamp. Python's `min` picks the first such key in insertion order; the model does not track insertion order.
- Foreign calls are inputs: `unquote`/`normpath`, URL parsing, md5, gzip, `mimetypes.guess_type`, `os.stat`/`open`, `fs.exists`/`fs.readFile`, `fetch`, geolocation and the Cache Storage API.
- `OptimizedServer.Prepare`: the `0.9` factor is modelled as the exact ratio 9/10. The double product can differ from it only when 10·g equals 9·n.
- `OptimizedServer.ServeCachedContent`: the constant security and CORS headers and the Last-Modified date format are not modelled.
- `NodeServer.HandleRequest`: response bodies, the constant headers and the status endpoint's JSON (IP address, port, time) are not modelled. A directory path is an unreadable entry.
- The service worker's install event (`addAll` of the static resources) and message events are not modelled; they only fill caches or log.
- `handleErrorRecovery` and `handleSecurityBreach` in the monitor change the DOM and send reports; the model counts breaches only.
- The monitor's monkey-patching of `fetch` and `document.createElement` is runtime interception and is not modelled.
- Threads, locks and the socket servers are not modelled; each request is one method call.
- HardenedServer.RequestHandler.constructor: the server is not built either. Its `start` method (`server.hardened.py`:394-398) creates `ThreadedHTTPServer((host, port), rate_limiter=…, cache_manager=…)` without a handler class, so as written `HTTPServer.__init__` raises `TypeError` and the server never starts (not executed). Past that, `finish_request` (`server.hardened.py`:366-373) passes `self.directory` as an extra positional argument, so as written the base handler's constructor raises `TypeError` and no request reaches `do_GET`. The model builds the handler as intended, with the limiter and cache as keywords.
- HardenedServer.RequestHandler.DoGet: models the corrected program, with the corrected screen `IsPathSafe` and a `Path` directory. As written every request is refused (see Findings).
- OptimizedServer.FileCache.DoGet: models the corrected program, with the corrected check `Forbidden`. As written every request is answered 403 (see Findings).
- HardenedDisplay.StatusDisplay.ProcessAPIQueue: the drain is synchronous. The 100 ms pauses are counted in `pausedMs`, but nothing runs during them, so a call queued during a pause, which in the source joins the running drain, is not modelled; `Valid()` keeps the queue empty between calls.
- HardenedDisplay.StatusDisplay.RateLimitedAPICall: the caller waits for the whole drain, and no second caller can queue a call while it runs, for the reason given for `ProcessAPIQueue`.
- ServiceWorker.ParseInt: reads an optional sign and decimal digits after spaces, tabs, line feeds and carriage returns only; the `0x` prefix and JavaScript's wider whitespace set, which `parseInt` accepts, are not modelled. The headers it reads are written by the worker as plain decimals.
- The 429 reply of the hardened server follows section 4 of RFC 6585; its `Retry-After` header is not modelled.
- Behaviour that differs from the written design, where the model follows the code:
  - `validateWeatherData` checks only that description and location are strings, so empty strings pass.
  - `changeTheme` in `script.js` writes the saved style and the dropdown even for a path that `applyStyle` rejected.
  - `ensureWeatherPopulates` usually succeeds on the first call: `updateWeather` never throws and installs the fallback itself.
  - The dropdown's value is set to the written path unconditionally. A browser `<select>` given a value that is none of its options shows no selection (its value reads as ""); the model does not follow that DOM rule.

## Findings

| source | as written | input that shows it | evidently intended | confidence | as-written member | corrected member |
|---|---|---|---|---|---|---|
| build-output-optimized/local-deploy/server.hardened.py:216 | the normalised path is refused when it starts with '/' | GET /index.html: `normpath` keeps the leading '/', so the page gets 403, as does every other request | refuse only a path that is still absolute after the request's own leading '/' | high, not executed | HardenedServer.EveryRootedPathRefused | HardenedServer.IsPathSafe |
| build-output-optimized/local-deploy/server.optimized.py:30-32 | after '/' becomes '/index.html', a path starting with '/' is refused | GET /: rewritten to /index.html, which starts with '/', so 403; every HTTP path starts with '/' | refuse only a path that is still absolute after the request's own leading '/' | high, not executed | OptimizedServer.EveryRequestForbiddenAsWritten | OptimizedServer.Forbidden |
| build-output-optimized/local-deploy/server.hardened.py:229-232 | the file path is built as `self.directory / part`, but the base handler stores the directory as a `str` | any GET that passes the rate limit, the path screen and the cache: `str / str` raises `TypeError`, answered 500 | the directory is a `pathlib.Path`, so the file is looked up and served | high, not executed | HardenedServer.EveryFileRequestFailsAsWritten | HardenedServer.RequestHandler.ServeFileSafe |
