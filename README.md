# Laravel-OWM controller, modelled in Dafny

Laravel-OWM is a Laravel package that puts two JSON endpoints in front of an
OpenWeatherMap client: `GET owmapi/current-weather` and `GET owmapi/forecast`.
This project models the package's controller, `LaravelOWMController`. That
covers three things:

- **The request guard and the envelope** (`Endpoints.dfy`). The guard is
  `city === null && coord == null`, which aborts with 400. The location sent
  to the provider is picked with `city ?: coord`. `lang`, `units` and `days`
  have defaults. The provider's result or exception becomes a
  `{status, data}` or `{status, message, code}` body.
- **Snapshot normalisation** (`Snapshot.dfy`). `processData` keeps every
  property of a weather object. It replaces `sun` with `{rise, set}`, where
  each of the two is a `{date, timestamp}` pair. It replaces `lastUpdate` with
  one such pair.
- **Forecast bucketing** (`Forecasts.dfy`). `processForecastData`
  normalises the forecast's metadata. It then walks the 3-hour intervals
  with a `last_day` marker and fills `days[weekday]["HH-HH"]`. An interval
  is stored only when its localized day string equals that of the interval
  just before it.

`Php.dfy` defines the PHP values and operators these depend on:
`array_merge` on string keys, `Arr::except`, reading a property with `->`,
loose `== null` and truthiness. `Clock.dfy` models timezone rendering. A
`Localizer` maps an instant to its local `Y-m-d H:i:s` string, its ISO
weekday and its hour. `Clock.dfy` also builds the `{date, timestamp}` pair
and the zero-padded `format('H')` / `format('N')` keys.

The forecast transform is a method, `Forecasts.ProcessForecastData`. It
normalises the metadata and then runs the loop, `Forecasts.GroupIntervals`.
The loop keeps the source's `last_day` marker. Each pass of its body is the
method `Forecasts.VisitInterval`. The loop is proved to return the pure
function `Forecasts.Bucket`, so the transform returns
`Forecasts.ForecastOutput`. `Bucket` is built on `BucketUpTo`, which states
the grouping rule over prefixes without any marker. The lemmas about `BucketUpTo` give the rule's meaning:

- which slots are present;
- that the last writer wins;
- when the grouping fails;
- that the first interval of every run of equal days is dropped.

Behaviours of the code that the proofs make explicit:

- The first interval of the sequence is never stored. Neither is the first
  interval of each run of equal day strings (`FirstOfRunNotStored`,
  `TwoDaysExample`).
- Every stored entry is `array_merge($temp, processData($obj))`. The
  forecast interval object has its own `time` property, and the later
  argument wins. So an entry's `time` is always the provider's raw `time`
  object. The `{date, timestamp}` window built in `$temp` never reaches the
  output (`StoredTimeIsProviderTime`).
- An empty `city` passes the guard, because the guard tests it with `===`.
  A `coord` of `"0"` also passes, because `"0" == null` is false in PHP. In
  both cases the provider can receive a falsy location
  (`FalsyQueryPassesGuard`).
- A missing `sun`/`lastUpdate` instant is not caught. In PHP, calling
  `setTimezone()` on `null` raises an `Error` outside the `try`. The model
  gives `Crashed(NotADateTime(path))`, where `path` is the first failing
  read in evaluation order (`sun.rise`, `sun.set`, `lastUpdate`; for an
  interval, first `time.day`, `time.from`, `time.to`). The model does not
  produce an error envelope here. It names the path it read rather than a
  single missing field name. Under Laravel's error handler an absent
  property already throws at the read itself, one step before
  `setTimezone(null)`; the outcome, an uncaught crash in first-failure
  order, is the same.

## Model

| member | source | states |
|---|---|---|
| `Php.Merge` | src/Http/Controllers/LaravelOWMController.php:112 | `array_merge` on string keys: the result has the keys of both arrays, and on a shared key the later array's value wins |
| `Php.Except` | src/Http/Controllers/LaravelOWMController.php:128 | `Arr::except` removes exactly the named keys and keeps every other value |
| `Php.LooselyNullIsFalsy` | src/Http/Controllers/LaravelOWMController.php:43-47 | every value that is `== null` is falsy for `?:`, and the only falsy value that is not `== null` is `"0"` |
| `Clock.StampTimestampIsZoneFree` | src/Http/Controllers/LaravelOWMController.php:96-109 | a `{date, timestamp}` pair has exactly these two keys; its timestamp is the instant's epoch under every timezone, and only the date depends on the zone |
| `Clock.TwoDigits` | src/Http/Controllers/LaravelOWMController.php:164 | `format('H')` gives two decimal digits, zero-padded, whose value is the hour |
| `Clock.WeekdayKey` | src/Http/Controllers/LaravelOWMController.php:157 | `format('N')` gives one digit from `1` to `7` whose value is the ISO weekday |
| `Clock.WeekdayKeyInjective` | src/Http/Controllers/LaravelOWMController.php:157 | two weekdays get the same day key exactly when they are the same weekday |
| `Clock.SlotKey` | src/Http/Controllers/LaravelOWMController.php:164 | the time key is five characters with `-` in the middle, and parsing it back yields the two hours |
| `Clock.SlotKeyInjective` | src/Http/Controllers/LaravelOWMController.php:164 | two hour pairs share a time key exactly when both hours are equal |
| `Snapshot.ProcessData` | src/Http/Controllers/LaravelOWMController.php:93-113 | fails exactly when `sun.rise`, `sun.set` or `lastUpdate` is not a DateTime, naming the first such read; otherwise the keys are the input's keys plus `sun` and `lastUpdate`, and every other key keeps its input value |
| `Snapshot.ProcessDataKeepsInstants` | src/Http/Controllers/LaravelOWMController.php:95-110 | `sun` has exactly `rise` and `set`; `sun.rise`, `sun.set` and `lastUpdate` are each the `{date, timestamp}` pair of the input instant, whose timestamp is that instant's epoch |
| `Snapshot.ProcessDataLocalDates` | src/Http/Controllers/LaravelOWMController.php:95-110 | all three pairs carry the instants' wall-clock strings in the configured timezone as dates |
| `Snapshot.ProcessDataZoneIndependent` | src/Http/Controllers/LaravelOWMController.php:93-112 | two timezones give the same success or failure, the same keys, and equal values at every key except `sun` and `lastUpdate` |
| `Forecasts.WindowOf` | src/Http/Controllers/LaravelOWMController.php:132-134 | an interval's window reads `time->day`, `time->from`, `time->to` in that order; it succeeds exactly when all three are DateTimes, and when it succeeds the interval has an object-valued `time` property; otherwise it fails naming the first of the three reads that is not a DateTime |
| `Forecasts.Put` | src/Http/Controllers/LaravelOWMController.php:166 | `days[d][t] = e` creates the weekday table when absent, stores `e` at `(d, t)`, overwrites only that slot, and keeps every other slot |
| `Forecasts.ProcessForecastData` | src/Http/Controllers/LaravelOWMController.php:121-174 | normalises the metadata without `forecasts` and `position`, groups the intervals, and returns exactly `ForecastOutput`: the first failure, else the metadata with the `days` table attached |
| `Forecasts.GroupIntervals` | src/Http/Controllers/LaravelOWMController.php:131-171 | the loop over the intervals, with `last_day` holding the day string of the interval just processed, returns exactly the grouping rule `Bucket` |
| `Forecasts.VisitInterval` | src/Http/Controllers/LaravelOWMController.php:132-170 | one pass of the loop body: a failure it returns is the whole grouping's result; otherwise it returns the grouping of one more interval and moves the marker to that interval's day string |
| `Forecasts.BucketVisits` | src/Http/Controllers/LaravelOWMController.php:153-170 | an interval is stored exactly when the marker equals its day string; a missing window or missing instants on a stored interval end the grouping with that fault; otherwise the next prefix's table is the current one with `days[weekday][slot]` overwritten |
| `Forecasts.BucketNext` | src/Http/Controllers/LaravelOWMController.php:132-166 | the grouping of one more interval fails on its window, leaves the table unchanged when it does not match its predecessor, fails on its instants, or stores its merged entry at its slot |
| `Forecasts.BucketFailurePersists` | src/Http/Controllers/LaravelOWMController.php:131-171 | once the grouping of a prefix fails, every longer prefix fails with the same fault: the first failure in sequence order wins |
| `Forecasts.BucketSucceeds` | src/Http/Controllers/LaravelOWMController.php:131-171 | the grouping succeeds exactly when every interval's window is readable and every stored interval has readable `sun`/`lastUpdate` instants |
| `Forecasts.BucketStep` | src/Http/Controllers/LaravelOWMController.php:153-170 | each interval is either stored over the table built so far (when it matches the previous day string) or leaves the table unchanged |
| `Forecasts.LastWriterExtends` | src/Http/Controllers/LaravelOWMController.php:166 | the last interval written to a slot stays the last one when the next interval writes elsewhere or is skipped |
| `Forecasts.BucketStoresEveryRepeat` | src/Http/Controllers/LaravelOWMController.php:153-166 | every interval that matches its predecessor's day string has its `(weekday, slot)` present in `days` |
| `Forecasts.BucketEntriesComeFromLastWriter` | src/Http/Controllers/LaravelOWMController.php:153-166 | every entry of `days` is the merged entry of the last stored interval mapping to that slot |
| `Forecasts.BucketContents` | src/Http/Controllers/LaravelOWMController.php:153-166 | a slot is present iff some interval matching its predecessor's day string maps to it, and it holds the last such interval's entry |
| `Forecasts.BucketKeyShape` | src/Http/Controllers/LaravelOWMController.php:157-166 | every weekday key in `days` is one digit from `1` to `7`, and every slot key parses back into two hours |
| `Forecasts.FirstOfRunNotStored` | src/Http/Controllers/LaravelOWMController.php:153-154 | the first interval, and any interval whose day string differs from its predecessor's, is not stored: its slot is absent unless a stored interval shares it |
| `Forecasts.NoRepeatNoDays` | src/Http/Controllers/LaravelOWMController.php:153-154 | the table is empty exactly when no two consecutive intervals share a day string |
| `Forecasts.BucketEmptyDay` | src/Http/Controllers/LaravelOWMController.php:166 | a weekday key never maps to an empty slot table |
| `Forecasts.TwoDaysExample` | src/Http/Controllers/LaravelOWMController.php:153-170 | for intervals on days D1, D1, D2 only the second is stored, so `days` holds exactly one entry |
| `Forecasts.StoredTimeIsProviderTime` | src/Http/Controllers/LaravelOWMController.php:136-166 | a stored entry's keys are the interval's keys plus `sun` and `lastUpdate`, and its `time` is the interval's own property, never the stamped window built in `$temp` |
| `Forecasts.ForecastOutputShape` | src/Http/Controllers/LaravelOWMController.php:127-173 | a metadata failure comes first; otherwise `forecasts` and `position` are gone, every other metadata key is as `processData` left it, and `days` appears iff some interval was stored |
| `Endpoints.Reply` | src/Http/Controllers/LaravelOWMController.php:49-55 | a provider exception gives exactly `{status: "error", message, code}`; a result gives exactly `{status: "ok", data}` with the reshaped data, or an uncaught crash when reshaping fails |
| `Endpoints.CurrentWeather` | src/Http/Controllers/LaravelOWMController.php:36-56 | aborts with 400 exactly when `city === null && coord == null`; otherwise replies to the provider's answer for the current-weather call, normalised by `processData` |
| `Endpoints.Forecast` | src/Http/Controllers/LaravelOWMController.php:64-85 | aborts with 400 exactly when `city === null && coord == null`; otherwise replies to the provider's answer for the forecast call, reshaped by the forecast transform |
| `Endpoints.AbortIgnoresProvider` | src/Http/Controllers/LaravelOWMController.php:43-45 | an aborted request gets the same 400 response whatever the provider would do |
| `Endpoints.ProviderSeenThroughOneCall` | src/Http/Controllers/LaravelOWMController.php:47-50 | two providers that agree on the action's one call give the same response |
| `Endpoints.GuardIsAsymmetric` | src/Http/Controllers/LaravelOWMController.php:43 | an empty `city` passes the guard; an absent `city` with an empty `coord` is refused, and one with `coord` `"0"` is not |
| `Endpoints.FalsyQueryPassesGuard` | src/Http/Controllers/LaravelOWMController.php:43-47 | after the guard, the query is falsy iff both parameters are falsy; with `city` absent that query can only be `"0"` |
| `Endpoints.CallParameters` | src/Http/Controllers/LaravelOWMController.php:66-76 | the query is `city` when truthy, else `coord`; `lang`, `units` and `days` are passed through when present and default to `"en"`, `"metric"` and `5` only when absent |

## Left out

- The timezone database and `DateTime::format` are foreign library code whose results depend on DST rules. A `Localizer` parameter stands for them. It gives each instant a date string, an ISO weekday in 1..7 and an hour in 0..23, and leaves the epoch unchanged.
- `setTimezone` changes the provider's `DateTime` objects in place. The model keeps only each object's instant, so the zone these objects are later serialised in is not modelled. This includes the raw `time` objects kept in stored entries.
- `objectToArray` (reflection over the provider's forecast object) is runtime introspection of an opaque library object. Its result, the forecast's property map, is an input. On a name clash there, properties override class constants (line 196).
- The OpenWeatherMap client is network I/O. `getCurrentWeather` and `getWeatherForecast` are the parameter `fetch`, which is given the call's query, language, units and day count. The trailing `true` argument is a provider option and is not modelled.
- `Request`, `abort` and `response()->json` are Laravel HTTP plumbing. Only the 400 status and message, the JSON body as a value, and an uncaught error are modelled. Middleware that rewrites inputs before `$request->get` sees them is outside the model.
- Forecasts.ProcessForecastData: `$data['days']` is built as a separate typed table and attached under `days` when the loop ends. In PHP, a metadata property already named `days` would be written into; the provider's forecast object has no such property. In the model, such a property is replaced by the table.
- Php.Merge: keys are strings. PHP turns integer-like property names into integer keys, and `array_merge` renumbers those. That does not arise for the provider's named properties.
- PHP arrays are ordered and the JSON body shows that order: the insertion order of weekday and slot keys in `days`, and the key order `array_merge` produces. Maps in the model are unordered, so that order is not modelled.
- PHP turns the `format('N')` key `"1"`..`"7"` into an integer array key. The model keeps it as a one-character string; JSON serialises both the same way.
- `catch (\Exception $e)` (lines 51 and 80) does not catch an `\Error` thrown by the provider. `Thrown` stands only for an `\Exception`; a provider `\Error` is not modelled.
- Numbers are integers. Temperatures and other provider floats pass through unchanged, so their type does not matter to any property proved here.
- Request parameters that are arrays are `Obj` values with PHP array semantics: they are loosely `null` and falsy only when empty.
- src/LaravelOWMServiceProvider.php (container binding, config publishing and conditional route loading) and src/Http/routes.php (route registration) are framework wiring.
