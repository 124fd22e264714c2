# Astro cache with location-local expiry

A Dafny model of the backend's astro cache. The backend answers `GET /astro?location=…` with
sunrise, sunset and moon data for a location, fetched from a weather provider. It keeps each answer
in an in-memory map until the location's next midnight. Two versions of this component exist, and
both are modelled as separate modules:

- `backend/astro.go` (module `Astro`):
  - the cache key is the lower-cased location, `:`, and the caller's current date `YYYY-MM-DD`;
  - an entry is served while the clock is strictly before its `ExpiresAt`;
  - the expiry is 00:00 of the day after the provider-reported local time, in the provider-reported zone.
- `backend/weather.go` (module `Weather`), the earlier version:
  - the key keeps the location's letter case;
  - the clock is read twice, once for the key and once for the freshness check;
  - the reported local time is read as UTC, so the expiry is a UTC midnight.

Shared modules:

- `GoTime`: the part of Go's `time` package the cache depends on. It covers:
  - the proleptic Gregorian calendar;
  - `time.Parse` / `time.ParseInLocation` with the layout `2006-01-02 15:04`;
  - `Format("2006-01-02")`, `AddDate(0, 0, 1)`, `time.Date` at midnight, `LoadLocation`;
  - the years and zone offsets `MarshalJSON` accepts.

  A zone is a fixed offset looked up in an abstract zone database (`ZoneDb`).
- `Text`: `strings.ToLower`.
- `Provider`: the provider payload types that are identical in both files, the provider's reply, the error
  taxonomy of `GetAstro`, the shared transport/status/decode chain (`Exchange`) and `makeKey`.
- `Wrappers`: `Option` and `Result`.

Parameters stand in for the surroundings:

- The clock reading (`now`; in `Weather`, two readings) is a parameter.
- The provider's reply is a parameter. It is a transport failure, a read failure, or a status code
  with a body that is already decoded: an error payload, a forecast payload, or a body that decodes as
  neither (`Malformed`: text that is not JSON, or JSON whose values do not fit the structs).
- `encoding/json` ignores keys a struct does not declare, so a body of one shape decoded into the
  other struct yields that struct's zero value. `DecodeApiError` and `DecodeForecast` say so.
- `WeatherStackManager` is a class:
  - its field `cache` is the Go `Cache` map, and `GetAstro` updates it in place;
  - a ghost field `queries` records the location of every provider request, so "a hit never fetches" is stated directly;
  - picking one entry from the forecast map (a `range` that breaks after one entry) is a nondeterministic choice of some key of the map.

What the two versions do differently, and what follows from it:

- Only `backend/astro.go` folds the key's letter case and expires an answer at the location's own
  midnight. `backend/weather.go` keeps case and expires at UTC midnight.
  `Weather.ExpiryCanPrecedeReport` shows a consequence: for a location ten hours west of UTC, the
  computed expiry lies before the instant the provider reported exactly when the report is later
  than 14:00 local time (for a report at 20:00, six hours before it), so such an answer is already
  stale when it is stored.
- The tests in `backend/astro_test.go` and `backend/weather_test.go` drive the single-argument
  `ComputeExpiryTime` of `backend/weather.go`, so they serve only as worked examples.
  - `backend/weather_test.go:440-472` pins the clock at 2023-06-27 22:00 UTC. It expects one
    provider request for two lookups, and expects the cached entry to expire at 2023-06-22 00:00 UTC
    (line 484).
  - By `Weather.TwoLookups` (third `ensures`), an entry that has expired at the clock reading is
    fetched again: those lookups make two requests.

## Model

| member | source | states |
|---|---|---|
| GoTime.DaysIn | backend/astro.go:90 | a month has 28 to 31 days, and 29 exactly for February of a leap year; the parser checks the day against it |
| GoTime.NextDay | backend/astro.go:96 | the day after a valid date is a valid, later date whose day count is one more, across month ends, year ends and February 29 |
| GoTime.DayNumberOrder | backend/astro.go:96-97 | a later calendar date has a larger day count, and two dates with the same day count are the same date |
| GoTime.DaysBeforeYearGrows | backend/astro.go:96-97 | the days before a year plus that year's length never exceed the days before any later year |
| GoTime.FirstOfMonthGrows | backend/astro.go:96-97 | within a year, a later month starts no earlier |
| GoTime.Midnight | backend/astro.go:97 | `time.Date(y, m, d, 0, 0, 0, 0, loc)` is midnight of that date in that zone, at the instant (day count × 86400 − offset) seconds |
| GoTime.AddOneDay | backend/astro.go:96 | `AddDate(0, 0, 1)` keeps the clock reading and zone, moves to the next date, and lands exactly 24 hours later |
| GoTime.LoadLocation | backend/astro.go:84-87 | "" and "UTC" load UTC and "Local" the process zone. A name with "..", or starting with a slash or backslash, fails with an invalid-name error. Any other name succeeds exactly when the zone database knows it, with its offset, and otherwise fails with an unknown-zone error |
| GoTime.SkipSpaces | backend/astro.go:90 | the position after the run of spaces that the layout's single space consumes |
| GoTime.Digit | backend/astro.go:118 | the character written for a decimal digit is a digit with that value |
| GoTime.DigitOfValue | backend/astro.go:118 | reading a digit and writing its value back gives the same character |
| GoTime.Decimal | backend/astro.go:118 | the decimal spelling of a number is a non-empty string of digits that spells it, with no leading zero |
| GoTime.AppendInt | backend/astro.go:118 | the digits written spell the number, at least `width` of them, and exactly two (or four) for a number below 100 (or 10000) |
| GoTime.LeadingZeros | backend/astro.go:118 | padding with zeros does not change the number the digits spell |
| GoTime.TwoDigits | backend/astro.go:118 | a number below 100 is written as two digits with those values |
| GoTime.FourDigits | backend/astro.go:118 | a number below 10000 is written as four digits with those values |
| GoTime.TwoDigitsSpelled | backend/astro.go:118 | two digits spell their two-digit number |
| GoTime.FourDigitsSpelled | backend/astro.go:118 | four digits spell their four-digit number |
| GoTime.ParseWall | backend/astro.go:90-93 | the layout `2006-01-02 15:04` accepts only a valid date and time of day with a year of at most 9999, no seconds and no nanoseconds; any other text fails with a parse error that names it |
| GoTime.ParseInLocation | backend/astro.go:90 | succeeds exactly when the text parses, and gives its wall-clock reading in the given zone |
| GoTime.Parse | backend/weather.go:77-80 | succeeds exactly when the text parses; the result is the parsed wall-clock reading with no zone, i.e. at offset UTC |
| GoTime.ParseCanonical | backend/astro.go:90 | a 16-character `YYYY-MM-DD HH:MM` text parses to the date and time its digits spell, when that date and time exist |
| GoTime.ParseFormatRoundTrip | backend/astro.go:90 | formatting a minute-precise time of a year up to 9999 with the layout, then parsing it, gives the same time |
| GoTime.SixteenIsCanonical | backend/astro.go:90 | a parsed 16-character text with a single space before its hour has the separators and digits at the layout's positions |
| GoTime.CanonicalFormatted | backend/astro.go:90 | a wall-clock reading whose fields match a canonical text's digits is formatted as that text |
| GoTime.ParsedCanonicalIsFormatted | backend/astro.go:90 | conversely, a parsed 16-character text with one space before the hour is exactly the formatted result of what it parsed to |
| GoTime.FormatDate | backend/astro.go:118 | `Format("2006-01-02")` of a year up to 9999 is 10 characters: four digits spelling the year, '-', two spelling the month, '-', two spelling the day |
| GoTime.FormatDateChars | backend/astro.go:118 | the same, digit by digit: each field's digits, weighted by place, add up to the field |
| GoTime.FormatWallChars | backend/astro.go:90 | the formatted date and time has its separators at the layout's positions and zero-padded digits spelling each field |
| GoTime.CanonicalDateFormatted | backend/astro.go:118 | a date whose fields match a ten-character canonical date's digits is formatted as that text |
| GoTime.FormatDateInjective | backend/astro.go:118-119 | two dates of years up to 9999 are formatted alike exactly when they are equal |
| GoTime.Before | backend/astro.go:122 | within one zone, `t.Before(u)` holds exactly when t's clock reading is earlier: by date, then hour, minute, second and nanosecond |
| GoTime.MarshalsToJson | backend/astro.go:215 | a time `MarshalJSON` accepts has a year written in four digits and a zone offset under 24 hours, as RFC 3339 needs |
| Text.ToLower | backend/astro.go:119 | lower-casing keeps the length and lowers each letter in place |
| Text.LowerEqualIffSameUpToCase | backend/astro.go:119 | two locations lower-case alike exactly when they differ only in letter case |
| Provider.DecodeApiError | backend/astro.go:146 | decoding into the error struct fails exactly on a body that does not decode into it (`Malformed`: text that is not JSON, or JSON whose values do not fit); a forecast body leaves the struct at its zero value |
| Provider.DecodeForecast | backend/astro.go:156 | decoding into the forecast struct fails exactly on a body that does not decode into it (`Malformed`: text that is not JSON, or JSON whose values do not fit); an error body leaves the struct at its zero value |
| Provider.Exchange | backend/astro.go:130-160 | the exchange succeeds exactly for a 200 whose body decodes, with the decoded forecast, or the zero forecast for an error body. A transport or read failure is reported as such. Any other status is an error: the undecodable-body error exactly when the body does not decode, otherwise the provider's code, type and info (all zero for a forecast body). A 200 that does not decode is a decode error |
| Provider.MakeKey | backend/astro.go:192-194 | the key is the location, ':', then the date, so both can be read back from it (the same function sits at `backend/weather.go:174-176`) |
| Provider.KeySplits | backend/astro.go:192-194 | for dates of one length, two keys are equal exactly when their locations and dates are, even if a location contains ':' |
| Astro.ComputeExpiryTime | backend/astro.go:82-100 | fails with the zone error for an unknown or invalid zone id, and with a parse error for a malformed local time. Otherwise the expiry is midnight in that zone of the day after the reported date. It is strictly after the reported local time, at least one minute after it and at most one day after it |
| Astro.ExpiryOfFormatted | backend/astro.go:82-100 | a local time written as `YYYY-MM-DD HH:MM` in a known zone expires at midnight, in that zone, of the next date |
| Astro.ExpiryMarshals | backend/astro.go:215 | the answer's expiry can be marshalled exactly when the reported date is not 9999-12-31 and the zone lies less than a day from UTC |
| Astro.ExpiryIsNextLocalMidnight | backend/astro.go:95-97 | no midnight of the location's zone lies strictly between the reported local time and the expiry |
| Astro.CacheKey | backend/astro.go:117-119 | the key is the location lower-cased letter by letter, ':', then the formatted date of the clock reading |
| Astro.CacheKeyIdentifiesLocationAndDay | backend/astro.go:117-119 | two lookups share a key exactly when their locations differ only in letter case and their clock readings fall on the same date |
| Astro.Refresh | backend/astro.go:130-166 | a miss succeeds exactly when the exchange succeeds and the reported local time and zone give an expiry; the result is the decoded answer with that expiry. Exchange errors pass through unchanged, and an expiry failure is reported with the zone or parse error that caused it |
| Astro.WeatherStackManager.constructor | backend/astro.go:106-112 | a new manager has an empty cache and has made no provider request |
| Astro.WeatherStackManager.GetAstro | backend/astro.go:114-190 | a fresh entry is returned as stored, with no provider request and the cache unchanged. A missing or expired entry causes exactly one request for the raw location. Every failure returns the empty response, reports the classified error and leaves the cache unchanged. A success copies the name, region, country and expiry, takes the date and astro data from one forecast entry (or none, for an empty map), and stores the result under the key, replacing any earlier entry and nothing else. Cached expiries stay midnights, so every answer returned without error, cached or fetched, expires at a midnight |
| Astro.AstroHandler | backend/astro.go:196-224 | an empty location gives 400 with no request and the cache unchanged. Otherwise there is one provider request exactly when the entry is missing or expired. A hit leaves the cache unchanged and answers with the stored entry. A failed lookup gives 500 with the cache unchanged. A successful fetch changes only the location's key, to an answer assembled from the fetch. The status is 200 with the cached entry, or 500 if its expiry cannot be marshalled |
| Astro.TwoLookups | backend/astro.go:116-127 | two lookups at one clock reading make one provider request and return the same answer when the first succeeded with an answer still fresh and the locations differ at most in case; otherwise they make two requests |
| Astro.VancouverExpiry | backend/astro.go:82-100 | 16:30 on 2023-06-21 in America/Vancouver expires at the following Vancouver midnight |
| Weather.ComputeExpiryTime | backend/weather.go:76-86 | fails with a parse error for a malformed local time. Otherwise the expiry is UTC midnight of the day after the reported date, strictly after the reported time read as UTC, and between one minute and one day after it |
| Weather.ExpiryIsNextUtcMidnight | backend/weather.go:82-83 | no UTC midnight lies strictly between the reported time read as UTC and the expiry |
| Weather.ExpiryOfFormatted | backend/weather.go:76-86 | a local time written as `YYYY-MM-DD HH:MM` expires at UTC midnight of the next date |
| Weather.ExpiryMarshals | backend/weather.go:197 | the answer's expiry can be marshalled exactly when the reported date is not 9999-12-31 |
| Weather.ExpiryCanPrecedeReport | backend/weather.go:76-86 | on any date, a report ten hours west of UTC gets an expiry before the reported instant exactly when its local time is later than 14:00 |
| Weather.CacheKey | backend/weather.go:103-104 | the key is the location exactly as given, ':', then the formatted date of the clock reading |
| Weather.CacheKeyIdentifiesLocationAndDay | backend/weather.go:103-104 | two lookups share a key exactly when their locations are identical, case included, and their key clock readings fall on the same date |
| Weather.Refresh | backend/weather.go:114-151 | a miss succeeds exactly when the exchange succeeds and the reported local time parses; the result is the decoded answer with its expiry. Exchange errors pass through unchanged, and an unparsable local time is reported as an expiry failure naming it |
| Weather.WeatherStackManager.constructor | backend/weather.go:92-98 | a new manager has an empty cache and has made no provider request |
| Weather.WeatherStackManager.GetAstro | backend/weather.go:100-172 | as in `backend/astro.go`, but the key comes from the first clock reading and freshness from the second. A fresh entry is returned with no request. A miss makes one request. Failures return the empty response and leave the cache unchanged. A success stores the expiry and one forecast entry's date and astro data under the key. Cached expiries stay UTC midnights, and every answer returned without error expires at a midnight |
| Weather.AstroHandler | backend/weather.go:178-206 | as in `backend/astro.go`, with the key from the first clock reading and freshness from the second: an empty location gives 400 with no request; one request exactly on a miss; a hit leaves the cache unchanged; a failed lookup gives 500 with the cache unchanged; a successful fetch changes only that key; then 200 with the cached entry, or 500 if its expiry cannot be marshalled |
| Weather.TwoLookups | backend/weather.go:102-112 | with the clock reading the same each time, the second lookup is served from the cache exactly when the first succeeded with an answer still fresh and both name the identical location; otherwise there are two requests |
| Weather.ExampleExpiry | backend/weather_test.go:334-353 | 16:30 on 2023-06-21 expires at 2023-06-22T00:00:00Z |
| Weather.ExampleKey | backend/weather_test.go:475 | "Vancouver" looked up at 2023-06-27 22:00 UTC is cached under "Vancouver:2023-06-27" |

## Left out

- `main` in both files, `.env` loading, CORS and the HTTP listener and routes: process plumbing.
- The HTTP client, `ioutil.ReadAll`, the request URL and its unescaped query string: the reply is a parameter.
- `encoding/json`: bodies arrive decoded, and `json.Marshal` is reduced to the one failure the
  answer can trigger: `MarshalJSON` of the expiry refuses a year outside 0..9999 or a zone offset of
  24 hours or more (the check of Go 1.20 and later; older releases check the year only).
- The exact error messages and log lines. Errors are the constructors of `FetchError`, one per early return.
- The IANA zone database and daylight-saving rules. A zone is one fixed offset looked up in `ZoneDb`,
  so `AddDate` and `time.Date` never meet a DST transition.
- The unused forecast metrics (temperatures, snow, the float `SunHour`, UV index): the cache never reads them.
- A body that decodes into one struct but not the other (say, JSON whose `location` is a number
  fits the error struct only): `Malformed` stands for a body that decodes into neither.
- `main` of `backend/weather.go` builds the manager without a `TimeManager`, so that version's
  `GetAstro` would call a method on a nil interface. The `Weather` module assumes the default time
  manager is set.
- Concurrency: the Go map is unsynchronised and the model is sequential.
- Instants before 0000-01-01: years are natural numbers.
- A nil `Cache` map, on which the Go write would panic: a manager is always built with an empty map.
- The mock time managers and servers of the tests: their data appear only as the worked examples above.
- Text.ToLower: folds ASCII letters only, while `strings.ToLower` also lowers other Unicode letters.
- Astro.WeatherStackManager.GetAstro: the forecast entry picked is some key of the map, not Go's
  randomised iteration order.
- Weather.WeatherStackManager.GetAstro: the same choice of forecast entry.
