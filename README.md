# Weatherly weather layer, modelled in Dafny

This project models the data layer of a small weather client. The client looks
up a city through Open-Meteo's geocoding service and fetches three past days,
today and three coming days from Open-Meteo's forecast service. It keeps the
result in a store and labels how old the data is.

The model has these parts, one module each:

- `WeatherTypes` holds the records. One group is what the app's types declare
  (`DailyForecast`, `WeatherData` with its `today` day). One group is what the
  transformer actually builds: `DaySummary` holds only date, rounded high, rounded
  low and code, and `WeatherSnapshot` has no `today`. The last group is the
  provider's payloads.
- `WeatherApi` holds `transformAPIResponse`, the post-fetch part of
  `searchLocations` and the error branch of `getWeather`. The fetch outcome is
  the `Fetched` input (`Response`, `HttpError` or `Rejected`). The clock reading
  is the `LocalTime` input (date key and hour).
- `WeatherStore` holds the store as a class with its five fields. `State()` gives
  the fields as one value, so each action can say exactly which fields it
  changes. Each asynchronous action is split at its `await`: a start method,
  then a completion method that takes the gateway's outcome.
- `LastUpdated` holds the relative-time label, the staleness test and the guard
  on the refresh control, with `now` in milliseconds.
- `WeatherIcon` holds the code-to-icon chain.
- `MockWeather` holds the test-side mock data and the encoder
  `createMockOpenMeteoResponse`. Its lemmas prove that the transformer reads back
  what the encoder wrote.
- `Text` holds the JavaScript string built-ins the code relies on: number
  printing, `padStart` and `trim`.
- `StoreScenarios` drives the store through a search, a selection, a day pick, a
  failed fetch and a reset, with the fetch outcomes supplied.

Numbers are `real`. `Math.round(x)` is `(x + 0.5).Floor`. A rounded read of an
index the payload lacks is JavaScript's NaN and is written `None`.

The current-hour lookup keeps a quirk of the source. It writes
`findIndex(...) || 3 * 24 + hour`. The fallback therefore fires when the match
is at position 0 (0 is falsy). It does not fire when nothing matches, because
-1 is truthy. In that case the humidity, precipitation and pressure reads hit
index -1 and are NaN. `WeatherApi.CurrentHourIndex` states all three cases.
`MockWeather.CurrentRoundTrip` shows the effect: on the mock payload, the hourly
readings survive only when the clock's date is one of the seven mock dates.

## Model

| member | source | states |
|---|---|---|
| `Text.NatToString` | src/components/weather/last-updated.tsx:14 | the printed number is a non-empty digit string with no leading zero; it has one digit exactly when n < 10 |
| `Text.DigitsValueOfNatToString` | src/components/weather/last-updated.tsx:14 | reading back the printed numeral gives the number |
| `Text.NatToStringInjective` | src/components/weather/last-updated.tsx:14 | different numbers print differently |
| `Text.PadStart` | src/__test__/mocks/weather-data.ts:118 | `padStart` result has length max(width, \|s\|), ends with s and is preceded only by the fill character |
| `Text.TwoDigitHour` | src/__test__/mocks/weather-data.ts:118 | an hour below 100, printed and padded to 2, is its tens digit then its units digit |
| `Text.TrimStart` | src/services/weather-api.ts:9 | the result is a suffix of s; everything removed is white space; the result does not start with white space |
| `Text.TrimEnd` | src/services/weather-api.ts:9 | the result is a prefix of s; everything removed is white space; the result does not end with white space |
| `Text.BlankIffAllSpace` | src/services/weather-api.ts:9 | `!query.trim()` holds exactly when every character is JavaScript white space |
| `WeatherApi.Round` | src/services/weather-api.ts:84 | `Math.round(x)` is the integer r with r - 1/2 <= x < r + 1/2 (halves go up) |
| `WeatherApi.RoundWhole` | src/services/weather-api.ts:84-85 | a whole number rounds to itself |
| `WeatherApi.RoundAt` | src/services/weather-api.ts:106-108 | a rounded read is defined exactly when the index lies inside the array, and is then `Math.round` of the entry there; otherwise it is NaN |
| `WeatherApi.Slice` | src/services/weather-api.ts:82 | `slice(start, end)` clamps both bounds to the length, and entry i is s[start + i] |
| `WeatherApi.ParseHourLabel` | src/services/weather-api.ts:77-78 | a parsed label has an hour in 0..23 and the text before `THH:MM` as its date |
| `WeatherApi.FindCurrentHour` | src/services/weather-api.ts:76-78 | `findIndex` gives -1 when no label is now's date and hour; otherwise it gives the first index that matches |
| `WeatherApi.CurrentHourIndex` | src/services/weather-api.ts:76-79 | the index is -1 exactly when nothing matches; a match at 0 gives 3*24 + hour; otherwise it is the first match k > 0 |
| `WeatherApi.History` | src/services/weather-api.ts:82-87 | history has min(3, \|daily.time\|) entries; entry i is daily index i, with date, rounded max/min and the code unchanged |
| `WeatherApi.Forecast` | src/services/weather-api.ts:90-95 | forecast has at most 3 entries; entry i takes its date and all its values from daily index 4 + i |
| `WeatherApi.TransformAPIResponse` | src/services/weather-api.ts:64-115 | history/forecast as above and the location name unchanged; current temp is `Math.round` of the current temperature, with code, wind speed and direction copied; current max/min/sunrise/sunset come from daily index 3, or are NaN/'' when it is missing; humidity, precipitation and pressure are the rounded readings at the hour index, each defined exactly when that index lies inside its array |
| `WeatherApi.TodayNotListed` | src/services/weather-api.ts:71-95 | with distinct daily dates, today's date (index 3) appears in neither history nor forecast |
| `WeatherApi.SearchLocations` | src/services/weather-api.ts:8-28 | a blank query gives []; a non-ok response fails with "Geocoding failed: " + statusText; a rejection is passed on; otherwise the result has the length and order of `results` (absent means empty), with the five fields copied |
| `WeatherApi.BlankSearchIgnoresNetwork` | src/services/weather-api.ts:9 | for an all-white-space query the answer is [] whatever the network would say, so no request matters |
| `WeatherApi.GetWeather` | src/services/weather-api.ts:53-60 | a non-ok response fails with "Weather fetch failed: " + statusText; a rejection is passed on; an ok response gives the transformed payload tagged with the location name |
| `LastUpdated.FloorDiv` | src/components/weather/last-updated.tsx:9-10 | `Math.floor(a / b)` is the q with q*b <= a < (q+1)*b |
| `LastUpdated.CountAgoIsNotFixed` | src/components/weather/last-updated.tsx:12-17 | a counted label is neither "just now" nor "over a day ago" |
| `LastUpdated.FormatRelativeTime` | src/components/weather/last-updated.tsx:6-18 | the label is one of four forms: "just now", "over a day ago", N minute(s) ago with 1 <= N <= 59, or N hour(s) ago with 1 <= N <= 23 |
| `LastUpdated.CountAgoReadsBack` | src/components/weather/last-updated.tsx:14-16 | a counted label opens with the numeral of N and a space; it ends in "s ago" exactly when N > 1 |
| `LastUpdated.JustNowIffUnderAMinute` | src/components/weather/last-updated.tsx:8-12 | the label is "just now" exactly when less than 60000 ms passed, future timestamps included |
| `LastUpdated.MinutesLabel` | src/components/weather/last-updated.tsx:14 | between 1 minute and 1 hour the label counts N = whole minutes, with 1 <= N <= 59 |
| `LastUpdated.HoursLabel` | src/components/weather/last-updated.tsx:10-16 | between 1 hour and 1 day the label counts N = whole hours, with 1 <= N <= 23 |
| `LastUpdated.OverADayIffADay` | src/components/weather/last-updated.tsx:12-17 | the label is "over a day ago" exactly when 24 hours or more passed |
| `LastUpdated.IsStale` | src/components/weather/last-updated.tsx:21-24 | in the whole minutes the label counts, data is stale exactly when more than 30 minutes passed, or 30 and a part of a minute |
| `LastUpdated.StaleBoundary` | src/components/weather/last-updated.tsx:21-23 | exactly 30 minutes old is not stale; 1 ms more is stale, 1 ms less is not |
| `LastUpdated.StaleIsMonotone` | src/components/weather/last-updated.tsx:23 | once stale, data stays stale for every later clock reading |
| `LastUpdated.StaleLabel` | src/components/weather/last-updated.tsx:12-23 | stale data is never "just now"; under an hour old it reads 30 to 59 minutes |
| `LastUpdated.RefreshOnClick` | src/components/weather/last-updated.tsx:32-52 | a click calls refresh exactly when weather is shown, `lastUpdated` is present and non-zero, the data is stale, and nothing is loading |
| `WeatherIcon.IconFor` | src/components/weather/weather-icon.tsx:10-37 | for each icon, the exact codes that draw it: 0 Sun; negative or 1..2 CloudSun; 3 Cloud; 4..48 CloudFog; 49..57 CloudDrizzle; 58..67 or 78..82 CloudRain; 68..77 or 83..86 Snowflake; above 86 CloudLightning |
| `WeatherStore.LocationName` | src/stores/weather-store.ts:65 | the gateway gets the name, then ", ", then the country |
| `WeatherStore.CurrentLocationName` | src/hooks/use-geolocation.ts:52-58 | for the geolocated place (id 0, no country) that name is "Current Location, " |
| `WeatherStore.ErrorMessage` | src/stores/weather-store.ts:48-50 | a thrown `Error` shows its own message verbatim; any other thrown value shows the action's fallback message |
| `WeatherStore.Store.constructor` | src/stores/weather-store.ts:23-32 | the store starts in the initial state |
| `WeatherStore.Store.SearchCity` | src/stores/weather-store.ts:36-42 | blank query: only `locations := []`, and no request; otherwise only `isLoading := true, error := null`, and a request is pending |
| `WeatherStore.Store.CompleteSearchCity` | src/stores/weather-store.ts:44-51 | success sets only the locations and `isLoading := false`; failure sets only the error message (fallback 'Failed to search locations.') and `isLoading := false`, keeping the old list |
| `WeatherStore.Store.SelectLocation` | src/stores/weather-store.ts:58-66 | only `isLoading := true, error := null, locations := []`; the request carries the place's coordinates and "name, country" |
| `WeatherStore.Store.CompleteSelectLocation` | src/stores/weather-store.ts:67-73 | success installs the weather, clears the selected day and stops loading, and leaves the error alone; failure sets the error (fallback 'Failed to fetch weather.') and stops loading, keeping weather and selected day |
| `WeatherStore.Store.SelectDay` | src/stores/weather-store.ts:79-81 | only the selected day changes |
| `WeatherStore.Store.ClearLocations` | src/stores/weather-store.ts:83-85 | only the locations change, to [] |
| `WeatherStore.Store.ClearError` | src/stores/weather-store.ts:87-89 | only the error changes, to null |
| `WeatherStore.Store.Reset` | src/stores/weather-store.ts:91-93 | from any state the store is back in the initial state, so a second reset changes nothing |
| `MockWeather.Spread` | src/__test__/mocks/weather-data.ts:19 | field by field: a given override replaces the base's value, an absent one keeps it; so no overrides give back the base |
| `MockWeather.CreateMockDay` | src/__test__/mocks/weather-data.ts:5-20 | every absent field takes its default (25/18/22 degrees, code 1, wind 15 at 180, humidity 65, no rain, 1013 hPa, sunrise/sunset on `date` at 06:30/18:45); every given field takes the override |
| `MockWeather.TemperatureOverrideOnly` | src/__test__/mocks/weather-data.ts:46-48 | overriding max/min changes those two fields of the default day and nothing else |
| `MockWeather.GeocodingResponseFor` | src/__test__/mocks/weather-data.ts:59-67 | the mocked `results` has one entry per location with the five fields copied |
| `MockWeather.SearchReadsBackGeocoding` | src/__test__/mocks/weather-data.ts:59-67 | a non-blank search against the mocked body gives back exactly the mocked locations |
| `MockWeather.LondonSearch` | src/__test__/mocks/weather-data.ts:53-56 | searching "London" against the mock yields the two mocked London entries |
| `MockWeather.MapDays` | src/__test__/mocks/weather-data.ts:125-133 | `allDays.map(f)` has one entry per day, with entry i equal to f(day i) |
| `MockWeather.Fill` | src/__test__/mocks/weather-data.ts:120-122 | `Array(n).fill(x)` has length n and holds x everywhere |
| `MockWeather.HourlyTimes` | src/__test__/mocks/weather-data.ts:115-119 | 24 labels per day; label i is the label of day i / 24 at hour i % 24 |
| `MockWeather.HourLabel` | src/__test__/mocks/weather-data.ts:118 | a label starts with the date, then `T`, and ends with `:00` |
| `MockWeather.CreateMockOpenMeteoResponse` | src/__test__/mocks/weather-data.ts:103-136 | the encoded daily arrays line up with `daily.time` |
| `MockWeather.EncodedDaily` | src/__test__/mocks/weather-data.ts:104-134 | every daily array is the field-wise projection of history ++ [today] ++ forecast; today sits at index \|history\|; `current_weather` copies temp, code, wind speed and direction |
| `MockWeather.EncodedHourly` | src/__test__/mocks/weather-data.ts:105-122 | all hourly arrays have 24 entries per day; label i is the date of day i/24, "T", the hour i%24 in two digits, ":00"; the three readings equal the current ones throughout |
| `MockWeather.HourLabelShape` | src/__test__/mocks/weather-data.ts:118 | a label is the date followed by the six characters T, H, H, :, 0, 0 |
| `MockWeather.ParseHourSuffix` | src/services/weather-api.ts:77-78 | a date followed by `T`, two digits below 24 and `:00` parses to that date and the hour the digits spell |
| `MockWeather.HourLabelReadsBack` | src/services/weather-api.ts:77-78 | the transformer reads back from an encoded label the date and hour it was written with |
| `MockWeather.EncodedHourMatches` | src/services/weather-api.ts:76-78 | an encoded label is the current hour exactly when its day's date and its hour are now's |
| `MockWeather.HourSlot` | src/__test__/mocks/weather-data.ts:115-119 | hour h of day d sits at slot 24*d + h, which is inside the arrays and maps back to d and h |
| `MockWeather.EncodedHourFound` | src/services/weather-api.ts:76-79 | when now's date is an encoded day, the hour index lies inside the hourly arrays (whether the match is at 0 or later) |
| `MockWeather.EncodedHourMissing` | src/services/weather-api.ts:76-79 | when now's date is none of the encoded days, the hour index is -1 |
| `MockWeather.EncodedHourIndex` | src/services/weather-api.ts:76-79 | over four or more encoded days, the hour index lands inside the hourly arrays exactly when now's date is one of the days |
| `MockWeather.DaysRoundTrip` | src/__test__/mocks/weather-data.ts:124-134 | with 3 history days, at most 3 forecast days and whole temperatures, transforming the encoded record gives back history and forecast unchanged in date, max, min and code |
| `MockWeather.CurrentRoundTrip` | src/services/weather-api.ts:99-111 | the current block's temp (rounded), code and wind come back, and so do today's max/min, sunrise and sunset; humidity/precipitation/pressure come back exactly when now's date is an encoded date, and are NaN otherwise |
| `MockWeather.MockTimeline` | src/__test__/mocks/weather-data.ts:39-49 | the mock has 3 history and 3 forecast days, dated 2026-02-03 through 2026-02-09 with today 2026-02-06, all with whole temperatures |
| `MockWeather.MockTomorrow` | src/__test__/App.test.tsx:151-153 | after fetching the mock payload, the first forecast day is 2026-02-07 with high 20 and low 14, under "London, United Kingdom" |
| `StoreScenarios.SearchLondon` | src/__test__/App.test.tsx:37-47 | searching "London" from a fresh store leaves the two mocked places listed, not loading and without error |
| `StoreScenarios.SelectThenFail` | src/__test__/App.test.tsx:128-154 | after picking London, fetching a payload and picking tomorrow, a failed fetch leaves that weather and that day, not loading, with "Weather fetch failed: " + statusText; a reset then gives the initial state |

## Left out

- HTTP transport is left out: URL and query-string building, `fetch` and `response.json()`. The fetch outcome is the `Fetched` input. The coordinates only reach the URL, so `GetWeather` takes the location name alone, and `Store.SelectLocation` returns the coordinates in its request.
- Date parsing is abstracted. `new Date(time)`, `getHours()` and `toDateString()` are modelled by `ParseHourLabel`: it reads the text before `THH:MM` as a date key and compares it with the clock's date key as text. Calendar validity, time zones and daylight-saving shifts are not modelled.
- Clock calls are parameters: `Date.now()` becomes `now` in milliseconds, and `new Date()` in the transformer becomes `LocalTime`.
- Malformed payloads are excluded. The transformer and `GetWeather` require the five daily arrays the transformer reads to be as long as `daily.time`. A missing block, which throws a TypeError in the source, is not modelled.
- Floating point is left out. NaN appears only as `None` for reads outside an array. The model uses exact `real` arithmetic with no IEEE rounding, infinities or `undefined` fields.
- Overlapping `searchCity`/`selectLocation` calls and their last-resolved-wins races are left out. Start and completion are separate sequential methods, and completions take no request identity.
- Zustand's `create`/`persist` plumbing and rehydration are left out. So are `lastUpdated` and `refreshWeather`: `last-updated.tsx` reads them, but the store shown does not define them. `RefreshOnClick` takes them as inputs.
- React rendering is left out, along with the layout components, the geolocation hook (apart from the place it builds) and the URL routing of `createMockFetch`.
- The second copy of the encoder in `src/__test__/App.test.tsx:189-222` is the same as the modelled one and is not modelled again.
- `getWeatherDescription`, `formatTime` and `getWindDirection` are not part of this model.
