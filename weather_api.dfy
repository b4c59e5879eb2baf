/**
 * The weather gateway: the geocoding search and the forecast fetch once the
 * network has answered, and the transformer that turns an Open-Meteo payload
 * into the app's weather record. The fetch outcome and the caller's clock
 * ("now") are parameters.
 */
module WeatherApi {
  import opened Wrappers
  import opened Text
  import opened WeatherTypes

  /** Position of today in the daily series (three past days come first). */
  const TodayIndex: nat := 3
  const HoursPerDay: nat := 24

  /** A value the gateway throws: an `Error` object with its message, or some other value. */
  datatype Thrown = ErrorObject(message: string) | NonErrorValue

  /** What `fetch` gave: an ok response and its decoded body, a non-ok response, or a rejection. */
  datatype Fetched<T> = Response(body: T) | HttpError(statusText: string) | Rejected(reason: Thrown)

  /** An hour of the day, as `Date.getHours()` returns it. */
  type Hour = h: int | 0 <= h < 24

  /** The caller's clock: its calendar date key (`YYYY-MM-DD`) and its hour. */
  datatype LocalTime = LocalTime(date: string, hour: Hour)

  /** A parsed hourly label: the calendar date key and the hour of day. */
  datatype HourStamp = HourStamp(date: string, hour: int)

  // ---------------------------------------------------------------- numbers

  /** `Math.round`: the nearest integer, a half rounded up. */
  function Round(x: real): (r: int)
    ensures r as real - 0.5 <= x < r as real + 0.5
  {
    (x + 0.5).Floor
  }

  /** A whole number rounds to itself. */
  lemma RoundWhole(x: real)
    requires x.Floor as real == x
    ensures Round(x) == x.Floor && Round(x) as real == x
  {
  }

  /** `Math.round(xs[i])`: reading outside `xs` gives `undefined`, which rounds to NaN (`None`). */
  function RoundAt(xs: seq<real>, i: int): (r: Option<int>)
    ensures r.Some? <==> 0 <= i < |xs|
    ensures r.Some? ==> r.value == Round(xs[i])
  {
    if 0 <= i < |xs| then Some(Round(xs[i])) else None
  }

  /** `s.slice(start, end)` with `start <= end`: both bounds are clamped to the length. */
  function Slice<T>(s: seq<T>, start: nat, end: nat): (r: seq<T>)
    requires start <= end
    ensures |r| == if end <= |s| then end - start else if start <= |s| then |s| - start else 0
    ensures forall i :: 0 <= i < |r| ==> r[i] == s[start + i]
  {
    if start >= |s| then [] else if end <= |s| then s[start..end] else s[start..]
  }

  // ------------------------------------------------------- current hour

  /**
   * What `new Date(label)` followed by `getHours()` and `toDateString()` reads
   * from an hourly label `<date>THH:MM`: the date part and the hour. A label of
   * another shape is an invalid date, whose hour matches nothing (`None`).
   */
  function ParseHourLabel(s: string): (r: Option<HourStamp>)
    ensures r.Some? ==> |s| >= 6 && r.value.date == s[..|s| - 6] && 0 <= r.value.hour < 24
  {
    if |s| >= 6 && s[|s| - 6] == 'T' && IsDigit(s[|s| - 5]) && IsDigit(s[|s| - 4])
       && s[|s| - 3] == ':' && IsDigit(s[|s| - 2]) && IsDigit(s[|s| - 1])
    then
      var hour := DigitValue(s[|s| - 5]) * 10 + DigitValue(s[|s| - 4]);
      var minute := DigitValue(s[|s| - 2]) * 10 + DigitValue(s[|s| - 1]);
      if hour < 24 && minute < 60 then Some(HourStamp(s[..|s| - 6], hour)) else None
    else None
  }

  /** The label falls on the same calendar day and the same hour as `now`. */
  predicate IsCurrentHour(stamp: string, now: LocalTime)
  {
    ParseHourLabel(stamp) == Some(HourStamp(now.date, now.hour))
  }

  /** `times.findIndex(...)` from position `from`: the first label of the current hour, or -1. */
  function FindCurrentHour(times: seq<string>, now: LocalTime, from: nat): (k: int)
    requires from <= |times|
    ensures k == -1 || from <= k < |times|
    ensures k == -1 ==> forall j :: from <= j < |times| ==> !IsCurrentHour(times[j], now)
    ensures k != -1 ==> IsCurrentHour(times[k], now) && forall j :: from <= j < k ==> !IsCurrentHour(times[j], now)
    decreases |times| - from
  {
    if from == |times| then -1
    else if IsCurrentHour(times[from], now) then from
    else FindCurrentHour(times, now, from + 1)
  }

  /**
   * `findIndex(...) || todayIndex * 24 + now.getHours()`. The fallback fires
   * when the index is falsy, that is when the match is at position 0, and not
   * when nothing matches (-1 is truthy).
   */
  function CurrentHourIndex(times: seq<string>, now: LocalTime): (k: int)
    ensures k == -1 <==> forall j :: 0 <= j < |times| ==> !IsCurrentHour(times[j], now)
    ensures |times| > 0 && IsCurrentHour(times[0], now) ==> k == TodayIndex * HoursPerDay + now.hour
    ensures k != -1 && !(|times| > 0 && IsCurrentHour(times[0], now)) ==>
      && 0 < k < |times| && IsCurrentHour(times[k], now)
      && forall j :: 0 <= j < k ==> !IsCurrentHour(times[j], now)
  {
    var found := FindCurrentHour(times, now, 0);
    if found != 0 then found else TodayIndex * HoursPerDay + now.hour
  }

  // ---------------------------------------------------------- transformer

  /** The daily arrays the transformer reads are as long as `daily.time`. */
  predicate DailyAligned(daily: DailyBlock)
  {
    && |daily.temperatureMax| == |daily.time|
    && |daily.temperatureMin| == |daily.time|
    && |daily.weatherCode| == |daily.time|
    && |daily.sunrise| == |daily.time|
    && |daily.sunset| == |daily.time|
  }

  /** The summary of the day at daily index `k`: its date, rounded extremes and code. */
  function DayAt(daily: DailyBlock, k: nat): DaySummary
    requires DailyAligned(daily) && k < |daily.time|
  {
    DaySummary(daily.time[k], Round(daily.temperatureMax[k]), Round(daily.temperatureMin[k]), daily.weatherCode[k])
  }

  /** `daily.time.slice(0, todayIndex).map(...)`: the days before today, oldest first. */
  function History(daily: DailyBlock): (h: seq<DaySummary>)
    requires DailyAligned(daily)
    ensures |h| == if |daily.time| < TodayIndex then |daily.time| else TodayIndex
    ensures forall i :: 0 <= i < |h| ==> h[i] == DayAt(daily, i)
  {
    var dates := Slice(daily.time, 0, TodayIndex);
    seq(|dates|, i requires 0 <= i < |dates| =>
      DaySummary(dates[i], Round(daily.temperatureMax[i]), Round(daily.temperatureMin[i]), daily.weatherCode[i]))
  }

  /**
   * `daily.time.slice(todayIndex + 1, todayIndex + 4).map((date, i) => ...)`:
   * the date comes from the slice and the values from `todayIndex + i + 1`,
   * which is the same daily index.
   */
  function Forecast(daily: DailyBlock): (f: seq<DaySummary>)
    requires DailyAligned(daily)
    ensures |f| == if |daily.time| <= TodayIndex + 1 then 0
                   else if |daily.time| < TodayIndex + 4 then |daily.time| - (TodayIndex + 1)
                   else 3
    ensures forall i :: 0 <= i < |f| ==> f[i] == DayAt(daily, TodayIndex + 1 + i)
  {
    var dates := Slice(daily.time, TodayIndex + 1, TodayIndex + 4);
    seq(|dates|, i requires 0 <= i < |dates| =>
      DaySummary(dates[i], Round(daily.temperatureMax[TodayIndex + i + 1]),
                 Round(daily.temperatureMin[TodayIndex + i + 1]), daily.weatherCode[TodayIndex + i + 1]))
  }

  /** `transformAPIResponse(response, locationName)` evaluated at the clock reading `now`. */
  function TransformAPIResponse(response: OpenMeteoResponse, locationName: string, now: LocalTime): (w: WeatherSnapshot)
    requires DailyAligned(response.daily)
    ensures w.history == History(response.daily) && w.forecast == Forecast(response.daily)
    ensures w.locationName == locationName
    ensures |response.daily.time| > TodayIndex ==>
      var today := DayAt(response.daily, TodayIndex);
      && w.current.maxTemp == Some(today.maxTemp) && w.current.minTemp == Some(today.minTemp)
      && w.current.sunrise == response.daily.sunrise[TodayIndex]
      && w.current.sunset == response.daily.sunset[TodayIndex]
    ensures |response.daily.time| <= TodayIndex ==>
      w.current.maxTemp == None && w.current.minTemp == None && w.current.sunrise == "" && w.current.sunset == ""
    ensures w.current.temp == Round(response.currentWeather.temperature)
    ensures w.current.weatherCode == response.currentWeather.weatherCode
    ensures w.current.windSpeed == response.currentWeather.windSpeed
    ensures w.current.windDirection == response.currentWeather.windDirection
    ensures
      var k := CurrentHourIndex(response.hourly.time, now);
      && (w.current.humidity.Some? <==> 0 <= k < |response.hourly.relativeHumidity|)
      && (w.current.humidity.Some? ==> w.current.humidity.value == Round(response.hourly.relativeHumidity[k]))
      && w.current.precipitation == RoundAt(response.hourly.precipitation, k)
      && w.current.pressure == RoundAt(response.hourly.pressureMsl, k)
  {
    var cw := response.currentWeather;
    var hourly := response.hourly;
    var daily := response.daily;
    var hourIndex := CurrentHourIndex(hourly.time, now);
    WeatherSnapshot(
      CurrentSummary(
        Round(cw.temperature),
        RoundAt(daily.temperatureMin, TodayIndex),
        RoundAt(daily.temperatureMax, TodayIndex),
        cw.weatherCode, cw.windSpeed, cw.windDirection,
        RoundAt(hourly.relativeHumidity, hourIndex),
        RoundAt(hourly.precipitation, hourIndex),
        RoundAt(hourly.pressureMsl, hourIndex),
        if TodayIndex < |daily.sunrise| then daily.sunrise[TodayIndex] else "",
        if TodayIndex < |daily.sunset| then daily.sunset[TodayIndex] else ""),
      Forecast(daily),
      History(daily),
      locationName)
  }

  /** The dates of `daily.time` are pairwise distinct. */
  predicate DistinctDates(daily: DailyBlock)
  {
    forall i, j :: 0 <= i < j < |daily.time| ==> daily.time[i] != daily.time[j]
  }

  /**
   * Today (daily index 3) is never listed: every history day comes from an
   * index below 3, every forecast day from one above, so with distinct dates
   * today's date appears in neither list.
   */
  lemma TodayNotListed(response: OpenMeteoResponse, locationName: string, now: LocalTime)
    requires DailyAligned(response.daily) && DistinctDates(response.daily) && |response.daily.time| > TodayIndex
    ensures var w := TransformAPIResponse(response, locationName, now);
      && (forall i :: 0 <= i < |w.history| ==> w.history[i].date != response.daily.time[TodayIndex])
      && (forall i :: 0 <= i < |w.forecast| ==> w.forecast[i].date != response.daily.time[TodayIndex])
  {
    var w := TransformAPIResponse(response, locationName, now);
    forall i | 0 <= i < |w.history| ensures w.history[i].date != response.daily.time[TodayIndex] {
      assert w.history[i] == DayAt(response.daily, i);
    }
    forall i | 0 <= i < |w.forecast| ensures w.forecast[i].date != response.daily.time[TodayIndex] {
      assert w.forecast[i] == DayAt(response.daily, TodayIndex + 1 + i);
    }
  }

  // -------------------------------------------------------------- gateway

  /** The `results` of a geocoding response, an absent list read as empty. */
  function ResultsOf(body: GeoCodingResponse): seq<GeoResult>
  {
    if body.results.None? then [] else body.results.value
  }

  /** The location a geocoding result stands for: the five fields copied. */
  predicate CopiesResult(loc: GeoLocation, res: GeoResult)
  {
    && loc.id == res.id && loc.name == res.name && loc.country == res.country
    && loc.latitude == res.latitude && loc.longitude == res.longitude
  }

  /**
   * `searchLocations(query)` once `fetch` has given `fetched`. A blank query
   * answers `[]` and never looks at the network.
   */
  function SearchLocations(query: string, fetched: Fetched<GeoCodingResponse>): (r: Result<seq<GeoLocation>, Thrown>)
    ensures IsBlank(query) ==> r == Ok([])
    ensures !IsBlank(query) && fetched.HttpError? ==> r == Err(ErrorObject("Geocoding failed: " + fetched.statusText))
    ensures !IsBlank(query) && fetched.Rejected? ==> r == Err(fetched.reason)
    ensures !IsBlank(query) && fetched.Response? ==>
      && r.Ok? && |r.value| == |ResultsOf(fetched.body)|
      && forall i :: 0 <= i < |r.value| ==> CopiesResult(r.value[i], ResultsOf(fetched.body)[i])
  {
    if IsBlank(query) then Ok([])
    else match fetched
      case HttpError(statusText) => Err(ErrorObject("Geocoding failed: " + statusText))
      case Rejected(reason) => Err(reason)
      case Response(data) =>
        if data.results.None? || |data.results.value| == 0 then Ok([])
        else
          var results := data.results.value;
          Ok(seq(|results|, i requires 0 <= i < |results| =>
            GeoLocation(results[i].id, results[i].name, results[i].country, results[i].latitude, results[i].longitude)))
  }

  /** A blank query gives the same answer whatever the network would have said. */
  lemma BlankSearchIgnoresNetwork(query: string, f1: Fetched<GeoCodingResponse>, f2: Fetched<GeoCodingResponse>)
    requires forall i :: 0 <= i < |query| ==> IsJsSpace(query[i])
    ensures SearchLocations(query, f1) == SearchLocations(query, f2) == Ok([])
  {
    BlankIffAllSpace(query);
  }

  /** The forecast payload `fetch` may deliver: its daily arrays line up. */
  predicate Deliverable(fetched: Fetched<OpenMeteoResponse>)
  {
    fetched.Response? ==> DailyAligned(fetched.body.daily)
  }

  /** `getWeather(latitude, longitude, locationName)` once `fetch` has given `fetched`. */
  function GetWeather(locationName: string, fetched: Fetched<OpenMeteoResponse>, now: LocalTime): (r: Result<WeatherSnapshot, Thrown>)
    requires Deliverable(fetched)
    ensures fetched.HttpError? ==> r == Err(ErrorObject("Weather fetch failed: " + fetched.statusText))
    ensures fetched.Rejected? ==> r == Err(fetched.reason)
    ensures fetched.Response? ==>
      && r.Ok? && r.value.locationName == locationName
      && r.value == TransformAPIResponse(fetched.body, locationName, now)
  {
    match fetched
    case HttpError(statusText) => Err(ErrorObject("Weather fetch failed: " + statusText))
    case Rejected(reason) => Err(reason)
    case Response(data) => Ok(TransformAPIResponse(data, locationName, now))
  }
}
