/**
 * The test-side mock data: `createMockDay`, the `mockWeatherData` record, the
 * mocked geocoding results, and `createMockOpenMeteoResponse`, which encodes a
 * weather record as an Open-Meteo payload. Together with the transformer the
 * encoder gives round trips: the transformer reads back the days it was given.
 */
module MockWeather {
  import opened Wrappers
  import opened Text
  import opened WeatherTypes
  import opened WeatherApi

  // ------------------------------------------------------------ mock days

  /** `Partial<DailyForecast>`: any field may be given. */
  datatype DayOverrides = DayOverrides(
    date: Option<string>, maxTemp: Option<real>, minTemp: Option<real>, avgTemp: Option<real>,
    weatherCode: Option<int>, windSpeed: Option<real>, windDirection: Option<real>,
    humidity: Option<real>, precipitation: Option<real>, pressure: Option<real>,
    sunrise: Option<string>, sunset: Option<string>)

  /** `{}`: no field given. */
  const NoOverrides := DayOverrides(None, None, None, None, None, None, None, None, None, None, None, None)

  /** `{ maxTemp: hi, minTemp: lo }`. */
  function Temperatures(hi: real, lo: real): DayOverrides
  {
    NoOverrides.(maxTemp := Some(hi), minTemp := Some(lo))
  }

  function Pick<T>(given: Option<T>, default: T): T
  {
    if given.Some? then given.value else default
  }

  /** `{ ...base, ...overrides }`: every given field replaces the base's, every other is kept. */
  function Spread(base: DailyForecast, o: DayOverrides): (d: DailyForecast)
    ensures o.date.Some? ==> d.date == o.date.value
    ensures o.date.None? ==> d.date == base.date
    ensures o.maxTemp.Some? ==> d.maxTemp == o.maxTemp.value
    ensures o.maxTemp.None? ==> d.maxTemp == base.maxTemp
    ensures o.minTemp.Some? ==> d.minTemp == o.minTemp.value
    ensures o.minTemp.None? ==> d.minTemp == base.minTemp
    ensures o.avgTemp.Some? ==> d.avgTemp == o.avgTemp.value
    ensures o.avgTemp.None? ==> d.avgTemp == base.avgTemp
    ensures o.weatherCode.Some? ==> d.weatherCode == o.weatherCode.value
    ensures o.weatherCode.None? ==> d.weatherCode == base.weatherCode
    ensures o.windSpeed.Some? ==> d.windSpeed == o.windSpeed.value
    ensures o.windSpeed.None? ==> d.windSpeed == base.windSpeed
    ensures o.windDirection.Some? ==> d.windDirection == o.windDirection.value
    ensures o.windDirection.None? ==> d.windDirection == base.windDirection
    ensures o.humidity.Some? ==> d.humidity == o.humidity.value
    ensures o.humidity.None? ==> d.humidity == base.humidity
    ensures o.precipitation.Some? ==> d.precipitation == o.precipitation.value
    ensures o.precipitation.None? ==> d.precipitation == base.precipitation
    ensures o.pressure.Some? ==> d.pressure == o.pressure.value
    ensures o.pressure.None? ==> d.pressure == base.pressure
    ensures o.sunrise.Some? ==> d.sunrise == o.sunrise.value
    ensures o.sunrise.None? ==> d.sunrise == base.sunrise
    ensures o.sunset.Some? ==> d.sunset == o.sunset.value
    ensures o.sunset.None? ==> d.sunset == base.sunset
    ensures o == NoOverrides ==> d == base
  {
    DailyForecast(
      Pick(o.date, base.date), Pick(o.maxTemp, base.maxTemp), Pick(o.minTemp, base.minTemp),
      Pick(o.avgTemp, base.avgTemp), Pick(o.weatherCode, base.weatherCode),
      Pick(o.windSpeed, base.windSpeed), Pick(o.windDirection, base.windDirection),
      Pick(o.humidity, base.humidity), Pick(o.precipitation, base.precipitation),
      Pick(o.pressure, base.pressure), Pick(o.sunrise, base.sunrise), Pick(o.sunset, base.sunset))
  }

  /**
   * `createMockDay(date, overrides)`: the fixed defaults, sunrise and sunset
   * on `date` at 06:30 and 18:45, then the overrides.
   */
  function CreateMockDay(date: string, o: DayOverrides): (d: DailyForecast)
    ensures o.date.None? ==> d.date == date
    ensures o.sunrise.None? ==> d.sunrise == date + "T06:30"
    ensures o.sunset.None? ==> d.sunset == date + "T18:45"
    ensures o.maxTemp.None? ==> d.maxTemp == 25.0
    ensures o.minTemp.None? ==> d.minTemp == 18.0
    ensures o.avgTemp.None? ==> d.avgTemp == 22.0
    ensures o.weatherCode.None? ==> d.weatherCode == 1
    ensures o.windSpeed.None? ==> d.windSpeed == 15.0
    ensures o.windDirection.None? ==> d.windDirection == 180.0
    ensures o.humidity.None? ==> d.humidity == 65.0
    ensures o.precipitation.None? ==> d.precipitation == 0.0
    ensures o.pressure.None? ==> d.pressure == 1013.0
    ensures o.date.Some? ==> d.date == o.date.value
    ensures o.maxTemp.Some? ==> d.maxTemp == o.maxTemp.value
    ensures o.minTemp.Some? ==> d.minTemp == o.minTemp.value
    ensures o.avgTemp.Some? ==> d.avgTemp == o.avgTemp.value
    ensures o.weatherCode.Some? ==> d.weatherCode == o.weatherCode.value
    ensures o.windSpeed.Some? ==> d.windSpeed == o.windSpeed.value
    ensures o.windDirection.Some? ==> d.windDirection == o.windDirection.value
    ensures o.humidity.Some? ==> d.humidity == o.humidity.value
    ensures o.precipitation.Some? ==> d.precipitation == o.precipitation.value
    ensures o.pressure.Some? ==> d.pressure == o.pressure.value
    ensures o.sunrise.Some? ==> d.sunrise == o.sunrise.value
    ensures o.sunset.Some? ==> d.sunset == o.sunset.value
    ensures o == NoOverrides ==>
      && d.maxTemp == 25.0 && d.minTemp == 18.0 && d.avgTemp == 22.0 && d.weatherCode == 1
      && d.windSpeed == 15.0 && d.windDirection == 180.0 && d.humidity == 65.0
      && d.precipitation == 0.0 && d.pressure == 1013.0
  {
    Spread(
      DailyForecast(date, 25.0, 18.0, 22.0, 1, 15.0, 180.0, 65.0, 0.0, 1013.0, date + "T06:30", date + "T18:45"),
      o)
  }

  /** Overriding the two temperatures changes those two fields of the default day and nothing else. */
  lemma TemperatureOverrideOnly(date: string, hi: real, lo: real)
    ensures CreateMockDay(date, Temperatures(hi, lo)) == CreateMockDay(date, NoOverrides).(maxTemp := hi, minTemp := lo)
  {
  }

  // ------------------------------------------------------------ mock data

  /** `mockWeatherData`: London, three past days, 2026-02-06 as today, three coming days. */
  const MockWeatherData := WeatherData(
    "London, United Kingdom",
    CurrentWeather(22.0, 18.0, 25.0, 1, 15.0, 180.0, 65.0, 0.0, 1013.0, "2026-02-06T06:30", "2026-02-06T18:45"),
    CreateMockDay("2026-02-06", NoOverrides),
    [CreateMockDay("2026-02-03", NoOverrides), CreateMockDay("2026-02-04", NoOverrides),
     CreateMockDay("2026-02-05", NoOverrides)],
    [CreateMockDay("2026-02-07", Temperatures(20.0, 14.0)), CreateMockDay("2026-02-08", Temperatures(18.0, 12.0)),
     CreateMockDay("2026-02-09", Temperatures(23.0, 16.0))])

  /** `mockLocations`: two places called London. */
  const MockLocations := [
    GeoLocation(2643743, "London", "United Kingdom", 51.5074, -0.1278),
    GeoLocation(2643744, "London", "Canada", 42.9834, -81.2497)]

  /** The mocked geocoding body: `{ results: locations.map(loc => ({ id, name, country, latitude, longitude })) }`. */
  function GeocodingResponseFor(locations: seq<GeoLocation>): (r: GeoCodingResponse)
    ensures r.results.Some? && |r.results.value| == |locations|
    ensures forall i :: 0 <= i < |locations| ==> CopiesResult(locations[i], r.results.value[i])
  {
    GeoCodingResponse(Some(seq(|locations|, i requires 0 <= i < |locations| =>
      GeoResult(locations[i].id, locations[i].name, locations[i].latitude, locations[i].longitude, locations[i].country))))
  }

  /** Searching against the mocked geocoding body gives back exactly the mocked locations. */
  lemma SearchReadsBackGeocoding(query: string, locations: seq<GeoLocation>)
    requires !IsBlank(query)
    ensures SearchLocations(query, Response(GeocodingResponseFor(locations))) == Ok(locations)
  {
    var r := SearchLocations(query, Response(GeocodingResponseFor(locations)));
    assert r.Ok? && |r.value| == |locations|;
    forall i | 0 <= i < |locations| ensures r.value[i] == locations[i] {
      assert CopiesResult(r.value[i], GeocodingResponseFor(locations).results.value[i]);
    }
    assert r.value == locations;
  }

  /** Searching "London" against the mock gives the two mocked places. */
  lemma LondonSearch()
    ensures SearchLocations("London", Response(GeocodingResponseFor(MockLocations))) == Ok(MockLocations)
    ensures |MockLocations| == 2
  {
    assert !IsJsSpace('L');
    BlankIffAllSpace("London");
    SearchReadsBackGeocoding("London", MockLocations);
  }

  // -------------------------------------------------------------- encoder

  /** `[...data.history, data.today, ...data.forecast]`. */
  function AllDays(data: WeatherData): seq<DailyForecast>
  {
    data.history + [data.today] + data.forecast
  }

  /** `days.map(f)`. */
  function MapDays<T>(days: seq<DailyForecast>, f: DailyForecast -> T): (r: seq<T>)
    ensures |r| == |days| && forall i :: 0 <= i < |days| ==> r[i] == f(days[i])
  {
    seq(|days|, i requires 0 <= i < |days| => f(days[i]))
  }

  /** `Array(n).fill(x)`. */
  function Fill(n: nat, x: real): (r: seq<real>)
    ensures |r| == n && forall i :: 0 <= i < n ==> r[i] == x
  {
    seq(n, _ => x)
  }

  /** `${date}T${hour.toString().padStart(2, '0')}:00`. */
  function HourLabel(date: string, hour: nat): (l: string)
    ensures |l| >= |date| + 6 && l[..|date|] == date && l[|date|] == 'T' && l[|l| - 3..] == ":00"
  {
    date + "T" + PadStart(NatToString(hour), 2, '0') + ":00"
  }

  /** The hourly `time` array: 24 labels per day, the day's date and the hour. */
  function HourlyTimes(days: seq<DailyForecast>): (times: seq<string>)
    ensures |times| == |days| * HoursPerDay
    ensures forall i :: 0 <= i < |times| ==> times[i] == HourLabel(days[i / HoursPerDay].date, i % HoursPerDay)
  {
    seq(|days| * HoursPerDay, i requires 0 <= i < |days| * HoursPerDay =>
      var dayIndex := i / HoursPerDay;
      var hour := i % HoursPerDay;
      HourLabel(if dayIndex < |days| then days[dayIndex].date else "2026-02-06", hour))
  }

  /** `createMockOpenMeteoResponse(data)`. */
  function CreateMockOpenMeteoResponse(data: WeatherData): (r: OpenMeteoResponse)
    ensures DailyAligned(r.daily)
  {
    var allDays := AllDays(data);
    var hourlyLength := |allDays| * HoursPerDay;
    OpenMeteoResponse(
      CurrentWeatherBlock(data.current.temp, data.current.weatherCode, data.current.windSpeed, data.current.windDirection),
      HourlyBlock(
        HourlyTimes(allDays),
        Fill(hourlyLength, data.current.humidity),
        Fill(hourlyLength, data.current.precipitation),
        Fill(hourlyLength, data.current.pressure)),
      DailyBlock(
        MapDays(allDays, (d: DailyForecast) => d.date),
        MapDays(allDays, (d: DailyForecast) => d.maxTemp),
        MapDays(allDays, (d: DailyForecast) => d.minTemp),
        MapDays(allDays, (d: DailyForecast) => d.weatherCode),
        MapDays(allDays, (d: DailyForecast) => d.sunrise),
        MapDays(allDays, (d: DailyForecast) => d.sunset),
        MapDays(allDays, (d: DailyForecast) => d.windSpeed),
        MapDays(allDays, (d: DailyForecast) => d.windDirection),
        MapDays(allDays, (d: DailyForecast) => d.precipitation)))
  }

  /**
   * The daily arrays are the field-wise projection of the timeline, so today
   * sits at index `|history|`; the current block copies the four current fields.
   */
  lemma EncodedDaily(data: WeatherData)
    ensures var r, days := CreateMockOpenMeteoResponse(data), AllDays(data);
      && |r.daily.time| == |days| == |data.history| + 1 + |data.forecast|
      && (forall i :: 0 <= i < |days| ==>
           && r.daily.time[i] == days[i].date
           && r.daily.temperatureMax[i] == days[i].maxTemp && r.daily.temperatureMin[i] == days[i].minTemp
           && r.daily.weatherCode[i] == days[i].weatherCode
           && r.daily.sunrise[i] == days[i].sunrise && r.daily.sunset[i] == days[i].sunset
           && r.daily.windSpeedMax[i] == days[i].windSpeed
           && r.daily.windDirectionDominant[i] == days[i].windDirection
           && r.daily.precipitationSum[i] == days[i].precipitation)
      && r.daily.time[|data.history|] == data.today.date
      && r.currentWeather == CurrentWeatherBlock(data.current.temp, data.current.weatherCode,
                                                 data.current.windSpeed, data.current.windDirection)
  {
    assert AllDays(data)[|data.history|] == data.today;
  }

  /**
   * Every hourly array has 24 entries per day; label `i` is the date of day
   * `i / 24`, a `T`, the hour `i % 24` in two digits and `:00`; the three
   * readings are the current ones throughout.
   */
  lemma EncodedHourly(data: WeatherData)
    ensures var r, days := CreateMockOpenMeteoResponse(data), AllDays(data);
      && |r.hourly.time| == |r.hourly.relativeHumidity| == |r.hourly.precipitation|
         == |r.hourly.pressureMsl| == HoursPerDay * |days|
      && (forall i :: 0 <= i < |r.hourly.time| ==>
           r.hourly.time[i] == days[i / 24].date + "T" + [DigitChar(i % 24 / 10), DigitChar(i % 24 % 10)] + ":00")
      && (forall i :: 0 <= i < |r.hourly.time| ==>
           && r.hourly.relativeHumidity[i] == data.current.humidity
           && r.hourly.precipitation[i] == data.current.precipitation
           && r.hourly.pressureMsl[i] == data.current.pressure)
  {
    var r, days := CreateMockOpenMeteoResponse(data), AllDays(data);
    forall i | 0 <= i < |r.hourly.time|
      ensures r.hourly.time[i] == days[i / 24].date + "T" + [DigitChar(i % 24 / 10), DigitChar(i % 24 % 10)] + ":00"
    {
      TwoDigitHour(i % 24);
    }
  }

  /** An hourly label is the date followed by six characters: `T`, two hour digits, `:00`. */
  lemma HourLabelShape(date: string, hour: nat)
    requires hour < 24
    ensures HourLabel(date, hour) == date + ['T', DigitChar(hour / 10), DigitChar(hour % 10), ':', '0', '0']
  {
    var digits := PadStart(NatToString(hour), 2, '0');
    TwoDigitHour(hour);
    assert "T" + digits + ":00" == ['T', DigitChar(hour / 10), DigitChar(hour % 10), ':', '0', '0'];
    assert date + "T" + digits + ":00" == date + ("T" + digits + ":00");
  }

  /** A date followed by `T`, two digits and `:00` parses to that date and the hour the digits spell. */
  lemma ParseHourSuffix(date: string, tens: char, units: char)
    requires IsDigit(tens) && IsDigit(units)
    requires DigitValue(tens) * 10 + DigitValue(units) < 24
    ensures ParseHourLabel(date + ['T', tens, units, ':', '0', '0'])
            == Some(HourStamp(date, DigitValue(tens) * 10 + DigitValue(units)))
  {
    var s := date + ['T', tens, units, ':', '0', '0'];
    var n := |s|;
    assert s[..n - 6] == date;
    assert s[n - 6] == 'T' && s[n - 5] == tens && s[n - 4] == units;
    assert s[n - 3] == ':' && s[n - 2] == '0' && s[n - 1] == '0';
  }

  /** The transformer's reading of an hourly label recovers the date and the hour the encoder wrote. */
  lemma HourLabelReadsBack(date: string, hour: nat)
    requires hour < 24
    ensures ParseHourLabel(HourLabel(date, hour)) == Some(HourStamp(date, hour))
  {
    HourLabelShape(date, hour);
    var tens, units := DigitChar(hour / 10), DigitChar(hour % 10);
    assert DigitValue(tens) * 10 + DigitValue(units) == hour;
    ParseHourSuffix(date, tens, units);
  }

  // ----------------------------------------------------------- round trips

  /** A whole number of degrees. */
  predicate Whole(x: real)
  {
    x.Floor as real == x
  }

  /** A day whose temperatures are whole numbers. */
  predicate WholeTemperatures(d: DailyForecast)
  {
    Whole(d.maxTemp) && Whole(d.minTemp)
  }

  /** The transformer's day carries the mock day's date, high, low and code unchanged. */
  predicate KeepsDay(s: DaySummary, d: DailyForecast)
  {
    s.date == d.date && s.maxTemp as real == d.maxTemp && s.minTemp as real == d.minTemp && s.weatherCode == d.weatherCode
  }

  /**
   * Round trip of the days: for three past days, at most three coming days and
   * whole-number temperatures, transforming the encoded record gives back its
   * history and forecast unchanged in date, high, low and code.
   */
  lemma {:induction false} DaysRoundTrip(data: WeatherData, locationName: string, now: LocalTime)
    requires |data.history| == 3 && |data.forecast| <= 3
    requires forall i :: 0 <= i < |AllDays(data)| ==> WholeTemperatures(AllDays(data)[i])
    ensures var w := TransformAPIResponse(CreateMockOpenMeteoResponse(data), locationName, now);
      && |w.history| == |data.history| && |w.forecast| == |data.forecast|
      && (forall i :: 0 <= i < |w.history| ==> KeepsDay(w.history[i], data.history[i]))
      && (forall i :: 0 <= i < |w.forecast| ==> KeepsDay(w.forecast[i], data.forecast[i]))
  {
    var r, days := CreateMockOpenMeteoResponse(data), AllDays(data);
    var w := TransformAPIResponse(r, locationName, now);
    EncodedDaily(data);
    forall i | 0 <= i < |w.history| ensures KeepsDay(w.history[i], data.history[i]) {
      assert days[i] == data.history[i];
      RoundWhole(days[i].maxTemp);
      RoundWhole(days[i].minTemp);
    }
    forall i | 0 <= i < |w.forecast| ensures KeepsDay(w.forecast[i], data.forecast[i]) {
      assert days[TodayIndex + 1 + i] == data.forecast[i];
      RoundWhole(days[TodayIndex + 1 + i].maxTemp);
      RoundWhole(days[TodayIndex + 1 + i].minTemp);
    }
  }

  /** An encoded hourly label is the current hour exactly when its day and its hour are now's. */
  lemma EncodedHourMatches(days: seq<DailyForecast>, now: LocalTime, j: nat)
    requires j < HoursPerDay * |days|
    ensures IsCurrentHour(HourlyTimes(days)[j], now) <==> days[j / 24].date == now.date && j % 24 == now.hour
  {
    HourLabelReadsBack(days[j / 24].date, j % 24);
  }

  /** Hour `hour` of day `d` sits at slot `24 * d + hour` of the hourly arrays, inside `n` days. */
  lemma HourSlot(d: nat, hour: nat, n: nat)
    requires d < n && hour < HoursPerDay
    ensures var j := HoursPerDay * d + hour;
      j / HoursPerDay == d && j % HoursPerDay == hour && j < HoursPerDay * n
  {
    assert HoursPerDay * (d + 1) <= HoursPerDay * n;
  }

  /** When now's date is encoded day `d`, the hour index lands inside the hourly arrays. */
  lemma EncodedHourFound(days: seq<DailyForecast>, now: LocalTime, d: nat)
    requires TodayIndex < |days| && d < |days| && days[d].date == now.date
    ensures 0 <= CurrentHourIndex(HourlyTimes(days), now) < HoursPerDay * |days|
  {
    var j := HoursPerDay * d + now.hour;
    HourSlot(d, now.hour, |days|);
    EncodedHourMatches(days, now, j);
    assert TodayIndex * HoursPerDay + now.hour < |HourlyTimes(days)|;
  }

  /** When now's date is none of the encoded days, no label matches and the index is -1. */
  lemma EncodedHourMissing(days: seq<DailyForecast>, now: LocalTime)
    requires forall d :: 0 <= d < |days| ==> days[d].date != now.date
    ensures CurrentHourIndex(HourlyTimes(days), now) == -1
  {
    var times := HourlyTimes(days);
    forall j | 0 <= j < |times| ensures !IsCurrentHour(times[j], now) {
      EncodedHourMatches(days, now, j);
    }
  }

  /**
   * Over four or more encoded days the transformer's hour index lands inside
   * the hourly arrays exactly when now's date is one of the days; otherwise
   * nothing matches and the index is -1.
   */
  lemma EncodedHourIndex(days: seq<DailyForecast>, now: LocalTime)
    requires |days| > TodayIndex
    ensures var k := CurrentHourIndex(HourlyTimes(days), now);
      (0 <= k < HoursPerDay * |days|) <==> exists d :: 0 <= d < |days| && days[d].date == now.date
  {
    if exists d :: 0 <= d < |days| && days[d].date == now.date {
      var d :| 0 <= d < |days| && days[d].date == now.date;
      EncodedHourFound(days, now, d);
    } else {
      EncodedHourMissing(days, now);
    }
  }

  /**
   * Round trip of the current conditions: the current block's four fields,
   * today's extremes, sunrise and sunset come back; the hourly readings come
   * back exactly when now's date is one of the encoded days, and are NaN
   * (`None`) otherwise, because a missing hour yields index -1.
   */
  lemma {:induction false} CurrentRoundTrip(data: WeatherData, locationName: string, now: LocalTime)
    requires |data.history| == 3
    ensures var w := TransformAPIResponse(CreateMockOpenMeteoResponse(data), locationName, now);
      && w.current.temp == Round(data.current.temp) && w.current.weatherCode == data.current.weatherCode
      && w.current.windSpeed == data.current.windSpeed && w.current.windDirection == data.current.windDirection
      && w.current.maxTemp == Some(Round(data.today.maxTemp)) && w.current.minTemp == Some(Round(data.today.minTemp))
      && w.current.sunrise == data.today.sunrise && w.current.sunset == data.today.sunset
      && w.locationName == locationName
      && (w.current.humidity.Some? <==> exists k :: 0 <= k < |AllDays(data)| && AllDays(data)[k].date == now.date)
      && (w.current.humidity.Some? ==>
           && w.current.humidity == Some(Round(data.current.humidity))
           && w.current.precipitation == Some(Round(data.current.precipitation))
           && w.current.pressure == Some(Round(data.current.pressure)))
  {
    EncodedDaily(data);
    EncodedHourly(data);
    EncodedHourIndex(AllDays(data), now);
    assert AllDays(data)[TodayIndex] == data.today;
  }

  /** The mock record: three past days from 2026-02-03, today 2026-02-06, three coming days to 2026-02-09. */
  lemma MockTimeline()
    ensures |MockWeatherData.history| == 3 && |MockWeatherData.forecast| == 3
    ensures MapDays(AllDays(MockWeatherData), (d: DailyForecast) => d.date) ==
      ["2026-02-03", "2026-02-04", "2026-02-05", "2026-02-06", "2026-02-07", "2026-02-08", "2026-02-09"]
    ensures forall i :: 0 <= i < 7 ==> WholeTemperatures(AllDays(MockWeatherData)[i])
  {
  }

  /**
   * What the day-selection UI test reads: after fetching the mock payload the
   * first forecast day ("Tomorrow") is 2026-02-07 with a high of 20 and a low of 14.
   */
  lemma MockTomorrow(now: LocalTime)
    ensures var w := TransformAPIResponse(CreateMockOpenMeteoResponse(MockWeatherData), MockWeatherData.locationName, now);
      && |w.forecast| == 3 && w.forecast[0].date == "2026-02-07"
      && w.forecast[0].maxTemp == 20 && w.forecast[0].minTemp == 14
      && w.locationName == "London, United Kingdom"
  {
    MockTimeline();
    DaysRoundTrip(MockWeatherData, MockWeatherData.locationName, now);
  }
}
