/**
 * The shapes the app and the Open-Meteo provider exchange. The first group is
 * what the app's types declare; the second is the part of them that the
 * response transformer actually fills in; the last is the provider's payload.
 * Numbers are `real`, weather codes (WMO code table 4677) are `int`.
 */
module WeatherTypes {
  import opened Wrappers

  /** A place found by the geocoding search. `id` 0 marks an ad-hoc (geolocated) place. */
  datatype GeoLocation = GeoLocation(id: int, name: string, country: string, latitude: real, longitude: real)

  /** One calendar day, with every field the app's types declare. */
  datatype DailyForecast = DailyForecast(
    date: string, maxTemp: real, minTemp: real, avgTemp: real, weatherCode: int,
    windSpeed: real, windDirection: real, humidity: real, precipitation: real, pressure: real,
    sunrise: string, sunset: string)

  /** The declared current-conditions record. */
  datatype CurrentWeather = CurrentWeather(
    temp: real, minTemp: real, maxTemp: real, weatherCode: int, windSpeed: real, windDirection: real,
    humidity: real, precipitation: real, pressure: real, sunrise: string, sunset: string)

  /** The declared weather record, with its `today` day. */
  datatype WeatherData = WeatherData(
    locationName: string, current: CurrentWeather, today: DailyForecast,
    history: seq<DailyForecast>, forecast: seq<DailyForecast>)

  /** A day as the transformer builds it: only the date, the rounded extremes and the code. */
  datatype DaySummary = DaySummary(date: string, maxTemp: int, minTemp: int, weatherCode: int)

  /**
   * Current conditions as the transformer builds them. A rounded reading from
   * an index the payload does not have is JavaScript's NaN, written `None`.
   */
  datatype CurrentSummary = CurrentSummary(
    temp: int, minTemp: Option<int>, maxTemp: Option<int>, weatherCode: int,
    windSpeed: real, windDirection: real,
    humidity: Option<int>, precipitation: Option<int>, pressure: Option<int>,
    sunrise: string, sunset: string)

  /** The weather record as the transformer builds it: no `today` field. */
  datatype WeatherSnapshot = WeatherSnapshot(
    current: CurrentSummary, forecast: seq<DaySummary>, history: seq<DaySummary>, locationName: string)

  /** Open-Meteo's `current_weather` block. */
  datatype CurrentWeatherBlock = CurrentWeatherBlock(temperature: real, weatherCode: int, windSpeed: real, windDirection: real)

  /** Open-Meteo's `hourly` block: `time`, `relativehumidity_2m`, `precipitation`, `pressure_msl`. */
  datatype HourlyBlock = HourlyBlock(time: seq<string>, relativeHumidity: seq<real>, precipitation: seq<real>, pressureMsl: seq<real>)

  /**
   * Open-Meteo's `daily` block: `time`, `temperature_2m_max`, `temperature_2m_min`,
   * `weathercode`, `sunrise`, `sunset`, `windspeed_10m_max`,
   * `winddirection_10m_dominant`, `precipitation_sum`.
   */
  datatype DailyBlock = DailyBlock(
    time: seq<string>, temperatureMax: seq<real>, temperatureMin: seq<real>, weatherCode: seq<int>,
    sunrise: seq<string>, sunset: seq<string>,
    windSpeedMax: seq<real>, windDirectionDominant: seq<real>, precipitationSum: seq<real>)

  datatype OpenMeteoResponse = OpenMeteoResponse(currentWeather: CurrentWeatherBlock, hourly: HourlyBlock, daily: DailyBlock)

  /** One entry of the geocoding response's `results`. */
  datatype GeoResult = GeoResult(id: int, name: string, latitude: real, longitude: real, country: string)

  /** The geocoding response; `results` may be absent. */
  datatype GeoCodingResponse = GeoCodingResponse(results: Option<seq<GeoResult>>)
}
