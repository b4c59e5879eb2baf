/**
 * The icon `WeatherIcon` draws for a weather code: WMO present-weather codes
 * (code table 4677) as Open-Meteo's `weathercode` delivers them.
 */
module WeatherIcon {

  datatype Icon = Sun | CloudSun | Cloud | CloudFog | CloudDrizzle | CloudRain | Snowflake | CloudLightning

  /**
   * The first-match chain of `WeatherIcon`. Its postcondition gives, for each
   * icon, the exact set of codes that draw it; the sets do not overlap and
   * cover every integer.
   */
  function IconFor(code: int): (icon: Icon)
    ensures icon == Sun <==> code == 0
    ensures icon == CloudSun <==> code < 0 || 1 <= code <= 2
    ensures icon == Cloud <==> code == 3
    ensures icon == CloudFog <==> 4 <= code <= 48
    ensures icon == CloudDrizzle <==> 49 <= code <= 57
    ensures icon == CloudRain <==> 58 <= code <= 67 || 78 <= code <= 82
    ensures icon == Snowflake <==> 68 <= code <= 77 || 83 <= code <= 86
    ensures icon == CloudLightning <==> code > 86
  {
    if code == 0 then Sun
    else if code <= 2 then CloudSun
    else if code == 3 then Cloud
    else if code <= 48 then CloudFog
    else if code <= 57 then CloudDrizzle
    else if code <= 67 then CloudRain
    else if code <= 77 then Snowflake
    else if code <= 82 then CloudRain
    else if code <= 86 then Snowflake
    else CloudLightning
  }
}
