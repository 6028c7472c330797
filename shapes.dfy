/** The records the service returns: the current-weather summary built from a provider reply and
    the entries of the three-day forecast. */
module Shapes {
  import opened Upstream

  /** A calendar day, counted in days; `today + k` is the day `k` days later. Its rendering as
      `%Y-%m-%d` is not modelled. */
  type CalendarDay = int

  /** The local-time rendering `format_timestamp` gives an epoch timestamp; the rendering itself
      is not modelled, so the value records which timestamp was rendered. */
  datatype LocalTime = FormattedTimestamp(epochSeconds: int)

  datatype CurrentWeather = CurrentWeather(
    temperature: real,
    condition: string,
    humidity: int,
    windSpeed: real,
    sunrise: LocalTime,
    sunset: LocalTime,
    country: string,
    visibility: int,
    weatherIcon: string)

  datatype ForecastEntry = ForecastEntry(date: CalendarDay, temperature: real, condition: string)

  const IconUrlPrefix := "http://openweathermap.org/img/w/"
  const IconUrlSuffix := ".png"

  /** The address of the provider's image for an icon code. */
  function IconUrl(code: string): (url: string)
    ensures |url| == |IconUrlPrefix| + |code| + |IconUrlSuffix|
    ensures url[..|IconUrlPrefix|] == IconUrlPrefix
    ensures url[|IconUrlPrefix|..|url| - |IconUrlSuffix|] == code
    ensures url[|url| - |IconUrlSuffix|..] == IconUrlSuffix
  {
    IconUrlPrefix + code + IconUrlSuffix
  }

  /** The icon code an icon address was built from, if it has the shape `IconUrl` gives. */
  function IconCodeOf(url: string): Option<string> {
    if |url| >= |IconUrlPrefix| + |IconUrlSuffix|
       && url[..|IconUrlPrefix|] == IconUrlPrefix
       && url[|url| - |IconUrlSuffix|..] == IconUrlSuffix
    then Some(url[|IconUrlPrefix|..|url| - |IconUrlSuffix|])
    else None
  }

  /** The icon code can be read back from the address built from it. */
  lemma IconUrlRoundTrip(code: string)
    ensures IconCodeOf(IconUrl(code)) == Some(code)
  {
  }

  /** Every address `IconCodeOf` accepts is the one built from the code it reads. */
  lemma IconCodeOfInverse(url: string, code: string)
    requires IconCodeOf(url) == Some(code)
    ensures IconUrl(code) == url
  {
    var p, c, s := url[..|IconUrlPrefix|], url[|IconUrlPrefix|..|url| - |IconUrlSuffix|], url[|url| - |IconUrlSuffix|..];
    assert url == p + c + s;
  }

  /** The `current_weather` record built from a 200 reply: temperature, humidity, wind, country
      and visibility copied, the condition and icon taken from the first `weather` entry, sunrise
      and sunset rendered as local time. */
  function ShapeCurrent(data: CurrentData): (w: CurrentWeather)
    requires |data.weather| > 0
    ensures w.temperature == data.temp && w.humidity == data.humidity
    ensures w.condition == data.weather[0].description
    ensures w.windSpeed == data.windSpeed
    ensures w.sunrise == FormattedTimestamp(data.sunrise) && w.sunset == FormattedTimestamp(data.sunset)
    ensures w.country == data.country && w.visibility == data.visibility
    ensures IconCodeOf(w.weatherIcon) == Some(data.weather[0].icon)
  {
    IconUrlRoundTrip(data.weather[0].icon);
    CurrentWeather(
      data.temp,
      data.weather[0].description,
      data.humidity,
      data.windSpeed,
      FormattedTimestamp(data.sunrise),
      FormattedTimestamp(data.sunset),
      data.country,
      data.visibility,
      IconUrl(data.weather[0].icon))
  }
}
