/** The weather provider as the handler sees it: the GET requests it sends and the decoded replies
    it gets back. The provider itself, the network and JSON decoding are outside the model; a reply
    is a status code together with the fields the handler reads from its body. */
module Upstream {

  datatype Option<T> = None | Some(value: T) {
    function GetOr(default: T): T {
      match this
      case Some(v) => v
      case None => default
    }
  }

  const WeatherApiUrl := "https://api.openweathermap.org/data/2.5/weather"
  const ForecastApiUrl := "https://api.openweathermap.org/data/2.5/forecast"

  /** One outbound GET: the endpoint and its `q` and `units` query parameters. */
  datatype Request = Request(url: string, q: string, units: string)

  /** The current-weather request for `city`, in metric units. */
  function CurrentRequest(city: string): (r: Request)
    ensures r.url == WeatherApiUrl && r.q == city && r.units == "metric"
  {
    Request(WeatherApiUrl, city, "metric")
  }

  /** The forecast request: the same query as the current-weather request, another endpoint. */
  function ForecastRequest(city: string): (r: Request)
    ensures r.url == ForecastApiUrl
    ensures r.q == CurrentRequest(city).q && r.units == CurrentRequest(city).units
    ensures r != CurrentRequest(city)
  {
    Request(ForecastApiUrl, city, "metric")
  }

  /** One element of a `weather` list: its `description` and `icon` code. */
  datatype Condition = Condition(description: string, icon: string)

  /** The fields of a current-weather body that the handler reads. */
  datatype CurrentData = CurrentData(
    temp: real,               // main.temp
    humidity: int,            // main.humidity
    weather: seq<Condition>,  // weather
    windSpeed: real,          // wind.speed
    sunrise: int,             // sys.sunrise, epoch seconds
    sunset: int,              // sys.sunset, epoch seconds
    country: string,          // sys.country
    visibility: int)          // visibility

  /** A current-weather reply: the status code, the body's optional `message`, and the weather
      fields when the body carries all of them. */
  datatype CurrentReply = CurrentReply(status: nat, message: Option<string>, fields: Option<CurrentData>)

  /** The handler reads a 200 reply without checking it: every field must be there and the
      `weather` list must not be empty. */
  predicate CurrentReadable(reply: CurrentReply): (r: bool)
    ensures reply.status != 200 ==> r
    ensures r && reply.status == 200 ==> reply.fields.Some? && |reply.fields.value.weather| > 0
  {
    reply.status == 200 ==> reply.fields.Some? && |reply.fields.value.weather| > 0
  }

  /** One element of a forecast `list`: `main.temp` and the `weather` list. */
  datatype ForecastItem = ForecastItem(temp: real, weather: seq<Condition>)

  /** A forecast reply: the status code and the body's `list`. */
  datatype ForecastReply = ForecastReply(status: nat, items: seq<ForecastItem>)

  /** The forecast code indexes `list[1]` to `list[3]` and their first `weather` entry on a 200
      reply without checking them. */
  predicate ForecastReadable(reply: ForecastReply): (r: bool)
    ensures reply.status != 200 ==> r
    ensures r && reply.status == 200 ==>
      |reply.items| >= 4 && forall k :: 1 <= k <= 3 ==> |reply.items[k].weather| > 0
  {
    reply.status == 200 ==>
      |reply.items| >= 4 && forall k :: 1 <= k <= 3 ==> |reply.items[k].weather| > 0
  }
}
