/** The `/weather` request handler: validate the city, fetch the current weather, map a provider
    failure to 500, otherwise shape the current weather, fetch the forecast (whose failure only
    empties it) and add the advice. The provider's replies are parameters; the requests the
    handler issues are part of its outcome. */
module Handler {
  import opened Text
  import opened Upstream
  import opened Shapes
  import opened Advisory
  import opened Forecast

  const CityRequired := "City parameter is required."
  const UnknownError := "Unknown error"
  const FailurePrefix := "Failed to retrieve weather data. Error: "
  const StatusLabel := ", Status code: "

  /** A JSON body: either `{"error": ...}` or the combined weather payload. */
  datatype Body =
    | ErrorBody(error: string)
    | WeatherBody(weather: CurrentWeather, forecast: Option<seq<ForecastEntry>>, advice: string)

  datatype Response = Response(status: nat, body: Body)

  /** A response and the provider requests issued while producing it, in the order issued. */
  datatype Outcome = Outcome(response: Response, issued: seq<Request>)

  /** `request.args.get('city', '')`: a missing parameter reads as the empty string. */
  function CityParam(arg: Option<string>): (city: string)
    ensures city == "" <==> arg == None || arg == Some("")
    ensures arg.Some? ==> city == arg.value
  {
    arg.GetOr("")
  }

  /** The error text for a failed current-weather reply: the reply's `message` (or
      "Unknown error" when it has none) and its status code. */
  function FailureMessage(reply: CurrentReply): (m: string)
    ensures var text, digits := reply.message.GetOr(UnknownError), NatToDecimal(reply.status);
      |m| == |FailurePrefix| + |text| + |StatusLabel| + |digits|
      && m[..|FailurePrefix|] == FailurePrefix
      && m[|FailurePrefix|..|FailurePrefix| + |text|] == text
      && m[|FailurePrefix| + |text|..|m| - |digits|] == StatusLabel
      && m[|m| - |digits|..] == digits
  {
    FailurePrefix + reply.message.GetOr(UnknownError) + StatusLabel + NatToDecimal(reply.status)
  }

  /** The failure text starts with the fixed prefix, carries the provider's message right after
      it, followed by the status label, and ends with digits that read back as the status code. */
  lemma FailureMessageReports(reply: CurrentReply)
    ensures var m, text, digits := FailureMessage(reply), reply.message.GetOr(UnknownError), |NatToDecimal(reply.status)|;
      m[..|FailurePrefix|] == FailurePrefix
      && m[|FailurePrefix|..|FailurePrefix| + |text|] == text
      && m[|FailurePrefix| + |text|..|m| - digits] == StatusLabel
      && Contains(m, text)
      && |m| > digits && IsDigits(m[|m| - digits..]) && DecimalValue(m[|m| - digits..]) == reply.status
  {
    var text := reply.message.GetOr(UnknownError);
    var m := FailureMessage(reply);
    assert OccursAt(m, text, |FailurePrefix|);
    DecimalRoundTrip(reply.status);
  }

  /** A 404 reply whose message is "city not found" gives the text the provider's failure
      produces for an unknown city. */
  lemma FailureMessageExample(reply: CurrentReply)
    requires reply.status == 404 && reply.message == Some("city not found")
    ensures FailureMessage(reply) == "Failed to retrieve weather data. Error: city not found, Status code: 404"
  {
    StatusNotFoundDigits();
    assert FailureMessage(reply) == FailurePrefix + "city not found" + StatusLabel + "404";
  }

  /** 404 renders as "404". */
  lemma StatusNotFoundDigits()
    ensures NatToDecimal(404) == "404"
  {
    assert NatToDecimal(4) == "4";
    assert NatToDecimal(40) == "40";
  }

  /** The replies the handler consults are ones it can read: the current-weather reply once the
      city is present, the forecast reply once the current-weather reply succeeded. */
  predicate RepliesReadable(cityArg: Option<string>, current: CurrentReply, forecast: ForecastReply): (r: bool)
    ensures CityParam(cityArg) == "" ==> r
    ensures current.status != 200 ==> r
    ensures r && CityParam(cityArg) != "" && current.status == 200 ==>
      current.fields.Some? && |current.fields.value.weather| > 0
      && (forecast.status == 200 ==> ForecastReadable(forecast))
  {
    CityParam(cityArg) != "" ==> CurrentReadable(current) && (current.status == 200 ==> ForecastReadable(forecast))
  }

  /** The outcome of one `/weather` request. */
  function Respond(cityArg: Option<string>, current: CurrentReply, forecast: ForecastReply, today: CalendarDay): (outcome: Outcome)
    requires RepliesReadable(cityArg, current, forecast)
    ensures outcome.response.status in {200, 400, 500}
    ensures outcome.response.status == 400 <==> CityParam(cityArg) == ""
    ensures outcome.response.status == 400 ==>
      outcome.response.body == ErrorBody(CityRequired) && outcome.issued == []
    ensures outcome.response.status == 500 <==> CityParam(cityArg) != "" && current.status != 200
    ensures outcome.response.status == 500 ==>
      outcome.response.body == ErrorBody(FailureMessage(current))
      && outcome.issued == [CurrentRequest(CityParam(cityArg))]
    ensures outcome.response.status == 200 ==>
      var body := outcome.response.body;
      body.WeatherBody?
      && body.weather == ShapeCurrent(current.fields.value)
      && body.forecast == SelectForecast(forecast, today)
      && body.advice == WeatherAdvice(body.weather)
      && outcome.issued == [CurrentRequest(CityParam(cityArg)), ForecastRequest(CityParam(cityArg))]
  {
    var city := CityParam(cityArg);
    if city == "" then
      Outcome(Response(400, ErrorBody(CityRequired)), [])
    else if current.status != 200 then
      Outcome(Response(500, ErrorBody(FailureMessage(current))), [CurrentRequest(city)])
    else
      var weather := ShapeCurrent(current.fields.value);
      Outcome(
        Response(200, WeatherBody(weather, SelectForecast(forecast, today), WeatherAdvice(weather))),
        [CurrentRequest(city), ForecastRequest(city)])
  }

  /** `get_weather`, with the provider's answers to its two requests given as `current` and
      `forecast` and the day of the request as `today`. */
  method GetWeather(cityArg: Option<string>, current: CurrentReply, forecast: ForecastReply, today: CalendarDay)
    returns (response: Response, issued: seq<Request>)
    requires RepliesReadable(cityArg, current, forecast)
    ensures Outcome(response, issued) == Respond(cityArg, current, forecast, today)
  {
    var city := CityParam(cityArg);
    issued := [];
    if city == "" {
      response := Response(400, ErrorBody(CityRequired));
      return;
    }
    issued := issued + [CurrentRequest(city)];
    if current.status != 200 {
      response := Response(500, ErrorBody(FailureMessage(current)));
      return;
    }
    var currentWeather := ShapeCurrent(current.fields.value);
    issued := issued + [ForecastRequest(city)];
    var days := GetWeatherForecast(forecast, today);
    var advice := WeatherAdvice(currentWeather);
    response := Response(200, WeatherBody(currentWeather, days, advice));
  }

  /** A missing or empty city is rejected with 400 whatever the provider would have said. */
  lemma EmptyCityIgnoresProvider(
    cityArg: Option<string>, c1: CurrentReply, f1: ForecastReply, d1: CalendarDay,
    c2: CurrentReply, f2: ForecastReply, d2: CalendarDay)
    requires cityArg == None || cityArg == Some("")
    ensures Respond(cityArg, c1, f1, d1) == Respond(cityArg, c2, f2, d2)
    ensures Respond(cityArg, c1, f1, d1) == Outcome(Response(400, ErrorBody(CityRequired)), [])
  {
  }

  /** When the current-weather reply fails, the forecast reply and the day play no part. */
  lemma CurrentFailureIgnoresForecast(
    cityArg: Option<string>, current: CurrentReply,
    f1: ForecastReply, d1: CalendarDay, f2: ForecastReply, d2: CalendarDay)
    requires CityParam(cityArg) != "" && current.status != 200
    ensures Respond(cityArg, current, f1, d1) == Respond(cityArg, current, f2, d2)
  {
  }

  /** A failed current-weather reply gives a 500 whose error text carries the provider's message
      (or "Unknown error") and its status code. */
  lemma CurrentFailureReported(cityArg: Option<string>, current: CurrentReply, forecast: ForecastReply, today: CalendarDay)
    requires CityParam(cityArg) != "" && current.status != 200
    ensures var response := Respond(cityArg, current, forecast, today).response;
      response.status == 500 && response.body.ErrorBody?
      && Contains(response.body.error, current.message.GetOr(UnknownError))
  {
    FailureMessageReports(current);
  }

  /** A failed forecast reply does not fail the request: the response is still 200 with the
      current weather and its advice, and the forecast is empty. */
  lemma ForecastFailureDegrades(cityArg: Option<string>, current: CurrentReply, forecast: ForecastReply, today: CalendarDay)
    requires CityParam(cityArg) != "" && CurrentReadable(current) && current.status == 200
    requires forecast.status != 200
    ensures var response := Respond(cityArg, current, forecast, today).response;
      response.status == 200 && response.body.WeatherBody?
      && response.body.forecast == None
      && response.body.weather == ShapeCurrent(current.fields.value)
      && response.body.advice == WeatherAdvice(response.body.weather)
      && response.body.advice in Advisories
  {
  }

  /** When both replies succeed the payload holds three forecast days, today + 1 to today + 3,
      and a non-empty advice. */
  lemma SuccessHasThreeDays(cityArg: Option<string>, current: CurrentReply, forecast: ForecastReply, today: CalendarDay)
    requires CityParam(cityArg) != "" && CurrentReadable(current) && current.status == 200
    requires ForecastReadable(forecast) && forecast.status == 200
    ensures var body := Respond(cityArg, current, forecast, today).response.body;
      body.WeatherBody? && body.forecast.Some? && |body.forecast.value| == 3
      && (forall k :: 0 <= k < 3 ==> body.forecast.value[k].date == today + k + 1)
      && |body.advice| > 0
  {
    AdviceNonEmpty(ShapeCurrent(current.fields.value));
  }
}
