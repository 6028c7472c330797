# Weather proxy core, modelled in Dafny

The service is a small Flask front-end to the OpenWeatherMap API. Given a city, its `/weather`
handler fetches the current conditions and a forecast from the provider. It reshapes them into a
`current_weather` record and a three-day forecast, derives an advice string, and answers with one
JSON payload. This project models the three functions of `app.py` that make the decisions:

- `get_weather_advice` (module `Advisory`): a first-match-wins chain. Four case-insensitive keyword
  tests on the condition text come first ("rain", "snow", "clear", "cloud"). Then two strict
  temperature thresholds (`< 10`, `> 25`), then a default.
- `get_weather_forecast` (module `Forecast`): `None` on a non-200 reply. Otherwise the provider's
  list entries 1, 2 and 3, labelled with the day after today, the day after that, and the third
  day. It is a method that appends the three entries one by one, proved equal to the function
  `SelectForecast`.
- `get_weather` (module `Handler`): 400 for a missing or empty city, before any provider request;
  500 with a composed message for a failed current-weather reply; otherwise 200 with the current
  weather, the forecast (possibly `None`) and the advice. It is a method proved equal to the
  function `Respond`.

Supporting modules: `Text` models ASCII lower-casing, substring search and decimal rendering of a
status code. `Upstream` holds the provider's replies as values and the requests the handler sends.
`Shapes` holds the output records and the icon address.

The provider is not called. Each reply is a parameter: a status code plus the fields the handler
reads. The handler's outcome also lists the requests it would have issued, in order. So "no
provider request for an empty city" and "no forecast request after a failed current-weather
reply" are stated outright. The day of the request is a parameter `today`. Forecast dates are day
numbers `today + k`.

The code does not check the provider's payload. A 200 reply that lacks a field, has an empty
`weather` list or has fewer than four forecast entries makes app.py:64-72 or app.py:112-131 raise.
The model therefore requires readable payloads (`CurrentReadable`, `ForecastReadable`,
`RepliesReadable`), and only for the replies the handler reads with status 200.

Forecast labels come from the request day, never from the provider entries' own timestamps.
`Forecast.ForecastDatesIgnoreProvider` states this, and the model keeps that behaviour as the code
has it.

## Model

| member | source | states |
|---|---|---|
| `Text.Lower` | app.py:142-148 | `condition.lower()`: same length, every character lower-cased in place, no upper-case letter left |
| `Text.LowerIdempotent` | app.py:142-148 | lower-casing an already lower-cased condition changes nothing |
| `Text.Contains` | app.py:142-148 | the `in` test on strings, a left-to-right scan, is true exactly when the keyword occurs at some position of the text |
| `Text.LowerKeepsOccurrence` | app.py:142-148 | an occurrence in the original text remains an occurrence after lower-casing both sides |
| `Text.NatToDecimal` | app.py:58 | the status code is rendered as a non-empty digit string without leading zeros |
| `Text.DecimalRoundTrip` | app.py:58 | the rendered status code reads back as the same number |
| `Shapes.IconUrl` | app.py:72 | the icon address is the fixed prefix, the icon code, then `.png` |
| `Shapes.IconUrlRoundTrip` | app.py:72 | the icon code can be recovered from the address built from it |
| `Shapes.IconCodeOfInverse` | app.py:72 | every address of that shape is the one built from the code it contains |
| `Shapes.ShapeCurrent` | app.py:63-73 | the current-weather record copies temperature, humidity, wind, country and visibility; condition and icon come from the first `weather` entry; sunrise and sunset are rendered timestamps |
| `Advisory.Mentions` | app.py:142-149 | `keyword in condition.lower()` holds exactly when the keyword occurs in the lower-cased condition |
| `Advisory.WeatherAdvice` | app.py:137-157 | the advice is one of the seven fixed strings; each is returned exactly when its rule is the first to match (rain, then snow, clear, cloud, then `< 10`, `> 25`, else the default) |
| `Advisory.AdviceNonEmpty` | app.py:142-157 | the advice is never empty |
| `Advisory.KeywordIgnoresTemperature` | app.py:142-149 | once a keyword matches, the temperature has no effect on the advice |
| `Advisory.AdviceIgnoresCase` | app.py:142-148 | conditions with equal lower-case forms get equal advice at equal temperature |
| `Advisory.AdviceOfLowered` | app.py:142-148 | lower-casing the condition beforehand does not change the advice |
| `Advisory.MentionsInAnyCase` | app.py:142-148 | a keyword found in the condition as written, in any letter case, is mentioned in its lower-case form; so a lower-case keyword found as written is always mentioned |
| `Advisory.UpperCaseRain` | app.py:142-143 | "Heavy RAIN" at 30 degrees gets the rain advisory |
| `Advisory.LightRainExample` | app.py:142-143 | "light rain" at 15 degrees gets the rain advisory |
| `Advisory.ClearSkyExample` | app.py:142-147 | "clear sky" at 30 degrees gets the clear-day advisory, not the hot one |
| `Advisory.EmptyConditionHasNoKeyword` | app.py:142-149 | an empty condition matches no keyword |
| `Advisory.EmptyConditionExamples` | app.py:150-155 | with an empty condition, 5 degrees is cold and 18 degrees is mild |
| `Advisory.ThresholdBoundaries` | app.py:150-155 | the thresholds are strict: exactly 10 and exactly 25 degrees, with no keyword, give "Enjoy the weather!" |
| `Upstream.CurrentRequest` | app.py:48-54 | the current-weather request goes to the weather endpoint with `q` the city and metric units |
| `Upstream.ForecastRequest` | app.py:92-98 | the forecast request has the same `q` and units as the current-weather request but goes to the forecast endpoint, so the two differ |
| `Upstream.CurrentReadable` | app.py:63-72 | nothing is demanded of a non-200 reply; only its optional `message` is read (app.py:58); a readable 200 reply has all fields and a non-empty `weather` list |
| `Upstream.ForecastReadable` | app.py:110-132 | a non-200 forecast reply is decoded but never consulted (app.py:99-104); a readable 200 reply has at least four list entries, each of entries 1 to 3 with a `weather` entry |
| `Forecast.EntryFrom` | app.py:110-132 | each forecast dict takes its date label from the given day and its temperature and description from the provider entry |
| `Forecast.SelectForecast` | app.py:101-135 | `None` exactly on a non-200 reply; otherwise three entries, entry k taking temperature and description from provider entry k + 1 and dated today + k + 1 |
| `Forecast.ForecastDatesIncreasing` | app.py:109-133 | the three forecast dates are strictly increasing and one day apart |
| `Forecast.ForecastDatesIgnoreProvider` | app.py:109-127 | the dates depend only on the request day, never on the provider's entries |
| `Forecast.GetWeatherForecast` | app.py:91-135 | the early return and the three successive appends produce exactly `SelectForecast` |
| `Handler.CityParam` | app.py:37 | `request.args.get('city', '')`: the city is empty exactly when the argument is missing or empty, and otherwise is the argument |
| `Handler.FailureMessage` | app.py:58 | the error text is the fixed prefix, then the provider's message (or "Unknown error"), then ", Status code: ", then the status digits |
| `Handler.FailureMessageReports` | app.py:57-58 | the provider's message sits right after the fixed prefix and before the status label, and the text ends with digits that read back as the status code |
| `Handler.FailureMessageExample` | app.py:58 | a 404 reply with message "city not found" gives "Failed to retrieve weather data. Error: city not found, Status code: 404" |
| `Handler.RepliesReadable` | app.py:43-76 | nothing is demanded of the replies when the city is empty or the current-weather reply failed; otherwise the current-weather reply, and the forecast reply when it succeeded, are readable |
| `Handler.Respond` | app.py:35-89 | the status is 200, 400 or 500; 400 exactly for an empty or missing city, with the fixed error and no provider request; 500 exactly for a failed current-weather reply, with the composed error and only the current-weather request; otherwise 200 with the shaped weather, the selected forecast and its advice, after both requests |
| `Handler.GetWeather` | app.py:35-89 | the handler's early returns and record construction produce exactly `Respond` |
| `Handler.EmptyCityIgnoresProvider` | app.py:37-46 | a missing or empty city gives 400 `City parameter is required.`, whatever the provider would answer |
| `Handler.CurrentFailureIgnoresForecast` | app.py:54-60 | after a failed current-weather reply, neither the forecast reply nor the day affects the response |
| `Handler.CurrentFailureReported` | app.py:57-60 | a failed current-weather reply gives 500 with an error that contains the provider's message |
| `Handler.ForecastFailureDegrades` | app.py:76-89 | a failed forecast reply still gives 200 with the current weather and its advice, and a `None` forecast |
| `Handler.SuccessHasThreeDays` | app.py:63-89 | when both replies succeed, the payload has three forecast days (today + 1 to today + 3) and a non-empty advice |

## Left out

- Flask routing, `request.args`, headers, `jsonify` and the `/` route serving `static/index.html`: framework plumbing and file I/O. The handler's input is the optional `city` argument; its output is a status and a body value.
- The HTTP calls and `response.json()`: network I/O and JSON decoding. Each reply is a status code plus decoded fields. Network exceptions are not modelled. Neither is a body that is not JSON, which the source would fail to decode even on an error status.
- The `appid` query parameter and the `WEATHER_API_KEY` environment variable: process configuration. A request records only its endpoint, `q` and `units`.
- Logging, the rotating log file and the Prometheus metrics: side effects only.
- Forecast.GetWeatherForecast: the source reads the clock with `datetime.now()` once per entry; the model takes one day `today`, so a request that straddles midnight, where a label could be a day off, is not captured.
- Forecast.SelectForecast: dates are day numbers; their `%Y-%m-%d` rendering (`strftime`) is not modelled.
- Shapes.ShapeCurrent: `format_timestamp` (local time zone and `strftime`) is not modelled; the record holds `FormattedTimestamp(t)` for the timestamp `t` it renders.
- Temperature and wind speed are `real`, not IEEE floats. Wind speed is only copied (app.py:67); temperature is only compared with `<` and `>` (app.py:150, 152).
- Text.Lower: lower-cases ASCII letters only; Python's `str.lower` also folds non-ASCII letters.
- The provider's `message` field is modelled as a string. The source would format a value of any JSON type into the error text.
- A payload that lacks fields or has too few forecast entries makes the source raise. This is a precondition of the model (`RepliesReadable`), not an outcome.
