/** Forecast selection: on a 200 reply, the entries at positions 1, 2 and 3 of the provider's
    `list`, labelled with the days after today; nothing on any other status. */
module Forecast {
  import opened Upstream
  import opened Shapes

  /** The forecast entry for provider item `item`, labelled `day`. */
  function EntryFrom(item: ForecastItem, day: CalendarDay): (entry: ForecastEntry)
    requires |item.weather| > 0
    ensures entry.date == day
    ensures entry.temperature == item.temp && entry.condition == item.weather[0].description
  {
    ForecastEntry(day, item.temp, item.weather[0].description)
  }

  /** What `get_weather_forecast` returns for a reply received on day `today`. */
  function SelectForecast(reply: ForecastReply, today: CalendarDay): (forecast: Option<seq<ForecastEntry>>)
    requires ForecastReadable(reply)
    ensures forecast.None? <==> reply.status != 200
    ensures forecast.Some? ==> |forecast.value| == 3
    ensures forecast.Some? ==> forall k :: 0 <= k < 3 ==>
      forecast.value[k].date == today + k + 1
      && forecast.value[k].temperature == reply.items[k + 1].temp
      && forecast.value[k].condition == reply.items[k + 1].weather[0].description
  {
    if reply.status != 200 then None
    else Some(seq(3, k requires 0 <= k < 3 => EntryFrom(reply.items[k + 1], today + k + 1)))
  }

  /** The forecast days are consecutive and strictly increasing. */
  lemma ForecastDatesIncreasing(reply: ForecastReply, today: CalendarDay, i: nat, j: nat)
    requires ForecastReadable(reply) && reply.status == 200
    requires i < j < 3
    ensures SelectForecast(reply, today).value[i].date < SelectForecast(reply, today).value[j].date
    ensures SelectForecast(reply, today).value[j].date - SelectForecast(reply, today).value[i].date == j - i
  {
  }

  /** The labels depend only on today and the position, never on the provider's items: two
      replies give the same dates. */
  lemma ForecastDatesIgnoreProvider(r1: ForecastReply, r2: ForecastReply, today: CalendarDay, k: nat)
    requires ForecastReadable(r1) && r1.status == 200
    requires ForecastReadable(r2) && r2.status == 200
    requires k < 3
    ensures SelectForecast(r1, today).value[k].date == SelectForecast(r2, today).value[k].date
  {
  }

  /** `get_weather_forecast` with the request already answered: return nothing on a non-200
      status, otherwise append tomorrow's, the next day's and the day after's entries in turn. */
  method GetWeatherForecast(reply: ForecastReply, today: CalendarDay) returns (forecast: Option<seq<ForecastEntry>>)
    requires ForecastReadable(reply)
    ensures forecast.None? <==> reply.status != 200
    ensures forecast == SelectForecast(reply, today)
  {
    if reply.status != 200 {
      return None;
    }
    var entries: seq<ForecastEntry> := [];
    entries := entries + [EntryFrom(reply.items[1], today + 1)];
    entries := entries + [EntryFrom(reply.items[2], today + 2)];
    entries := entries + [EntryFrom(reply.items[3], today + 3)];
    ghost var expected := SelectForecast(reply, today).value;
    assert forall k :: 0 <= k < 3 ==> entries[k] == expected[k];
    assert entries == expected;
    return Some(entries);
  }
}
