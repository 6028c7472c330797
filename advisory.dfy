/** The advisory rule engine: a first-match-wins chain of four case-insensitive keyword tests on
    the condition text, then two strict temperature thresholds, then a default. */
module Advisory {
  import opened Text
  import opened Shapes

  const RainAdvice := "It's currently raining. Don't forget to take an umbrella!"
  const SnowAdvice := "It's currently snowing. Bundle up and stay warm!"
  const ClearAdvice := "It's a clear day. Enjoy the sunshine!"
  const CloudAdvice := "It's cloudy outside. Take a jacket just in case."
  const ColdAdvice := "It's cold outside. Dress warmly!"
  const HotAdvice := "It's hot outside. Stay hydrated!"
  const MildAdvice := "Enjoy the weather!"

  const Advisories: set<string> :=
    {RainAdvice, SnowAdvice, ClearAdvice, CloudAdvice, ColdAdvice, HotAdvice, MildAdvice}

  /** `keyword in condition.lower()`. */
  predicate Mentions(condition: string, keyword: string): (r: bool)
    ensures r ==> exists i :: OccursAt(Lower(condition), keyword, i)
    ensures !r ==> forall i :: !OccursAt(Lower(condition), keyword, i)
  {
    Contains(Lower(condition), keyword)
  }

  /** None of the four keywords occurs in the condition. */
  predicate NoKeyword(condition: string) {
    !Mentions(condition, "rain") && !Mentions(condition, "snow")
    && !Mentions(condition, "clear") && !Mentions(condition, "cloud")
  }

  /** `get_weather_advice`: each advisory is chosen exactly when its rule is the first to match. */
  function WeatherAdvice(w: CurrentWeather): (advice: string)
    ensures advice in Advisories
    ensures advice == RainAdvice <==> Mentions(w.condition, "rain")
    ensures advice == SnowAdvice <==> !Mentions(w.condition, "rain") && Mentions(w.condition, "snow")
    ensures advice == ClearAdvice <==>
      !Mentions(w.condition, "rain") && !Mentions(w.condition, "snow") && Mentions(w.condition, "clear")
    ensures advice == CloudAdvice <==>
      !Mentions(w.condition, "rain") && !Mentions(w.condition, "snow") && !Mentions(w.condition, "clear")
      && Mentions(w.condition, "cloud")
    ensures advice == ColdAdvice <==> NoKeyword(w.condition) && w.temperature < 10.0
    ensures advice == HotAdvice <==> NoKeyword(w.condition) && w.temperature > 25.0
    ensures advice == MildAdvice <==> NoKeyword(w.condition) && 10.0 <= w.temperature <= 25.0
  {
    var condition := Lower(w.condition);
    if Contains(condition, "rain") then RainAdvice
    else if Contains(condition, "snow") then SnowAdvice
    else if Contains(condition, "clear") then ClearAdvice
    else if Contains(condition, "cloud") then CloudAdvice
    else if w.temperature < 10.0 then ColdAdvice
    else if w.temperature > 25.0 then HotAdvice
    else MildAdvice
  }

  /** The advice is never empty. */
  lemma AdviceNonEmpty(w: CurrentWeather)
    ensures |WeatherAdvice(w)| > 0
  {
  }

  /** A condition keyword wins over any temperature: the advice for a condition that mentions a
      keyword is the same at every temperature. */
  lemma KeywordIgnoresTemperature(w: CurrentWeather, t: real)
    requires !NoKeyword(w.condition)
    ensures WeatherAdvice(w.(temperature := t)) == WeatherAdvice(w)
  {
  }

  /** Only the lower-cased condition matters: conditions with the same lower-cased form get the
      same advice at the same temperature. */
  lemma AdviceIgnoresCase(w1: CurrentWeather, w2: CurrentWeather)
    requires Lower(w1.condition) == Lower(w2.condition)
    requires w1.temperature == w2.temperature
    ensures WeatherAdvice(w1) == WeatherAdvice(w2)
  {
  }

  /** Lower-casing the condition beforehand does not change the advice. */
  lemma AdviceOfLowered(w: CurrentWeather)
    ensures WeatherAdvice(w.(condition := Lower(w.condition))) == WeatherAdvice(w)
  {
    LowerIdempotent(w.condition);
  }

  /** A keyword written in any letter case counts: a condition containing `kw` as written, in
      upper or mixed case, mentions its lower-cased form. */
  lemma MentionsInAnyCase(condition: string, kw: string)
    requires Contains(condition, kw)
    ensures Mentions(condition, Lower(kw))
  {
    LowerKeepsOccurrence(condition, kw);
  }

  /** "Heavy RAIN" gets the rain advisory, even when hot. */
  lemma UpperCaseRain(w: CurrentWeather)
    requires w.condition == "Heavy RAIN" && w.temperature == 30.0
    ensures WeatherAdvice(w) == RainAdvice
  {
    assert OccursAt(w.condition, "RAIN", 6);
    MentionsInAnyCase(w.condition, "RAIN");
    assert Lower("RAIN") == "rain";
  }

  /** "light rain" at 15 degrees gets the rain advisory. */
  lemma LightRainExample(w: CurrentWeather)
    requires w.condition == "light rain" && w.temperature == 15.0
    ensures WeatherAdvice(w) == RainAdvice
  {
    assert Lower(w.condition) == w.condition;
    assert OccursAt(w.condition, "rain", 6);
  }

  /** "clear sky" is already lower-case. */
  lemma ClearSkyLower(c: string)
    requires c == "clear sky"
    ensures Lower(c) == c
  {
    forall i | 0 <= i < |c| ensures !IsUpper(c[i]) {
    }
  }

  /** "clear sky" contains neither "rain" nor "snow": no "ra" and no "sn" stand side by side. */
  lemma ClearSkyNoRainNoSnow(c: string)
    requires c == "clear sky"
    ensures !Contains(c, "rain") && !Contains(c, "snow")
  {
    assert forall i :: 0 <= i < |c| - 1 ==> c[i] != 'r' || c[i + 1] != 'a';
    assert forall i :: 0 <= i < |c| - 1 ==> c[i] != 's' || c[i + 1] != 'n';
    AbsentWithoutLeadingPair(c, "rain");
    AbsentWithoutLeadingPair(c, "snow");
  }

  /** "clear sky" mentions "clear". */
  lemma ClearSkyKeywords(c: string)
    requires c == "clear sky"
    ensures Lower(c) == c
    ensures !Contains(c, "rain") && !Contains(c, "snow") && Contains(c, "clear")
  {
    ClearSkyLower(c);
    ClearSkyNoRainNoSnow(c);
    assert OccursAt(c, "clear", 0);
  }

  /** "clear sky" at 30 degrees gets the clear-day advisory: the keyword beats the heat rule. */
  lemma ClearSkyExample(w: CurrentWeather)
    requires w.condition == "clear sky" && w.temperature == 30.0
    ensures WeatherAdvice(w) == ClearAdvice
  {
    ClearSkyKeywords(w.condition);
  }

  /** An empty condition falls through to the temperature rules. */
  lemma EmptyConditionHasNoKeyword(w: CurrentWeather)
    requires w.condition == ""
    ensures NoKeyword(w.condition)
  {
    assert Lower(w.condition) == "";
  }

  /** With an empty condition, 5 degrees is cold and 18 degrees is mild. */
  lemma EmptyConditionExamples(w: CurrentWeather)
    requires w.condition == ""
    ensures WeatherAdvice(w.(temperature := 5.0)) == ColdAdvice
    ensures WeatherAdvice(w.(temperature := 18.0)) == MildAdvice
  {
    EmptyConditionHasNoKeyword(w);
  }

  /** The thresholds are strict: exactly 10 and exactly 25 degrees without a keyword are mild. */
  lemma ThresholdBoundaries(w: CurrentWeather)
    requires NoKeyword(w.condition)
    ensures WeatherAdvice(w.(temperature := 10.0)) == MildAdvice
    ensures WeatherAdvice(w.(temperature := 25.0)) == MildAdvice
  {
  }
}
