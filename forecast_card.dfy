/** The forecast card's icon choice: like the main card's, but with no night variant. */
module ForecastCard {
  import opened JsString
  import opened WeatherTypes
  import WeatherCard
  import WeatherUtils

  /** `getWeatherIcon` of the forecast card: an exact match on the lowered condition. */
  function ForecastIcon(condition: string): Icon {
    match Lower(condition)
    case "clear" => Sun
    case "clouds" => Cloud
    case "rain" => CloudRain
    case "drizzle" => CloudRain
    case "snow" => CloudSnow
    case _ => Cloud
  }

  /** What each icon means, and that the moon is never drawn. */
  lemma ForecastIconCases(condition: string)
    ensures ForecastIcon(condition) == Sun <==> Lower(condition) == "clear"
    ensures ForecastIcon(condition) == CloudRain <==> Lower(condition) == "rain" || Lower(condition) == "drizzle"
    ensures ForecastIcon(condition) == CloudSnow <==> Lower(condition) == "snow"
    ensures ForecastIcon(condition) == Cloud <==> Lower(condition) !in {"clear", "rain", "drizzle", "snow"}
    ensures ForecastIcon(condition) != Moon
  {
  }

  /** Conditions equal up to case draw the same icon. */
  lemma ForecastIconIgnoresCase(a: string, b: string)
    requires EqualIgnoringCase(a, b)
    ensures ForecastIcon(a) == ForecastIcon(b)
  {
    LowerEqualIff(a, b);
  }

  /**
   * The two cards agree on every condition at every hour, except a clear sky
   * at night, where the main card draws the moon and the forecast card the sun.
   */
  lemma AgreesWithWeatherCard(condition: string, hour: int)
    ensures WeatherCard.WeatherIcon(condition, hour) == ForecastIcon(condition)
        <==> !(Lower(condition) == "clear" && WeatherCard.IsNight(hour))
  {
  }

  lemma ClearIcon() ensures ForecastIcon("Clear") == Sun {
    assert Lower("Clear") == "clear";
  }

  lemma CloudsIcon() ensures ForecastIcon("Clouds") == Cloud {
    assert Lower("Clouds") == "clouds";
  }

  lemma RainIcon() ensures ForecastIcon("Rain") == CloudRain {
    assert Lower("Rain") == "rain";
  }

  /** "Thunderstorm" has no case of its own and falls through to the default. */
  lemma ThunderstormIcon() ensures ForecastIcon("Thunderstorm") == Cloud {
    ForecastIconCases("Thunderstorm");
    assert |Lower("Thunderstorm")| == 12;
  }

  /** The icon drawn for each condition the mock generator produces. */
  lemma GeneratedConditionIcons()
    ensures ForecastIcon(WeatherUtils.Conditions[0]) == Sun
    ensures ForecastIcon(WeatherUtils.Conditions[1]) == Cloud
    ensures ForecastIcon(WeatherUtils.Conditions[2]) == CloudRain
    ensures ForecastIcon(WeatherUtils.Conditions[3]) == Cloud
  {
    ClearIcon();
    CloudsIcon();
    RainIcon();
    ThunderstormIcon();
  }

  /** No generated forecast day is drawn with snow or the moon. */
  lemma GeneratedIconsNeverSnow(baseTemp: real, draws: seq<WeatherUtils.Draw>, k: int)
    requires WeatherUtils.ValidDraws(draws) && 0 <= k < WeatherUtils.ForecastDays
    ensures ForecastIcon(WeatherUtils.MockForecast(baseTemp, draws).list[k].weather[0].main) in {Sun, Cloud, CloudRain}
  {
  }
}
