/**
 * The main weather card's three classifiers: the condition icon (which
 * depends on the hour), the colour of the temperature, and the advice line.
 * The hour that `new Date().getHours()` reads is a parameter.
 */
module WeatherCard {
  import opened JsString
  import opened WeatherTypes

  /** Night is before 6 in the morning or after 18 in the evening. */
  predicate IsNight(hour: int) {
    hour < 6 || hour > 18
  }

  /** `getWeatherIcon`: an exact, case-insensitive match on the condition. */
  function WeatherIcon(condition: string, hour: int): Icon {
    var c := Lower(condition);
    if c == "clear" then (if IsNight(hour) then Moon else Sun)
    else if c == "clouds" then Cloud
    else if c == "rain" || c == "drizzle" then CloudRain
    else if c == "snow" then CloudSnow
    else Cloud
  }

  /** `getTemperatureColor`: four bands, checked from the hottest down. */
  function TemperatureColor(temp: real): Color {
    if temp > 35.0 then Red
    else if temp > 25.0 then Orange
    else if temp > 15.0 then Yellow
    else Blue
  }

  /** The five advice lines of the card. */
  datatype Advice =
    | Umbrella      // carry an umbrella, weather for hot chai
    | VeryHot       // very hot, stay hydrated and out of direct sun
    | Hot           // hot, use sunscreen
    | Cool          // cool, good for outdoor activities
    | Pleasant      // pleasant, enjoy the day

  /** `getWeatherAdvice`: the rain test first, then the temperature tests in order. */
  function WeatherAdvice(condition: string, temp: real): Advice {
    if Contains(Lower(condition), "rain") then Umbrella
    else if temp > 35.0 then VeryHot
    else if temp > 30.0 then Hot
    else if temp < 15.0 then Cool
    else Pleasant
  }

  /** Exactly one colour band applies, and each band is the interval stated. */
  lemma TemperatureColorBands(temp: real)
    ensures TemperatureColor(temp) == Red <==> temp > 35.0
    ensures TemperatureColor(temp) == Orange <==> 25.0 < temp <= 35.0
    ensures TemperatureColor(temp) == Yellow <==> 15.0 < temp <= 25.0
    ensures TemperatureColor(temp) == Blue <==> temp <= 15.0
  {
  }

  /** There is no separate band above 30: everything in (25, 35] is orange. */
  lemma NoHotBandAtThirty(t1: real, t2: real)
    requires 25.0 < t1 <= 35.0 && 25.0 < t2 <= 35.0
    ensures TemperatureColor(t1) == TemperatureColor(t2) == Orange
  {
  }

  /** A condition mentioning rain always gives the umbrella line, whatever the temperature. */
  lemma RainAdviceFirst(condition: string, temp: real)
    requires Contains(Lower(condition), "rain")
    ensures WeatherAdvice(condition, temp) == Umbrella
  {
  }

  /** Without rain in the condition, the advice is decided by temperature alone. */
  lemma NonRainAdvice(condition: string, temp: real)
    requires !Contains(Lower(condition), "rain")
    ensures WeatherAdvice(condition, temp) == VeryHot <==> temp > 35.0
    ensures WeatherAdvice(condition, temp) == Hot <==> 30.0 < temp <= 35.0
    ensures WeatherAdvice(condition, temp) == Cool <==> temp < 15.0
    ensures WeatherAdvice(condition, temp) == Pleasant <==> 15.0 <= temp <= 30.0
    ensures WeatherAdvice(condition, temp) != Umbrella
  {
  }

  /** The umbrella line appears exactly when the lowered condition contains "rain". */
  lemma UmbrellaIff(condition: string, temp: real)
    ensures WeatherAdvice(condition, temp) == Umbrella <==> exists i :: OccursAt(Lower(condition), "rain", i)
  {
    ContainsIff(Lower(condition), "rain");
    assert WeatherAdvice(condition, temp) == Umbrella <==> Contains(Lower(condition), "rain");
  }

  /** "Drizzle", lowered, does not contain "rain": no position of it starts with "rai". */
  lemma DrizzleHasNoRain()
    ensures !Contains(Lower("Drizzle"), "rain")
  {
  }

  /** "Clear", lowered, does not contain "rain" either. */
  lemma ClearHasNoRain()
    ensures !Contains(Lower("Clear"), "rain")
  {
  }

  /** Two conditions without "rain" get the same advice at every temperature. */
  lemma SameAdviceWithoutRain(a: string, b: string, temp: real)
    requires !Contains(Lower(a), "rain") && !Contains(Lower(b), "rain")
    ensures WeatherAdvice(a, temp) == WeatherAdvice(b, temp) != Umbrella
  {
  }

  /** Drizzle gets the same advice as a clear sky: the temperature rules, never the umbrella. */
  lemma DrizzleFallsThrough(temp: real)
    ensures WeatherAdvice("Drizzle", temp) == WeatherAdvice("Clear", temp) != Umbrella
  {
    DrizzleHasNoRain();
    ClearHasNoRain();
    SameAdviceWithoutRain("Drizzle", "Clear", temp);
  }

  /** The night rule: hours before 6 and after 18. */
  lemma NightHours(hour: int)
    requires 0 <= hour < 24
    ensures IsNight(hour) <==> hour <= 5 || 19 <= hour
  {
  }

  /** What each icon means: which lowered conditions and hours draw it. */
  lemma WeatherIconCases(condition: string, hour: int)
    ensures WeatherIcon(condition, hour) == Moon <==> Lower(condition) == "clear" && IsNight(hour)
    ensures WeatherIcon(condition, hour) == Sun <==> Lower(condition) == "clear" && !IsNight(hour)
    ensures WeatherIcon(condition, hour) == CloudRain <==> Lower(condition) == "rain" || Lower(condition) == "drizzle"
    ensures WeatherIcon(condition, hour) == CloudSnow <==> Lower(condition) == "snow"
    ensures WeatherIcon(condition, hour) == Cloud <==>
      Lower(condition) !in {"clear", "rain", "drizzle", "snow"}
  {
  }

  /** Conditions equal up to case draw the same icon. */
  lemma WeatherIconIgnoresCase(a: string, b: string, hour: int)
    requires EqualIgnoringCase(a, b)
    ensures WeatherIcon(a, hour) == WeatherIcon(b, hour)
  {
  }

  /** Only a clear sky depends on the hour. */
  lemma OnlyClearDependsOnHour(condition: string, h1: int, h2: int)
    requires Lower(condition) != "clear"
    ensures WeatherIcon(condition, h1) == WeatherIcon(condition, h2)
  {
  }

  /** The match is exact: a condition that merely mentions rain does not draw the rain icon. */
  lemma IconMatchIsExact(hour: int)
    ensures WeatherIcon("Light Rain", hour) == Cloud
    ensures WeatherIcon("RAIN", hour) == CloudRain
  {
  }
}
