/**
 * The mock five-day forecast generator. The two `Math.random()` values each
 * day consumes and the `Date.now()` reading taken for its timestamp are
 * passed in as a `Draw` per day.
 */
module WeatherUtils {
  import opened WeatherTypes

  /** Number of days the generator produces. */
  const ForecastDays: nat := 5

  const SecondsPerDay: int := 24 * 60 * 60

  /** The conditions the generator picks from, in index order. */
  const Conditions: seq<string> := ["Clear", "Clouds", "Rain", "Thunderstorm"]

  /** The description attached to each condition. */
  const Descriptions: map<string, string> :=
    map["Clear" := "clear sky", "Clouds" := "scattered clouds",
        "Rain" := "light rain", "Thunderstorm" := "thunderstorm"]

  /** The icon code for a condition: 01d, 03d and 10d by name, 11d for anything else. */
  function IconCode(condition: string): string {
    if condition == "Clear" then "01d"
    else if condition == "Clouds" then "03d"
    else if condition == "Rain" then "10d"
    else "11d"
  }

  /** What one loop iteration consumes: two random values, then a clock reading in milliseconds. */
  datatype Draw = Draw(conditionRoll: real, variationRoll: real, clockMs: int)

  /** A value `Math.random()` can return. */
  predicate IsRandom(x: real) {
    0.0 <= x < 1.0
  }

  predicate ValidDraw(d: Draw) {
    IsRandom(d.conditionRoll) && IsRandom(d.variationRoll)
  }

  /** One draw per generated day. */
  predicate ValidDraws(draws: seq<Draw>) {
    |draws| == ForecastDays && forall k :: 0 <= k < |draws| ==> ValidDraw(draws[k])
  }

  /** `Math.floor(roll * 4)`: an index into `Conditions`. */
  function ConditionIndex(roll: real): (k: int)
    requires IsRandom(roll)
    ensures 0 <= k < |Conditions|
  {
    (roll * |Conditions| as real).Floor
  }

  /** `Math.floor(roll * 8) - 4`: a whole number of degrees from -4 up to +3 (never +4). */
  function TempVariation(roll: real): (v: int)
    requires IsRandom(roll)
    ensures -4 <= v <= 3
  {
    (roll * 8.0).Floor - 4
  }

  /** `Date.now() / 1000 + day * 24 * 60 * 60`, in seconds. */
  function Timestamp(clockMs: int, day: int): real {
    clockMs as real / 1000.0 + (day * SecondsPerDay) as real
  }

  /** The entry the loop pushes for day `day` (counted from 1). */
  function ForecastEntry(baseTemp: real, day: int, d: Draw): ForecastItem
    requires ValidDraw(d)
  {
    var condition := Conditions[ConditionIndex(d.conditionRoll)];
    ForecastItem(
      Timestamp(d.clockMs, day),
      ForecastMain(baseTemp + TempVariation(d.variationRoll) as real),
      [Weather(condition, Descriptions[condition], IconCode(condition))])
  }

  /** The forecast the generator returns for the given draws. */
  function MockForecast(baseTemp: real, draws: seq<Draw>): ForecastData
    requires ValidDraws(draws)
  {
    ForecastData(seq(ForecastDays, k requires 0 <= k < ForecastDays => ForecastEntry(baseTemp, k + 1, draws[k])))
  }

  /**
   * What every generated entry looks like: exactly one weather element, whose
   * condition is one of the four, whose description and icon are determined by
   * that condition, and a temperature that is the base temperature moved by a
   * whole number of degrees between -4 and +3.
   */
  predicate EntryShaped(baseTemp: real, e: ForecastItem) {
    && |e.weather| == 1
    && e.weather[0].main in Conditions
    && e.weather[0].main in Descriptions
    && e.weather[0].description == Descriptions[e.weather[0].main]
    && e.weather[0].icon == IconCode(e.weather[0].main)
    && baseTemp - 4.0 <= e.main.temp <= baseTemp + 3.0
    && (e.main.temp - baseTemp).Floor as real == e.main.temp - baseTemp
  }

  /** A forecast of exactly five well-shaped entries. */
  predicate ForecastShaped(baseTemp: real, f: ForecastData) {
    |f.list| == ForecastDays && forall k :: 0 <= k < |f.list| ==> EntryShaped(baseTemp, f.list[k])
  }

  /** `generateMockForecast`: one entry per day for days 1 to 5, pushed in order. */
  method GenerateMockForecast(baseTemp: real, draws: seq<Draw>) returns (f: ForecastData)
    requires ValidDraws(draws)
    ensures f == MockForecast(baseTemp, draws)
    ensures ForecastShaped(baseTemp, f)
  {
    var forecast: seq<ForecastItem> := [];
    var i := 1;
    while i <= ForecastDays
      invariant 1 <= i <= ForecastDays + 1
      invariant |forecast| == i - 1
      invariant forall k :: 0 <= k < |forecast| ==> forecast[k] == ForecastEntry(baseTemp, k + 1, draws[k])
      invariant forall k :: 0 <= k < |forecast| ==> EntryShaped(baseTemp, forecast[k])
    {
      var d := draws[i - 1];
      var condition := Conditions[ConditionIndex(d.conditionRoll)];
      var tempVariation := TempVariation(d.variationRoll);
      EntryIsShaped(baseTemp, i, d);
      forecast := forecast + [ForecastItem(
        Timestamp(d.clockMs, i),
        ForecastMain(baseTemp + tempVariation as real),
        [Weather(condition, Descriptions[condition], IconCode(condition))])];
      i := i + 1;
    }
    f := ForecastData(forecast);
  }

  /** Every entry the loop can push is well shaped. */
  lemma EntryIsShaped(baseTemp: real, day: int, d: Draw)
    requires ValidDraw(d)
    ensures EntryShaped(baseTemp, ForecastEntry(baseTemp, day, d))
  {
  }

  /** The generated forecast is well shaped, whatever the draws. */
  lemma MockForecastShaped(baseTemp: real, draws: seq<Draw>)
    requires ValidDraws(draws)
    ensures ForecastShaped(baseTemp, MockForecast(baseTemp, draws))
  {
  }

  /** Entry k (counted from 0) is stamped one day per position after its own clock reading. */
  lemma TimestampAt(baseTemp: real, draws: seq<Draw>, k: int)
    requires ValidDraws(draws) && 0 <= k < ForecastDays
    ensures MockForecast(baseTemp, draws).list[k].dt
         == draws[k].clockMs as real / 1000.0 + ((k + 1) * 86400) as real
  {
  }

  /**
   * When every `Date.now()` reading of the loop is the same millisecond,
   * consecutive entries are exactly one day (86400 s) apart and the first is
   * one day after the reading.
   */
  lemma SteadyClockSpacing(baseTemp: real, draws: seq<Draw>)
    requires ValidDraws(draws)
    requires forall k :: 0 <= k < ForecastDays ==> draws[k].clockMs == draws[0].clockMs
    ensures MockForecast(baseTemp, draws).list[0].dt == draws[0].clockMs as real / 1000.0 + 86400.0
    ensures forall k :: 0 <= k < ForecastDays - 1 ==>
      MockForecast(baseTemp, draws).list[k + 1].dt - MockForecast(baseTemp, draws).list[k].dt == 86400.0
  {
  }

  /**
   * When the clock never goes back between readings, the timestamps strictly
   * increase and consecutive entries are at least one day apart.
   */
  lemma {:induction false} MonotoneClockIncreasing(baseTemp: real, draws: seq<Draw>)
    requires ValidDraws(draws)
    requires forall k :: 0 <= k < ForecastDays - 1 ==> draws[k].clockMs <= draws[k + 1].clockMs
    ensures forall k :: 0 <= k < ForecastDays - 1 ==>
      MockForecast(baseTemp, draws).list[k + 1].dt - MockForecast(baseTemp, draws).list[k].dt >= 86400.0
    ensures forall j, k :: 0 <= j < k < ForecastDays ==>
      MockForecast(baseTemp, draws).list[j].dt < MockForecast(baseTemp, draws).list[k].dt
  {
    var list := MockForecast(baseTemp, draws).list;
    forall j, k | 0 <= j < k < ForecastDays ensures list[j].dt < list[k].dt {
      ClockChain(draws, j, k);
    }
  }

  /** A non-decreasing clock stays non-decreasing across any number of readings. */
  lemma {:induction false} ClockChain(draws: seq<Draw>, j: int, k: int)
    requires |draws| == ForecastDays && 0 <= j <= k < ForecastDays
    requires forall i :: 0 <= i < ForecastDays - 1 ==> draws[i].clockMs <= draws[i + 1].clockMs
    ensures draws[j].clockMs <= draws[k].clockMs
    decreases k - j
  {
    if j < k {
      ClockChain(draws, j + 1, k);
    }
  }

  /** Every variation from -4 to +3 is produced by some random value; +4 by none. */
  lemma VariationRange(v: int)
    ensures (exists roll :: IsRandom(roll) && TempVariation(roll) == v) <==> -4 <= v <= 3
  {
    if -4 <= v <= 3 {
      var roll := (v + 4) as real / 8.0;
      assert roll * 8.0 == (v + 4) as real;
      assert TempVariation(roll) == v;
    }
  }

  /** Every one of the four conditions is chosen by some random value. */
  lemma ConditionReachable(k: int)
    requires 0 <= k < |Conditions|
    ensures IsRandom(k as real / 4.0) && ConditionIndex(k as real / 4.0) == k
  {
  }

  /** Description and icon code of each condition the generator can choose. */
  lemma ConditionTables()
    ensures Descriptions["Clear"] == "clear sky" && IconCode("Clear") == "01d"
    ensures Descriptions["Clouds"] == "scattered clouds" && IconCode("Clouds") == "03d"
    ensures Descriptions["Rain"] == "light rain" && IconCode("Rain") == "10d"
    ensures Descriptions["Thunderstorm"] == "thunderstorm" && IconCode("Thunderstorm") == "11d"
  {
  }
}
