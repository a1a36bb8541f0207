/**
 * The dashboard page: its state (the selected city, the search box, the
 * current snapshot, the forecast and the loading flag), the handlers that
 * change it, and the background gradient chosen from the current snapshot.
 */
module IndexPage {
  import opened Wrappers
  import opened JsString
  import opened WeatherTypes
  import WeatherUtils
  import WeatherCard

  /** The city shown when the page first loads. */
  const DefaultCity: string := "Mumbai"

  /** Every entry of the data table has a primary condition. */
  predicate TableWellFormed(table: map<string, Snapshot>) {
    forall key :: key in table ==> HasCondition(table[key])
  }

  /** The table entry for a city name: the lookup key is the lowered name, not trimmed. */
  function Lookup(table: map<string, Snapshot>, cityName: string): Option<Snapshot> {
    var key := Lower(cityName);
    if key in table then Some(table[key]) else None
  }

  /** The notification a completed fetch raises. */
  datatype Toast = LoadedToast(cityName: string) | CityNotFoundToast

  /** The page's background gradients. */
  datatype Gradient =
    | DefaultGradient      // slate / blue / indigo, also used with no data
    | RainGradient         // slate / gray / blue
    | CloudyNightGradient  // indigo / purple-900 / slate
    | CloudyDayGradient    // slate / blue / indigo, lighter
    | ClearNightGradient   // indigo / purple-800 / slate
    | ClearDayGradient     // blue / indigo / purple

  /** `getBackgroundGradient`: substring tests on the lowered condition, rain first. */
  function BackgroundGradient(current: Option<Snapshot>, hour: int): Gradient
    requires current.Some? ==> HasCondition(current.value)
  {
    if current.None? then DefaultGradient
    else
      var condition := Lower(Condition(current.value));
      var isNight := WeatherCard.IsNight(hour);
      if Contains(condition, "rain") || Contains(condition, "drizzle") then RainGradient
      else if Contains(condition, "cloud") then (if isNight then CloudyNightGradient else CloudyDayGradient)
      else if Contains(condition, "clear") then (if isNight then ClearNightGradient else ClearDayGradient)
      else DefaultGradient
  }

  /** The page state and its handlers. The data table is fixed when the page is built. */
  class Dashboard {
    const table: map<string, Snapshot>
    var city: string
    var searchCity: string
    var currentWeatherData: Option<Snapshot>
    var forecastData: Option<ForecastData>
    var loading: bool

    /**
     * The page invariant: a forecast is present exactly when a snapshot is,
     * the snapshot is a table entry, and the forecast is five well-shaped days
     * around the snapshot's temperature.
     */
    ghost predicate Valid()
      reads this
    {
      && TableWellFormed(table)
      && (currentWeatherData.Some? <==> forecastData.Some?)
      && (currentWeatherData.Some? ==>
            && currentWeatherData.value in table.Values
            && HasCondition(currentWeatherData.value)
            && WeatherUtils.ForecastShaped(currentWeatherData.value.main.temp, forecastData.value))
    }

    /** The initial state: Mumbai selected, empty search box, no data, not loading. */
    constructor (table: map<string, Snapshot>)
      requires TableWellFormed(table)
      ensures Valid()
      ensures this.table == table
      ensures city == DefaultCity && searchCity == ""
      ensures currentWeatherData == None && forecastData == None && !loading
    {
      this.table := table;
      city := DefaultCity;
      searchCity := "";
      currentWeatherData := None;
      forecastData := None;
      loading := false;
    }

    /** The search box's change handler: the box holds what was typed. */
    method TypeSearchText(text: string)
      modifies this`searchCity
      ensures searchCity == text
    {
      searchCity := text;
    }

    /** The first step of `fetchWeatherData`: the page shows that it is loading. */
    method StartFetch()
      requires Valid()
      modifies this`loading
      ensures Valid() && loading
    {
      loading := true;
    }

    /**
     * The delayed step of `fetchWeatherData` for `cityName`: on a table hit the
     * snapshot is shown with a forecast generated from its temperature; on a
     * miss both are cleared. Loading ends either way, and nothing else changes.
     */
    method CompleteFetch(cityName: string, draws: seq<WeatherUtils.Draw>) returns (toast: Toast)
      requires Valid() && WeatherUtils.ValidDraws(draws)
      modifies this`currentWeatherData, this`forecastData, this`loading
      ensures Valid() && !loading
      ensures Lookup(table, cityName).Some? ==>
        && currentWeatherData == Lookup(table, cityName)
        && forecastData == Some(WeatherUtils.MockForecast(Lookup(table, cityName).value.main.temp, draws))
        && toast == LoadedToast(cityName)
      ensures Lookup(table, cityName).None? ==>
        currentWeatherData == None && forecastData == None && toast == CityNotFoundToast
    {
      var normalizedCity := Lower(cityName);
      if normalizedCity in table {
        var data := table[normalizedCity];
        currentWeatherData := Some(data);
        var forecast := WeatherUtils.GenerateMockForecast(data.main.temp, draws);
        forecastData := Some(forecast);
        toast := LoadedToast(cityName);
      } else {
        toast := CityNotFoundToast;
        currentWeatherData := None;
        forecastData := None;
      }
      loading := false;
    }

    /**
     * `handleSearch`: a blank box changes nothing; otherwise the trimmed text
     * becomes the city and the box is emptied.
     */
    method HandleSearch()
      modifies this`city, this`searchCity
      ensures IsBlank(old(searchCity)) ==> city == old(city) && searchCity == old(searchCity)
      ensures !IsBlank(old(searchCity)) ==> city == Trim(old(searchCity)) && searchCity == ""
    {
      if Trim(searchCity) != "" {
        city := Trim(searchCity);
        searchCity := "";
      }
    }

    /** `handleCitySelect`: the chosen city becomes the city, as given. */
    method HandleCitySelect(selectedCity: string)
      modifies this`city
      ensures city == selectedCity
    {
      city := selectedCity;
    }
  }

  /** Names that differ only in case find the same table entry. */
  lemma LookupIgnoresCase(table: map<string, Snapshot>, a: string, b: string)
    requires EqualIgnoringCase(a, b)
    ensures Lookup(table, a) == Lookup(table, b)
  {
    LowerEqualIff(a, b);
  }

  /** A hit is exactly a table key that equals the lowered name. */
  lemma LookupHitIff(table: map<string, Snapshot>, cityName: string)
    ensures Lookup(table, cityName).Some? <==> Lower(cityName) in table
    ensures Lookup(table, cityName).Some? ==> Lookup(table, cityName).value == table[Lower(cityName)]
  {
  }

  /** The lookup does not trim: a name with a leading space misses a key without one. */
  lemma LookupDoesNotTrim(table: map<string, Snapshot>)
    requires "mumbai" in table && " mumbai" !in table
    ensures Lookup(table, "MUMBAI") == Some(table["mumbai"])
    ensures Lookup(table, " Mumbai") == None
  {
    assert Lower("MUMBAI") == "mumbai";
    assert Lower(" Mumbai") == " mumbai";
  }

  /** Without data the gradient is the default one. */
  lemma NoDataGradient(hour: int)
    ensures BackgroundGradient(None, hour) == DefaultGradient
  {
  }

  /**
   * The gradient rules in order: rain or drizzle wins at any hour, even over
   * cloud and clear; then cloud, then clear, each with a night variant; any
   * other condition gets the default.
   */
  lemma GradientCases(data: Snapshot, hour: int)
    requires HasCondition(data)
    ensures var c := Lower(Condition(data)); var g := BackgroundGradient(Some(data), hour);
      && (g == RainGradient <==> Contains(c, "rain") || Contains(c, "drizzle"))
      && (g in {CloudyNightGradient, CloudyDayGradient} <==>
            !Contains(c, "rain") && !Contains(c, "drizzle") && Contains(c, "cloud"))
      && (g in {ClearNightGradient, ClearDayGradient} <==>
            !Contains(c, "rain") && !Contains(c, "drizzle") && !Contains(c, "cloud") && Contains(c, "clear"))
      && (g == DefaultGradient <==>
            !Contains(c, "rain") && !Contains(c, "drizzle") && !Contains(c, "cloud") && !Contains(c, "clear"))
      && (g in {CloudyNightGradient, ClearNightGradient} <==>
            g !in {RainGradient, DefaultGradient} && WeatherCard.IsNight(hour))
  {
  }

  /** Only the cloud and clear gradients depend on the hour. */
  lemma RainGradientIgnoresHour(data: Snapshot, h1: int, h2: int)
    requires HasCondition(data)
    requires BackgroundGradient(Some(data), h1) in {RainGradient, DefaultGradient}
    ensures BackgroundGradient(Some(data), h2) == BackgroundGradient(Some(data), h1)
  {
  }

  /** "Drizzle" gets the rain gradient. */
  lemma DrizzleGradient(data: Snapshot, hour: int)
    requires HasCondition(data) && Lower(Condition(data)) == "drizzle"
    ensures BackgroundGradient(Some(data), hour) == RainGradient
  {
  }
}
