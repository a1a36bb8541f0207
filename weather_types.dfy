/**
 * The records the dashboard passes between its components: a current
 * weather snapshot (the `WeatherData` interface) and a forecast (the
 * `ForecastData` interface), plus the icons and text colours the
 * components choose between.
 */
module WeatherTypes {

  /** One element of a reading's `weather` array: condition, description, icon code. */
  datatype Weather = Weather(main: string, description: string, icon: string)

  /** The `main` block of a current reading. */
  datatype MainReadings = MainReadings(temp: real, feelsLike: real, humidity: real, pressure: real)

  datatype WindReading = WindReading(speed: real)

  datatype SysInfo = SysInfo(country: string)

  /** A current weather snapshot for one city, as the data table holds it. */
  datatype Snapshot = Snapshot(
    main: MainReadings,
    weather: seq<Weather>,
    wind: WindReading,
    name: string,
    sys: SysInfo)

  /** The `main` block of a forecast entry. */
  datatype ForecastMain = ForecastMain(temp: real)

  /** One day of a forecast; `dt` is in seconds since the epoch. */
  datatype ForecastItem = ForecastItem(dt: real, main: ForecastMain, weather: seq<Weather>)

  datatype ForecastData = ForecastData(list: seq<ForecastItem>)

  /** A snapshot whose first `weather` element exists, as every reader of `weather[0]` needs. */
  predicate HasCondition(s: Snapshot) {
    |s.weather| > 0
  }

  /** The snapshot's primary condition, `weather[0].main`. */
  function Condition(s: Snapshot): string
    requires HasCondition(s)
  {
    s.weather[0].main
  }

  /** The icons the cards draw. */
  datatype Icon = Sun | Moon | Cloud | CloudRain | CloudSnow

  /** The text colours the cards use, all in the 400 shade. */
  datatype Color = Red | Orange | Yellow | Blue | Green | Gray
}
