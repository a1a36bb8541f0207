/**
 * The details panel: humidity, wind and pressure statuses, and the lines of
 * the health advisory.
 */
module WeatherDetails {
  import opened JsString
  import opened WeatherTypes

  /** The humidity status record: label, colour and the advice it contributes. */
  datatype HumidityStatus = HighHumidity | Comfortable | LowHumidity {
    function Label(): string {
      match this
      case HighHumidity => "High Humidity"
      case Comfortable => "Comfortable"
      case LowHumidity => "Low Humidity"
    }
    function Color(): Color {
      match this
      case HighHumidity => Orange
      case Comfortable => Green
      case LowHumidity => Yellow
    }
    function Advice(): string {
      match this
      case HighHumidity => "May feel sticky"
      case Comfortable => "Perfect conditions"
      case LowHumidity => "Stay hydrated"
    }
  }

  datatype WindStatus = Windy | Breezy | Calm {
    function Label(): string {
      match this
      case Windy => "Windy"
      case Breezy => "Breezy"
      case Calm => "Calm"
    }
    function Color(): Color {
      match this
      case Windy => Blue
      case Breezy => Green
      case Calm => Gray
    }
  }

  datatype PressureStatus = HighPressure | NormalPressure | LowPressure {
    function Label(): string {
      match this
      case HighPressure => "High Pressure"
      case NormalPressure => "Normal"
      case LowPressure => "Low Pressure"
    }
    function Color(): Color {
      match this
      case HighPressure => Green
      case NormalPressure => Blue
      case LowPressure => Orange
    }
  }

  /** `getAirQualityStatus`: classifies the humidity percentage. */
  function AirQualityStatus(humidity: real): HumidityStatus {
    if humidity > 70.0 then HighHumidity
    else if humidity > 40.0 then Comfortable
    else LowHumidity
  }

  /** `getWindStatus`: classifies the wind speed in m/s. */
  function WindStatusOf(speed: real): WindStatus {
    if speed > 10.0 then Windy
    else if speed > 5.0 then Breezy
    else Calm
  }

  /** `getPressureStatus`: classifies the pressure in hPa. */
  function PressureStatusOf(pressure: real): PressureStatus {
    if pressure > 1020.0 then HighPressure
    else if pressure > 1000.0 then NormalPressure
    else LowPressure
  }

  /** One line of the health advisory card. */
  datatype AdvisoryLine =
    | HumidityAdviceLine(text: string)
    | SunscreenLine      // use sunscreen SPF 30+
    | MonsoonLine        // monsoon season, drive carefully
    | DrinkWaterLine     // drink plenty of water

  /** The advisory lines shown for a snapshot, top to bottom. */
  function HealthAdvisory(data: Snapshot): seq<AdvisoryLine>
    requires HasCondition(data)
  {
    [HumidityAdviceLine(AirQualityStatus(data.main.humidity).Advice())]
    + (if data.main.temp > 30.0 then [SunscreenLine] else [])
    + (if Contains(Lower(Condition(data)), "rain") then [MonsoonLine] else [])
    + [DrinkWaterLine]
  }

  /** The three humidity bands. */
  lemma HumidityBands(humidity: real)
    ensures AirQualityStatus(humidity) == HighHumidity <==> humidity > 70.0
    ensures AirQualityStatus(humidity) == Comfortable <==> 40.0 < humidity <= 70.0
    ensures AirQualityStatus(humidity) == LowHumidity <==> humidity <= 40.0
  {
  }

  /** The three wind bands. */
  lemma WindBands(speed: real)
    ensures WindStatusOf(speed) == Windy <==> speed > 10.0
    ensures WindStatusOf(speed) == Breezy <==> 5.0 < speed <= 10.0
    ensures WindStatusOf(speed) == Calm <==> speed <= 5.0
  {
  }

  /** The three pressure bands. */
  lemma PressureBands(pressure: real)
    ensures PressureStatusOf(pressure) == HighPressure <==> pressure > 1020.0
    ensures PressureStatusOf(pressure) == NormalPressure <==> 1000.0 < pressure <= 1020.0
    ensures PressureStatusOf(pressure) == LowPressure <==> pressure <= 1000.0
  {
  }

  /** Each status only grows with its reading: a larger reading never gets a lower band. */
  lemma StatusesMonotone(x: real, y: real)
    requires x <= y
    ensures AirQualityStatus(x) == HighHumidity ==> AirQualityStatus(y) == HighHumidity
    ensures AirQualityStatus(y) == LowHumidity ==> AirQualityStatus(x) == LowHumidity
    ensures WindStatusOf(x) == Windy ==> WindStatusOf(y) == Windy
    ensures WindStatusOf(y) == Calm ==> WindStatusOf(x) == Calm
    ensures PressureStatusOf(x) == HighPressure ==> PressureStatusOf(y) == HighPressure
    ensures PressureStatusOf(y) == LowPressure ==> PressureStatusOf(x) == LowPressure
  {
  }

  /**
   * What the advisory shows: it opens with the humidity advice and closes
   * with the water line; the sunscreen line is there exactly when it is hotter
   * than 30 degrees, and the monsoon line exactly when the lowered condition
   * contains "rain"; the sunscreen line comes before the monsoon line.
   */
  lemma AdvisoryLines(data: Snapshot)
    requires HasCondition(data)
    ensures var lines := HealthAdvisory(data);
      && |lines| == 2 + (if data.main.temp > 30.0 then 1 else 0)
                      + (if Contains(Lower(Condition(data)), "rain") then 1 else 0)
      && lines[0] == HumidityAdviceLine(AirQualityStatus(data.main.humidity).Advice())
      && lines[|lines| - 1] == DrinkWaterLine
      && (SunscreenLine in lines <==> data.main.temp > 30.0)
      && (MonsoonLine in lines <==> Contains(Lower(Condition(data)), "rain"))
      && (SunscreenLine in lines && MonsoonLine in lines ==> lines[1] == SunscreenLine && lines[2] == MonsoonLine)
  {
  }
}
