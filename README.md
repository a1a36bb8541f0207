# India weather dashboard, modelled in Dafny

A model of the logic inside a small React weather dashboard. It covers five parts:

- **Mock forecast generator** (`generateMockForecast`). It builds five daily entries around a base temperature. Each entry gets a random condition out of four, a random whole-degree variation, and a timestamp one day further on per entry.
- **Main weather card** (`WeatherCard`). It picks the condition icon, with a night variant for a clear sky. It also picks the temperature colour band and the advice line.
- **Details panel** (`WeatherDetails`). It gives the humidity, wind and pressure statuses, and chooses which health-advisory lines appear.
- **Forecast card** (`ForecastCard`). It picks the condition icon, with no night variant.
- **Page** (`Index`). Its state is the selected city, the search box, the current snapshot, the forecast and the loading flag. It has a two-step fetch: start, then a delayed completion that looks up a data table. It has the search and city-select handlers, and it picks the background gradient.

## Layout

| file | module | models |
|---|---|---|
| `wrappers.dfy` | `Wrappers` | `Option`, standing for a value that may be `null` |
| `js_string.dfy` | `JsString` | `toLowerCase`, `includes` and `trim`, as the code uses them |
| `weather_types.dfy` | `WeatherTypes` | the `WeatherData` and `ForecastData` records, the icons and the text colours |
| `weather_utils.dfy` | `WeatherUtils` | `generateMockForecast`: a method with a loop, proved against `MockForecast` |
| `weather_card.dfy` | `WeatherCard` | `getWeatherIcon`, `getTemperatureColor`, `getWeatherAdvice` |
| `weather_details.dfy` | `WeatherDetails` | `getAirQualityStatus`, `getWindStatus`, `getPressureStatus`, the advisory lines |
| `forecast_card.dfy` | `ForecastCard` | the forecast card's `getWeatherIcon` |
| `index_page.dfy` | `IndexPage` | the page state as class `Dashboard`, the table lookup, `getBackgroundGradient` |

Things outside the program become parameters:

- The two `Math.random()` calls of each loop iteration are the `conditionRoll` and `variationRoll` of a `Draw`. Each is a real in [0, 1).
- The `Date.now()` reading of each iteration is the `Draw`'s `clockMs`. The code reads the clock again on every iteration, so each day has its own reading.
- The hour from `new Date().getHours()` is an `hour` parameter.
- The data table is a `map<string, Snapshot>` given to the `Dashboard` constructor.

Where the intended design and the code differ, the model follows the code:

- The temperature variation runs from −4 to +3, not to +4 as the comment says. `floor(r * 8) - 4` never reaches +4 (`WeatherUtils.VariationRange`).
- There are four colour bands, with no separate band above 30 (`WeatherCard.NoHotBandAtThirty`).
- The advice line tests only for "rain". "Drizzle" falls through to the temperature rules (`WeatherCard.DrizzleFallsThrough`).
- The lookup key is the lower-cased name, and it is not trimmed. A name picked from the city list reaches the lookup as given (`IndexPage.LookupDoesNotTrim`).
- The page has no request sequencing. Every completion overwrites the state, whichever request it belongs to. The model claims no last-request-wins behaviour.

## Model

| member | source | states |
|---|---|---|
| `JsString.Lower` | src/components/WeatherCard.tsx:35 | the lowered string has the same length, and each character is the lowered form of the one at the same index |
| `JsString.LowerIdempotent` | src/pages/Index.tsx:62 | lowering an already lowered name changes nothing |
| `JsString.LowerHasNoUpper` | src/pages/Index.tsx:62 | a lowered name holds no upper-case letter |
| `JsString.LowerEqualIff` | src/pages/Index.tsx:62-63 | two names lower to the same key if and only if they differ only in letter case |
| `JsString.Contains` | src/components/WeatherCard.tsx:58 | `includes`: the needle is a prefix of the string or of one of its suffixes; `ContainsIff` shows this is exactly "occurs at some index" |
| `JsString.ContainsIff` | src/components/WeatherCard.tsx:58 | `includes` holds if and only if the needle occurs at some index of the string |
| `JsString.Trim` | src/pages/Index.tsx:83-84 | the trimmed text is empty if and only if the box is blank; otherwise it neither starts nor ends with white space, and it occurs in the box with only white space on both sides |
| `JsString.TrimIdempotent` | src/pages/Index.tsx:84 | trimming trimmed text changes nothing |
| `WeatherUtils.IconCode` | src/utils/weatherUtils.ts:38 | the nested conditional: 01d for Clear, 03d for Clouds, 10d for Rain, 11d for anything else; the four generated conditions' codes are `ConditionTables` |
| `WeatherUtils.Timestamp` | src/utils/weatherUtils.ts:31 | `Date.now() / 1000 + i * 24 * 60 * 60` in seconds; entry k's value is `TimestampAt`, its spacing `SteadyClockSpacing` and `MonotoneClockIncreasing` |
| `WeatherUtils.ForecastEntry` | src/utils/weatherUtils.ts:27-40 | the object one iteration pushes, from that iteration's draw; it is well shaped by `EntryIsShaped` |
| `WeatherUtils.MockForecast` | src/utils/weatherUtils.ts:26-43 | the five pushed entries in order, entry k from draw k; the loop equals it (`GenerateMockForecast`) and it is well shaped (`MockForecastShaped`) |
| `WeatherUtils.ConditionIndex` | src/utils/weatherUtils.ts:27 | `floor(r * 4)` for r in [0, 1) is a valid index into the four conditions |
| `WeatherUtils.TempVariation` | src/utils/weatherUtils.ts:28 | `floor(r * 8) - 4` for r in [0, 1) lies between −4 and +3 |
| `WeatherUtils.GenerateMockForecast` | src/utils/weatherUtils.ts:16-44 | the loop over days 1 to 5 returns exactly `MockForecast` for the draws: five entries, entry k built from draw k, each entry well-shaped |
| `WeatherUtils.EntryIsShaped` | src/utils/weatherUtils.ts:27-39 | every pushed entry has exactly one weather element. Its condition is one of the four, and its description and icon are the ones for that condition. Its temperature is the base moved by a whole number of degrees in [−4, +3] |
| `WeatherUtils.MockForecastShaped` | src/utils/weatherUtils.ts:26-43 | for any base temperature and any draws, the forecast has exactly five well-shaped entries |
| `WeatherUtils.TimestampAt` | src/utils/weatherUtils.ts:31 | entry k (from 0) is stamped with its clock reading in seconds plus (k+1)·86400 |
| `WeatherUtils.SteadyClockSpacing` | src/utils/weatherUtils.ts:26-31 | when every clock reading is the same, the first entry is one day after it and consecutive entries are exactly 86400 s apart |
| `WeatherUtils.MonotoneClockIncreasing` | src/utils/weatherUtils.ts:26-31 | when the clock never goes back, consecutive entries are at least 86400 s apart and timestamps strictly increase |
| `WeatherUtils.VariationRange` | src/utils/weatherUtils.ts:28 | a variation v is produced by some random value if and only if −4 ≤ v ≤ 3, so +4 never occurs |
| `WeatherUtils.ConditionReachable` | src/utils/weatherUtils.ts:18-27 | each of the four conditions is chosen by some random value |
| `WeatherUtils.ConditionTables` | src/utils/weatherUtils.ts:19-38 | Clear, Clouds, Rain and Thunderstorm get descriptions clear sky, scattered clouds, light rain and thunderstorm, and icons 01d, 03d, 10d and 11d |
| `WeatherCard.IsNight` | src/components/WeatherCard.tsx:32-33 | before 6 or after 18; within a day's hours this is `NightHours` |
| `WeatherCard.WeatherIcon` | src/components/WeatherCard.tsx:31-47 | the switch on the lowered condition, with the night rule for a clear sky; its cases are `WeatherIconCases` |
| `WeatherCard.TemperatureColor` | src/components/WeatherCard.tsx:50-55 | the if-chain from the hottest band down; its bands are `TemperatureColorBands` |
| `WeatherCard.WeatherAdvice` | src/components/WeatherCard.tsx:57-71 | the rain test first, then the temperature tests in order; its cases are `RainAdviceFirst`, `NonRainAdvice` and `UmbrellaIff` |
| `WeatherCard.TemperatureColorBands` | src/components/WeatherCard.tsx:50-55 | red if and only if temp > 35; orange if and only if 25 < temp ≤ 35; yellow if and only if 15 < temp ≤ 25; blue otherwise |
| `WeatherCard.NoHotBandAtThirty` | src/components/WeatherCard.tsx:51-52 | every temperature in (25, 35] gets the same orange band, whether above or below 30 |
| `WeatherCard.RainAdviceFirst` | src/components/WeatherCard.tsx:58-60 | a condition whose lowered form contains "rain" gets the umbrella advice at every temperature |
| `WeatherCard.NonRainAdvice` | src/components/WeatherCard.tsx:61-70 | without "rain": very hot if and only if temp > 35; hot if and only if 30 < temp ≤ 35; cool if and only if temp < 15; pleasant if and only if 15 ≤ temp ≤ 30; never the umbrella |
| `WeatherCard.UmbrellaIff` | src/components/WeatherCard.tsx:58-59 | the umbrella advice is given if and only if "rain" occurs somewhere in the lowered condition |
| `WeatherCard.DrizzleHasNoRain` | src/components/WeatherCard.tsx:58 | lowered "Drizzle" does not contain "rain" |
| `WeatherCard.SameAdviceWithoutRain` | src/components/WeatherCard.tsx:61-70 | two conditions without "rain" get the same, non-umbrella advice at every temperature |
| `WeatherCard.DrizzleFallsThrough` | src/components/WeatherCard.tsx:57-71 | "Drizzle" gets the same advice as "Clear" at every temperature, never the umbrella |
| `WeatherCard.NightHours` | src/components/WeatherCard.tsx:32-33 | within a day's hours, night is exactly 0–5 and 19–23 |
| `WeatherCard.WeatherIconCases` | src/components/WeatherCard.tsx:35-46 | moon if and only if lowered "clear" at night; sun if and only if "clear" by day; rain icon if and only if "rain" or "drizzle"; snow if and only if "snow"; cloud for everything else |
| `WeatherCard.WeatherIconIgnoresCase` | src/components/WeatherCard.tsx:35 | conditions that differ only in case draw the same icon |
| `WeatherCard.OnlyClearDependsOnHour` | src/components/WeatherCard.tsx:36-46 | for any condition other than "clear", the icon is the same at every hour |
| `WeatherCard.IconMatchIsExact` | src/components/WeatherCard.tsx:35-46 | "Light Rain" draws the default cloud, while "RAIN" draws the rain icon |
| `WeatherDetails.AirQualityStatus` | src/components/WeatherDetails.tsx:31-35 | `getAirQualityStatus`: the humidity bands at 70 and 40; they are `HumidityBands` |
| `WeatherDetails.HumidityStatus.Label` | src/components/WeatherDetails.tsx:32-34 | the `status` text of each humidity band |
| `WeatherDetails.HumidityStatus.Color` | src/components/WeatherDetails.tsx:32-34 | the `color` of each humidity band: orange, green, yellow |
| `WeatherDetails.HumidityStatus.Advice` | src/components/WeatherDetails.tsx:32-34 | the `advice` text of each humidity band; it opens the advisory (`AdvisoryLines`) |
| `WeatherDetails.WindStatusOf` | src/components/WeatherDetails.tsx:37-41 | `getWindStatus`: the wind bands at 10 and 5; they are `WindBands` |
| `WeatherDetails.WindStatus.Label` | src/components/WeatherDetails.tsx:38-40 | the `status` text of each wind band |
| `WeatherDetails.WindStatus.Color` | src/components/WeatherDetails.tsx:38-40 | the `color` of each wind band: blue, green, gray |
| `WeatherDetails.PressureStatusOf` | src/components/WeatherDetails.tsx:43-47 | `getPressureStatus`: the pressure bands at 1020 and 1000; they are `PressureBands` |
| `WeatherDetails.PressureStatus.Label` | src/components/WeatherDetails.tsx:44-46 | the `status` text of each pressure band |
| `WeatherDetails.PressureStatus.Color` | src/components/WeatherDetails.tsx:44-46 | the `color` of each pressure band: green, blue, orange |
| `WeatherDetails.HealthAdvisory` | src/components/WeatherDetails.tsx:106-127 | the advisory lines top to bottom; which appear and in what order is `AdvisoryLines` |
| `WeatherDetails.HumidityBands` | src/components/WeatherDetails.tsx:31-35 | high if and only if humidity > 70; comfortable if and only if 40 < humidity ≤ 70; low otherwise |
| `WeatherDetails.WindBands` | src/components/WeatherDetails.tsx:37-41 | windy if and only if speed > 10; breezy if and only if 5 < speed ≤ 10; calm otherwise |
| `WeatherDetails.PressureBands` | src/components/WeatherDetails.tsx:43-47 | high if and only if pressure > 1020; normal if and only if 1000 < pressure ≤ 1020; low otherwise |
| `WeatherDetails.StatusesMonotone` | src/components/WeatherDetails.tsx:31-47 | a larger reading never gets a lower status band |
| `WeatherDetails.AdvisoryLines` | src/components/WeatherDetails.tsx:106-127 | the advisory opens with the humidity advice and ends with the water line. The sunscreen line appears if and only if temp > 30, and the monsoon line if and only if the lowered condition contains "rain"; there are exactly two lines plus one for each of these, and sunscreen comes before monsoon |
| `ForecastCard.ForecastIcon` | src/components/ForecastCard.tsx:22-36 | the switch on the lowered condition, with no night rule; its cases are `ForecastIconCases` |
| `ForecastCard.ForecastIconCases` | src/components/ForecastCard.tsx:22-36 | sun if and only if lowered "clear"; rain icon if and only if "rain" or "drizzle"; snow if and only if "snow"; cloud for "clouds" and everything else; never the moon |
| `ForecastCard.ForecastIconIgnoresCase` | src/components/ForecastCard.tsx:23 | conditions that differ only in case (such as "CLEAR" and "clear") draw the same icon |
| `ForecastCard.AgreesWithWeatherCard` | src/components/ForecastCard.tsx:22-36 | the forecast icon equals the main card's icon if and only if it is not a clear sky at night |
| `ForecastCard.ClearIcon` | src/components/ForecastCard.tsx:24-25 | "Clear" draws the sun |
| `ForecastCard.CloudsIcon` | src/components/ForecastCard.tsx:26-27 | "Clouds" draws the cloud |
| `ForecastCard.RainIcon` | src/components/ForecastCard.tsx:28-30 | "Rain" draws the rain icon |
| `ForecastCard.ThunderstormIcon` | src/components/ForecastCard.tsx:33-34 | "Thunderstorm" has no case of its own and draws the default cloud |
| `ForecastCard.GeneratedConditionIcons` | src/components/ForecastCard.tsx:22-36 | the generator's four conditions draw sun, cloud, rain icon and cloud |
| `ForecastCard.GeneratedIconsNeverSnow` | src/components/ForecastCard.tsx:22-36 | every generated forecast day draws the sun, the cloud or the rain icon |
| `IndexPage.Dashboard.Valid` | src/pages/Index.tsx:54-75 | the page invariant: a forecast is present exactly when a snapshot is, the snapshot is a table entry with a condition, and the forecast is five well-shaped days around its temperature; every handler keeps it |
| `IndexPage.Dashboard.constructor` | src/pages/Index.tsx:52-56 | initial state: city Mumbai, empty search box, no snapshot, no forecast, not loading; the page invariant holds |
| `IndexPage.Dashboard.TypeSearchText` | src/pages/Index.tsx:134 | the search box holds the typed text; nothing else changes |
| `IndexPage.Dashboard.StartFetch` | src/pages/Index.tsx:58-59 | the fetch starts by setting loading; nothing else changes |
| `IndexPage.Dashboard.CompleteFetch` | src/pages/Index.tsx:61-75 | on a hit for the lowered name, the snapshot becomes the entry and the forecast is generated from its temperature. On a miss, both become null. Loading ends on both paths, the invariant (forecast present if and only if snapshot present) is kept, and city and search box are unchanged |
| `IndexPage.Dashboard.HandleSearch` | src/pages/Index.tsx:82-87 | a blank box changes nothing; otherwise the city becomes the trimmed text and the box is emptied |
| `IndexPage.Dashboard.HandleCitySelect` | src/pages/Index.tsx:89-91 | the city becomes the argument, untrimmed; nothing else changes |
| `IndexPage.Lookup` | src/pages/Index.tsx:62-63 | `weatherData[cityName.toLowerCase()]`; its hits are `LookupHitIff` |
| `IndexPage.LookupIgnoresCase` | src/pages/Index.tsx:62-63 | names that differ only in case find the same table entry |
| `IndexPage.LookupHitIff` | src/pages/Index.tsx:62-65 | a hit happens if and only if the lowered name is a key, and then it is that key's entry |
| `IndexPage.LookupDoesNotTrim` | src/pages/Index.tsx:62-63 | "MUMBAI" finds the "mumbai" entry, and " Mumbai" finds nothing |
| `IndexPage.BackgroundGradient` | src/pages/Index.tsx:93-110 | `getBackgroundGradient` with the hour as a parameter; its cases are `NoDataGradient` and `GradientCases` |
| `IndexPage.NoDataGradient` | src/pages/Index.tsx:94 | with no snapshot the gradient is the default one |
| `IndexPage.GradientCases` | src/pages/Index.tsx:96-109 | rain gradient if and only if the condition contains "rain" or "drizzle", at any hour and before the other tests. Then cloud, then clear, each with a night variant chosen by the hour. The default comes if and only if none of the four substrings occurs |
| `IndexPage.RainGradientIgnoresHour` | src/pages/Index.tsx:100-109 | the rain and default gradients are the same at every hour |
| `IndexPage.DrizzleGradient` | src/pages/Index.tsx:100-101 | a "drizzle" condition gets the rain gradient |

## Left out

- JsString.Lower: lowers only the ASCII letters A–Z. JavaScript's `toLowerCase` follows full Unicode case mapping. City names and conditions here are ASCII.
- JSX rendering, layout and CSS class strings are left out. Colours are the `Color` datatype, not the `text-…-400` class names. Advice lines, advisory lines and gradients are datatype constructors, not their display strings.
- Toast notifications are not delivered. `CompleteFetch` returns a `Toast` value saying whether the load succeeded.
- The 500 ms `setTimeout` and the `useEffect` that fetches whenever `city` changes are not modelled. The fetch is two methods, `StartFetch` and `CompleteFetch`. The caller passes the city name the timer captured. Several timers may be outstanding, and the code does not order or discard their completions, so the model makes no claim about which completion ends up on screen.
- `Math.random()`, `Date.now()` and `new Date().getHours()` are parameters, as described above.
- Floating point is not modelled. Readings and timestamps are `real`, so the rounding of `Date.now() / 1000`, of `baseTemp + tempVariation` and of `Math.random() * k` is ignored, and NaN is not considered. Every comparison is against a whole-number threshold.
- `Math.round` on displayed temperatures and the locale date and time formatting are not modelled.
- The data table's contents are left out. It is an abstract map whose entries each have a non-empty `weather` list. Looking up a key the table only inherits as an object property is not modelled.
- Reading `weather[0].main` from an empty `weather` list throws in the source: `weather[0]` is `undefined` and reading `.main` from it raises a TypeError. The model requires a condition there (`HasCondition`) instead of modelling the exception.
- Which card the page shows while loading is JSX and is not modelled.
- The live clock, the features list and the popular-cities list are left out. They are timers, static lists and markup. The city list only feeds `HandleCitySelect`.
- There is no remote weather API client in this code.
