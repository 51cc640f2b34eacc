# Weather forecast session, modelled in Dafny

This project models the logic inside the `WeatherApp` React component
(`weather-forecast-app.tsx`). The component shows the weather for a city the user
searches for. It has three parts that do something besides markup:

- **The mock weather generator** (`generateMockWeather`). It builds a "current" record
  and a 7-day forecast for a city name from random draws. Module `MockWeather`.
  Each `Math.random()` result is a `Draw`: an exact real in [0, 1). One call of the
  generator takes `DrawCount` (43) of them, in JavaScript evaluation order. First comes
  `baseTemp`. Then come the seven random fields of the current record, in the order they
  are written. Then each of the seven forecast days takes five. `Math.round` is
  `Floor(x + 0.5)` and `Math.floor` is `Floor`, both in module `Numeric`. With these,
  the generator is a pure function of the city name and the draws.
- **The chart series** (`temperatureData`, `precipitationData`). These are two
  projections of the forecast that keep its order. Module `Charts`.
- **The session.** The component has six `useState` cells: `currentWeather`,
  `forecast`, `city`, `searchCity`, `loading` and `activeTab`. They are updated by the
  search box, by `handleSearch`, by the `[city]` effect, by `fetchWeather` and by the tab
  buttons. Module `Session` models them as the fields of class `WeatherSession`. It adds
  two fields for what React and the event loop hold:
  - `effectCity` is the `city` the effect last ran with (React's dependency record);
  - `pending` lists the cities of the fetches that are suspended at their `await`.

  `fetchWeather` is split at its `await` into two events. `BeginFetch` is called from
  `RunCityEffect`. `CompleteFetch(k, draws)` resumes the outstanding fetch at position
  `k` with the generator's draws. `String.prototype.trim` is module `TrimText`. It uses
  ECMAScript's full set of WhiteSpace and LineTerminator characters.

Two invariants describe the session states:

- `Valid()` holds in every reachable state. `loading` is set only while some fetch is
  outstanding. The weather shown is either absent, with an empty forecast, or a complete
  generated record whose fields are all in range.
- `SingleFlight()` holds as long as search and tab events come only while the page is
  not loading. This is the case in the rendered app, because while `loading` the
  component returns only the loading screen (lines 87-93). Under it, at most one fetch is
  outstanding and it is for the current `city`. `loading` is set exactly while that fetch
  is outstanding. When nothing is loading, the weather shown belongs to the city the
  effect last fetched. As a result, every completion commits the weather of the current
  `city` (`CompleteFetch`).

Module `Scenarios` runs short event sequences on a fresh session: mount, a search, a
blank search, re-submitting the same city, a tab change while loading, and two
overlapping fetches.

Four facts about the code shape the model:

- The code has no stale-result suppression. A completing fetch commits its result
  without comparing its city to `city` (lines 48-51). When two fetches overlap, the
  first to finish clears `loading` while the other is still outstanding.
  `Scenarios.OverlappingFetches` completes them in the order they began, as their equal
  1-second timers do: London's weather is shown, with `loading` cleared, while `city` is
  already "Paris" and the Paris fetch is outstanding. In the rendered app this overlap
  cannot happen through the UI (see `SingleFlight`).
- Re-submitting the current city starts no fetch. `city` keeps its value, so the effect
  does not run again.
- The initial state is not loading. `loading` becomes true only when the mount effect
  runs (`Session.WeatherSession.constructor`, then `RunCityEffect`).
- The tab buttons are not rendered while loading. The tab scenario still applies
  `SelectTab` during a fetch, to show that `SelectTab` leaves `loading` unchanged.

## Model

| member | source | states |
|---|---|---|
| `Numeric.Round` | weather-forecast-app.tsx:22-28 | `Math.round(x)` is the integer n with n - 0.5 <= x < n + 0.5 (halves round up) |
| `Numeric.Floor` | weather-forecast-app.tsx:23 | `Math.floor(x)` is the integer n with n <= x < n + 1 |
| `Numeric.RoundMonotone` | weather-forecast-app.tsx:22-28 | rounding preserves order |
| `Numeric.RoundShift` | weather-forecast-app.tsx:22-28 | rounding x + k, for an integer k, gives Round(x) + k |
| `Numeric.RoundWithin` | weather-forecast-app.tsx:22-28 | a value in [lo, hi) for integers lo, hi rounds into lo..hi |
| `MockWeather.BaseTemp` | weather-forecast-app.tsx:17 | `baseTemp` lies in [10, 30) for every draw |
| `MockWeather.PickCondition` | weather-forecast-app.tsx:16-23 | the index `floor(r*4)` is inside the array, so the condition is always one of the four listed values |
| `MockWeather.GenerateCurrent` | weather-forecast-app.tsx:20-29 | the city is copied verbatim; temperature 10..40, humidity 40..80, windSpeed 5..20, visibility 8..13, pressure 1000..1050, feelsLike 10..35; temperature is between Round(baseTemp) and Round(baseTemp+10), feelsLike between Round(baseTemp) and Round(baseTemp+5) |
| `MockWeather.GenerateDay` | weather-forecast-app.tsx:30-38 | entry i has day label `DayNames[i]`, humidity 50..80, windSpeed 8..18, precipitation 0..60, a listed condition, and a temperature between Round(baseTemp+temps[i]-4) and Round(baseTemp+temps[i]+4), hence temps[i]+6..temps[i]+34 |
| `MockWeather.Generate` | weather-forecast-app.tsx:14-40 | for every city and every draws: the current record names the city and is in range, and the forecast has exactly 7 entries, entry i labelled Mon..Sun by position and in range |
| `MockWeather.SharedBase` | weather-forecast-app.tsx:17-33 | the current temperature, feelsLike and every forecast temperature are tied to the one `baseTemp`: with b = Round(baseTemp), b..b+10, b..b+5 and b+temps[i]-4..b+temps[i]+4 |
| `MockWeather.FeelsLikeNearTemperature` | weather-forecast-app.tsx:22-28 | feelsLike is at most 5 above and at most 10 below the current temperature |
| `MockWeather.CityOnlyLabels` | weather-forecast-app.tsx:14-40 | the city name changes only the `city` field: with the same draws, two cities get the same forecast and the same current record apart from `city` |
| `TrimText.TrimStart` | weather-forecast-app.tsx:60-61 | the result is no longer than the input and does not start with white space |
| `TrimText.TrimEnd` | weather-forecast-app.tsx:60-61 | the result is no longer than the input and does not end with white space |
| `TrimText.Trim` | weather-forecast-app.tsx:60-61 | `trim()` leaves no white space at either end |
| `TrimText.TrimStartIsSuffix` | weather-forecast-app.tsx:60-61 | TrimStart keeps a suffix of its input |
| `TrimText.TrimEndIsPrefix` | weather-forecast-app.tsx:60-61 | TrimEnd keeps a prefix of its input |
| `TrimText.TrimStartRemovesWhitespace` | weather-forecast-app.tsx:60-61 | everything TrimStart drops is white space |
| `TrimText.TrimEndRemovesWhitespace` | weather-forecast-app.tsx:60-61 | everything TrimEnd drops is white space |
| `TrimText.TrimEmptyIff` | weather-forecast-app.tsx:60 | `searchCity.trim()` is empty (falsy) exactly when `searchCity` is all white space |
| `TrimText.TrimSplits` | weather-forecast-app.tsx:60-61 | the input is white space, then the result, then white space |
| `TrimText.TrimOfTrimmed` | weather-forecast-app.tsx:60-61 | a string without white space at either end is left unchanged |
| `TrimText.TrimIdempotent` | weather-forecast-app.tsx:60-61 | trimming twice is trimming once |
| `Charts.TemperatureData` | weather-forecast-app.tsx:76-80 | same length as the forecast; point i carries `day`, `temperature` and `humidity` of entry i |
| `Charts.PrecipitationData` | weather-forecast-app.tsx:82-85 | same length as the forecast; point i carries `day` and `precipitation` of entry i |
| `Charts.EmptyForecastEmptySeries` | weather-forecast-app.tsx:7 | the initial empty forecast gives two empty series |
| `Charts.SeriesOfConcat` | weather-forecast-app.tsx:76-85 | both projections keep order: the series of a concatenation is the concatenation of the series |
| `Charts.SeriesAligned` | weather-forecast-app.tsx:76-85 | the two series have equal length and the same day label at every position |
| `Charts.SeriesRejoin` | weather-forecast-app.tsx:76-85 | joining the two points at position i, with condition and windSpeed, gives back forecast entry i |
| `Charts.SeriesOfGenerated` | weather-forecast-app.tsx:30-85 | for a generated forecast, both series have 7 points labelled Mon..Sun, with precipitation 0..60 and humidity 50..80 |
| `Session.WeatherSession.constructor` | weather-forecast-app.tsx:6-11 | initial state: city "London", empty search box, not loading, tab 'current', no weather, empty forecast; no fetch outstanding, and the effect has not run |
| `Session.WeatherSession.Type` | weather-forecast-app.tsx:111 | typing sets `searchCity` and nothing else |
| `Session.WeatherSession.Search` | weather-forecast-app.tsx:58-64 | a blank box changes nothing, not even its white space; otherwise `city` becomes the trimmed text, the box is cleared, and nothing else changes (no fetch starts here) |
| `Session.WeatherSession.RunCityEffect` | weather-forecast-app.tsx:54-56 | a fetch for `city` begins exactly when the effect has not yet run or `city` differs from its previous run's value; otherwise the state is unchanged |
| `Session.WeatherSession.BeginFetch` | weather-forecast-app.tsx:43-46 | sets `loading` and adds the fetch to the outstanding ones; nothing else changes |
| `Session.WeatherSession.CompleteFetch` | weather-forecast-app.tsx:46-51 | commits the current record and the forecast of one generated result for the fetch's own city, without comparing it to `city`, and clears `loading`; under `SingleFlight` the committed city is `city` |
| `Session.WeatherSession.SelectTab` | weather-forecast-app.tsx:131-151 | sets `activeTab` to 'current', 'forecast' or 'trends'; nothing else changes, `loading` included |
| `Scenarios.MountLoadsLondon` | weather-forecast-app.tsx:43-56 | on mount a fetch for London begins and sets `loading`; its completion shows London's weather, in range, with 7 forecast days, and clears `loading` |
| `Scenarios.SearchParis` | weather-forecast-app.tsx:54-64 | searching "  Paris " sets city "Paris" and clears the box; the next effect run begins a fetch, and its completion shows Paris |
| `Scenarios.ResubmitSameCity` | weather-forecast-app.tsx:54-64 | re-submitting " London\t" clears the box but begins no fetch |
| `Scenarios.BlankSearch` | weather-forecast-app.tsx:58-64 | submitting "   " keeps city and box unchanged and begins no fetch |
| `Scenarios.TabWhileLoading` | weather-forecast-app.tsx:131-151 | selecting 'trends' during a fetch changes the tab at once and keeps `loading` set until the fetch completes |
| `Scenarios.OverlappingFetches` | weather-forecast-app.tsx:43-56 | with London then Paris outstanding and completing in that order, London's completion clears `loading` while Paris is still outstanding and commits London's weather while `city` is "Paris"; Paris's completion then shows Paris |

## Left out

- All JSX rendering, the styling and the loading screen (lines 87-332). The loading
  screen appears in the model only as the condition under which `SingleFlight` is
  preserved.
- `getWeatherIcon` (lines 66-74): a lookup that returns React elements.
- The charting and icon libraries (recharts, lucide-react): their code is not part of
  this model.
- The forecast `date` field (line 32) and its display formatting (line 233): they depend
  on the wall clock (`Date.now()`) and on the locale (`toLocaleDateString`).
- `e.preventDefault()` (line 59): a DOM call with no effect on the session state.
- IEEE-754 floating point. The draws are exact reals in [0, 1), and `Math.round` and
  `Math.floor` are exact on reals. A floating-point product that rounds up to the next
  integer is not modelled.
- The 1-second timer and the event loop (line 46). Completions happen when
  `CompleteFetch` is called, in any order the caller chooses. In the source, equal
  delays make fetches complete in the order they began; the session model does not
  enforce that order, and `Scenarios.OverlappingFetches` follows it explicitly.
- React's render cycle. `RunCityEffect` is an explicit event. The model does not force
  it to run after every render in which `city` changed.
- `MockWeather.Generate`: its contract does not give the exact value of each field, only
  the ranges, the labels, the city and the shared `baseTemp` (`SharedBase`). The exact
  values are in its body.
