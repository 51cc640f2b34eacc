/** `generateMockWeather`: a synthetic current-weather record and 7-day forecast for a city.
    Every `Math.random()` the generator performs is one element of a sequence of draws,
    consumed in the order JavaScript evaluates the calls. */
module MockWeather {
  import opened Numeric

  /** Base offsets of the seven forecast days, in order. */
  const Temps: seq<int> := [15, 18, 22, 19, 16, 14, 20]
  /** The four weather conditions, indexed by `Math.floor(Math.random() * 4)`. */
  const Conditions: seq<string> := ["sunny", "cloudy", "rainy", "partly-cloudy"]
  /** Day labels, indexed by forecast position. */
  const DayNames: seq<string> := ["Mon", "Tue", "Wed", "Thu", "Fri", "Sat", "Sun"]

  /** Draws used for `baseTemp` and the current record: baseTemp, then the seven
      random fields in the order they are written (temperature, condition, humidity,
      windSpeed, visibility, pressure, feelsLike). */
  const CurrentDraws: nat := 8
  /** Draws used by one forecast day: temperature, condition, humidity, windSpeed, precipitation. */
  const DayDraws: nat := 5
  /** Draws used by one call of the generator. */
  const DrawCount: nat := CurrentDraws + DayDraws * |Temps|

  datatype CurrentWeather = CurrentWeather(
    city: string,
    temperature: int,
    condition: string,
    humidity: int,
    windSpeed: int,
    visibility: int,
    pressure: int,
    feelsLike: int)

  /** One forecast entry (its locale-formatted `date` is not part of this model). */
  datatype ForecastDay = ForecastDay(
    day: string,
    temperature: int,
    condition: string,
    humidity: int,
    windSpeed: int,
    precipitation: int)

  datatype Weather = Weather(current: CurrentWeather, forecast: seq<ForecastDay>)

  /** The ranges every generated current record respects. */
  predicate CurrentInRange(c: CurrentWeather) {
    && 10 <= c.temperature <= 40
    && c.condition in Conditions
    && 40 <= c.humidity <= 80
    && 5 <= c.windSpeed <= 20
    && 8 <= c.visibility <= 13
    && 1000 <= c.pressure <= 1050
    && 10 <= c.feelsLike <= 35
  }

  /** The ranges every generated forecast entry at position `index` respects. */
  predicate DayInRange(d: ForecastDay, index: nat)
    requires index < |Temps|
  {
    && d.day == DayNames[index]
    && Temps[index] + 6 <= d.temperature <= Temps[index] + 34
    && d.condition in Conditions
    && 50 <= d.humidity <= 80
    && 8 <= d.windSpeed <= 18
    && 0 <= d.precipitation <= 60
  }

  /** A forecast as the generator builds it: seven entries, each in range for its position. */
  predicate ForecastInRange(f: seq<ForecastDay>) {
    |f| == |Temps| && forall i :: 0 <= i < |f| ==> DayInRange(f[i], i)
  }

  /** `Math.random() * 20 + 10`. */
  function BaseTemp(r: Draw): (t: real)
    ensures 10.0 <= t < 30.0
  {
    r as real * 20.0 + 10.0
  }

  /** `conditions[Math.floor(Math.random() * conditions.length)]`: the index always lies
      inside the array, so the lookup never yields `undefined`. */
  function PickCondition(r: Draw): (c: string)
    ensures c in Conditions
  {
    var k := Floor(r as real * |Conditions| as real);
    assert 0 <= k < |Conditions|;
    Conditions[k]
  }

  /** The `current` record, from `baseTemp` and the seven draws after it. */
  function GenerateCurrent(cityName: string, base: real, d: seq<Draw>): (c: CurrentWeather)
    requires 10.0 <= base < 30.0
    requires |d| == CurrentDraws - 1
    ensures c.city == cityName
    ensures CurrentInRange(c)
    ensures Round(base) <= c.temperature <= Round(base + 10.0)
    ensures Round(base) <= c.feelsLike <= Round(base + 5.0)
  {
    var c := CurrentWeather(
      cityName,
      Round(base + d[0] as real * 10.0),
      PickCondition(d[1]),
      Round(d[2] as real * 40.0 + 40.0),
      Round(d[3] as real * 15.0 + 5.0),
      Round(d[4] as real * 5.0 + 8.0),
      Round(d[5] as real * 50.0 + 1000.0),
      Round(base + d[6] as real * 5.0));
    RoundMonotone(base, base + d[0] as real * 10.0);
    RoundMonotone(base + d[0] as real * 10.0, base + 10.0);
    RoundMonotone(base, base + d[6] as real * 5.0);
    RoundMonotone(base + d[6] as real * 5.0, base + 5.0);
    RoundWithin(base + d[0] as real * 10.0, 10, 40);
    RoundWithin(base + d[6] as real * 5.0, 10, 35);
    RoundWithin(d[2] as real * 40.0 + 40.0, 40, 80);
    RoundWithin(d[3] as real * 15.0 + 5.0, 5, 20);
    RoundWithin(d[4] as real * 5.0 + 8.0, 8, 13);
    RoundWithin(d[5] as real * 50.0 + 1000.0, 1000, 1050);
    c
  }

  /** Forecast entry `index` (the callback of `temps.map`), from `baseTemp` and its five draws. */
  function GenerateDay(index: nat, base: real, d: seq<Draw>): (f: ForecastDay)
    requires index < |Temps|
    requires 10.0 <= base < 30.0
    requires |d| == DayDraws
    ensures DayInRange(f, index)
    ensures Round(base + Temps[index] as real - 4.0) <= f.temperature <= Round(base + Temps[index] as real + 4.0)
  {
    var t := base + Temps[index] as real + d[0] as real * 8.0 - 4.0;
    var f := ForecastDay(
      DayNames[index],
      Round(t),
      PickCondition(d[1]),
      Round(d[2] as real * 30.0 + 50.0),
      Round(d[3] as real * 10.0 + 8.0),
      Round(d[4] as real * 60.0));
    RoundMonotone(base + Temps[index] as real - 4.0, t);
    RoundMonotone(t, base + Temps[index] as real + 4.0);
    RoundWithin(t, Temps[index] + 6, Temps[index] + 34);
    RoundWithin(d[2] as real * 30.0 + 50.0, 50, 80);
    RoundWithin(d[3] as real * 10.0 + 8.0, 8, 18);
    RoundWithin(d[4] as real * 60.0, 0, 60);
    f
  }

  /** The draws that forecast day `index` consumes. */
  function DayDrawsOf(draws: seq<Draw>, index: nat): (d: seq<Draw>)
    requires |draws| == DrawCount && index < |Temps|
    ensures |d| == DayDraws
  {
    draws[CurrentDraws + DayDraws * index .. CurrentDraws + DayDraws * (index + 1)]
  }

  /** `generateMockWeather(cityName)`, with its random draws given as `draws`. */
  function Generate(cityName: string, draws: seq<Draw>): (w: Weather)
    requires |draws| == DrawCount
    ensures w.current.city == cityName
    ensures CurrentInRange(w.current)
    ensures ForecastInRange(w.forecast)
    // implied by ForecastInRange; stated on its own for readability
    ensures forall i :: 0 <= i < |w.forecast| ==> w.forecast[i].day == DayNames[i]
  {
    var base := BaseTemp(draws[0]);
    Weather(
      GenerateCurrent(cityName, base, draws[1..CurrentDraws]),
      seq(|Temps|, i requires 0 <= i < |Temps| => GenerateDay(i, base, DayDrawsOf(draws, i))))
  }

  /** The current temperature and every forecast temperature share `baseTemp`: forecast day `i`
      lies within `Temps[i]` plus or minus 4 degrees of the current record's lower bound
      `Round(baseTemp)`, with the current temperature at most 10 degrees above that bound. */
  lemma SharedBase(cityName: string, draws: seq<Draw>, i: nat)
    requires |draws| == DrawCount && i < |Temps|
    ensures var w := Generate(cityName, draws);
      var b := Round(BaseTemp(draws[0]));
      && b <= w.current.temperature <= b + 10
      && b <= w.current.feelsLike <= b + 5
      && b + Temps[i] - 4 <= w.forecast[i].temperature <= b + Temps[i] + 4
  {
    var base := BaseTemp(draws[0]);
    RoundShift(base, 10);
    RoundShift(base, 5);
    RoundShift(base, Temps[i] - 4);
    RoundShift(base, Temps[i] + 4);
  }

  /** Consequence for the current record: `feelsLike` is never more than 5 degrees above,
      nor more than 10 degrees below, `temperature`. */
  lemma FeelsLikeNearTemperature(cityName: string, draws: seq<Draw>)
    requires |draws| == DrawCount
    ensures var c := Generate(cityName, draws).current;
      c.temperature - 10 <= c.feelsLike <= c.temperature + 5
  {
    SharedBase(cityName, draws, 0);
  }

  /** The city name is copied through verbatim and nothing else about the result depends on it. */
  lemma CityOnlyLabels(a: string, b: string, draws: seq<Draw>)
    requires |draws| == DrawCount
    ensures Generate(a, draws).forecast == Generate(b, draws).forecast
    ensures Generate(a, draws).current == Generate(b, draws).current.(city := a)
  {
  }
}
