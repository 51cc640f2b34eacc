/** `temperatureData` and `precipitationData`: the chart series projected from the forecast
    on every render. Each is a `forecast.map(...)`, written here as recursion over the list. */
module Charts {
  import opened MockWeather

  /** One point of the temperature/humidity line chart. */
  datatype TemperaturePoint = TemperaturePoint(day: string, temperature: int, humidity: int)
  /** One bar of the precipitation chart. */
  datatype PrecipitationPoint = PrecipitationPoint(day: string, precipitation: int)

  /** `forecast.map(day => ({ day, temperature, humidity }))`. */
  function TemperatureData(forecast: seq<ForecastDay>): (r: seq<TemperaturePoint>)
    ensures |r| == |forecast|
    ensures forall i :: 0 <= i < |r| ==>
      r[i] == TemperaturePoint(forecast[i].day, forecast[i].temperature, forecast[i].humidity)
  {
    if forecast == [] then []
    else [TemperaturePoint(forecast[0].day, forecast[0].temperature, forecast[0].humidity)]
         + TemperatureData(forecast[1..])
  }

  /** `forecast.map(day => ({ day, precipitation }))`. */
  function PrecipitationData(forecast: seq<ForecastDay>): (r: seq<PrecipitationPoint>)
    ensures |r| == |forecast|
    ensures forall i :: 0 <= i < |r| ==>
      r[i] == PrecipitationPoint(forecast[i].day, forecast[i].precipitation)
  {
    if forecast == [] then []
    else [PrecipitationPoint(forecast[0].day, forecast[0].precipitation)]
         + PrecipitationData(forecast[1..])
  }

  /** Before the first fetch completes the forecast is empty, and so are both series. */
  lemma EmptyForecastEmptySeries()
    ensures TemperatureData([]) == [] && PrecipitationData([]) == []
  {
  }

  /** Both series follow the forecast's order: projecting a concatenation is concatenating the projections. */
  lemma SeriesOfConcat(a: seq<ForecastDay>, b: seq<ForecastDay>)
    ensures TemperatureData(a + b) == TemperatureData(a) + TemperatureData(b)
    ensures PrecipitationData(a + b) == PrecipitationData(a) + PrecipitationData(b)
  {
  }

  /** The two series line up: at every position they carry the same day label. */
  lemma SeriesAligned(forecast: seq<ForecastDay>)
    ensures |TemperatureData(forecast)| == |PrecipitationData(forecast)|
    ensures forall i :: 0 <= i < |forecast| ==> TemperatureData(forecast)[i].day == PrecipitationData(forecast)[i].day
  {
  }

  /** The forecast entry a temperature point and a precipitation point describe, given the
      two fields neither series carries. */
  function Join(t: TemperaturePoint, p: PrecipitationPoint, condition: string, windSpeed: int): ForecastDay {
    ForecastDay(t.day, t.temperature, condition, t.humidity, windSpeed, p.precipitation)
  }

  /** Together the two series keep every field of the forecast except `condition` and
      `windSpeed`: joining their points at one position gives back that forecast entry. */
  lemma SeriesRejoin(forecast: seq<ForecastDay>, i: nat)
    requires i < |forecast|
    ensures Join(TemperatureData(forecast)[i], PrecipitationData(forecast)[i],
                 forecast[i].condition, forecast[i].windSpeed) == forecast[i]
  {
  }

  /** For a freshly generated forecast the series have seven points labelled Mon..Sun,
      with precipitation in 0..60 and humidity in 50..80. */
  lemma SeriesOfGenerated(cityName: string, draws: seq<Numeric.Draw>)
    requires |draws| == DrawCount
    ensures var f := Generate(cityName, draws).forecast;
      && |TemperatureData(f)| == 7 && |PrecipitationData(f)| == 7
      && (forall i :: 0 <= i < 7 ==> TemperatureData(f)[i].day == DayNames[i] == PrecipitationData(f)[i].day)
      && (forall i :: 0 <= i < 7 ==> 0 <= PrecipitationData(f)[i].precipitation <= 60)
      && (forall i :: 0 <= i < 7 ==> 50 <= TemperatureData(f)[i].humidity <= 80)
  {
  }
}
