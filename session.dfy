/** The `WeatherApp` component's session: its six `useState` cells, the `[city]` effect that
    starts a fetch, `handleSearch`, the search box's `onChange`, the tab buttons, and
    `fetchWeather` split at its `await` into a begin event and a completion event. */
module Session {
  import opened Numeric
  import opened TrimText
  import opened MockWeather

  datatype Option<T> = None | Some(value: T)

  /** The three values `activeTab` takes: 'current', 'forecast' and 'trends'. */
  datatype Tab = Current | Forecast | Trends

  const DefaultCity: string := "London"

  class WeatherSession {
    var currentWeather: Option<CurrentWeather>
    var forecast: seq<ForecastDay>
    var city: string
    var searchCity: string
    var loading: bool
    var activeTab: Tab
    /** The `city` the `[city]` effect last ran with; `None` until the effect first runs after mount. */
    var effectCity: Option<string>
    /** The cities of the `fetchWeather` calls that have begun and not yet resumed after their
        `await`, in the order they began. */
    var pending: seq<string>

    /** What every reachable state satisfies: `loading` is only set while some fetch is
        outstanding, and the weather shown is either absent (with an empty forecast) or a
        complete record produced by the generator. */
    ghost predicate Valid()
      reads this
    {
      && (loading ==> pending != [])
      && (currentWeather.None? <==> forecast == [])
      && (currentWeather.Some? ==> CurrentInRange(currentWeather.value) && ForecastInRange(forecast))
    }

    /** What holds as long as search and tab events arrive only while the page is not showing
        its loading screen (the search box and the tabs are not rendered while `loading`):
        at most one fetch is outstanding, and it is for the current `city`; `loading` is set
        exactly while it is outstanding; and when nothing is loading, the weather shown is for
        the city the effect last fetched, so once the effect has caught up with `city` it is
        that city's. */
    ghost predicate SingleFlight()
      reads this
    {
      && (pending == [] || pending == [city])
      && (loading <==> pending != [])
      && (effectCity != Some(city) ==> pending == [])
      && (!loading && currentWeather.Some? ==> effectCity == Some(currentWeather.value.city))
    }

    /** The state on mount: city "London", an empty search box, not loading, the 'current'
        tab, no weather and an empty forecast; the effect has not run yet. */
    constructor ()
      ensures Valid() && SingleFlight()
      ensures city == DefaultCity && searchCity == "" && !loading && activeTab == Current
      ensures currentWeather == None && forecast == []
      ensures effectCity == None && pending == []
    {
      currentWeather := None;
      forecast := [];
      city := DefaultCity;
      searchCity := "";
      loading := false;
      activeTab := Current;
      effectCity := None;
      pending := [];
    }

    /** The search box's `onChange`: `searchCity` becomes the typed text; nothing else changes. */
    method Type(text: string)
      requires Valid()
      modifies this
      ensures Valid()
      ensures searchCity == text
      ensures city == old(city) && loading == old(loading) && activeTab == old(activeTab)
      ensures currentWeather == old(currentWeather) && forecast == old(forecast)
      ensures effectCity == old(effectCity) && pending == old(pending)
      ensures old(SingleFlight()) ==> SingleFlight()
    {
      searchCity := text;
    }

    /** `handleSearch` (the Search button, or Enter in the box): a blank box changes nothing,
        not even its own white space; otherwise the trimmed text becomes `city` and the box is
        cleared. No fetch starts here: that is the effect's job once `city` has changed. */
    method Search()
      requires Valid()
      modifies this
      ensures Valid()
      ensures Trim(old(searchCity)) == "" ==> city == old(city) && searchCity == old(searchCity)
      ensures Trim(old(searchCity)) != "" ==> city == Trim(old(searchCity)) && searchCity == ""
      ensures loading == old(loading) && activeTab == old(activeTab)
      ensures currentWeather == old(currentWeather) && forecast == old(forecast)
      ensures effectCity == old(effectCity) && pending == old(pending)
      ensures old(SingleFlight()) && !old(loading) ==> SingleFlight()
    {
      var trimmed := Trim(searchCity);
      if trimmed != "" {
        city := trimmed;
        searchCity := "";
      }
    }

    /** The effect `useEffect(() => fetchWeather(city), [city])`: after a render it starts a
        fetch for `city` if this is the first run or `city` differs from the previous run's;
        otherwise it does nothing. */
    method RunCityEffect() returns (began: bool)
      requires Valid()
      modifies this
      ensures Valid()
      ensures began <==> old(effectCity) != Some(old(city))
      ensures effectCity == Some(city)
      ensures began ==> loading && pending == old(pending) + [city]
      ensures !began ==> loading == old(loading) && pending == old(pending)
      ensures city == old(city) && searchCity == old(searchCity) && activeTab == old(activeTab)
      ensures currentWeather == old(currentWeather) && forecast == old(forecast)
      ensures old(SingleFlight()) ==> SingleFlight()
    {
      began := effectCity != Some(city);
      if began {
        BeginFetch(city);
        effectCity := Some(city);
      }
    }

    /** `fetchWeather(cityName)` up to its `await`: `loading` is set and the fetch is outstanding. */
    method BeginFetch(cityName: string)
      requires Valid()
      modifies this
      ensures Valid()
      ensures loading && pending == old(pending) + [cityName]
      ensures city == old(city) && searchCity == old(searchCity) && activeTab == old(activeTab)
      ensures currentWeather == old(currentWeather) && forecast == old(forecast)
      ensures effectCity == old(effectCity)
    {
      loading := true;
      pending := pending + [cityName];
    }

    /** `fetchWeather` after its `await`, for the outstanding fetch at position `k`, with the
        generator's random draws given as `draws`: the current record and the forecast of
        one generated result are committed and `loading` is cleared. The result is committed
        whatever `city` now is, and `loading` is cleared even if other fetches are still
        outstanding. */
    method CompleteFetch(k: nat, draws: seq<Draw>)
      requires Valid()
      requires k < |pending| && |draws| == DrawCount
      modifies this
      ensures Valid()
      ensures currentWeather == Some(Generate(old(pending[k]), draws).current)
      ensures forecast == Generate(old(pending[k]), draws).forecast
      ensures !loading && pending == old(pending[..k] + pending[k + 1..])
      ensures city == old(city) && searchCity == old(searchCity) && activeTab == old(activeTab)
      ensures effectCity == old(effectCity)
      ensures old(SingleFlight()) ==> SingleFlight() && currentWeather.value.city == city
    {
      var data := Generate(pending[k], draws);
      currentWeather := Some(data.current);
      forecast := data.forecast;
      loading := false;
      pending := pending[..k] + pending[k + 1..];
    }

    /** A tab button's `onClick`: `activeTab` becomes `t`; nothing else changes, `loading` included. */
    method SelectTab(t: Tab)
      requires Valid()
      modifies this
      ensures Valid()
      ensures activeTab == t
      ensures city == old(city) && searchCity == old(searchCity) && loading == old(loading)
      ensures currentWeather == old(currentWeather) && forecast == old(forecast)
      ensures effectCity == old(effectCity) && pending == old(pending)
      ensures old(SingleFlight()) ==> SingleFlight()
    {
      activeTab := t;
    }
  }
}
