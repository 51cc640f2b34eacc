/** Event sequences run against a fresh session, with what each one ends in. Each method
    allocates its own session and changes nothing else, so its postconditions are facts
    about the event sequence, derived from the session's method contracts alone. */
module Scenarios {
  import opened Numeric
  import opened MockWeather
  import opened TrimText
  import opened Session

  lemma TrimPaddedParis()
    ensures Trim("  Paris ") == "Paris"
  {
    assert !IsWhitespace('P') && !IsWhitespace('s');
    assert "  Paris "[1..] == " Paris " && " Paris "[1..] == "Paris ";
    assert TrimStart("Paris ") == "Paris ";
    assert TrimStart(" Paris ") == "Paris ";
    assert TrimStart("  Paris ") == "Paris ";
    assert "Paris "[..5] == "Paris";
    assert TrimEnd("Paris") == "Paris";
    assert TrimEnd("Paris ") == "Paris";
  }

  lemma TrimPaddedLondon()
    ensures Trim(" London\t") == "London"
  {
    assert !IsWhitespace('L') && !IsWhitespace('n');
    assert " London\t"[1..] == "London\t";
    assert TrimStart("London\t") == "London\t";
    assert TrimStart(" London\t") == "London\t";
    assert "London\t"[..6] == "London";
    assert TrimEnd("London") == "London";
    assert TrimEnd("London\t") == "London";
  }

  lemma TrimBlank()
    ensures Trim("   ") == ""
  {
    assert "   "[1..] == "  " && "  "[1..] == " " && " "[1..] == "";
    assert TrimStart("   ") == "";
  }

  /** Mount: the effect starts a fetch for "London" at once; when it completes the page
      shows London's weather with seven forecast days and is no longer loading. */
  method MountLoadsLondon(draws: seq<Draw>)
    returns (began: bool, loadingWhileFetching: bool, shown: CurrentWeather, days: nat, loadingAfter: bool)
    requires |draws| == DrawCount
    ensures began && loadingWhileFetching && !loadingAfter
    ensures shown.city == "London" && days == 7
    ensures CurrentInRange(shown)
  {
    var s := new WeatherSession();
    began := s.RunCityEffect();
    loadingWhileFetching := s.loading;
    s.CompleteFetch(0, draws);
    shown := s.currentWeather.value;
    days := |s.forecast|;
    loadingAfter := s.loading;
  }

  /** Searching "  Paris " once London has loaded: the box is cleared, the effect starts a
      fetch for "Paris", and its completion shows Paris's weather. */
  method SearchParis(first: seq<Draw>, second: seq<Draw>)
    returns (cityAfterSearch: string, boxAfterSearch: string, began: bool, shown: CurrentWeather, loadingAfter: bool)
    requires |first| == DrawCount && |second| == DrawCount
    ensures cityAfterSearch == "Paris" && boxAfterSearch == ""
    ensures began && shown.city == "Paris" && !loadingAfter
  {
    var s := new WeatherSession();
    var _ := s.RunCityEffect();
    s.CompleteFetch(0, first);
    s.Type("  Paris ");
    TrimPaddedParis();
    s.Search();
    cityAfterSearch, boxAfterSearch := s.city, s.searchCity;
    began := s.RunCityEffect();
    s.CompleteFetch(0, second);
    shown := s.currentWeather.value;
    loadingAfter := s.loading;
  }

  /** Re-submitting the city already shown (here with surrounding spaces) clears the box
      but starts no fetch, because `city` keeps its value and the effect does not re-run. */
  method ResubmitSameCity(draws: seq<Draw>)
    returns (boxAfterSearch: string, began: bool, loadingAfter: bool, shown: CurrentWeather)
    requires |draws| == DrawCount
    ensures boxAfterSearch == "" && !began && !loadingAfter && shown.city == "London"
  {
    var s := new WeatherSession();
    var _ := s.RunCityEffect();
    s.CompleteFetch(0, draws);
    s.Type(" London\t");
    TrimPaddedLondon();
    s.Search();
    boxAfterSearch := s.searchCity;
    began := s.RunCityEffect();
    loadingAfter := s.loading;
    shown := s.currentWeather.value;
  }

  /** A blank search ("   ") changes nothing: the box keeps its spaces and no fetch starts. */
  method BlankSearch(draws: seq<Draw>)
    returns (cityAfter: string, boxAfter: string, began: bool, loadingAfter: bool)
    requires |draws| == DrawCount
    ensures cityAfter == "London" && boxAfter == "   " && !began && !loadingAfter
  {
    var s := new WeatherSession();
    var _ := s.RunCityEffect();
    s.CompleteFetch(0, draws);
    s.Type("   ");
    TrimBlank();
    s.Search();
    cityAfter, boxAfter := s.city, s.searchCity;
    began := s.RunCityEffect();
    loadingAfter := s.loading;
  }

  /** Selecting 'trends' while the mount fetch is outstanding switches the tab at once and
      leaves `loading` set until the fetch completes; the tab survives the completion. */
  method TabWhileLoading(draws: seq<Draw>)
    returns (tabWhileLoading: Tab, loadingWhileFetching: bool, tabAfter: Tab, loadingAfter: bool)
    requires |draws| == DrawCount
    ensures tabWhileLoading == Trends && loadingWhileFetching
    ensures tabAfter == Trends && !loadingAfter
  {
    var s := new WeatherSession();
    var _ := s.RunCityEffect();
    s.SelectTab(Trends);
    tabWhileLoading, loadingWhileFetching := s.activeTab, s.loading;
    s.CompleteFetch(0, draws);
    tabAfter, loadingAfter := s.activeTab, s.loading;
  }

  /** Two overlapping fetches, which arise only if a search is submitted while the mount
      fetch is still outstanding. Both wait on equal 1-second timers, so they complete in
      the order they began: London first, then Paris. London's completion clears `loading`
      although the Paris fetch is still outstanding, and London's weather is committed
      although `city` is already "Paris": completion is never checked against `city`.
      Paris's completion then shows Paris. */
  method OverlappingFetches(london: seq<Draw>, paris: seq<Draw>)
    returns (loadingBetween: bool, outstandingBetween: nat, requested: string, shownBetween: CurrentWeather,
             shown: CurrentWeather, loadingAfter: bool)
    requires |london| == DrawCount && |paris| == DrawCount
    ensures !loadingBetween && outstandingBetween == 1
    ensures requested == "Paris" && shownBetween.city == "London"
    ensures shown.city == "Paris" && !loadingAfter
  {
    var s := new WeatherSession();
    var _ := s.RunCityEffect();
    s.Type("Paris");
    TrimOfTrimmed("Paris");
    s.Search();
    var _ := s.RunCityEffect();
    assert s.pending == ["London", "Paris"];
    s.CompleteFetch(0, london);
    loadingBetween, outstandingBetween := s.loading, |s.pending|;
    requested, shownBetween := s.city, s.currentWeather.value;
    s.CompleteFetch(0, paris);
    shown, loadingAfter := s.currentWeather.value, s.loading;
  }
}
