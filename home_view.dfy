/**
 * The decisions of WeatherTracker/HomeView.swift: which of its five screens
 * `body` shows for the view model's state, and the label of a search-result
 * row. Layout and styling are not modelled.
 */
module HomeView {
  import opened Wrappers
  import opened Model
  import opened StringExtensions
  import opened DataService
  import opened ViewModel

  /** The five screens `body` can show. */
  datatype Screen =
    | ProgressScreen
    | LocationScreen(name: string, weather: Weather)
    | NoLocationEmptyScreen
    | NoResultsEmptyScreen
    | SearchResultsScreen

  /**
   * The if/else-if chain of `body`. Each screen is characterised by its full
   * condition over the view-model fields, not only by the branches before it.
   */
  function ChooseScreen(isLoading: bool, selectedLocation: Option<Location>, currentWeather: Option<Weather>,
                        searchIsActive: bool, searchQuery: Text, searchResults: seq<Location>): (s: Screen)
    ensures isLoading ==> s == ProgressScreen
    ensures s.LocationScreen?
        <==> !isLoading && selectedLocation.Some? && currentWeather.Some? && !searchIsActive && searchQuery == []
    ensures s.LocationScreen? ==> s.name == selectedLocation.value.name && s.weather == currentWeather.value
    ensures s == NoLocationEmptyScreen
        <==> !isLoading && searchQuery == [] && !searchIsActive && (selectedLocation.None? || currentWeather.None?)
    ensures s == NoResultsEmptyScreen
        <==> !isLoading && (searchQuery != [] || searchIsActive) && searchResults == [] && |searchQuery| >= 3
    ensures s == SearchResultsScreen
        <==> !isLoading && (searchQuery != [] || searchIsActive) && (searchResults != [] || |searchQuery| < 3)
  {
    if isLoading then ProgressScreen
    else if selectedLocation.Some? && currentWeather.Some? && !searchIsActive && searchQuery == [] then
      LocationScreen(selectedLocation.value.name, currentWeather.value)
    else if searchQuery == [] && !searchIsActive then NoLocationEmptyScreen
    else if searchResults == [] && |searchQuery| >= 3 then NoResultsEmptyScreen
    else SearchResultsScreen
  }

  /** `body` applied to a view model: the spinner shows exactly while it is loading. */
  function Body(viewModel: HomeViewModel): (s: Screen)
    reads viewModel
    ensures s == ProgressScreen <==> viewModel.isLoading
    ensures s.LocationScreen? ==> viewModel.selectedLocation.Some?
                                  && s.name == viewModel.selectedLocation.value.name
                                  && viewModel.currentWeather == Some(s.weather)
  {
    ChooseScreen(viewModel.isLoading, viewModel.selectedLocation, viewModel.currentWeather,
                 viewModel.searchIsActive, viewModel.searchQuery, viewModel.searchResults)
  }

  /** The label of a search-result row: "name (region, country)". */
  function RowLabel(location: Location): (text: string)
    ensures |text| == |location.name| + |location.region| + |location.country| + 5
    ensures text[..|location.name|] == location.name
    ensures text[|location.name|..|location.name| + 2] == " ("
    ensures var regionEnd := |location.name| + 2 + |location.region|;
      && text[|location.name| + 2..regionEnd] == location.region
      && text[regionEnd..regionEnd + 2] == ", "
      && text[regionEnd + 2..|text| - 1] == location.country
    ensures text[|text| - 1] == ')'
  {
    location.name + " (" + location.region + ", " + location.country + ")"
  }

  /** The text of `s` before its first occurrence of `c` (all of `s` if there is none). */
  function PrefixBefore(s: string, c: char): (p: string)
    ensures |p| <= |s| && p == s[..|p|] && c !in p
  {
    if s == [] || s[0] == c then [] else [s[0]] + PrefixBefore(s[1..], c)
  }

  /** A prefix free of `c` passes through `PrefixBefore` untouched. */
  lemma {:induction false} PrefixBeforeAppend(a: string, b: string, c: char)
    requires c !in a
    ensures PrefixBefore(a + b, c) == a + PrefixBefore(b, c)
  {
    if a == [] {
      assert a + b == b;
    } else {
      assert (a + b)[0] == a[0] && (a + b)[1..] == a[1..] + b;
      PrefixBeforeAppend(a[1..], b, c);
    }
  }

  /** When the name has no '(', the row label gives the name back: it is what precedes " (". */
  lemma RowLabelName(location: Location)
    requires '(' !in location.name
    ensures PrefixBefore(RowLabel(location), '(') == location.name + " "
  {
    var rest := "(" + location.region + ", " + location.country + ")";
    assert RowLabel(location) == (location.name + " ") + rest;
    assert '(' !in location.name + " ";
    PrefixBeforeAppend(location.name + " ", rest, '(');
  }

  /**
   * Tapping a search result (the row's button) and rendering again: while the
   * launched weather fetch is pending the spinner shows; if the location could
   * not be encoded, the new location's name is shown with whatever weather
   * was shown before, or the "no city selected" screen when there was none.
   */
  method TapSearchResult(viewModel: HomeViewModel, result: Location, encode: Location -> Option<seq<byte>>)
    returns (screen: Screen, weatherTask: Option<string>)
    requires viewModel.Valid()
    modifies viewModel
    ensures viewModel.Valid()
    ensures screen == Body(viewModel)
    ensures encode(result).Some? ==> screen == ProgressScreen
    ensures encode(result).None? && old(viewModel.currentWeather).Some?
        ==> screen == LocationScreen(result.name, old(viewModel.currentWeather).value)
    ensures encode(result).None? && old(viewModel.currentWeather).None? ==> screen == NoLocationEmptyScreen
  {
    weatherTask := viewModel.HandleSelection(result, encode);
    screen := Body(viewModel);
  }

  /**
   * A selection whose weather fetch throws, rendered when that task ends: the
   * weather task never lowers the loading flag, so until the pipeline's
   * follow-up search runs the spinner shows.
   */
  method SelectionWithFailedFetch(viewModel: HomeViewModel, result: Location,
                                  encode: Location -> Option<seq<byte>>, transport: WeatherTransport)
    returns (screen: Screen)
    requires viewModel.Valid()
    requires encode(result).Some? && FetchWeather(result.name, viewModel.keychain, transport).Failure?
    modifies viewModel
    ensures viewModel.Valid()
    ensures screen == Body(viewModel) == ProgressScreen
  {
    var weatherTask := viewModel.HandleSelection(result, encode);
    viewModel.RunWeatherTask(weatherTask.value, transport);
    screen := Body(viewModel);
  }

  /**
   * The same selection followed by the rest of the pipeline. `handleSelection`
   * clears the query, so the subject's value becomes "". `removeDuplicates`
   * lets it through exactly when the last value it passed (`previous`) was not
   * "", and then `search(for: "")` throws `emptySearchString`, resolves to no
   * locations and lowers the loading flag. Whichever of the weather task and
   * that search ends first (`searchFirst`), the spinner is then gone: the new
   * name is shown with the previous weather, or "no city selected" when there
   * was none. When `previous` was already "", no search runs and the spinner
   * stays.
   */
  method SelectionWithFailedFetchThenSearch(viewModel: HomeViewModel, result: Location,
                                            encode: Location -> Option<seq<byte>>,
                                            weatherTransport: WeatherTransport, searchTransport: SearchTransport,
                                            previous: Text, searchFirst: bool)
    returns (screen: Screen)
    requires viewModel.Valid()
    requires encode(result).Some? && FetchWeather(result.name, viewModel.keychain, weatherTransport).Failure?
    modifies viewModel
    ensures viewModel.Valid()
    ensures screen == Body(viewModel)
    ensures previous != [] && old(viewModel.currentWeather).Some?
        ==> screen == LocationScreen(result.name, old(viewModel.currentWeather).value)
    ensures previous != [] && old(viewModel.currentWeather).None? ==> screen == NoLocationEmptyScreen
    ensures previous == [] ==> screen == ProgressScreen
  {
    var weatherTask := viewModel.HandleSelection(result, encode);
    var passed := RemoveDuplicates([previous, viewModel.searchSubject]);
    var searches := |passed| == 2;
    if searchFirst && searches {
      var results := viewModel.Search(viewModel.searchSubject, searchTransport);
      viewModel.DeliverSearchResults(results);
    }
    viewModel.RunWeatherTask(weatherTask.value, weatherTransport);
    if !searchFirst && searches {
      var results := viewModel.Search(viewModel.searchSubject, searchTransport);
      viewModel.DeliverSearchResults(results);
    }
    screen := Body(viewModel);
  }
}
