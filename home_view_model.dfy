/**
 * The observable state of WeatherTracker/HomeViewModel.swift and the methods
 * that change it.
 *
 * The view model reaches the keychain and the location cache through its data
 * service; their contents are the fields `keychain` (the stored API key, if
 * any) and `cache` (the stored location bytes, if any). JSON encoding and
 * decoding of a `Location` and the network's answers are arguments.
 */
module ViewModel {
  import opened Wrappers
  import opened Model
  import opened Sequences
  import opened StringExtensions
  import opened DataService

  /**
   * Combine's `removeDuplicates` on the debounced stream of filtered queries:
   * a value equal to the one just before it is dropped.
   */
  function RemoveDuplicates<T(==)>(s: seq<T>): (r: seq<T>)
    ensures |r| <= |s|
    ensures s != [] ==> r != [] && r[0] == s[0]
    ensures forall i :: 0 <= i < |r| - 1 ==> r[i] != r[i + 1]
  {
    if |s| <= 1 then s
    else if s[0] == s[1] then RemoveDuplicates(s[1..])
    else [s[0]] + RemoveDuplicates(s[1..])
  }

  /**
   * Exactly the values that differ from the next one pass (the last always
   * does), in order: `idx` lists the surviving positions, increasing. So no
   * value of the input stream is lost, and a change of value always passes.
   */
  lemma {:induction false} RemoveDuplicatesPositions<T>(s: seq<T>) returns (idx: seq<nat>)
    ensures Embeds(idx, RemoveDuplicates(s), s)
    ensures forall k :: 0 <= k < |s| ==> (k in idx <==> k == |s| - 1 || s[k] != s[k + 1])
    ensures forall x :: x in RemoveDuplicates(s) <==> x in s
  {
    if |s| <= 1 {
      idx := seq(|s|, i requires 0 <= i < |s| => i);
      assert forall k :: 0 <= k < |s| ==> idx[k] == k;
    } else {
      var t := s[1..];
      var rest := RemoveDuplicatesPositions(t);
      var shifted := seq(|rest|, i requires 0 <= i < |rest| => rest[i] + 1);
      assert s == [s[0]] + t;
      if s[0] == s[1] {
        EmbedsShift(rest, RemoveDuplicates(t), t, s[0]);
        idx := shifted;
      } else {
        EmbedsCons(rest, RemoveDuplicates(t), t, s[0]);
        idx := [0] + shifted;
      }
      forall k | 0 <= k < |s|
        ensures k in idx <==> k == |s| - 1 || s[k] != s[k + 1]
      {
        if k == 0 {
          assert 0 !in shifted;
        } else {
          ShiftedMembership(rest, k);
          assert k in idx <==> k - 1 in rest;
          assert k - 1 in rest <==> k - 1 == |t| - 1 || t[k - 1] != t[k];
        }
      }
    }
  }

  /** A position is in a sequence shifted up by one exactly when its predecessor is in the original. */
  lemma ShiftedMembership(rest: seq<nat>, k: nat)
    requires k >= 1
    ensures k in seq(|rest|, i requires 0 <= i < |rest| => rest[i] + 1) <==> k - 1 in rest
  {
    var shifted := seq(|rest|, i requires 0 <= i < |rest| => rest[i] + 1);
    if k - 1 in rest {
      var i :| 0 <= i < |rest| && rest[i] == k - 1;
      assert shifted[i] == k;
    }
  }

  /** A stream without repeated neighbours passes unchanged; so the filter is idempotent. */
  lemma {:induction false} RemoveDuplicatesFixed<T>(s: seq<T>)
    requires forall i :: 0 <= i < |s| - 1 ==> s[i] != s[i + 1]
    ensures RemoveDuplicates(s) == s
  {
    if |s| > 1 {
      RemoveDuplicatesFixed(s[1..]);
      assert s == [s[0]] + s[1..];
    }
  }

  /** Removing duplicates twice is removing them once. */
  lemma RemoveDuplicatesIdempotent<T>(s: seq<T>)
    ensures RemoveDuplicates(RemoveDuplicates(s)) == RemoveDuplicates(s)
  {
    RemoveDuplicatesFixed(RemoveDuplicates(s));
  }

  /** What the search future resolves to: the fetched list, or the empty list when the fetch throws. */
  function SearchResultsOrEmpty(fetched: Result<seq<Location>, FetchError>): (locations: seq<Location>)
    ensures fetched.Failure? ==> locations == []
    ensures fetched.Success? ==> locations == fetched.value
  {
    match fetched
    case Success(list) => list
    case Failure(_) => []
  }

  /**
   * A search shows no locations exactly when the query is empty, no key is
   * stored, the request fails, or the API answers with an empty list.
   */
  lemma SearchEmptyIff(term: string, apiKey: Option<string>, transport: SearchTransport)
    ensures SearchResultsOrEmpty(FetchSearchResults(term, apiKey, transport)) == []
        <==> term == [] || apiKey.None?
             || transport(SearchUrl(apiKey.value, term)).Failure?
             || transport(SearchUrl(apiKey.value, term)) == Success([])
  {
  }

  /** A query without letters (digits, punctuation, spaces) is searched as "" and finds nothing. */
  lemma NonLetterQueryFindsNothing(query: Text, letters: LetterSet, apiKey: Option<string>, transport: SearchTransport)
    requires NoLetters(query, letters)
    ensures SearchResultsOrEmpty(FetchSearchResults(Scalars(AlphaOnly(query, letters)), apiKey, transport)) == []
  {
    AlphaOnlyEmptyIff(query, letters);
  }

  class HomeViewModel {
    /** Membership in `CharacterSet.letters`, used by the query filter. */
    const letters: LetterSet

    var isLoading: bool
    var apiKeyMissing: bool
    var searchIsActive: bool
    var searchQuery: Text
    /** The current value of `searchSubject`. */
    var searchSubject: Text
    var searchResults: seq<Location>
    var selectedLocation: Option<Location>
    var currentWeather: Option<Weather>

    /** The API key in the keychain, if one is stored. */
    var keychain: Option<string>
    /** The serialized last selection in the cache, if one is stored. */
    var cache: Option<seq<byte>>

    /** The search subject always holds the letters of the displayed query. */
    ghost predicate Valid()
      reads this
    {
      searchSubject == AlphaOnly(searchQuery, letters)
    }

    /**
     * `init`: every field at its declared initial value, except that the
     * API-key flag records whether the keychain holds a key.
     */
    constructor (letters: LetterSet, keychain: Option<string>, cache: Option<seq<byte>>)
      ensures Valid()
      ensures this.letters == letters && this.keychain == keychain && this.cache == cache
      ensures isLoading && apiKeyMissing == keychain.None?
      ensures !searchIsActive && searchQuery == [] && searchSubject == [] && searchResults == []
      ensures selectedLocation == None && currentWeather == None
    {
      this.letters := letters;
      this.keychain := keychain;
      this.cache := cache;
      isLoading := true;
      searchIsActive := false;
      searchQuery := [];
      searchSubject := [];
      searchResults := [];
      selectedLocation := None;
      currentWeather := None;
      apiKeyMissing := keychain.None?;
    }

    /** Assigning `searchQuery`: its `didSet` sends the letters of the new query to the subject. */
    method SetSearchQuery(query: Text)
      requires Valid()
      modifies this`searchQuery, this`searchSubject
      ensures Valid()
      ensures searchQuery == query && searchSubject == AlphaOnly(query, letters)
    {
      searchQuery := query;
      searchSubject := AlphaOnly(searchQuery, letters);
    }

    /**
     * `checkCacheAndLoadWeather`: restores the cached selection and loads its
     * weather. Whatever fails, loading ends. The selection changes only when
     * the cached bytes decode, and the weather only when, in addition, the
     * fetch succeeds.
     */
    method CheckCacheAndLoadWeather(decode: seq<byte> -> Option<Location>, transport: WeatherTransport)
      requires Valid()
      modifies this`isLoading, this`selectedLocation, this`currentWeather
      ensures Valid()
      ensures !isLoading
      ensures var restored := if cache.Some? then decode(cache.value) else None;
        && selectedLocation == (if restored.Some? then restored else old(selectedLocation))
        && currentWeather == (if restored.Some? && FetchWeather(restored.value.name, keychain, transport).Success?
                              then Some(FetchWeather(restored.value.name, keychain, transport).value)
                              else old(currentWeather))
    {
      isLoading := true;
      if cache.None? {
        // retrieveData throws
        isLoading := false;
        return;
      }
      var decoded := decode(cache.value);
      if decoded.None? {
        // the decoder throws
        isLoading := false;
        return;
      }
      selectedLocation := decoded;
      // the selection was just set, so its name is always available here
      var fetched := FetchWeather(decoded.value.name, keychain, transport);
      if fetched.Failure? {
        isLoading := false;
        return;
      }
      currentWeather := Some(fetched.value);
      isLoading := false;
    }

    /**
     * `search(for:)`: the future of one lookup. It raises the loading flag,
     * fetches, and resolves to the fetched list, or to the empty list when the
     * fetch throws; either way the flag is lowered.
     */
    method Search(term: Text, transport: SearchTransport) returns (results: seq<Location>)
      requires Valid()
      modifies this`isLoading
      ensures Valid()
      ensures !isLoading
      ensures results == SearchResultsOrEmpty(FetchSearchResults(Scalars(term), keychain, transport))
    {
      isLoading := true;
      var fetched := FetchSearchResults(Scalars(term), keychain, transport);
      results := SearchResultsOrEmpty(fetched);
      isLoading := false;
    }

    /** The subscription's sink: the latest search's results become the shown results. */
    method DeliverSearchResults(results: seq<Location>)
      requires Valid()
      modifies this`searchResults
      ensures Valid()
      ensures searchResults == results
    {
      searchResults := results;
    }

    /**
     * `handleSelection`: selects the location and leaves search mode. If the
     * location encodes, it is cached, loading is raised and a weather fetch for
     * its name is launched (`weatherTask`); if encoding fails, loading is
     * lowered and nothing is fetched.
     */
    method HandleSelection(location: Location, encode: Location -> Option<seq<byte>>)
      returns (weatherTask: Option<string>)
      requires Valid()
      modifies this`selectedLocation, this`searchIsActive, this`searchQuery, this`searchSubject
      modifies this`searchResults, this`isLoading, this`cache
      ensures Valid()
      ensures selectedLocation == Some(location)
      ensures !searchIsActive && searchQuery == [] && searchSubject == [] && searchResults == []
      ensures encode(location).Some? ==> isLoading && cache == encode(location) && weatherTask == Some(location.name)
      ensures encode(location).None? ==> !isLoading && cache == old(cache) && weatherTask == None
    {
      selectedLocation := Some(location);
      searchIsActive := false;
      SetSearchQuery([]);
      searchResults := [];
      isLoading := true;
      var data := encode(location);
      if data.None? {
        // the encoder throws: the error is logged
        isLoading := false;
        weatherTask := None;
        return;
      }
      cache := data;
      weatherTask := Some(location.name);
    }

    /**
     * The task `handleSelection` launches, when it completes: on success the
     * weather is shown and loading ends; a thrown error is dropped, so the
     * weather AND the loading flag stay as they were. The result is assigned
     * whatever the current selection is by then.
     */
    method RunWeatherTask(city: string, transport: WeatherTransport)
      requires Valid()
      modifies this`currentWeather, this`isLoading
      ensures Valid()
      ensures var fetched := FetchWeather(city, keychain, transport);
        && (fetched.Success? ==> currentWeather == Some(fetched.value) && !isLoading)
        && (fetched.Failure? ==> currentWeather == old(currentWeather) && isLoading == old(isLoading))
    {
      var fetched := FetchWeather(city, keychain, transport);
      if fetched.Success? {
        currentWeather := Some(fetched.value);
        isLoading := false;
      }
    }

    /**
     * `storeAPIKey`: the keychain helper deletes any stored key, ignoring
     * whether that worked (`deleted`), then adds the new one (`added`). The
     * flag is raised exactly when the add fails; a failed add leaves no key if
     * the delete worked and the old key otherwise.
     */
    method StoreAPIKey(apiKey: string, deleted: bool, added: bool)
      requires Valid()
      modifies this`keychain, this`apiKeyMissing
      ensures Valid()
      ensures apiKeyMissing == !added
      ensures keychain == if added then Some(apiKey) else if deleted then None else old(keychain)
    {
      if deleted {
        keychain := None;
      }
      if added {
        keychain := Some(apiKey);
      }
      apiKeyMissing := !added;
    }

    /**
     * `deleteStoredAPIKey`: asks the keychain to delete the key and ignores
     * whether that worked (`deleted`); no flag changes.
     */
    method DeleteStoredAPIKey(deleted: bool)
      requires Valid()
      modifies this`keychain
      ensures Valid()
      ensures keychain == if deleted then None else old(keychain)
    {
      if deleted {
        keychain := None;
      }
    }
  }

  /** Selecting a result updates the selection and leaves search mode (the `handleSelection` test). */
  method SelectionUpdatesStateScenario(letters: LetterSet, encode: Location -> Option<seq<byte>>)
    returns (viewModel: HomeViewModel)
    ensures viewModel.selectedLocation.Some?
    ensures !viewModel.searchIsActive && viewModel.searchQuery == [] && viewModel.searchResults == []
  {
    viewModel := new HomeViewModel(letters, None, None);
    var tokyo := Location(Some(1), "Tokyo", "Kantō", "Japan");
    var task := viewModel.HandleSelection(tokyo, encode);
  }

  /** Deleting the key and then storing a new one clears the flag (the `storeAPIKey` test). */
  method StoreAfterDeleteScenario(letters: LetterSet) returns (viewModel: HomeViewModel)
    ensures !viewModel.apiKeyMissing && viewModel.keychain == Some("ABC123")
  {
    viewModel := new HomeViewModel(letters, None, None);
    viewModel.DeleteStoredAPIKey(false);
    viewModel.StoreAPIKey("ABC123", false, true);
  }

  /** A search for "" through a throwing data service resolves to no locations and ends loading. */
  method FailedSearchScenario(letters: LetterSet, transport: SearchTransport)
    returns (results: seq<Location>, loading: bool)
    requires forall url :: transport(url).Failure?
    ensures results == [] && !loading
  {
    var viewModel := new HomeViewModel(letters, None, None);
    results := viewModel.Search([], transport);
    loading := viewModel.isLoading;
  }
}
