# WeatherTracker core, modelled in Dafny

WeatherTracker is a small SwiftUI app. A user searches for a city, picks a result, and sees the
current weather for it. The last selected city is cached, and the weather API key lives in the
keychain. This project models the app's decision-making core and proves properties of it:

- `string_extensions.dfy` (module `StringExtensions`): the letter filter `removeNonLetters` /
  `alphaOnly`. A Swift `Character` is modelled as its non-empty sequence of Unicode scalars. A
  character is kept exactly when its first scalar is in `CharacterSet.letters`. That set is the
  parameter `letters`, because its Unicode tables are not part of this model. `AsciiLetters`
  states its ASCII part.
- `data_service.dfy` (module `DataService`): the data service. It covers the guard order of
  `fetchSearchResults` and `fetchWeather`, the URL builders and their constants, the
  `transformedWeather` normalisation, and Swift's `Float.rounded()`. The keychain lookup is an
  `Option<string>` argument. The network service is a `transport` argument that answers a URL
  with a value or an error.
- `home_view_model.dfy` (module `ViewModel`): the class `HomeViewModel`. Its fields are the
  observable state. Two further fields hold the keychain's key and the cache's bytes. Its methods
  change that state as the Swift methods do. The module also holds the empty-on-failure rule of a
  search and Combine's `removeDuplicates` as a pure sequence function.
- `home_view.dfy` (module `HomeView`): the screen chosen by `HomeView.body`, the label of a
  search-result row, and two tap-then-render scenarios.
- `model.dfy`, `wrappers.dfy`, `sequences.dfy`: the value types (`Location`, `Weather`,
  `Condition`, `WeatherResponse`), `Option`/`Result`, and "is an order-preserving subsequence".

Swift `Float` values are modelled as the real numbers they denote. `rounded()` uses Swift's
default rule, to nearest with ties away from zero. On reals it gives the same integer as on every
finite `Float`.

The model follows the code in three places where its behaviour may be unexpected:
- If encoding the selected location fails, `handleSelection` fetches no weather at all. It only
  lowers the loading flag.
- If the weather fetch launched by `handleSelection` throws, the error is dropped. The weather
  task never lowers the loading flag; only the pipeline's follow-up empty search does.
  `handleSelection` clears the query, so "" reaches `search(for:)` whenever the last searched
  term was not "". That search throws `emptySearchString` and lowers the flag
  (`HomeView.SelectionWithFailedFetchThenSearch`).
- Weather results are not checked against the current selection. `RunWeatherTask` assigns
  whatever arrives.

## Model

| member | source | states |
|---|---|---|
| StringExtensions.AlphaOnly | WeatherTracker/Extensions/String+Extensions.swift:12-15 | every character left is a letter (by its first scalar), and the result is never longer than the input |
| StringExtensions.AlphaOnlyPositions | WeatherTracker/Extensions/String+Extensions.swift:11-16 | the surviving positions, in increasing order, are exactly the positions holding a letter |
| StringExtensions.AlphaOnlyIsSubsequence | WeatherTracker/Extensions/String+Extensions.swift:11-16 | the result is an order-preserving subsequence of the input: `removeAll` only deletes |
| StringExtensions.AlphaOnlyCounts | WeatherTracker/Extensions/String+Extensions.swift:12-15 | each letter is kept as often as it occurs, and no non-letter is kept; characters are counted as segmented in the input |
| StringExtensions.AlphaOnlyFixedIff | WeatherTracker/Extensions/String+Extensions.swift:12-15 | a string comes back unchanged if and only if it consists of letters only |
| StringExtensions.AlphaOnlyEmptyIff | WeatherTracker/Extensions/String+Extensions.swift:12-15 | the result is empty if and only if the input has no letter (empty, digits, punctuation, spaces) |
| StringExtensions.AlphaOnlyIdempotent | WeatherTracker/Extensions/String+Extensions.swift:17-21 | applying `alphaOnly` twice gives the same as applying it once |
| StringExtensions.AlphaOnlyAppend | WeatherTracker/Extensions/String+Extensions.swift:11-16 | filtering a concatenation is concatenating the filtered parts |
| StringExtensions.AlphaOnlyExample | WeatherTracker/Extensions/String+Extensions.swift:12-15 | with the ASCII letters, "Rome 2!" filters to "Rome" |
| StringExtensions.TextBuffer.RemoveNonLetters | WeatherTracker/Extensions/String+Extensions.swift:11-16 | the mutated string is exactly `alphaOnly` of its old value |
| StringExtensions.TextBuffer.GetAlphaOnly | WeatherTracker/Extensions/String+Extensions.swift:17-21 | returns the filtered copy, which is all letters and a subsequence of the receiver; the receiver is not modified |
| DataService.SearchUrl | WeatherTracker/Services/DataService.swift:74-77 | the search URL is base + "search.json?key=" + key + "&q=", followed by the input verbatim |
| DataService.WeatherUrl | WeatherTracker/Services/DataService.swift:85-89 | the weather URL is base + "current.json?key=" + key + "&q=", then the city verbatim, then "&aqi=no" at the end |
| DataService.SearchUrlString | WeatherTracker/Services/DataService.swift:69-78 | fails with `unableToRetrieveAPIKey` if and only if no key is stored, and otherwise yields the search URL |
| DataService.WeatherUrlString | WeatherTracker/Services/DataService.swift:80-90 | fails with `unableToRetrieveAPIKey` if and only if no key is stored, and otherwise yields the weather URL |
| DataService.SearchUrlInjective | WeatherTracker/Services/DataService.swift:74-77 | with one key, different inputs give different search requests |
| DataService.WeatherUrlInjective | WeatherTracker/Services/DataService.swift:85-89 | with one key, different cities give different weather requests |
| DataService.Rounded | WeatherTracker/Services/DataService.swift:54-56 | the result is an integer within 1/2 of the input, and a tie goes away from zero |
| DataService.RoundedUnique | WeatherTracker/Services/DataService.swift:54-56 | that rounding rule admits exactly one value, `Rounded(x)` |
| DataService.RoundedIdempotent | WeatherTracker/Services/DataService.swift:54-56 | rounding an already rounded value changes nothing |
| DataService.RoundedExamples | WeatherTrackerTests/DataServiceTests.swift:64-66 | 25.7 rounds to 26, 3.8 to 4 and 24.1 to 24 |
| DataService.TransformedWeather | WeatherTracker/Services/DataService.swift:53-67 | temperature, feels-like and UV are rounded, humidity is copied, and the icon URL is "https:" followed by the original icon |
| DataService.TransformedWeatherExample | WeatherTrackerTests/DataServiceTests.swift:56-67 | the test record becomes 26 / 4 / 24 with icon "https://abc.com/123.png" and humidity 75 |
| DataService.FetchSearchResults | WeatherTracker/Services/DataService.swift:33-41 | "" throws `emptySearchString` whatever the keychain holds; otherwise a missing key throws `unableToRetrieveAPIKey`; otherwise it succeeds if and only if the request succeeds, returns the fetched list verbatim, and rethrows the network error unchanged |
| DataService.FetchWeather | WeatherTracker/Services/DataService.swift:43-51 | "" throws `invalidCityName` whatever the keychain holds; otherwise a missing key throws `unableToRetrieveAPIKey`; otherwise it returns `transformedWeather` of the response's current weather, dropping the response's location, and rethrows a network error unchanged |
| DataService.GuardsPrecedeTransport | WeatherTracker/Services/DataService.swift:33-51 | when a guard throws, no network answer is consulted: every transport gives the same result |
| DataService.FetchSearchResultsTokyo | WeatherTrackerTests/DataServiceTests.swift:30-41 | with a key stored and a network answering [Tokyo], the search returns one location named "Tokyo" |
| ViewModel.RemoveDuplicates | WeatherTracker/HomeViewModel.swift:61 | no two neighbouring values are equal, the first value passes, and the stream never grows |
| ViewModel.RemoveDuplicatesPositions | WeatherTracker/HomeViewModel.swift:61 | a position survives if and only if it is the last one or its value differs from the next; the survivors keep their order, and the set of values is unchanged |
| ViewModel.RemoveDuplicatesFixed | WeatherTracker/HomeViewModel.swift:61 | a stream without equal neighbours passes through unchanged |
| ViewModel.RemoveDuplicatesIdempotent | WeatherTracker/HomeViewModel.swift:61 | removing duplicates twice is the same as removing them once |
| ViewModel.SearchResultsOrEmpty | WeatherTracker/HomeViewModel.swift:77-90 | a thrown fetch resolves to the empty list, and a successful one to the fetched list |
| ViewModel.SearchEmptyIff | WeatherTracker/HomeViewModel.swift:73-92 | a search shows nothing if and only if the query is empty, no key is stored, the request fails, or the API answers with an empty list |
| ViewModel.NonLetterQueryFindsNothing | WeatherTracker/HomeViewModel.swift:28-31 | a query with no letters is searched as "" and finds no location |
| ViewModel.HomeViewModel.constructor | WeatherTracker/HomeViewModel.swift:24-41 | starts loading; `apiKeyMissing` is true if and only if the keychain holds no key; empty query, subject and results; nothing selected |
| ViewModel.HomeViewModel.SetSearchQuery | WeatherTracker/HomeViewModel.swift:28-31 | the displayed query is kept unfiltered, and the subject receives `alphaOnly` of it |
| ViewModel.HomeViewModel.CheckCacheAndLoadWeather | WeatherTracker/HomeViewModel.swift:43-56 | always ends not loading; the selection changes only if the cached bytes decode; the weather changes only if they decode and the fetch succeeds |
| ViewModel.HomeViewModel.Search | WeatherTracker/HomeViewModel.swift:73-93 | resolves to the fetched list or, on any error, to the empty list, and ends not loading |
| ViewModel.HomeViewModel.DeliverSearchResults | WeatherTracker/HomeViewModel.swift:66-69 | the delivered list becomes the shown results |
| ViewModel.HomeViewModel.HandleSelection | WeatherTracker/HomeViewModel.swift:95-114 | selects the location and clears search mode, query, subject and results; if encoding succeeds it raises loading, caches the bytes and launches a fetch for the name; otherwise it lowers loading and launches nothing |
| ViewModel.HomeViewModel.RunWeatherTask | WeatherTracker/HomeViewModel.swift:106-109 | on success the weather is set and loading ends; on failure the weather and the loading flag are left as they were |
| ViewModel.HomeViewModel.StoreAPIKey | WeatherTracker/HomeViewModel.swift:116-118 | `apiKeyMissing` is the negation of the add's success; the keychain then holds the new key, or none if only the delete worked, or the old key if both failed |
| ViewModel.HomeViewModel.DeleteStoredAPIKey | WeatherTracker/HomeViewModel.swift:120-122 | the key is removed if the keychain's delete works and kept otherwise, since its result is ignored; no other field changes, including `apiKeyMissing` |
| HomeView.ChooseScreen | WeatherTracker/HomeView.swift:21-38 | loading always shows the spinner; each of the other four screens is shown if and only if its full condition holds, so exactly one screen is chosen; "no results" needs an empty list and a query of at least 3 characters |
| HomeView.RowLabel | WeatherTracker/HomeView.swift:128 | the label is the name, then " (", region, ", ", country, then ")" |
| HomeView.RowLabelName | WeatherTracker/HomeView.swift:128 | if the name has no "(", the text before the first "(" of the label is the name followed by a space |
| HomeView.TapSearchResult | WeatherTracker/HomeView.swift:125-127 | after a tap the spinner shows while the fetch is pending; if encoding fails, the new name is shown with the previous weather, or "no city selected" if there was none |
| HomeView.SelectionWithFailedFetch | WeatherTracker/HomeViewModel.swift:106-109 | the weather task never lowers the loading flag: when a selection's fetch throws, the spinner is still up as that task ends |
| HomeView.SelectionWithFailedFetchThenSearch | WeatherTracker/HomeViewModel.swift:59-114 | only the pipeline's follow-up empty search lowers the flag: after it, in either order with the failed task, the new name is shown with the old weather, or "no city selected"; if the last searched term was already "", no search runs and the spinner stays |
| HomeView.Body | WeatherTracker/HomeView.swift:18-40 | `body` for a view model shows the spinner if and only if it is loading; a location screen shows the selected name and the current weather |
| ViewModel.SelectionUpdatesStateScenario | WeatherTrackerTests/HomeViewModelTests.swift:62-68 | after selecting Tokyo a location is selected, search mode is off, and the query and results are empty |
| ViewModel.StoreAfterDeleteScenario | WeatherTrackerTests/HomeViewModelTests.swift:70-74 | deleting the key and storing "ABC123" leaves `apiKeyMissing` false and the key stored |
| ViewModel.FailedSearchScenario | WeatherTrackerTests/HomeViewModelTests.swift:48-54 | a search for "" with a throwing data service resolves to no locations and ends loading |

## Left out

- The Combine pipeline's timing is not modelled: `debounce(0.3)`, `switchToLatest`, and the scheduling of `Future` and `Task`. The pieces it connects are modelled: the filtered subject value, `removeDuplicates`, `search(for:)` and the sink. The order in which they run is left to the caller.
- HomeView.SelectionWithFailedFetch: it renders as the failed weather task ends and assumes the pipeline's follow-up search has not run yet. `SelectionWithFailedFetchThenSearch` covers both orders of the two, with no debounce interval and no other query typed in between.
- Grapheme clusters are not re-segmented after deletion. In Swift, removing the characters between two scalars can merge them into one `Character` (U+1100, a space and U+1161 filter to a single character), while the model keeps two. The scalars, and so the URLs, agree.
- String equality is sequence equality. Swift's `String ==` is canonical equivalence, which `removeDuplicates` uses on the filtered queries.
- ViewModel.HomeViewModel.Search: the `guard let` fallback runs only when the view model has already been deallocated (`self` is a weak reference). It is not modelled.
- ViewModel.HomeViewModel.CheckCacheAndLoadWeather: it runs as one atomic step. Another method cannot run during its `await`.
- `CharacterSet.letters` is the parameter `letters`. Only its ASCII part is stated (`AsciiLetters`), because the Unicode letter tables are not part of this model.
- Swift `Float` arithmetic is not modelled. Values are reals; NaN and infinities are left out. The `Int(float)` truncation in `intStringFrom` is display only.
- KeychainHelper: Security-framework calls are not modelled. The store is `Option<string>`. The outcomes of `SecItemDelete` and `SecItemAdd` are the `deleted` and `added` arguments (WeatherTracker/Services/KeychainHelper.swift:22-36, 58-69). That an add cannot succeed while an old item remains is not modelled.
- CacheManager: UserDefaults is not modelled. The cache is an `Option<seq<byte>>` field; `None` is the case where `retrieveData` throws. `removeData` is never called by the core.
- NetworkService is not modelled: URL creation, URLSession, the status check and snake_case JSON decoding. They are the `transport` argument, which yields a value or a `NetworkServiceError`.
- JSON encoding and decoding of `Location` are the `encode` and `decode` arguments, which may fail. No round trip between them is assumed.
- Logging is not modelled: the `Logger` calls.
- Layout and styling of `HomeView` are not modelled. Neither are the alert and `searchable` wiring, the splash screen and its timer in `WeatherTrackerApp.swift`, or the test mocks.
