/**
 * The weather API client of WeatherTracker/Services/DataService.swift: the
 * guards that decide which error is thrown, the request URLs, and the
 * normalisation of a fetched weather record.
 *
 * The keychain lookup is the argument `apiKey` (what `getAPIKeyFromKeychain`
 * returns), and the network service's `fetchData` is the argument `transport`:
 * what the HTTP round trip and JSON decoding yield for a URL, a value or an error.
 */
module DataService {
  import opened Wrappers
  import opened Model

  const BaseUrlString: string := "https://api.weatherapi.com/v1/"
  const SearchAndAPIPrefixString: string := "search.json?key="
  const CurrentWeatherAndAPIPrefixString: string := "current.json?key="
  const CurrentWeatherSuffixString: string := "&aqi=no"
  const QueryParameter: string := "&q="

  /** The errors the data service throws itself. */
  datatype DataServiceError = UnableToRetrieveAPIKey | EmptySearchString | InvalidCityName

  /** The errors the network service throws (bad URL, transport, status, decoding). */
  datatype NetworkServiceError = UnableToCreateURL | UrlSessionError(message: string) | BadResponse | UnableToDecodeData

  /** Anything a fetch of the data service can throw. */
  datatype FetchError = Service(error: DataServiceError) | Network(cause: NetworkServiceError)

  /** What the network service yields for a search URL. */
  type SearchTransport = string -> Result<seq<Location>, NetworkServiceError>

  /** What the network service yields for a current-weather URL. */
  type WeatherTransport = string -> Result<WeatherResponse, NetworkServiceError>

  /** The search request for `input` with key `key`. */
  function SearchUrl(key: string, input: string): (url: string)
    ensures var head := BaseUrlString + SearchAndAPIPrefixString + key + QueryParameter;
      |url| == |head| + |input| && url[..|head|] == head && url[|head|..] == input
  {
    BaseUrlString + SearchAndAPIPrefixString + key + QueryParameter + input
  }

  /** The current-weather request for `city` with key `key`. */
  function WeatherUrl(key: string, city: string): (url: string)
    ensures var head := BaseUrlString + CurrentWeatherAndAPIPrefixString + key + QueryParameter;
      && |url| == |head| + |city| + |CurrentWeatherSuffixString|
      && url[..|head|] == head
      && url[|head|..|head| + |city|] == city
      && url[|head| + |city|..] == CurrentWeatherSuffixString
  {
    BaseUrlString + CurrentWeatherAndAPIPrefixString + key + QueryParameter + city + CurrentWeatherSuffixString
  }

  /** `searchUrlString`: fails exactly when no key is stored. */
  function SearchUrlString(input: string, apiKey: Option<string>): (r: Result<string, DataServiceError>)
    ensures r.Failure? <==> apiKey.None?
    ensures r.Failure? ==> r.error == UnableToRetrieveAPIKey
    ensures r.Success? ==> r.value == SearchUrl(apiKey.value, input)
  {
    match apiKey
    case None => Failure(UnableToRetrieveAPIKey)
    case Some(key) => Success(SearchUrl(key, input))
  }

  /** `weatherUrlString`: fails exactly when no key is stored. */
  function WeatherUrlString(city: string, apiKey: Option<string>): (r: Result<string, DataServiceError>)
    ensures r.Failure? <==> apiKey.None?
    ensures r.Failure? ==> r.error == UnableToRetrieveAPIKey
    ensures r.Success? ==> r.value == WeatherUrl(apiKey.value, city)
  {
    match apiKey
    case None => Failure(UnableToRetrieveAPIKey)
    case Some(key) => Success(WeatherUrl(key, city))
  }

  /** Two search requests with the same key are equal only for the same input. */
  lemma SearchUrlInjective(key: string, a: string, b: string)
    requires SearchUrl(key, a) == SearchUrl(key, b)
    ensures a == b
  {
    var head := BaseUrlString + SearchAndAPIPrefixString + key + QueryParameter;
    assert a == SearchUrl(key, a)[|head|..];
  }

  /** Two weather requests with the same key are equal only for the same city. */
  lemma WeatherUrlInjective(key: string, a: string, b: string)
    requires WeatherUrl(key, a) == WeatherUrl(key, b)
    ensures a == b
  {
    var head := BaseUrlString + CurrentWeatherAndAPIPrefixString + key + QueryParameter;
    assert a == WeatherUrl(key, a)[|head|..|head| + |a|];
  }

  /**
   * Swift's `rounded()` (rule `toNearestOrAwayFromZero`): `r` is an integer
   * nearest to `x`, and a tie goes to the integer farther from zero.
   */
  ghost predicate IsRoundedFrom(x: real, r: real) {
    && r.Floor as real == r
    && -0.5 <= r - x <= 0.5
    && (r - x == 0.5 ==> x >= 0.0)
    && (x - r == 0.5 ==> x < 0.0)
  }

  /** An integer read as a real is its own floor. */
  lemma IntFloor(n: int)
    ensures (n as real).Floor == n
  {
  }

  /** The floor of `x` is the integer just at or below `x`. */
  lemma FloorBounds(x: real)
    ensures x.Floor as real <= x < x.Floor as real + 1.0
  {
  }

  /** `Float.rounded()`, on the real number a finite `Float` denotes. */
  function Rounded(x: real): (r: real)
    ensures IsRoundedFrom(x, r)
  {
    if x >= 0.0 then
      var n := (x + 0.5).Floor;
      FloorBounds(x + 0.5);
      IntFloor(n);
      n as real
    else
      var n := (0.5 - x).Floor;
      FloorBounds(0.5 - x);
      IntFloor(-n);
      -n as real
  }

  /** The rounding rule leaves no choice: any value it admits is `Rounded(x)`. */
  lemma RoundedUnique(x: real, r: real)
    requires IsRoundedFrom(x, r)
    ensures r == Rounded(x)
  {
    var m, k := r.Floor, Rounded(x).Floor;
    assert r == m as real && Rounded(x) == k as real;
    assert -1.0 <= (m - k) as real <= 1.0;
    assert m - k != 1 && m - k != -1;
  }

  /** Rounding an integral value changes nothing. */
  lemma RoundedIdempotent(x: real)
    ensures Rounded(Rounded(x)) == Rounded(x)
  {
    RoundedUnique(Rounded(x), Rounded(x));
  }

  /** The three values the data-service test rounds: 25.7, 3.8 and 24.1. */
  lemma RoundedExamples()
    ensures Rounded(25.7) == 26.0 && Rounded(3.8) == 4.0 && Rounded(24.1) == 24.0
  {
    RoundedUnique(25.7, 26.0);
    RoundedUnique(3.8, 4.0);
    RoundedUnique(24.1, 24.0);
  }

  /**
   * `transformedWeather`: temperature, feels-like and UV rounded, humidity
   * untouched, and the protocol-relative icon URL given the `https:` scheme.
   */
  function TransformedWeather(weather: Weather): (r: Weather)
    ensures IsRoundedFrom(weather.tempC, r.tempC)
    ensures IsRoundedFrom(weather.feelslikeC, r.feelslikeC)
    ensures IsRoundedFrom(weather.uv, r.uv)
    ensures r.humidity == weather.humidity
    ensures |r.condition.icon| == 6 + |weather.condition.icon|
    ensures r.condition.icon[..6] == "https:" && r.condition.icon[6..] == weather.condition.icon
  {
    Weather(tempC := Rounded(weather.tempC),
            humidity := weather.humidity,
            uv := Rounded(weather.uv),
            feelslikeC := Rounded(weather.feelslikeC),
            condition := Condition("https:" + weather.condition.icon))
  }

  /** The transformation test: 25.7 / 3.8 / 24.1 and "//abc.com/123.png". */
  lemma TransformedWeatherExample()
    ensures TransformedWeather(Weather(25.7, 75, 3.8, 24.1, Condition("//abc.com/123.png")))
         == Weather(26.0, 75, 4.0, 24.0, Condition("https://abc.com/123.png"))
  {
    RoundedExamples();
    assert "https:" + "//abc.com/123.png" == "https://abc.com/123.png";
  }

  /**
   * `fetchSearchResults`: an empty input is refused before the key is looked
   * up; without a key nothing is fetched; otherwise the fetched list is
   * returned as it came, and a network error is rethrown as it came.
   */
  function FetchSearchResults(input: string, apiKey: Option<string>, transport: SearchTransport)
    : (r: Result<seq<Location>, FetchError>)
    ensures input == [] ==> r == Failure(Service(EmptySearchString))
    ensures input != [] && apiKey.None? ==> r == Failure(Service(UnableToRetrieveAPIKey))
    ensures r.Success? <==> input != [] && apiKey.Some? && transport(SearchUrl(apiKey.value, input)).Success?
    ensures r.Success? ==> r.value == transport(SearchUrl(apiKey.value, input)).value
    ensures input != [] && apiKey.Some? && transport(SearchUrl(apiKey.value, input)).Failure?
        ==> r == Failure(Network(transport(SearchUrl(apiKey.value, input)).error))
  {
    if input == [] then Failure(Service(EmptySearchString))
    else
      match SearchUrlString(input, apiKey)
      case Failure(e) => Failure(Service(e))
      case Success(url) =>
        match transport(url)
        case Failure(e) => Failure(Network(e))
        case Success(locations) => Success(locations)
  }

  /**
   * `fetchWeather`: an empty city is refused before the key is looked up;
   * without a key nothing is fetched; otherwise the response's current weather,
   * transformed, is returned and its location is dropped, and a network error
   * is rethrown as it came.
   */
  function FetchWeather(city: string, apiKey: Option<string>, transport: WeatherTransport)
    : (r: Result<Weather, FetchError>)
    ensures city == [] ==> r == Failure(Service(InvalidCityName))
    ensures city != [] && apiKey.None? ==> r == Failure(Service(UnableToRetrieveAPIKey))
    ensures r.Success? <==> city != [] && apiKey.Some? && transport(WeatherUrl(apiKey.value, city)).Success?
    ensures r.Success? ==> r.value == TransformedWeather(transport(WeatherUrl(apiKey.value, city)).value.current)
    ensures city != [] && apiKey.Some? && transport(WeatherUrl(apiKey.value, city)).Failure?
        ==> r == Failure(Network(transport(WeatherUrl(apiKey.value, city)).error))
  {
    if city == [] then Failure(Service(InvalidCityName))
    else
      match WeatherUrlString(city, apiKey)
      case Failure(e) => Failure(Service(e))
      case Success(url) =>
        match transport(url)
        case Failure(e) => Failure(Network(e))
        case Success(response) => Success(TransformedWeather(response.current))
  }

  /** When a guard throws, the transport is never consulted: any transport gives the same error. */
  lemma GuardsPrecedeTransport(input: string, apiKey: Option<string>,
                               s1: SearchTransport, s2: SearchTransport,
                               w1: WeatherTransport, w2: WeatherTransport)
    requires input == [] || apiKey.None?
    ensures FetchSearchResults(input, apiKey, s1) == FetchSearchResults(input, apiKey, s2)
    ensures FetchWeather(input, apiKey, w1) == FetchWeather(input, apiKey, w2)
  {
  }

  /** The search test: with a key, a transport answering [Tokyo] gives exactly [Tokyo]. */
  lemma FetchSearchResultsTokyo(tokyo: Location)
    requires tokyo.name == "Tokyo"
    ensures var r := FetchSearchResults("Tokyo", Some("123"), _ => Success([tokyo]));
      r.Success? && |r.value| == 1 && r.value[0].name == "Tokyo"
  {
  }
}
