/**
 * The value types of the app (WeatherTracker/Model/Location.swift and
 * WeatherTracker/Model/Weather.swift). Swift `Float` values are represented by
 * the real number they denote; `Int` by an unbounded `int`.
 */
module Model {
  import opened Wrappers

  /** One byte of the serialized cache blob (Swift `Data`). */
  newtype byte = x: int | 0 <= x < 256

  /** A searchable place; `id` is absent for ad-hoc results. */
  datatype Location = Location(id: Option<int>, name: string, region: string, country: string)

  /** The weather condition; `icon` is the URL of its icon. */
  datatype Condition = Condition(icon: string)

  /** Current weather as decoded from the API (and, once transformed, as shown). */
  datatype Weather = Weather(tempC: real, humidity: int, uv: real, feelslikeC: real, condition: Condition)

  /** The payload of the current-weather endpoint. */
  datatype WeatherResponse = WeatherResponse(location: Location, current: Weather)
}
