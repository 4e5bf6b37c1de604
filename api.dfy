/**
 * The types the weather client exposes to the rest of the extension. The HTTP request
 * itself is not modelled: a fetch is only its settled outcome.
 */
module Api {

  /** `OpenWeatherTempScale`: the two unit systems the extension offers. */
  datatype TempScale = Metric | Imperial

  /**
   * The part of a decoded weather payload that the weather card reads: the display name and
   * the two temperatures it renders.
   */
  datatype OpenWeatherData = OpenWeatherData(name: string, temp: real, feelsLike: real)

  /** How a `fetchOpenWeatherData` promise settles: with decoded data, or rejected. */
  datatype FetchOutcome = Fetched(data: OpenWeatherData) | FetchFailed
}
