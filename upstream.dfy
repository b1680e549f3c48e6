/**
 * The records the third-party country API returns, and the outcomes of the proxy's calls to
 * it. The network itself is not modelled: each call's outcome is an input.
 */
module Upstream {
  import opened Base

  /** One entry of the capital list. */
  datatype Country = Country(name: string, capital: string)

  /** One yearly figure of a city; `value` is None when the field is absent. */
  datatype PopulationCount = PopulationCount(year: int, value: Option<int>)

  /** One entry of the population-by-city list. */
  datatype CityPop = CityPop(city: string, populationCounts: seq<PopulationCount>)

  /**
   * Outcome of one axios call: it threw (network failure, or a non-2xx status, which axios
   * also rejects), or it resolved with a body whose `data` field is present (Some) or
   * missing or falsy (None).
   */
  datatype Reply<T> = NetworkError | Body(data: Option<T>)

  /**
   * Outcome of the two calls a refresh makes together, and the clock reading taken once both
   * have resolved (the second Date.now() of a request, which stamps the refresh).
   */
  datatype BulkFetch = BulkFetch(countries: Reply<seq<Country>>, population: Reply<seq<CityPop>>, receivedAt: int)
}
