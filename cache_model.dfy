/**
 * The caching proxy of backend/server.js as a pure state machine: the module-level `cache`
 * record is a CacheState value, and each request handler is a function from the state before
 * the request (and the request's inputs: the clock, the upstream outcomes, the query or body)
 * to the state after it and the response sent.
 */
module CacheModel {
  import opened Base
  import opened Text
  import opened Sorting
  import opened Upstream

  /** How long a refresh stays valid: 15 minutes in milliseconds. */
  const CacheDuration: int := 15 * 60 * 1000

  const Alphabetical: string := "alphabetical"

  /** The `cache` record; each None stands for the initial `null`. */
  datatype CacheState = CacheState(
    countries: Option<seq<Country>>,
    populationData: Option<seq<CityPop>>,
    flags: map<string, string>,
    lastFetch: Option<int>)

  /** The state at process start. */
  const Initial: CacheState := CacheState(None, None, map[], None)

  /**
   * The state invariant: the two snapshots and the timestamp are either all unset or all set
   * (a refresh never commits a partial pair), and every stored flag is a truthy (non-empty) string.
   */
  ghost predicate Invariant(c: CacheState) {
    && (c.countries.Some? <==> c.lastFetch.Some?)
    && (c.populationData.Some? <==> c.lastFetch.Some?)
    && forall k :: k in c.flags ==> c.flags[k] != ""
  }

  /** isCacheValid: `lastFetch` is truthy (set and not 0) and less than CacheDuration old. */
  predicate IsCacheValid(c: CacheState, now: int) {
    c.lastFetch.Some? && c.lastFetch.value != 0 && now - c.lastFetch.value < CacheDuration
  }

  /** Both calls of a refresh resolved, and both bodies carry a `data` field. */
  predicate Delivers(up: BulkFetch) {
    up.countries.Body? && up.countries.data.Some? && up.population.Body? && up.population.data.Some?
  }

  /**
   * fetchAndCacheData: commits both snapshots and the timestamp together when the refresh
   * delivers; otherwise the error (thrown or raised on a malformed body) is caught and
   * nothing changes.
   */
  function FetchAndCache(c: CacheState, up: BulkFetch): CacheState {
    if Delivers(up) then
      c.(countries := up.countries.data, populationData := up.population.data, lastFetch := Some(up.receivedAt))
    else
      c
  }

  /** The state a bulk handler reads from: refreshed first unless the cache is valid. */
  function Refreshed(c: CacheState, now: int, up: BulkFetch): CacheState {
    if IsCacheValid(c, now) then c else FetchAndCache(c, up)
  }

  /** The comparator `(a, b) => a.name.localeCompare(b.name)`, as "a sorts no later than b". */
  predicate CountryLe(a: Country, b: Country) {
    LexLe(a.name, b.name)
  }

  function SortByName(s: seq<Country>): seq<Country> {
    InsertionSort(s, CountryLe)
  }

  /** The state after a request and the response sent for it. */
  datatype Handled<R> = Handled(state: CacheState, response: R)

  /** Responses of GET /api/countries: the bare JSON array (or `null`), or the 500 error object. */
  datatype CountriesResponse = CountriesJson(list: Option<seq<Country>>) | CountriesError {
    function Status(): int {
      if CountriesJson? then 200 else 500
    }
  }

  /** Responses of GET /api/population. */
  datatype PopulationResponse = PopulationOk(data: seq<CityPop>) | PopulationError(message: string) {
    function Status(): int {
      if PopulationOk? then 200 else 500
    }
  }

  const NoPopulationMessage: string := "No population data available in cache."

  /** Responses of POST /api/flag. */
  datatype FlagResponse = FlagOk(flag: string) | FlagBadRequest | FlagNotFound(country: string) | FlagError {
    function Status(): int {
      match this
      case FlagOk(_) => 200
      case FlagBadRequest => 400
      case FlagNotFound(_) => 404
      case FlagError => 500
    }
    function Message(): string {
      match this
      case FlagOk(_) => ""
      case FlagBadRequest => "Country name is required."
      case FlagNotFound(country) => "Flag not found for " + country + "."
      case FlagError => "Failed to fetch flag. Please try again later."
    }
  }

  /**
   * GET /api/countries. With `sort=alphabetical` the cached array itself is sorted (and so is
   * what later requests see); if there is no cached array, sorting `null` throws and the
   * handler answers 500. Without it, the cached array, or `null`, is sent as it is.
   */
  function GetCountries(c: CacheState, now: int, up: BulkFetch, sort: Option<string>): Handled<CountriesResponse> {
    var d := Refreshed(c, now, up);
    if sort == Some(Alphabetical) then
      match d.countries
      case None => Handled(d, CountriesError)
      case Some(list) =>
        var sorted := SortByName(list);
        Handled(d.(countries := Some(sorted)), CountriesJson(Some(sorted)))
    else
      Handled(d, CountriesJson(d.countries))
  }

  /** GET /api/population: the cached population list, or 500 when there is none. */
  function GetPopulation(c: CacheState, now: int, up: BulkFetch): Handled<PopulationResponse> {
    var d := Refreshed(c, now, up);
    match d.populationData
    case None => Handled(d, PopulationError(NoPopulationMessage))
    case Some(data) => Handled(d, PopulationOk(data))
  }

  /**
   * POST /api/flag, with the body's `country` (None when absent or not a string) and the
   * outcome of the upstream call, which is made only on a cache miss.
   */
  function PostFlag(c: CacheState, country: Option<string>, up: Reply<string>): Handled<FlagResponse> {
    if country.None? || country.value == "" then
      Handled(c, FlagBadRequest)
    else
      var name := country.value;
      if name in c.flags && c.flags[name] != "" then
        Handled(c, FlagOk(c.flags[name]))
      else
        match up
        case NetworkError => Handled(c, FlagError)
        case Body(flag) =>
          if flag.Some? && flag.value != "" then
            Handled(c.(flags := c.flags[name := flag.value]), FlagOk(flag.value))
          else
            Handled(c, FlagNotFound(name))
  }

  /** One inbound request, with the inputs its handler consumes. */
  datatype Request =
    | CountriesRequest(now: int, up: BulkFetch, sort: Option<string>)
    | PopulationRequest(now: int, up: BulkFetch)
    | FlagRequest(country: Option<string>, flagUp: Reply<string>)

  /** The state after handling one request. */
  function Handle(c: CacheState, req: Request): CacheState {
    match req
    case CountriesRequest(now, up, sort) => GetCountries(c, now, up, sort).state
    case PopulationRequest(now, up) => GetPopulation(c, now, up).state
    case FlagRequest(country, flagUp) => PostFlag(c, country, flagUp).state
  }

  /** The state after handling `reqs` one after another. */
  function Run(c: CacheState, reqs: seq<Request>): CacheState
    decreases |reqs|
  {
    if reqs == [] then c else Run(Handle(c, reqs[0]), reqs[1..])
  }
}
