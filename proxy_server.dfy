/**
 * The caching proxy of backend/server.js as it runs: one object holding the fields of the
 * module-level `cache` record, updated in place by the request handlers. The cached country
 * list is an array, because `sort=alphabetical` sorts that very array. Every method is proved
 * to do what the corresponding CacheModel function describes.
 */
module ProxyServer {
  import opened Base
  import opened Upstream
  import opened Sorting
  import CacheModel

  class Cache {
    var countries: array?<Country>
    var populationData: Option<seq<CityPop>>
    var flags: map<string, string>
    var lastFetch: Option<int>

    /** The value the fields stand for. */
    ghost function State(): CacheModel.CacheState
      reads this, countries
    {
      CacheModel.CacheState(
        if countries == null then None else Some(countries[..]),
        populationData, flags, lastFetch)
    }

    ghost predicate Valid()
      reads this, countries
    {
      CacheModel.Invariant(State())
    }

    /** The record as the process starts: everything null, no flags. */
    constructor ()
      ensures Valid() && State() == CacheModel.Initial
    {
      countries := null;
      populationData := None;
      flags := map[];
      lastFetch := None;
    }

    /** isCacheValid, at the clock reading `now`. */
    method IsCacheValid(now: int) returns (b: bool)
      ensures b == CacheModel.IsCacheValid(State(), now)
    {
      b := lastFetch.Some? && lastFetch.value != 0 && now - lastFetch.value < CacheModel.CacheDuration;
    }

    /** fetchAndCacheData, given the outcome of the two upstream calls. */
    method FetchAndCacheData(up: BulkFetch)
      requires Valid()
      modifies this
      ensures Valid()
      ensures State() == CacheModel.FetchAndCache(old(State()), up)
      ensures countries == old(countries) || fresh(countries)
    {
      if CacheModel.Delivers(up) {
        var list := up.countries.data.value;
        countries := new Country[|list|](i requires 0 <= i < |list| => list[i]);
        populationData := up.population.data;
        lastFetch := Some(up.receivedAt);
        assert countries[..] == list;
      }
    }

    /** GET /api/countries; the optional sort acts on the cached array itself. */
    method GetCountries(now: int, up: BulkFetch, sort: Option<string>) returns (r: CacheModel.CountriesResponse)
      requires Valid()
      modifies this, countries
      ensures Valid()
      ensures CacheModel.Handled(State(), r) == CacheModel.GetCountries(old(State()), now, up, sort)
      ensures CacheModel.IsCacheValid(old(State()), now) ==> countries == old(countries)
    {
      var valid := IsCacheValid(now);
      if !valid {
        FetchAndCacheData(up);
      }
      if sort == Some(CacheModel.Alphabetical) {
        if countries == null {
          r := CacheModel.CountriesError;
          return;
        }
        SortArray(countries, CacheModel.CountryLe);
      }
      r := CacheModel.CountriesJson(if countries == null then None else Some(countries[..]));
    }

    /** GET /api/population. */
    method GetPopulation(now: int, up: BulkFetch) returns (r: CacheModel.PopulationResponse)
      requires Valid()
      modifies this
      ensures Valid()
      ensures CacheModel.Handled(State(), r) == CacheModel.GetPopulation(old(State()), now, up)
      ensures CacheModel.IsCacheValid(old(State()), now) ==> countries == old(countries)
    {
      var valid := IsCacheValid(now);
      if !valid {
        FetchAndCacheData(up);
      }
      if populationData.None? {
        r := CacheModel.PopulationError(CacheModel.NoPopulationMessage);
      } else {
        r := CacheModel.PopulationOk(populationData.value);
      }
    }

    /**
     * POST /api/flag, with the body's `country` and the outcome of the upstream call, which is
     * consulted only on a cache miss.
     */
    method PostFlag(country: Option<string>, up: Reply<string>) returns (r: CacheModel.FlagResponse)
      requires Valid()
      modifies this
      ensures Valid()
      ensures CacheModel.Handled(State(), r) == CacheModel.PostFlag(old(State()), country, up)
      ensures countries == old(countries)
    {
      if country.None? || country.value == "" {
        return CacheModel.FlagBadRequest;
      }
      var name := country.value;
      if name in flags && flags[name] != "" {
        return CacheModel.FlagOk(flags[name]);
      }
      if up.NetworkError? {
        return CacheModel.FlagError;
      }
      if up.data.Some? && up.data.value != "" {
        flags := flags[name := up.data.value];
        r := CacheModel.FlagOk(up.data.value);
      } else {
        r := CacheModel.FlagNotFound(name);
      }
    }
  }
}
