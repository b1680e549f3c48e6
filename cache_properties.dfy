/** What the caching proxy of backend/server.js guarantees, stated over CacheModel. */
module CacheProperties {
  import opened Base
  import opened Text
  import opened Sorting
  import opened Upstream
  import opened CacheModel

  /**
   * The validity window: a refresh stamped at a non-zero time t keeps the cache valid at every
   * instant from t to just before t + CacheDuration, validity is lost from t + CacheDuration
   * on, and an unset or zero timestamp is never valid.
   */
  lemma ValidityWindow(c: CacheState, up: BulkFetch, now: int)
    ensures c.lastFetch.None? || c.lastFetch == Some(0) ==> !IsCacheValid(c, now)
    ensures c.lastFetch.Some? && now >= c.lastFetch.value + CacheDuration ==> !IsCacheValid(c, now)
    ensures Delivers(up) && up.receivedAt != 0 && now < up.receivedAt + CacheDuration ==>
              IsCacheValid(FetchAndCache(c, up), now)
  {
  }

  /** Validity only runs out: valid at a later instant means valid at every earlier one. */
  lemma ValidityIsMonotone(c: CacheState, t1: int, t2: int)
    requires t1 <= t2 && IsCacheValid(c, t2)
    ensures IsCacheValid(c, t1)
  {
  }

  /**
   * A refresh commits the two snapshots and the timestamp together, only when both bodies
   * carry data; otherwise nothing changes. It never touches the flags, and keeps the invariant.
   */
  lemma RefreshAllOrNothing(c: CacheState, up: BulkFetch)
    ensures FetchAndCache(c, up).flags == c.flags
    ensures Delivers(up) ==>
              && FetchAndCache(c, up).countries == Some(up.countries.data.value)
              && FetchAndCache(c, up).populationData == Some(up.population.data.value)
              && FetchAndCache(c, up).lastFetch == Some(up.receivedAt)
    ensures !Delivers(up) ==> FetchAndCache(c, up) == c
    ensures Invariant(c) ==> Invariant(FetchAndCache(c, up))
  {
  }

  /**
   * A failed refresh is swallowed: the handlers still answer, from the previous (stale)
   * snapshot, and the state is what it was.
   */
  lemma FailedRefreshServesStale(c: CacheState, now: int, up: BulkFetch)
    requires !Delivers(up)
    ensures GetCountries(c, now, up, None) == Handled(c, CountriesJson(c.countries))
    ensures GetPopulation(c, now, up).state == c
    ensures c.populationData.Some? ==> GetPopulation(c, now, up).response == PopulationOk(c.populationData.value)
  {
  }

  /**
   * Within the validity window neither bulk handler calls upstream: the outcome does not depend
   * on the upstream input, the snapshots' timestamp and population data stay, and an unsorted
   * request returns the cached countries unchanged.
   */
  lemma ValidCacheSkipsUpstream(c: CacheState, now: int, up1: BulkFetch, up2: BulkFetch, sort: Option<string>)
    requires IsCacheValid(c, now)
    ensures GetCountries(c, now, up1, sort) == GetCountries(c, now, up2, sort)
    ensures GetPopulation(c, now, up1) == GetPopulation(c, now, up2)
    ensures GetCountries(c, now, up1, sort).state.lastFetch == c.lastFetch
    ensures GetCountries(c, now, up1, sort).state.populationData == c.populationData
    ensures GetPopulation(c, now, up1) ==
              Handled(c, if c.populationData.Some? then PopulationOk(c.populationData.value) else PopulationError(NoPopulationMessage))
    ensures sort != Some(Alphabetical) ==> GetCountries(c, now, up1, sort) == Handled(c, CountriesJson(c.countries))
  {
  }

  /** The comparator is a total preorder on countries. */
  lemma CountryLeIsTotalPreorder()
    ensures Total(CountryLe) && Transitive(CountryLe)
  {
    forall a: Country, b: Country ensures CountryLe(a, b) || CountryLe(b, a) {
      LexLeTotal(a.name, b.name);
    }
    forall a: Country, b: Country, d: Country | CountryLe(a, b) && CountryLe(b, d) ensures CountryLe(a, d) {
      LexLeTransitive(a.name, b.name, d.name);
    }
  }

  /** The name sort returns a name-ordered permutation of its input. */
  lemma SortByNameSpec(s: seq<Country>)
    ensures Sorted(SortByName(s), CountryLe)
    ensures multiset(SortByName(s)) == multiset(s)
    ensures SortByName(SortByName(s)) == SortByName(s)
  {
    CountryLeIsTotalPreorder();
    SortSorted(s, CountryLe);
    SortPermutes(s, CountryLe);
    SortIdempotent(s, CountryLe);
  }

  /**
   * `sort=alphabetical` replaces the cached countries by a name-ordered permutation of
   * themselves and returns exactly that; with no cached countries it answers 500 and
   * changes nothing beyond the refresh.
   */
  lemma AlphabeticalSortsTheCache(c: CacheState, now: int, up: BulkFetch)
    ensures var d := Refreshed(c, now, up);
            var h := GetCountries(c, now, up, Some(Alphabetical));
            && (d.countries.None? ==> h == Handled(d, CountriesError))
            && (d.countries.Some? ==>
                  && h.response == CountriesJson(h.state.countries)
                  && h.state.countries.Some?
                  && Sorted(h.state.countries.value, CountryLe)
                  && multiset(h.state.countries.value) == multiset(d.countries.value)
                  && h.state == d.(countries := h.state.countries))
  {
    var d := Refreshed(c, now, up);
    if d.countries.Some? {
      SortByNameSpec(d.countries.value);
    }
  }

  /**
   * The sort is in place: once a sorted request has run, refreshing first or not, a later
   * request within the validity window sees the sorted order whether or not it asks for sorting.
   */
  lemma SortedOrderPersists(c: CacheState, t1: int, t2: int, up1: BulkFetch, up2: BulkFetch, sort: Option<string>)
    requires Refreshed(c, t1, up1).countries.Some?
    ensures var h := GetCountries(c, t1, up1, Some(Alphabetical));
            IsCacheValid(h.state, t2) ==>
              GetCountries(h.state, t2, up2, sort).response == CountriesJson(Some(SortByName(Refreshed(c, t1, up1).countries.value)))
  {
    SortByNameSpec(Refreshed(c, t1, up1).countries.value);
  }

  /**
   * GET /api/population answers 500 exactly when, after the optional refresh, there is still no
   * population data: in a state satisfying the invariant, when nothing was ever committed and
   * this refresh does not deliver. Otherwise it sends the population data then cached.
   */
  lemma PopulationErrorExactly(c: CacheState, now: int, up: BulkFetch)
    requires Invariant(c)
    ensures var h := GetPopulation(c, now, up);
            && (h.response.PopulationError? <==> c.populationData.None? && !Delivers(up))
            && (h.response.PopulationError? ==> h.response.message == NoPopulationMessage && h.response.Status() == 500)
            && (h.response.PopulationOk? ==> Some(h.response.data) == Refreshed(c, now, up).populationData)
  {
  }

  /** A missing or empty `country` gets 400 with no upstream call and no change of state. */
  lemma FlagBadRequestFirst(c: CacheState, country: Option<string>, up1: Reply<string>, up2: Reply<string>)
    requires country.None? || country == Some("")
    ensures PostFlag(c, country, up1) == Handled(c, FlagBadRequest)
    ensures PostFlag(c, country, up1) == PostFlag(c, country, up2)
    ensures PostFlag(c, country, up1).response.Status() == 400
    ensures PostFlag(c, country, up1).response.Message() == "Country name is required."
  {
  }

  /** A stored flag is returned as it is, with no upstream call and no change of state. */
  lemma FlagCacheHit(c: CacheState, name: string, up1: Reply<string>, up2: Reply<string>)
    requires Invariant(c)
    requires name != "" && name in c.flags
    ensures PostFlag(c, Some(name), up1) == Handled(c, FlagOk(c.flags[name]))
    ensures PostFlag(c, Some(name), up1) == PostFlag(c, Some(name), up2)
  {
  }

  /**
   * On a miss the upstream outcome decides: a truthy flag is stored under `name` and returned
   * (200), a missing one gives 404, a thrown call gives 500; only `name`'s entry can change.
   */
  lemma FlagCacheMiss(c: CacheState, name: string, up: Reply<string>)
    requires name != "" && name !in c.flags
    ensures var h := PostFlag(c, Some(name), up);
            && h.state.countries == c.countries
            && h.state.populationData == c.populationData
            && h.state.lastFetch == c.lastFetch
            && (forall k :: k != name ==> (k in h.state.flags <==> k in c.flags))
            && (forall k :: k != name && k in c.flags ==> h.state.flags[k] == c.flags[k])
            && (up.Body? && up.data.Some? && up.data.value != "" ==>
                  h.state.flags == c.flags[name := up.data.value] && h.response == FlagOk(up.data.value))
            && (up.Body? && (up.data.None? || up.data.value == "") ==>
                  && h.state == c && h.response == FlagNotFound(name) && h.response.Status() == 404
                  && h.response.Message() == "Flag not found for " + name + ".")
            && (up.NetworkError? ==>
                  && h.state == c && h.response == FlagError && h.response.Status() == 500
                  && h.response.Message() == "Failed to fetch flag. Please try again later.")
  {
  }

  /** Every handler keeps the invariant and keeps every stored flag. */
  lemma HandleKeepsInvariantAndFlags(c: CacheState, req: Request)
    requires Invariant(c)
    ensures Invariant(Handle(c, req))
    ensures forall k :: k in c.flags ==> k in Handle(c, req).flags && Handle(c, req).flags[k] == c.flags[k]
  {
    match req
    case CountriesRequest(now, up, sort) =>
      var d := Refreshed(c, now, up);
      if sort == Some(Alphabetical) && d.countries.Some? {
        SortByNameSpec(d.countries.value);
      }
    case PopulationRequest(_, _) =>
    case FlagRequest(_, _) =>
  }

  /**
   * Along any sequence of requests the invariant holds and no stored flag is ever evicted or
   * changed: refreshes and TTL expiry leave the flags alone.
   */
  lemma {:induction false} RunKeepsInvariantAndFlags(c: CacheState, reqs: seq<Request>)
    requires Invariant(c)
    ensures Invariant(Run(c, reqs))
    ensures forall k :: k in c.flags ==> k in Run(c, reqs).flags && Run(c, reqs).flags[k] == c.flags[k]
    decreases |reqs|
  {
    if reqs != [] {
      HandleKeepsInvariantAndFlags(c, reqs[0]);
      RunKeepsInvariantAndFlags(Handle(c, reqs[0]), reqs[1..]);
    }
  }

  /**
   * Once a flag is stored for `name`, every later request for `name`, after any requests at
   * all, returns the identical value with no upstream call.
   */
  lemma StoredFlagServedForever(c: CacheState, name: string, reqs: seq<Request>, up: Reply<string>)
    requires Invariant(c)
    requires name != "" && name in c.flags
    ensures PostFlag(Run(c, reqs), Some(name), up) == Handled(Run(c, reqs), FlagOk(c.flags[name]))
  {
    RunKeepsInvariantAndFlags(c, reqs);
  }

  /** The process starts in a state satisfying the invariant. */
  lemma InitialInvariant()
    ensures Invariant(Initial)
    ensures forall now :: !IsCacheValid(Initial, now)
  {
  }

  /**
   * When the cache is not valid (never refreshed, or older than the cache duration), every
   * handler for the bulk data refreshes before it answers: a delivered refresh replaces both
   * lists and stamps the second clock reading, an unsorted request gets the new upstream list
   * in upstream order, and the population request gets the new population list.
   */
  lemma ExpiredCacheRefreshes(c: CacheState, now: int, up: BulkFetch, sort: Option<string>)
    requires !IsCacheValid(c, now)
    ensures Refreshed(c, now, up) == FetchAndCache(c, up)
    ensures GetCountries(c, now, up, None) == Handled(FetchAndCache(c, up), CountriesJson(FetchAndCache(c, up).countries))
    ensures GetCountries(c, now, up, sort).state.lastFetch == if Delivers(up) then Some(up.receivedAt) else c.lastFetch
    ensures Delivers(up) && sort != Some(Alphabetical) ==>
              GetCountries(c, now, up, sort).response == CountriesJson(Some(up.countries.data.value))
    ensures Delivers(up) ==> GetPopulation(c, now, up).response == PopulationOk(up.population.data.value)
    ensures GetPopulation(c, now, up).state == FetchAndCache(c, up)
  {
  }

  /** The never-refreshed cache is the first case of the above: it is never valid. */
  lemma FirstRequestRefreshes(c: CacheState, now: int, up: BulkFetch, sort: Option<string>)
    requires c.lastFetch.None?
    ensures Refreshed(c, now, up) == FetchAndCache(c, up)
    ensures GetCountries(c, now, up, None) == Handled(FetchAndCache(c, up), CountriesJson(FetchAndCache(c, up).countries))
    ensures GetCountries(c, now, up, sort).state.lastFetch == if Delivers(up) then Some(up.receivedAt) else None
    ensures GetPopulation(c, now, up).state == FetchAndCache(c, up)
  {
    ExpiredCacheRefreshes(c, now, up, sort);
  }

  /**
   * A first request for the countries, before any refresh succeeded, refreshes: with the France
   * example from upstream it answers with exactly that list.
   */
  lemma FirstRequestFranceExample(now: int)
    ensures var france := [Country("France", "Paris")];
            var paris := [CityPop("Paris", [PopulationCount(2019, Some(2148000))])];
            var up := BulkFetch(Body(Some(france)), Body(Some(paris)), now);
            var h := GetCountries(Initial, now, up, None);
            && h.response == CountriesJson(Some(france))
            && h.state.populationData == Some(paris)
            && h.state.lastFetch == Some(now)
  {
  }
}
