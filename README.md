# World Insight: the caching proxy and the dashboard's view logic, in Dafny

World Insight is a dashboard of countries, capitals, populations and flags. Its data comes
from a third-party country API. A small Express server sits in front of that API.

The server keeps one in-memory `cache` record with four fields:

- the capital list;
- the population-by-city list;
- a per-country map of flag URLs;
- the time of the last successful refresh.

Its three endpoints work as follows:

- `GET /api/countries` and `GET /api/population` refresh both lists together when the cache is
  older than 15 minutes.
- `POST /api/flag` fills the flag map one country at a time, and never evicts an entry.

The browser side filters the countries by a search term, looks up each capital's population,
charts the 20 most populous, and keeps a duplicate-free bucket list.

This project models both halves:

- `CacheModel` (cache_model.dfy) is the proxy as a pure state machine. The cache record is a
  `CacheState` value. Each handler is a function from the state before a request, plus its
  inputs, to the state after it and the response.
- `CacheProperties` (cache_properties.dfy) proves what the proxy guarantees:
  - the validity window;
  - the all-or-nothing refresh;
  - no upstream call while the cache is valid;
  - the in-place sort and its persistence;
  - the order of the flag endpoint's checks;
  - the state invariant, and that no flag is ever evicted, along any sequence of requests.
- `ProxyServer.Cache` (proxy_server.dfy) is the proxy as it runs: a class with the record's four
  fields. The cached country list is an `array`, because `sort=alphabetical` sorts the cached
  array itself. Each method is proved to change the fields exactly as the matching `CacheModel`
  function says.
- `Sorting` (sorting.dfy) stands for `Array.prototype.sort` with a comparator:
  - a stable insertion sort as a function, with its lemmas (ordered, permutation, idempotent);
  - the same sort in place on an array, proved equal to that function.
- `Text` and `Seqs` stand for `toLowerCase`, `includes`, `localeCompare` and `filter`.
- `App` and `AppProperties` (app.dfy, app_properties.dfy) are the view helpers of the dashboard
  and their properties.

The clock and the outcomes of the network calls are inputs:

- `now` is the clock reading `isCacheValid` uses.
- `BulkFetch` is the outcome of the two calls a refresh makes. It also carries the second clock
  reading, which stamps the refresh.
- `Reply<string>` is the outcome of the flag call.

`NetworkError` stands for a thrown call. axios also throws on a non-2xx status. `Body(None)`
stands for a body whose `data` field is missing or falsy.

As written, `GET /api/countries` does the following:

- it answers with the bare array, or `null`, and status 200;
- when a sort is requested and there is no cached list, sorting `null` throws, and it answers
  500;
- it never wraps the array as `{status: 'success', data}`.

The dashboard, on the other hand, expects `{status: 'success', data}` from this endpoint
(src/App.js:54); see "## Findings". Nothing in the server stops concurrent requests from each
starting a refresh. The model follows the code in both respects.

## Model

| member | source | states |
|---|---|---|
| `CacheModel.IsCacheValid` | backend/server.js:25-27 | The TTL test on a state. Its properties are in `ValidityWindow` and `ValidityIsMonotone`. |
| `CacheModel.FetchAndCache` | backend/server.js:30-51 | The refresh as a state transition. Its properties are in `RefreshAllOrNothing`. |
| `CacheModel.Refreshed` | backend/server.js:56-58 | The state a bulk handler reads: refreshed unless valid. Its properties are in `ValidCacheSkipsUpstream` and `ExpiredCacheRefreshes` (with `FirstRequestRefreshes` as its never-refreshed case). |
| `CacheModel.GetCountries` | backend/server.js:54-73 | The countries handler: new state and response. Its properties are in `AlphabeticalSortsTheCache`, `SortedOrderPersists`, `ValidCacheSkipsUpstream`, `ExpiredCacheRefreshes` and `FailedRefreshServesStale`. |
| `CacheModel.GetPopulation` | backend/server.js:76-89 | The population handler: new state and response. Its properties are in `PopulationErrorExactly` and `ValidCacheSkipsUpstream`. |
| `CacheModel.PostFlag` | backend/server.js:92-118 | The flag handler, with its checks in the source's order. Its properties are in `FlagBadRequestFirst`, `FlagCacheHit` and `FlagCacheMiss`. |
| `CacheModel.Handle` | backend/server.js:54-118 | One request, by endpoint. Its properties are in `HandleKeepsInvariantAndFlags`. |
| `CacheModel.Run` | backend/server.js:54-118 | Requests handled one after another. Its properties are in `RunKeepsInvariantAndFlags` and `StoredFlagServedForever`. |
| `CacheModel.SortByName` | backend/server.js:65 | The name sort of the cached list. Its properties are in `SortByNameSpec`. |
| `Sorting.InsertionSort` | backend/server.js:65 | The stable sort used for both comparators. Its properties are in `SortPermutes`, `SortSorted` and `SortIdempotent`. |
| `Text.LexLe` | backend/server.js:65 | The order standing for `localeCompare`. Its properties are in `LexLeTotal` and `LexLeTransitive`. |
| `Text.Lower` | src/App.js:84 | ASCII lower-casing: same length, no upper-case letter left, each upper-case letter replaced by its lower-case partner, every other character kept. `LowerIdempotent` proves that lower-casing the stored term again changes nothing, and `SearchFilter` uses it for the comparison. |
| `App.HandleSearch` | src/App.js:83-85 | Stores the input lower-cased. Its properties are in `SearchFilter`. |
| `App.FilteredCountries` | src/App.js:105-109 | The search filter. Its properties are in `SearchFilter`. |
| `App.GetPopulationForCapital` | src/App.js:111-116 | The capital's population. Its properties are in `PopulationLookup` and `FirstCountZero`. |
| `App.ChartData` | src/App.js:131-138 | The chart pipeline. Its properties are in `ChartShape`, `ChartFromFiltered` and `ChartIsTopTwenty`. |
| `App.AddToBucketList` | src/App.js:99-103 | One click on "Add to Bucket List". Its properties are in `BucketListAdd`. |
| `App.AddAll` | src/App.js:99-103 | A sequence of clicks. Its properties are in `BucketListAfterClicks`. |
| `App.WithFlag` | src/App.js:64-66 | The card built from a country and its flag request. Its properties are in `FlagFallback` and `CardShowsProxyFlag`. |
| `ProxyServer.Cache.constructor` | backend/server.js:14-19 | The record starts with both lists, the timestamp and the flag map empty, which satisfies the invariant. |
| `ProxyServer.Cache.IsCacheValid` | backend/server.js:25-27 | The answer is `CacheModel.IsCacheValid` of the current fields at the clock reading `now`. |
| `ProxyServer.Cache.FetchAndCacheData` | backend/server.js:30-51 | The fields become `CacheModel.FetchAndCache` of the old fields. A delivered refresh installs a fresh array; otherwise the array is untouched. The invariant is kept. |
| `ProxyServer.Cache.GetCountries` | backend/server.js:54-73 | New fields and response equal `CacheModel.GetCountries`. The optional sort acts on the cached array in place. With a valid cache the array object stays the same. |
| `ProxyServer.Cache.GetPopulation` | backend/server.js:76-89 | New fields and response equal `CacheModel.GetPopulation`. The invariant is kept. |
| `ProxyServer.Cache.PostFlag` | backend/server.js:92-118 | New fields and response equal `CacheModel.PostFlag`. The country array is untouched. |
| `Sorting.SortArray` | backend/server.js:65 | Sorting the array in place leaves it holding the stable insertion sort of its old contents. |
| `Sorting.InsertInPlace` | backend/server.js:65 | One in-place pass inserts `a[i]` into the sorted prefix exactly as the functional insert does. The rest of the array is unchanged. |
| `Sorting.SortPermutes` | backend/server.js:65 | The sort only reorders: the result is a permutation of its input, of the same length. |
| `Sorting.SortSorted` | backend/server.js:65 | For a total preorder the result is ordered: each element is no later than every element after it. |
| `Sorting.SortIdempotent` | backend/server.js:65 | Sorting twice gives the same result as sorting once. |
| `Text.LexLeTotal` | backend/server.js:65 | Any two names are comparable under the order standing for `localeCompare`. |
| `Text.LexLeTransitive` | backend/server.js:65 | The name order is transitive. |
| `CacheProperties.CountryLeIsTotalPreorder` | backend/server.js:65 | The comparator on countries by name is a total preorder. |
| `CacheProperties.SortByNameSpec` | backend/server.js:65 | Sorting by name yields a name-ordered permutation of the list. Sorting it again changes nothing. |
| `CacheProperties.ValidityWindow` | backend/server.js:22-42 | An unset or zero timestamp is never valid. Validity is lost 15 minutes (900000 ms) after the timestamp. A delivered refresh stamped at a non-zero time t is valid at every instant before t + 900000. |
| `CacheProperties.ValidityIsMonotone` | backend/server.js:25-27 | A cache valid at some instant is valid at every earlier instant. |
| `CacheProperties.RefreshAllOrNothing` | backend/server.js:30-51 | A refresh sets both lists and the timestamp together, only when both bodies carry `data`. Otherwise the state is unchanged. Flags are never touched, and the invariant is kept. |
| `CacheProperties.FailedRefreshServesStale` | backend/server.js:44-84 | A failed refresh is swallowed. The unsorted countries request and the population request still answer, from the previous snapshot, and the state is unchanged. |
| `CacheProperties.ValidCacheSkipsUpstream` | backend/server.js:54-89 | With a valid cache, neither bulk handler depends on the upstream input. The timestamp and population data stay the same. An unsorted request returns the cached list and leaves the state unchanged. |
| `CacheProperties.AlphabeticalSortsTheCache` | backend/server.js:60-71 | With `sort=alphabetical`, the cached list is replaced by a name-ordered permutation of itself, and exactly that is returned. With no cached list the answer is 500. Nothing else changes. |
| `CacheProperties.SortedOrderPersists` | backend/server.js:56-68 | After a sorted request, whether or not it refreshed first, a later request within the validity window, sorted or not, returns the sorted list. |
| `CacheProperties.PopulationErrorExactly` | backend/server.js:76-89 | The answer is 500 with the no-data message exactly when nothing was ever committed and this refresh does not deliver. Otherwise the answer is the population data cached after the optional refresh. |
| `CacheProperties.FlagBadRequestFirst` | backend/server.js:94-98 | A missing or empty `country` gets 400 with its message, with the state unchanged and no dependence on the upstream call. |
| `CacheProperties.FlagCacheHit` | backend/server.js:100-102 | A stored flag is returned with no upstream call and no state change. |
| `CacheProperties.FlagCacheMiss` | backend/server.js:104-117 | On a miss, a truthy upstream flag is stored under `country` and returned. A missing flag gives 404 and a thrown call gives 500, each with its message and both storing nothing. No other entry changes. |
| `CacheProperties.HandleKeepsInvariantAndFlags` | backend/server.js:30-118 | Every handler keeps the invariant and keeps every stored flag with its value. The invariant is: lists and timestamp are set together, and stored flags are non-empty. |
| `CacheProperties.RunKeepsInvariantAndFlags` | backend/server.js:30-118 | Along any sequence of requests the invariant holds, and no stored flag is evicted or changed, across refreshes and expiry. |
| `CacheProperties.StoredFlagServedForever` | backend/server.js:100-109 | Once a flag is stored, a request for that country after any other requests returns the identical value with no upstream call. |
| `CacheProperties.InitialInvariant` | backend/server.js:14-19 | The initial record satisfies the invariant and is not valid at any clock reading. |
| `CacheProperties.ExpiredCacheRefreshes` | backend/server.js:26-80 | When the cache is not valid (never refreshed, or 900000 ms old or older), both bulk handlers refresh first. The timestamp becomes the refresh's second clock reading when it delivers, and stays as it was otherwise. After a delivered refresh an unsorted countries request gets the new upstream list in upstream order, and the population request gets the new population list. |
| `CacheProperties.FirstRequestRefreshes` | backend/server.js:54-80 | The never-refreshed case of `ExpiredCacheRefreshes`: before any successful refresh, every bulk request refreshes first. An unsorted countries request then answers with the refreshed list, and the refresh's timestamp is set exactly when it delivered. |
| `CacheProperties.FirstRequestFranceExample` | backend/server.js:54-68 | With the France example, a first countries request answers with exactly that list and stamps the refresh. |
| `Text.Includes` | src/App.js:107-108 | `includes` is true exactly when the term occurs at some position of the string. |
| `Text.LowerIdempotent` | src/App.js:84 | Lower-casing an already lower-cased string changes nothing. |
| `Seqs.Filter` | src/App.js:105-109 | `filter` yields an order-preserving subsequence that holds each satisfying element as often as the input and no other element. |
| `AppProperties.SearchFilter` | src/App.js:83-109 | The search keeps, in order, exactly the countries whose lower-cased name or capital contains the lower-cased input. The stored term is lower-case. An empty search keeps all countries. |
| `App.FindCity` | src/App.js:112-114 | `find` returns the first index whose city equals the capital ignoring case, or none when no city matches. |
| `AppProperties.PopulationLookup` | src/App.js:111-116 | The lookup gives the first count of the first matching city, and 0 when no city matches. |
| `AppProperties.FirstCountZero` | src/App.js:115 | A city's count is 0 when its count list is empty or the first value is missing. Otherwise it is that value, so a value of 0 also gives 0. |
| `App.ChartRows` | src/App.js:131-135 | The map step gives one row per filtered country. |
| `AppProperties.RankedSpec` | src/App.js:136-137 | The sorted rows are a permutation of the positive rows, largest population first. |
| `AppProperties.ChartShape` | src/App.js:131-138 | The chart has at most 20 entries. Each has a positive population, and populations do not increase along the list. |
| `AppProperties.ChartFromFiltered` | src/App.js:131-135 | Each chart entry is a filtered country's name with its capital's population. |
| `AppProperties.SortedPrefixDominates` | src/App.js:137-138 | In a list sorted largest first, no element after the cut is larger than any element before it. |
| `AppProperties.ChartIsTopTwenty` | src/App.js:136-138 | The chart's entries are positive rows, and no positive row left out is larger than any entry. It shows exactly 20 entries, or all positive rows when there are at most 20. |
| `AppProperties.BucketListAdd` | src/App.js:99-103 | Adding a listed name leaves the list unchanged; otherwise the name is appended at the end. A duplicate-free list stays duplicate-free. Adding twice is adding once. |
| `AppProperties.BucketListAfterClicks` | src/App.js:99-103 | After any clicks, the list is duplicate-free, begins with the old list, and holds exactly the old names plus the clicked ones. |
| `App.FlagFor` | src/App.js:64-66 | A card's flag is never empty. It is the placeholder or the flag of a success response. |
| `AppProperties.FlagFallback` | src/App.js:64-66 | The flag is the server's truthy `data.flag`. Otherwise, including when the request threw, it is `/placeholder.png`. Name and capital are kept. |
| `AppProperties.CardShowsProxyFlag` | src/App.js:58-64 | Across both halves, a card shows one of: the flag the proxy had stored, the flag it fetched and stored on a miss, or the placeholder after a 404 or 500. |
| `App.FetchData` | src/App.js:54-71 | Data loads exactly when the corrected response test passes. Then there is one card per country, and the population list is the server's. |
| `AppProperties.FetchDataCards` | src/App.js:55-70 | Each card is its country with the flag from its own request, in the server's order. |
| `AppProperties.AsWrittenNeverLoads` | src/App.js:54 | As written, the response test rejects every pair of responses the server can send. |
| `AppProperties.FranceExample` | src/App.js:54 | The server answers both requests with 200 for the France example, yet the as-written test rejects them. The corrected test accepts them. The Paris lookup, in any letter case, gives 2148000. |
| `AppProperties.CorrectedLoadsWhenCached` | src/App.js:54 | With the corrected test, the dashboard loads whenever the proxy holds a snapshot. |

## Left out

- Express setup, CORS, the port and the listener (backend/server.js:1-11, 121-124). The refresh at
  start-up is `FetchAndCacheData` called on a new `Cache`.
- The HTTP calls (axios, `fetch`). Their outcomes are inputs, as described above. The clock is a
  parameter.
- Concurrency: `Promise.all`, and requests interleaving while a refresh is in flight. Each
  handler is one sequential transition. The source has no single-flight guard, so the model has
  none either.
- `localeCompare` is modelled by `Text.LexLe`, a lexicographic order by character code, not a
  locale-aware, case-insensitive collation.
- `toLowerCase` is modelled by `Text.Lower`, which lower-cases ASCII only.
- `toLocaleString` formatting, JSX rendering, recharts, the dark-mode toggle, `localStorage`, and
  the loading and error screens are not modelled.
- `cache.flags` is a plain object. A key inherited from `Object.prototype` (such as
  `"constructor"`) is truthy without ever being stored. The model's flag map has no such keys.
- The `country` field of the flag request is modelled as absent, or as a string. Truthy
  non-string values (numbers, objects) are not modelled.
- Upstream records are modelled with the fields the code reads.
- A truthy but non-array `data` field, or an entry without `name`, would make the sort throw.
  Neither is modelled.
- A missing `populationCounts` field, which makes `getPopulationForCapital` throw, is not
  modelled.
- Population values are JavaScript numbers in the source: they may be non-integers or `NaN`, and
  they pass through `|| 0`, `> 0` and `b.population - a.population` (src/App.js:115, 136-137).
  `PopulationCount.value` is an `int`, so fractional values and `NaN` are not modelled.
- `App.FetchData` takes the proxy's responses as inputs. So the dashboard's own `fetch` or
  `json()` throwing (src/App.js:46-52, caught at 75-77, which shows the error screen) is not
  modelled.
- The 500 body of `/api/countries` (`{error: ...}`) is modelled as the constant `CountriesError`.
- `addToBucketList` tests the list of the current render, but appends through the state
  updater's previous list. Two clicks handled before one re-render can therefore append a name
  twice. React's scheduling is not modelled: the model applies clicks one at a time, each seeing
  the previous result.
- CacheProperties.SortByNameSpec: states that the result is ordered and a permutation, and that
  sorting is idempotent. It does not state stability. The insertion sort is stable by
  construction, as ECMAScript 2019 requires of `Array.prototype.sort`.

## Findings

| source | as written | input that shows it | evidently intended | confidence | as-written member | corrected member |
|---|---|---|---|---|---|---|
| src/App.js:54 | `fetchData` requires `countriesData.status === 'success'`. But `/api/countries` sends a bare array (backend/server.js:68), which has no `status`, so every load fails and the error screen shows. | The France example: both requests answer 200, and `countriesData` is `[{name: 'France', capital: 'Paris'}]`. | The dashboard loads the list the server sends. | not executed; high | `AppProperties.AsWrittenNeverLoads` | `AppProperties.CorrectedLoadsWhenCached` |
