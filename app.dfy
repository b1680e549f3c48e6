/**
 * The view logic of the dashboard in src/App.js: what it does with the server's responses, the
 * search filter, the capital-to-population lookup, the top-20 chart and the bucket list.
 * React state, rendering and the browser are not modelled; each helper is a function of the
 * values it reads.
 */
module App {
  import opened Base
  import opened Text
  import opened Seqs
  import opened Sorting
  import opened Upstream
  import CacheModel

  const Placeholder: string := "/placeholder.png"

  /** How many entries the chart shows at most. */
  const ChartSize: nat := 20

  /** A country as the dashboard holds it: the server's record with a flag URL added. */
  datatype CountryCard = CountryCard(name: string, capital: string, flag: string)

  /** How one flag request made by fetchData ended: the fetch or the JSON decoding threw, or a response arrived. */
  datatype FlagFetch = FetchThrew | Received(response: CacheModel.FlagResponse)

  /** `flagData.data?.flag`: only a success response carries a `data` field. */
  function DataFlag(r: CacheModel.FlagResponse): Option<string> {
    if r.FlagOk? then Some(r.flag) else None
  }

  /** `flagData.data?.flag || '/placeholder.png'`, and the placeholder when the request threw. */
  function FlagFor(x: FlagFetch): (f: string)
    ensures f != ""
    ensures f == Placeholder || (x.Received? && x.response == CacheModel.FlagOk(f))
  {
    match x
    case FetchThrew => Placeholder
    case Received(r) =>
      var d := DataFlag(r);
      if d.Some? && d.value != "" then d.value else Placeholder
  }

  function WithFlag(c: Country, x: FlagFetch): CountryCard {
    CountryCard(c.name, c.capital, FlagFor(x))
  }

  /** The shape of a JSON response body, as far as fetchData inspects it. */
  datatype JsonBody = JsonNull | JsonArray(countries: seq<Country>) | JsonObject(status: Option<string>)

  /** The body sent by GET /api/countries: the bare array or `null`, or `{error: ...}` on 500. */
  function CountriesBody(r: CacheModel.CountriesResponse): JsonBody {
    match r
    case CountriesJson(None) => JsonNull
    case CountriesJson(Some(list)) => JsonArray(list)
    case CountriesError => JsonObject(None)
  }

  /** The body sent by GET /api/population: `{status: 'success', data}` or `{status: 'error', message}`. */
  function PopulationBody(r: CacheModel.PopulationResponse): JsonBody {
    if r.PopulationOk? then JsonObject(Some("success")) else JsonObject(Some("error"))
  }

  /** Reading `.status` of a body: arrays have none, and reading it of `null` throws (caught as a failure). */
  function StatusField(b: JsonBody): Option<string> {
    if b.JsonObject? then b.status else None
  }

  /** The test fetchData applies to the two responses, as written: both bodies must say `status: 'success'`. */
  predicate LoadsAsWritten(cr: CacheModel.CountriesResponse, pr: CacheModel.PopulationResponse) {
    StatusField(CountriesBody(cr)) == Some("success") && StatusField(PopulationBody(pr)) == Some("success")
  }

  /** The corrected test: the countries body is the array the server sends, the population body says success. */
  predicate Loads(cr: CacheModel.CountriesResponse, pr: CacheModel.PopulationResponse) {
    CountriesBody(cr).JsonArray? && StatusField(PopulationBody(pr)) == Some("success")
  }

  /** What fetchData puts on screen: the countries with their flags and the population list. */
  datatype Loaded = Loaded(countries: seq<CountryCard>, populationData: seq<CityPop>)

  /**
   * fetchData with the corrected test. `flagReplies[i]` is how the flag request for the i-th
   * country ended. None stands for the error screen.
   */
  function FetchData(cr: CacheModel.CountriesResponse, pr: CacheModel.PopulationResponse, flagReplies: seq<FlagFetch>): (r: Option<Loaded>)
    requires Loads(cr, pr) ==> |flagReplies| == |cr.list.value|
    ensures r.Some? <==> Loads(cr, pr)
    ensures r.Some? ==> |r.value.countries| == |cr.list.value| && r.value.populationData == pr.data
  {
    if Loads(cr, pr) then
      var list := cr.list.value;
      Some(Loaded(seq(|list|, i requires 0 <= i < |list| => WithFlag(list[i], flagReplies[i])), pr.data))
    else
      None
  }

  /** handleSearch stores the input lower-cased. */
  function HandleSearch(input: string): string {
    Lower(input)
  }

  predicate MatchesSearch(c: CountryCard, searchTerm: string) {
    Includes(Lower(c.name), searchTerm) || Includes(Lower(c.capital), searchTerm)
  }

  /** filteredCountries. */
  function FilteredCountries(countries: seq<CountryCard>, searchTerm: string): seq<CountryCard> {
    Filter(countries, c => MatchesSearch(c, searchTerm))
  }

  predicate SameCity(city: CityPop, capital: string) {
    Lower(city.city) == Lower(capital)
  }

  /** Array.prototype.find over the population list: the index of the first city named `capital`, ignoring case. */
  function FindCity(data: seq<CityPop>, capital: string): (r: Option<nat>)
    ensures r.Some? ==> r.value < |data| && SameCity(data[r.value], capital)
    ensures r.Some? ==> forall j :: 0 <= j < r.value ==> !SameCity(data[j], capital)
    ensures r.None? ==> forall j :: 0 <= j < |data| ==> !SameCity(data[j], capital)
  {
    if data == [] then None
    else if SameCity(data[0], capital) then Some(0)
    else
      match FindCity(data[1..], capital)
      case None => None
      case Some(i) => Some(i + 1)
  }

  /** `cityData?.populationCounts[0]?.value || 0` for a found city. */
  function FirstCount(city: CityPop): int {
    if |city.populationCounts| == 0 then 0
    else match city.populationCounts[0].value
      case None => 0
      case Some(v) => v
  }

  /** getPopulationForCapital. */
  function GetPopulationForCapital(data: seq<CityPop>, capital: string): int {
    match FindCity(data, capital)
    case None => 0
    case Some(i) => FirstCount(data[i])
  }

  /** One bar of the chart. */
  datatype ChartEntry = ChartEntry(name: string, population: int)

  /** The `.map` step of chartData: each country's name with its capital's population. */
  function ChartRows(filtered: seq<CountryCard>, data: seq<CityPop>): (r: seq<ChartEntry>)
    ensures |r| == |filtered|
  {
    seq(|filtered|, i requires 0 <= i < |filtered| =>
      ChartEntry(filtered[i].name, GetPopulationForCapital(data, filtered[i].capital)))
  }

  predicate HasPopulation(e: ChartEntry) {
    e.population > 0
  }

  /** The comparator `(a, b) => b.population - a.population`, as "a sorts no later than b". */
  predicate ByPopulationDesc(a: ChartEntry, b: ChartEntry) {
    b.population - a.population <= 0
  }

  /** The chart's bars before the cut: the positive rows, sorted by population, largest first. */
  function Ranked(filtered: seq<CountryCard>, data: seq<CityPop>): seq<ChartEntry> {
    InsertionSort(Filter(ChartRows(filtered, data), HasPopulation), ByPopulationDesc)
  }

  /** chartData: map, filter, sort, `.slice(0, 20)`. */
  function ChartData(filtered: seq<CountryCard>, data: seq<CityPop>): seq<ChartEntry> {
    var ranked := Ranked(filtered, data);
    if |ranked| <= ChartSize then ranked else ranked[..ChartSize]
  }

  /** addToBucketList: appends `name` unless it is already in the list. */
  function AddToBucketList(list: seq<string>, name: string): seq<string> {
    if name in list then list else list + [name]
  }

  /** The bucket list after the "Add to Bucket List" clicks `names`, in order. */
  function AddAll(list: seq<string>, names: seq<string>): seq<string>
    decreases |names|
  {
    if names == [] then list else AddAll(AddToBucketList(list, names[0]), names[1..])
  }
}
