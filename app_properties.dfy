/** What the view logic of src/App.js guarantees, stated over the App module. */
module AppProperties {
  import opened Base
  import opened Text
  import opened Seqs
  import opened Sorting
  import opened Upstream
  import opened App
  import CacheModel
  import CacheProperties

  /**
   * The search keeps, in their order, exactly the countries whose lower-cased name or capital
   * contains the lower-cased input; the stored term is itself lower-case, and an empty search
   * keeps every country.
   */
  lemma SearchFilter(countries: seq<CountryCard>, input: string)
    ensures var term := HandleSearch(input);
            var r := FilteredCountries(countries, term);
            && Lower(term) == term
            && IsSubsequence(r, countries)
            && (forall i :: 0 <= i < |r| ==> MatchesSearch(r[i], term))
            && (forall c :: multiset(r)[c] == if MatchesSearch(c, term) then multiset(countries)[c] else 0)
            && (input == "" ==> r == countries)
  {
    LowerIdempotent(input);
    if input == "" {
      forall i | 0 <= i < |countries| ensures MatchesSearch(countries[i], HandleSearch(input)) {
        assert HandleSearch(input) == "";
        IncludesEmpty(Lower(countries[i].name));
      }
      FilterKeepsAll(countries, c => MatchesSearch(c, HandleSearch(input)));
    }
  }

  /**
   * The lookup answers with the first count of the first city whose name equals the capital
   * ignoring case, and 0 when no city matches.
   */
  lemma PopulationLookup(data: seq<CityPop>, capital: string)
    ensures (forall j :: 0 <= j < |data| ==> !SameCity(data[j], capital)) ==> GetPopulationForCapital(data, capital) == 0
    ensures forall i :: 0 <= i < |data| && SameCity(data[i], capital) && (forall j :: 0 <= j < i ==> !SameCity(data[j], capital)) ==>
              GetPopulationForCapital(data, capital) == FirstCount(data[i])
  {
  }

  /** The first count of a city is 0 when the list is empty or the first value is missing or 0. */
  lemma FirstCountZero(city: CityPop)
    ensures |city.populationCounts| == 0 ==> FirstCount(city) == 0
    ensures |city.populationCounts| > 0 && city.populationCounts[0].value.None? ==> FirstCount(city) == 0
    ensures |city.populationCounts| > 0 && city.populationCounts[0].value.Some? ==>
              FirstCount(city) == city.populationCounts[0].value.value
  {
  }

  lemma ByPopulationDescIsTotalPreorder()
    ensures Total(ByPopulationDesc) && Transitive(ByPopulationDesc)
  {
  }

  /** The positive rows, which the chart is cut from. */
  function Positive(filtered: seq<CountryCard>, data: seq<CityPop>): seq<ChartEntry> {
    Filter(ChartRows(filtered, data), HasPopulation)
  }

  lemma RankedSpec(filtered: seq<CountryCard>, data: seq<CityPop>)
    ensures multiset(Ranked(filtered, data)) == multiset(Positive(filtered, data))
    ensures |Ranked(filtered, data)| == |Positive(filtered, data)|
    ensures Sorted(Ranked(filtered, data), ByPopulationDesc)
  {
    ByPopulationDescIsTotalPreorder();
    SortPermutes(Positive(filtered, data), ByPopulationDesc);
    SortSorted(Positive(filtered, data), ByPopulationDesc);
  }

  /** The chart has at most 20 bars, each with a positive population, largest first. */
  lemma ChartShape(filtered: seq<CountryCard>, data: seq<CityPop>)
    ensures var r := ChartData(filtered, data);
            && |r| <= ChartSize
            && (forall k :: 0 <= k < |r| ==> r[k].population > 0)
            && (forall k, l :: 0 <= k < l < |r| ==> r[k].population >= r[l].population)
  {
    RankedSpec(filtered, data);
    var ranked := Ranked(filtered, data);
    var pos := Positive(filtered, data);
    var r := ChartData(filtered, data);
    forall k | 0 <= k < |r| ensures r[k].population > 0 {
      assert r[k] in multiset(ranked);
      assert r[k] in pos;
    }
  }

  /** Every bar is a country of the filtered list, with its capital's population. */
  lemma ChartFromFiltered(filtered: seq<CountryCard>, data: seq<CityPop>)
    ensures var r := ChartData(filtered, data);
            forall k :: 0 <= k < |r| ==>
              exists i :: 0 <= i < |filtered| && r[k] == ChartEntry(filtered[i].name, GetPopulationForCapital(data, filtered[i].capital))
  {
    RankedSpec(filtered, data);
    var rows := ChartRows(filtered, data);
    var ranked := Ranked(filtered, data);
    var r := ChartData(filtered, data);
    SubsequenceElements(Positive(filtered, data), rows);
    forall k | 0 <= k < |r|
      ensures exists i :: 0 <= i < |filtered| && r[k] == ChartEntry(filtered[i].name, GetPopulationForCapital(data, filtered[i].capital))
    {
      assert r[k] in multiset(ranked);
      assert r[k] in Positive(filtered, data);
      var i :| 0 <= i < |rows| && rows[i] == r[k];
    }
  }

  /** In a sequence sorted largest first, nothing after position m is larger than anything before it. */
  lemma SortedPrefixDominates(ranked: seq<ChartEntry>, m: nat)
    requires Sorted(ranked, ByPopulationDesc) && m <= |ranked|
    ensures forall e: ChartEntry, k :: e in multiset(ranked[m..]) && 0 <= k < m ==> e.population <= ranked[k].population
  {
    forall e: ChartEntry, k | e in multiset(ranked[m..]) && 0 <= k < m ensures e.population <= ranked[k].population {
      assert e in ranked[m..];
      var n :| 0 <= n < |ranked| - m && ranked[m..][n] == e;
      assert ByPopulationDesc(ranked[k], ranked[m + n]);
    }
  }

  /**
   * The chart is the top 20: its bars are positive rows, no positive row left out has a larger
   * population than any bar, it shows 20 bars or all positive rows when there are fewer, and
   * when there are at most 20 positive rows all of them are shown.
   */
  lemma ChartIsTopTwenty(filtered: seq<CountryCard>, data: seq<CityPop>)
    ensures var r := ChartData(filtered, data);
            var pos := Positive(filtered, data);
            && multiset(r) <= multiset(pos)
            && (forall e: ChartEntry, k :: e in multiset(pos) - multiset(r) && 0 <= k < |r| ==> e.population <= r[k].population)
            && (|pos| <= ChartSize ==> multiset(r) == multiset(pos))
            && |r| == if |pos| <= ChartSize then |pos| else ChartSize
  {
    RankedSpec(filtered, data);
    var ranked := Ranked(filtered, data);
    var pos := Positive(filtered, data);
    var r := ChartData(filtered, data);
    assert r == ranked[..|r|];
    assert ranked == r + ranked[|r|..];
    assert multiset(pos) == multiset(r) + multiset(ranked[|r|..]);
    assert multiset(pos) - multiset(r) == multiset(ranked[|r|..]);
    SortedPrefixDominates(ranked, |r|);
  }

  /**
   * addToBucketList leaves the list as it is when `name` is in it, and otherwise appends it at
   * the end; a duplicate-free list stays duplicate-free.
   */
  lemma BucketListAdd(list: seq<string>, name: string)
    ensures name in list ==> AddToBucketList(list, name) == list
    ensures name !in list ==> AddToBucketList(list, name) == list + [name]
    ensures NoDuplicates(list) ==> NoDuplicates(AddToBucketList(list, name))
    ensures AddToBucketList(AddToBucketList(list, name), name) == AddToBucketList(list, name)
  {
  }

  /**
   * After any clicks the bucket list is duplicate-free, begins with the old list, and holds
   * exactly the old names and the clicked ones.
   */
  lemma {:induction false} BucketListAfterClicks(list: seq<string>, names: seq<string>)
    requires NoDuplicates(list)
    ensures var r := AddAll(list, names);
            && NoDuplicates(r)
            && |list| <= |r| && r[..|list|] == list
            && (forall n :: n in r <==> n in list || n in names)
    decreases |names|
  {
    if names != [] {
      var next := AddToBucketList(list, names[0]);
      BucketListAdd(list, names[0]);
      BucketListAfterClicks(next, names[1..]);
      var r := AddAll(list, names);
      assert next[..|list|] == list;
      assert r[..|next|][..|list|] == r[..|list|];
      forall n ensures n in r <==> n in list || n in names {
        assert n in names <==> n == names[0] || n in names[1..];
      }
    }
  }

  /**
   * Each card's flag is the server's `data.flag` when that is truthy, and the placeholder when
   * the response has no flag or the request threw.
   */
  lemma FlagFallback(c: Country, x: FlagFetch)
    ensures x.Received? && x.response.FlagOk? && x.response.flag != "" ==> WithFlag(c, x).flag == x.response.flag
    ensures x.FetchThrew? || !x.response.FlagOk? || x.response.flag == "" ==> WithFlag(c, x).flag == Placeholder
    ensures WithFlag(c, x).name == c.name && WithFlag(c, x).capital == c.capital
  {
  }

  /**
   * End to end with the proxy: a card's flag is the flag the proxy stored for the country, the
   * one it fetched and stored on a miss, or the placeholder when the proxy answered 404 or 500.
   */
  lemma CardShowsProxyFlag(s: CacheModel.CacheState, c: Country, up: Reply<string>)
    requires CacheModel.Invariant(s)
    requires c.name != ""
    ensures var h := CacheModel.PostFlag(s, Some(c.name), up);
            var card := WithFlag(c, Received(h.response));
            && (c.name in s.flags ==> card.flag == s.flags[c.name])
            && (c.name !in s.flags && up.Body? && up.data.Some? && up.data.value != "" ==>
                  card.flag == up.data.value && h.state.flags[c.name] == card.flag)
            && (c.name !in s.flags && (up.NetworkError? || up.data.None? || up.data.value == "") ==> card.flag == Placeholder)
  {
  }

  /** fetchData gives every country its card, in the server's order, with the flag of its own request. */
  lemma FetchDataCards(cr: CacheModel.CountriesResponse, pr: CacheModel.PopulationResponse, flagReplies: seq<FlagFetch>)
    requires Loads(cr, pr) && |flagReplies| == |cr.list.value|
    ensures var r := FetchData(cr, pr, flagReplies);
            && r.Some?
            && forall i :: 0 <= i < |cr.list.value| ==>
                 r.value.countries[i] == WithFlag(cr.list.value[i], flagReplies[i]) && r.value.countries[i].flag != ""
  {
  }

  /** As written, fetchData rejects every pair of responses the server can send. */
  lemma AsWrittenNeverLoads(cr: CacheModel.CountriesResponse, pr: CacheModel.PopulationResponse)
    ensures !LoadsAsWritten(cr, pr)
  {
  }

  /**
   * The example from upstream: the server answers 200 with the France list and the population
   * data, yet the as-written test rejects the pair; the corrected one accepts it, and the
   * lookup for Paris, in any letter case, gives 2148000.
   */
  lemma FranceExample(now: int)
    requires now != 0
    ensures var france := [Country("France", "Paris")];
            var paris := [CityPop("Paris", [PopulationCount(2019, Some(2148000))])];
            var up := BulkFetch(Body(Some(france)), Body(Some(paris)), now);
            var h1 := CacheModel.GetCountries(CacheModel.Initial, now, up, None);
            var h2 := CacheModel.GetPopulation(h1.state, now, up);
            && h1.response.Status() == 200 && h2.response.Status() == 200
            && !LoadsAsWritten(h1.response, h2.response)
            && Loads(h1.response, h2.response)
            && GetPopulationForCapital(paris, "Paris") == 2148000
            && GetPopulationForCapital(paris, "PARIS") == 2148000
  {
    var paris := [CityPop("Paris", [PopulationCount(2019, Some(2148000))])];
    assert SameCity(paris[0], "PARIS");
  }

  /**
   * With the corrected test the dashboard loads whenever the proxy holds a snapshot: the
   * countries request finds a list, and the population request that follows finds data.
   */
  lemma CorrectedLoadsWhenCached(c: CacheModel.CacheState, now: int, up1: BulkFetch, up2: BulkFetch)
    requires CacheModel.Invariant(c)
    requires CacheModel.Refreshed(c, now, up1).countries.Some?
    ensures var h1 := CacheModel.GetCountries(c, now, up1, None);
            var h2 := CacheModel.GetPopulation(h1.state, now, up2);
            Loads(h1.response, h2.response)
  {
    CacheProperties.RefreshAllOrNothing(c, up1);
    var d := CacheModel.Refreshed(c, now, up1);
    CacheProperties.RefreshAllOrNothing(d, up2);
  }
}
