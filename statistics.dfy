/**
 * The business-enrichment statistics of
 * src/_workflows/businessEnrichment/statisticsHelper.ts: counts over the
 * workflow's results and the two rounded percentages. Each result is read as
 * `result.enrichedData`, which throws when the result itself is `null` or
 * `undefined`.
 */
module Statistics {
  import opened Wrappers
  import opened Values

  datatype Statistics = Statistics(
    totalCompanies: nat,
    foundOnGooglePlaces: nat,
    notFoundOnGooglePlaces: int,
    foundWithWebsite: nat,
    foundWebsiteViaSearch: Option<nat>,
    successRate: int,
    websiteRate: int)

  /** `v !== undefined && v !== null && v !== ''` */
  predicate Present(v: Value)
  {
    v != Undefined && v != Null && v != Str("")
  }

  /** `enrichedData?.googlePlace !== undefined`: a `null` place counts as found. */
  predicate FoundOnPlaces(data: Value)
  {
    Opt(data, "googlePlace") != Undefined
  }

  /** The place found on Google Places has a website. */
  predicate PlaceWebsite(data: Value)
  {
    Present(Opt(Opt(data, "googlePlace"), "website"))
  }

  /** The website search found a website. */
  predicate SearchWebsite(data: Value)
  {
    Present(Opt(data, "websiteSearchResult"))
  }

  datatype Criterion = OnPlaces | WithPlaceWebsite | WithSearchWebsite | WithAnyWebsite

  predicate Holds(c: Criterion, data: Value)
  {
    match c
    case OnPlaces => FoundOnPlaces(data)
    case WithPlaceWebsite => PlaceWebsite(data)
    case WithSearchWebsite => SearchWebsite(data)
    case WithAnyWebsite => PlaceWebsite(data) || SearchWebsite(data)
  }

  /** `results.filter(...).length` over the `enrichedData` of each result. */
  function Count(data: seq<Value>, c: Criterion): (n: nat)
    ensures n <= |data|
    ensures n == 0 <== forall i | 0 <= i < |data| :: !Holds(c, data[i])
  {
    if data == [] then 0
    else (if Holds(c, data[0]) then 1 else 0) + Count(data[1..], c)
  }

  /** The `enrichedData` of every result, or the TypeError the first `null` or `undefined` result throws. */
  function EnrichedData(results: seq<Value>): (r: Result<seq<Value>>)
    ensures r.Ok? <==> forall i | 0 <= i < |results| :: !Nullish(results[i])
    ensures r.Ok? ==> |r.value| == |results| && forall i | 0 <= i < |results| :: Get(results[i], "enrichedData") == Ok(r.value[i])
  {
    if results == [] then Ok([])
    else
      match Get(results[0], "enrichedData")
      case Err(e) => Err(e)
      case Ok(first) =>
        match EnrichedData(results[1..])
        case Err(e) => Err(e)
        case Ok(rest) => Ok([first] + rest)
  }

  /** `Math.round(x)`: the nearest integer, halves rounded up. */
  function Round(x: real): (r: int)
    ensures r as real <= x + 0.5 < r as real + 1.0
  {
    (x + 0.5).Floor
  }

  /** `total > 0 ? Math.round((part / total) * 100) : 0`, over exact rationals. */
  function Rate(part: nat, total: nat): (r: int)
    ensures total == 0 ==> r == 0
    ensures r >= 0
  {
    if total > 0 then Round((part as real / total as real) * 100.0) else 0
  }

  /** `generateGooglePlacesStatistics` */
  function GooglePlacesStatistics(results: seq<Value>): (r: Result<Statistics>)
    ensures r.Ok? <==> forall i | 0 <= i < |results| :: !Nullish(results[i])
  {
    match EnrichedData(results)
    case Err(e) => Err(e)
    case Ok(data) =>
      var total := |results|;
      var found := Count(data, OnPlaces);
      var withWebsite := Count(data, WithPlaceWebsite);
      Ok(Statistics(total, found, total - found, withWebsite, None, Rate(found, total), Rate(withWebsite, total)))
  }

  /** `generateWebsiteSearchStatistics` */
  function WebsiteSearchStatistics(results: seq<Value>): (r: Result<Statistics>)
    ensures r.Ok? <==> forall i | 0 <= i < |results| :: !Nullish(results[i])
  {
    match EnrichedData(results)
    case Err(e) => Err(e)
    case Ok(data) =>
      var total := |results|;
      var found := Count(data, OnPlaces);
      var fromPlaces := Count(data, WithPlaceWebsite);
      var viaSearch := Count(data, WithSearchWebsite);
      Ok(Statistics(total, found, total - found, fromPlaces + viaSearch, Some(viaSearch),
                    Rate(found, total), Rate(fromPlaces + viaSearch, total)))
  }

  // ---------------------------------------------------------------- properties

  /** A place with a website is a place found. */
  lemma WebsiteImpliesFound(data: Value)
    ensures PlaceWebsite(data) ==> FoundOnPlaces(data)
  {
  }

  /** So there are never more places with a website than places found. */
  lemma {:induction false} WebsitesWithinFound(data: seq<Value>)
    ensures Count(data, WithPlaceWebsite) <= Count(data, OnPlaces)
  {
    if data != [] {
      WebsiteImpliesFound(data[0]);
      WebsitesWithinFound(data[1..]);
    }
  }

  /** A rate over a part of the total lies in 0..100. */
  lemma RateBounded(part: nat, total: nat)
    requires part <= total
    ensures 0 <= Rate(part, total) <= 100
  {
    if total > 0 {
      var x := (part as real / total as real) * 100.0;
      assert part as real / total as real <= 1.0;
      assert x <= 100.0;
    }
  }

  /** The Google Places statistics: the total is the number of results, found and not found add up to it, every count and rate is in range, and both rates are 0 without results. */
  lemma GooglePlacesInvariants(results: seq<Value>)
    requires GooglePlacesStatistics(results).Ok?
    ensures var s := GooglePlacesStatistics(results).value;
      s.totalCompanies == |results| && s.foundOnGooglePlaces <= s.totalCompanies
      && s.notFoundOnGooglePlaces == s.totalCompanies - s.foundOnGooglePlaces >= 0
      && s.foundWithWebsite <= s.foundOnGooglePlaces
      && 0 <= s.successRate <= 100 && 0 <= s.websiteRate <= 100
      && (|results| == 0 ==> s.successRate == 0 && s.websiteRate == 0)
      && s.foundWebsiteViaSearch.None?
  {
    var data := EnrichedData(results).value;
    WebsitesWithinFound(data);
    RateBounded(Count(data, OnPlaces), |results|);
    RateBounded(Count(data, WithPlaceWebsite), |results|);
  }

  /** The website search statistics: websites from both sources are added up, so the success rate stays in 0..100 while the website rate only stays non-negative. */
  lemma WebsiteSearchInvariants(results: seq<Value>)
    requires WebsiteSearchStatistics(results).Ok?
    ensures var s := WebsiteSearchStatistics(results).value;
      s.totalCompanies == |results| && s.notFoundOnGooglePlaces == s.totalCompanies - s.foundOnGooglePlaces >= 0
      && s.foundWebsiteViaSearch.Some? && s.foundWebsiteViaSearch.value <= s.totalCompanies
      && s.foundWithWebsite <= s.foundOnGooglePlaces + s.foundWebsiteViaSearch.value
      && 0 <= s.successRate <= 100 && s.websiteRate >= 0
      && (|results| == 0 ==> s.successRate == 0 && s.websiteRate == 0)
  {
    var data := EnrichedData(results).value;
    WebsitesWithinFound(data);
    RateBounded(Count(data, OnPlaces), |results|);
  }

  /** One company with a website both on its place and from the search is counted twice: a website rate of 200. */
  lemma DoubleCountedWebsite()
    ensures var place := Obj(Records.Single("website", Str("a.com")));
      var data := Obj(Records.Rec(["googlePlace", "websiteSearchResult"],
                                  map["googlePlace" := place, "websiteSearchResult" := Str("a.com")]));
      var s := WebsiteSearchStatistics([Obj(Records.Single("enrichedData", data))]);
      s.Ok? && s.value.foundWithWebsite == 2 && s.value.websiteRate == 200
  {
    var place := Obj(Records.Single("website", Str("a.com")));
    var data := Obj(Records.Rec(["googlePlace", "websiteSearchResult"],
                                map["googlePlace" := place, "websiteSearchResult" := Str("a.com")]));
    var results := [Obj(Records.Single("enrichedData", data))];
    assert Get(results[0], "enrichedData") == Ok(data);
    assert results[1..] == [];
    assert EnrichedData(results[1..]) == Ok([]);
    assert [data] + [] == [data];
    assert EnrichedData(results) == Ok([data]);
    assert Count([data], WithPlaceWebsite) == 1;
    assert Count([data], WithSearchWebsite) == 1;
    assert Round(2.0 * 100.0) == 200;
  }

  /**
   * The website search statistics with each company counted once, whichever
   * source found its website: the count the "overall website rate" reports.
   */
  function CorrectedWebsiteSearchStatistics(results: seq<Value>): (r: Result<Statistics>)
    ensures r.Ok? <==> forall i | 0 <= i < |results| :: !Nullish(results[i])
  {
    match EnrichedData(results)
    case Err(e) => Err(e)
    case Ok(data) =>
      var total := |results|;
      var found := Count(data, OnPlaces);
      var withWebsite := Count(data, WithAnyWebsite);
      Ok(Statistics(total, found, total - found, withWebsite, Some(Count(data, WithSearchWebsite)),
                    Rate(found, total), Rate(withWebsite, total)))
  }

  /** Counted once per company, the website rate stays in 0..100 and never falls below the rate from either source alone. */
  lemma CorrectedWebsiteRateBounded(results: seq<Value>)
    requires CorrectedWebsiteSearchStatistics(results).Ok?
    ensures var s := CorrectedWebsiteSearchStatistics(results).value;
      0 <= s.websiteRate <= 100 && s.foundWithWebsite <= s.totalCompanies
      && s.foundWebsiteViaSearch.value <= s.foundWithWebsite
  {
    var data := EnrichedData(results).value;
    RateBounded(Count(data, WithAnyWebsite), |results|);
    SearchWithinAny(data);
  }

  lemma {:induction false} SearchWithinAny(data: seq<Value>)
    ensures Count(data, WithSearchWebsite) <= Count(data, WithAnyWebsite)
  {
    if data != [] {
      SearchWithinAny(data[1..]);
    }
  }
}
