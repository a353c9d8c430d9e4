/**
 * The EnrichmentAPI client (src/services/enrichmentApiService.ts): request
 * routing for companies and persons, LinkedIn-ID extraction, the cached GET
 * request and the sequential bulk operations. The HTTP server is a function
 * from request to reply, base64url encoding of the cache key a function
 * parameter, and the clock the `now` parameter.
 */
module Enrichment {
  import opened Wrappers
  import opened Records
  import opened Values
  import opened Strings
  import opened Json
  import opened Caches

  // ---------------------------------------------------------------- the cache

  /** The text `generateCacheKey` encodes: the endpoint, ':' and the JSON of the parameters with sorted keys. */
  function KeyText(endpoint: string, params: Rec<Value>): (r: string)
    requires Valid(params)
    ensures StartsWith(r, endpoint + ":{") && EndsWith(r, "}")
  {
    var r := endpoint + ":" + Stringify(Obj(SortedParams(params))).value;
    assert r[..|endpoint + ":{"|] == endpoint + ":{";
    r
  }

  /** `generateCacheKey`, with `encode` standing for base64url. */
  function CacheKey(endpoint: string, params: Rec<Value>, encode: string -> string): (r: string)
    requires Valid(params)
    ensures r == encode(KeyText(endpoint, SortedParams(params)))
  {
    SortedParamsOrderFree(params, SortedParams(params));
    encode(KeyText(endpoint, params))
  }

  /** Parameter objects with the same entries share a cache key, whatever the order of their keys. */
  lemma CacheKeyOrderFree(endpoint: string, p: Rec<Value>, q: Rec<Value>, encode: string -> string)
    requires Valid(p) && Valid(q) && p.fields == q.fields
    ensures CacheKey(endpoint, p, encode) == CacheKey(endpoint, q, encode)
  {
    SortedParamsOrderFree(p, q);
  }

  // ---------------------------------------------------------------- requests

  /** An `ApiResponse`: `{success: true, data}` or `{success: false, error}`. */
  datatype ApiResponse = Success(data: Value) | Failure(error: Value)

  /** A GET request: the endpoint and the query pairs, in order, before URL encoding. */
  datatype Request = Request(endpoint: string, query: seq<(string, string)>)

  /** What the server does with a request: answer with a body, or fail with the response body's `message` and the error's own message. */
  datatype Reply = Body(data: Value) | Failed(responseMessage: Value, message: Value)

  const NoApiKey := "ENRICHMENT_API_KEY not configured"

  /** `a || b` */
  function Or(a: Value, b: Value): Value
  {
    if Truthy(a) then a else b
  }

  /** The query pairs of `new URLSearchParams(r)` over the keys `ks`: each key with `String` of its value. */
  function QueryPairs(r: Rec<Value>, ks: seq<string>): (q: seq<(string, string)>)
    ensures |q| == |ks|
    ensures forall i | 0 <= i < |ks| :: q[i].0 == ks[i]
    ensures forall i | 0 <= i < |ks| :: q[i].1 == ToText(if ks[i] in r.fields then r.fields[ks[i]] else Undefined)
  {
    if ks == [] then []
    else [(ks[0], ToText(if ks[0] in r.fields then r.fields[ks[0]] else Undefined))] + QueryPairs(r, ks[1..])
  }

  /** The request `makeRequest` sends: the endpoint, and `{api_key, ...params}` as query pairs. */
  function Query(apiKey: string, endpoint: string, params: Rec<Value>): (r: Request)
    requires Valid(params)
    ensures r.endpoint == endpoint && |r.query| >= 1 && r.query[0].0 == "api_key"
  {
    var all := Spread(Single("api_key", Str(apiKey)), params);
    Request(endpoint, QueryPairs(all, all.keys))
  }

  /**
   * What that request carries: `api_key` first, holding the key unless the
   * parameters give their own `api_key`, then the parameters' other keys in
   * their order, each with `String` of its value.
   */
  lemma QuerySends(apiKey: string, endpoint: string, params: Rec<Value>)
    requires Valid(params)
    ensures var q := Query(apiKey, endpoint, params).query;
      var rest := NewKeys(params.keys, map["api_key" := Str(apiKey)]);
      |q| == 1 + |rest| && (forall i | 0 <= i < |rest| :: q[i + 1].0 == rest[i])
      && q[0] == ("api_key", if "api_key" in params.fields then ToText(params.fields["api_key"]) else apiKey)
      && forall i | 1 <= i < |q| :: q[i].0 in params.fields && q[i].1 == ToText(params.fields[q[i].0])
  {
    var first := Single("api_key", Str(apiKey));
    var all := Spread(first, params);
    var rest := NewKeys(params.keys, first.fields);
    var q := QueryPairs(all, all.keys);
    assert all.keys == ["api_key"] + rest;
    assert q[0].1 == ToText(all.fields["api_key"]);
    forall i | 1 <= i < |q| ensures q[i].0 in params.fields && q[i].1 == ToText(params.fields[q[i].0]) {
      var k := rest[i - 1];
      assert q[i].0 == k && k in rest;
      ParamKey(params, k);
    }
  }

  /** A listed key of a valid record has a value. */
  lemma ParamKey(params: Rec<Value>, k: string)
    requires Valid(params) && k in params.keys
    ensures k in params.fields
  {
    assert k in (set k' | k' in params.keys);
  }

  /**
   * `makeRequest`: the response, the request sent if any, and the cache
   * directory afterwards. Without an API key nothing is looked up or sent;
   * a truthy cached value is returned without a request; a reply's body is
   * stored in the cache.
   */
  function Respond(apiKey: Option<string>, files: Directory, defaultTtl: int, endpoint: string, params: Rec<Value>,
                   now: int, encode: string -> string, server: Request -> Reply): (r: (ApiResponse, Option<Request>, Directory))
    requires Valid(params)
    ensures apiKey.None? || apiKey.value == "" ==> r == (Failure(Str(NoApiKey)), None, files)
    ensures r.1.Some? ==> apiKey.Some? && r.1.value == Query(apiKey.value, endpoint, params)
    ensures r.0.Success? && r.1.None? ==> Lookup(files, CacheKey(endpoint, params, encode), now).0 == Some(r.0.data)
  {
    if apiKey.None? || apiKey.value == "" then (Failure(Str(NoApiKey)), None, files)
    else
      var key := CacheKey(endpoint, params, encode);
      var (hit, files1) := Lookup(files, key, now);
      if hit.Some? && Truthy(hit.value) then (Success(hit.value), None, files1)
      else
        var request := Query(apiKey.value, endpoint, params);
        match server(request)
        case Body(data) => (Success(data), Some(request), Store(files1, key, data, None, defaultTtl, now))
        case Failed(rm, m) => (Failure(Or(rm, Or(m, Str("Request failed")))), Some(request), files1)
  }

  // ---------------------------------------------------------------- routing

  /**
   * `linkedin.split(sep)[1].replace('/', '')`: the text between the first
   * `sep` and the next one (or the end), with its first '/' removed, when
   * `sep` occurs in `linkedin`; the input unchanged otherwise.
   */
  function ExtractId(linkedin: string, sep: string): (r: string)
    requires sep != ""
    ensures !Contains(linkedin, sep) ==> r == linkedin
    ensures Contains(linkedin, sep) ==> exists piece | PieceAfterFirst(linkedin, sep, piece) :: r == ReplaceFirst(piece, "/", "")
  {
    match SecondPiece(linkedin, sep)
    case None => linkedin
    case Some(piece) => ReplaceFirst(piece, "/", "")
  }

  /** A company search: the LinkedIn handle when given, else the name. */
  datatype CompanyQuery = CompanyQuery(name: Option<string>, linkedin: Option<string>)

  predicate Given(s: Option<string>)
  {
    s.Some? && s.value != ""
  }

  const CompanyParamRequired := "At least one search parameter is required (name or linkedin)"
  const PersonLinkedinRequired := "LinkedIn ID is required for EnrichmentAPI Person API"
  const EmailUnsupported := "Email search not supported by EnrichmentAPI Person API. Only LinkedIn ID is accepted."
  const NameUnsupported := "Name and company search not supported by EnrichmentAPI Person API. Only LinkedIn ID is accepted."

  /** The endpoint and parameters `enrichCompany` requests, or the message it fails with before any request. */
  function CompanyRoute(c: CompanyQuery): (r: Result<(string, Rec<Value>)>)
    ensures r.Err? <==> !Given(c.name) && !Given(c.linkedin)
    ensures r.Err? ==> r.error == CompanyParamRequired
    ensures Given(c.linkedin) ==> r == Ok(("/company", Single("company", Str(ExtractId(c.linkedin.value, "/company/")))))
    ensures !Given(c.linkedin) && Given(c.name) ==> r == Ok(("/company_to_domain", Single("company", Str(c.name.value))))
  {
    if !Given(c.name) && !Given(c.linkedin) then Err(CompanyParamRequired)
    else if Given(c.linkedin) then Ok(("/company", Single("company", Str(ExtractId(c.linkedin.value, "/company/")))))
    else Ok(("/company_to_domain", Single("company", Str(c.name.value))))
  }

  /** The endpoint and parameters `enrichPerson` requests, or the message it fails with before any request. */
  function PersonRoute(linkedin: Option<string>): (r: Result<(string, Rec<Value>)>)
    ensures r.Err? <==> !Given(linkedin)
    ensures r.Err? ==> r.error == PersonLinkedinRequired
    ensures r.Ok? ==> r.value == ("/person", Single("linkedin_id", Str(ExtractId(linkedin.value, "/in/"))))
  {
    if !Given(linkedin) then Err(PersonLinkedinRequired)
    else Ok(("/person", Single("linkedin_id", Str(ExtractId(linkedin.value, "/in/")))))
  }

  /** `searchPersonByEmail`: always a fixed failure, no request. */
  function SearchPersonByEmail(email: string): (r: ApiResponse)
    ensures r.Failure? && r.error == Str(EmailUnsupported)
  {
    Failure(Str(EmailUnsupported))
  }

  /** `searchPersonByNameAndCompany`: always a fixed failure, no request. */
  function SearchPersonByNameAndCompany(fullName: string, company: string): (r: ApiResponse)
    ensures r.Failure? && r.error == Str(NameUnsupported)
  {
    Failure(Str(NameUnsupported))
  }

  /** A routed call: the route's failure without a request, or the request it names. */
  function Routed(route: Result<(string, Rec<Value>)>, apiKey: Option<string>, files: Directory, defaultTtl: int,
                  now: int, encode: string -> string, server: Request -> Reply): (r: (ApiResponse, Option<Request>, Directory))
    requires route.Ok? ==> Valid(route.value.1)
    ensures route.Err? ==> r == (Failure(Str(route.error)), None, files)
    ensures r.1.Some? ==> route.Ok? && r.1.value.endpoint == route.value.0
  {
    match route
    case Err(m) => (Failure(Str(m)), None, files)
    case Ok((endpoint, params)) => Respond(apiKey, files, defaultTtl, endpoint, params, now, encode, server)
  }

  /** The bulk company enrichment: one response per company, in order, each seeing the cache the previous ones left. */
  function BulkCompanies(apiKey: Option<string>, files: Directory, defaultTtl: int, companies: seq<CompanyQuery>,
                         now: int, encode: string -> string, server: Request -> Reply): (r: (seq<ApiResponse>, Directory))
    ensures |r.0| == |companies|
  {
    if companies == [] then ([], files)
    else
      var (before, files1) := BulkCompanies(apiKey, files, defaultTtl, companies[..|companies| - 1], now, encode, server);
      var (last, _, files2) := Routed(CompanyRoute(companies[|companies| - 1]), apiKey, files1, defaultTtl, now, encode, server);
      (before + [last], files2)
  }

  /** The bulk person enrichment, one LinkedIn handle per person. */
  function BulkPersons(apiKey: Option<string>, files: Directory, defaultTtl: int, persons: seq<Option<string>>,
                       now: int, encode: string -> string, server: Request -> Reply): (r: (seq<ApiResponse>, Directory))
    ensures |r.0| == |persons|
  {
    if persons == [] then ([], files)
    else
      var (before, files1) := BulkPersons(apiKey, files, defaultTtl, persons[..|persons| - 1], now, encode, server);
      var (last, _, files2) := Routed(PersonRoute(persons[|persons| - 1]), apiKey, files1, defaultTtl, now, encode, server);
      (before + [last], files2)
  }

  // ---------------------------------------------------------------- properties

  /** Without an API key the call fails at once: no cache lookup, no request, the cache untouched. */
  lemma NoKeyNoRequest(apiKey: Option<string>, files: Directory, defaultTtl: int, endpoint: string, params: Rec<Value>,
                       now: int, encode: string -> string, server: Request -> Reply)
    requires Valid(params) && (apiKey.None? || apiKey.value == "")
    ensures Respond(apiKey, files, defaultTtl, endpoint, params, now, encode, server) == (Failure(Str(NoApiKey)), None, files)
  {
  }

  /** A truthy cached value is returned as a success, and nothing is sent. */
  lemma CacheHitNoRequest(apiKey: string, files: Directory, defaultTtl: int, endpoint: string, params: Rec<Value>,
                          now: int, encode: string -> string, server: Request -> Reply)
    requires Valid(params) && apiKey != ""
    requires var hit := Lookup(files, CacheKey(endpoint, params, encode), now).0; hit.Some? && Truthy(hit.value)
    ensures var r := Respond(Some(apiKey), files, defaultTtl, endpoint, params, now, encode, server);
      r.0 == Success(Lookup(files, CacheKey(endpoint, params, encode), now).0.value) && r.1.None?
  {
  }

  /** The data of a successful request is what the next identical call finds in the cache, at the same moment. */
  lemma SuccessIsCached(apiKey: string, files: Directory, defaultTtl: int, endpoint: string, params: Rec<Value>,
                        now: int, encode: string -> string, server: Request -> Reply)
    requires Valid(params) && apiKey != "" && defaultTtl >= 0
    requires var hit := Lookup(files, CacheKey(endpoint, params, encode), now).0; hit.None? || !Truthy(hit.value)
    requires server(Query(apiKey, endpoint, params)).Body?
    ensures var (r, sent, files') := Respond(Some(apiKey), files, defaultTtl, endpoint, params, now, encode, server);
      var data := server(Query(apiKey, endpoint, params)).data;
      r == Success(data) && sent == Some(Query(apiKey, endpoint, params)) &&
      Lookup(files', CacheKey(endpoint, params, encode), now).0 == Some(Reparse(data)) &&
      (WellFormed(data) && Plain(data) ==> Lookup(files', CacheKey(endpoint, params, encode), now).0 == Some(data))
  {
    var key := CacheKey(endpoint, params, encode);
    var files1 := Lookup(files, key, now).1;
    GetAfterSet(files1, key, server(Query(apiKey, endpoint, params)).data, None, defaultTtl, now, now);
  }

  /** A failed request is reported with the server's message when it has one, and nothing is cached. */
  lemma FailureNotCached(apiKey: string, files: Directory, defaultTtl: int, endpoint: string, params: Rec<Value>,
                         now: int, encode: string -> string, server: Request -> Reply)
    requires Valid(params) && apiKey != ""
    requires var hit := Lookup(files, CacheKey(endpoint, params, encode), now).0; hit.None? || !Truthy(hit.value)
    requires server(Query(apiKey, endpoint, params)).Failed?
    ensures var (r, _, files') := Respond(Some(apiKey), files, defaultTtl, endpoint, params, now, encode, server);
      var reply := server(Query(apiKey, endpoint, params));
      files' == Lookup(files, CacheKey(endpoint, params, encode), now).1 &&
      r.Failure? && (Truthy(reply.responseMessage) ==> r.error == reply.responseMessage) &&
      (!Truthy(reply.responseMessage) && !Truthy(reply.message) ==> r.error == Str("Request failed"))
  {
  }

  /** The first `i` bulk results are the results for the first `i` items alone: an item's outcome never depends on later ones. */
  lemma {:induction false} BulkCompaniesPrefix(apiKey: Option<string>, files: Directory, defaultTtl: int, companies: seq<CompanyQuery>,
                                               now: int, encode: string -> string, server: Request -> Reply, i: nat)
    requires i <= |companies|
    ensures BulkCompanies(apiKey, files, defaultTtl, companies, now, encode, server).0[..i]
         == BulkCompanies(apiKey, files, defaultTtl, companies[..i], now, encode, server).0
  {
    if i == |companies| {
      assert companies[..i] == companies;
    } else {
      var init := companies[..|companies| - 1];
      BulkCompaniesPrefix(apiKey, files, defaultTtl, init, now, encode, server, i);
      assert init[..i] == companies[..i];
    }
  }

  /** Result `i` of the bulk run is the single enrichment of company `i` against the cache the earlier ones left. */
  lemma BulkCompaniesItem(apiKey: Option<string>, files: Directory, defaultTtl: int, companies: seq<CompanyQuery>,
                          now: int, encode: string -> string, server: Request -> Reply, i: nat)
    requires i < |companies|
    ensures var cacheBefore := BulkCompanies(apiKey, files, defaultTtl, companies[..i], now, encode, server).1;
      BulkCompanies(apiKey, files, defaultTtl, companies, now, encode, server).0[i]
        == Routed(CompanyRoute(companies[i]), apiKey, cacheBefore, defaultTtl, now, encode, server).0
  {
    BulkCompaniesPrefix(apiKey, files, defaultTtl, companies, now, encode, server, i + 1);
    BulkCompaniesLast(apiKey, files, defaultTtl, companies[..i + 1], now, encode, server);
    assert companies[..i + 1][..i] == companies[..i];
  }

  /** The last result of a bulk companies run is the enrichment of the last item against the cache the others left. */
  lemma BulkCompaniesLast(apiKey: Option<string>, files: Directory, defaultTtl: int, companies: seq<CompanyQuery>,
                        now: int, encode: string -> string, server: Request -> Reply)
    requires |companies| > 0
    ensures var cacheBefore := BulkCompanies(apiKey, files, defaultTtl, companies[..|companies| - 1], now, encode, server).1;
      BulkCompanies(apiKey, files, defaultTtl, companies, now, encode, server).0[|companies| - 1]
        == Routed(CompanyRoute(companies[|companies| - 1]), apiKey, cacheBefore, defaultTtl, now, encode, server).0
  {
  }

  /** The same two facts for the bulk person run. */
  lemma {:induction false} BulkPersonsPrefix(apiKey: Option<string>, files: Directory, defaultTtl: int, persons: seq<Option<string>>,
                                             now: int, encode: string -> string, server: Request -> Reply, i: nat)
    requires i <= |persons|
    ensures BulkPersons(apiKey, files, defaultTtl, persons, now, encode, server).0[..i]
         == BulkPersons(apiKey, files, defaultTtl, persons[..i], now, encode, server).0
  {
    if i == |persons| {
      assert persons[..i] == persons;
    } else {
      var init := persons[..|persons| - 1];
      BulkPersonsPrefix(apiKey, files, defaultTtl, init, now, encode, server, i);
      assert init[..i] == persons[..i];
    }
  }

  lemma BulkPersonsItem(apiKey: Option<string>, files: Directory, defaultTtl: int, persons: seq<Option<string>>,
                        now: int, encode: string -> string, server: Request -> Reply, i: nat)
    requires i < |persons|
    ensures var cacheBefore := BulkPersons(apiKey, files, defaultTtl, persons[..i], now, encode, server).1;
      BulkPersons(apiKey, files, defaultTtl, persons, now, encode, server).0[i]
        == Routed(PersonRoute(persons[i]), apiKey, cacheBefore, defaultTtl, now, encode, server).0
  {
    BulkPersonsPrefix(apiKey, files, defaultTtl, persons, now, encode, server, i + 1);
    BulkPersonsLast(apiKey, files, defaultTtl, persons[..i + 1], now, encode, server);
    assert persons[..i + 1][..i] == persons[..i];
  }

  /** The last result of a bulk persons run is the enrichment of the last item against the cache the others left. */
  lemma BulkPersonsLast(apiKey: Option<string>, files: Directory, defaultTtl: int, persons: seq<Option<string>>,
                        now: int, encode: string -> string, server: Request -> Reply)
    requires |persons| > 0
    ensures var cacheBefore := BulkPersons(apiKey, files, defaultTtl, persons[..|persons| - 1], now, encode, server).1;
      BulkPersons(apiKey, files, defaultTtl, persons, now, encode, server).0[|persons| - 1]
        == Routed(PersonRoute(persons[|persons| - 1]), apiKey, cacheBefore, defaultTtl, now, encode, server).0
  {
  }

  /** `EnrichmentApiService` with its cache object. */
  class Service {
    const apiKey: Option<string>
    const cache: BaseCache

    /** The cache lives in `./cache/enrichmentapi` and keeps entries for 24 hours. */
    constructor (apiKey: Option<string>, files: Directory)
      ensures this.apiKey == apiKey && fresh(cache)
      ensures cache.serviceName == "EnrichmentAPI" && cache.cacheDir == "./cache/enrichmentapi"
      ensures cache.defaultTtl == DefaultTtl && cache.files == files
    {
      this.apiKey := apiKey;
      cache := new BaseCache("EnrichmentAPI", Some("./cache/enrichmentapi"), Some(DefaultTtl), files);
    }

    method MakeRequest(endpoint: string, params: Rec<Value>, now: int, encode: string -> string, server: Request -> Reply)
      returns (r: ApiResponse)
      requires Valid(params)
      modifies cache
      ensures var (resp, _, files) := Respond(apiKey, old(cache.files), cache.defaultTtl, endpoint, params, now, encode, server);
        r == resp && cache.files == files
    {
      if apiKey.None? || apiKey.value == "" {
        return Failure(Str(NoApiKey));
      }
      var key := CacheKey(endpoint, params, encode);
      var cached := cache.Get(key, now);
      if cached.Some? && Truthy(cached.value) {
        return Success(cached.value);
      }
      var reply := server(Query(apiKey.value, endpoint, params));
      match reply
      case Body(data) =>
        cache.Set(key, data, None, now);
        r := Success(data);
      case Failed(rm, m) =>
        r := Failure(Or(rm, Or(m, Str("Request failed"))));
    }

    /** `enrichCompany`, `searchCompanyByLinkedin` and `searchCompanyByName`. */
    method EnrichCompany(c: CompanyQuery, now: int, encode: string -> string, server: Request -> Reply) returns (r: ApiResponse)
      modifies cache
      ensures var (resp, _, files) := Routed(CompanyRoute(c), apiKey, old(cache.files), cache.defaultTtl, now, encode, server);
        r == resp && cache.files == files
    {
      var route := CompanyRoute(c);
      if route.Err? {
        return Failure(Str(route.error));
      }
      r := MakeRequest(route.value.0, route.value.1, now, encode, server);
    }

    /** `enrichPerson` and `searchPersonByLinkedin`. */
    method EnrichPerson(linkedin: Option<string>, now: int, encode: string -> string, server: Request -> Reply) returns (r: ApiResponse)
      modifies cache
      ensures var (resp, _, files) := Routed(PersonRoute(linkedin), apiKey, old(cache.files), cache.defaultTtl, now, encode, server);
        r == resp && cache.files == files
    {
      var route := PersonRoute(linkedin);
      if route.Err? {
        return Failure(Str(route.error));
      }
      r := MakeRequest(route.value.0, route.value.1, now, encode, server);
    }

    /** `bulkEnrichCompanies`: always a success holding one response per company, in order. */
    method BulkEnrichCompanies(companies: seq<CompanyQuery>, now: int, encode: string -> string, server: Request -> Reply)
      returns (r: ApiResponse)
      modifies cache
      ensures var (results, files) := BulkCompanies(apiKey, old(cache.files), cache.defaultTtl, companies, now, encode, server);
        r == Success(Arr(AsValues(results))) && cache.files == files
    {
      var results: seq<ApiResponse> := [];
      for i := 0 to |companies|
        invariant (results, cache.files) == BulkCompanies(apiKey, old(cache.files), cache.defaultTtl, companies[..i], now, encode, server)
      {
        assert companies[..i + 1][..i] == companies[..i];
        var result := EnrichCompany(companies[i], now, encode, server);
        results := results + [result];
      }
      assert companies[..|companies|] == companies;
      r := Success(Arr(AsValues(results)));
    }

    /** `bulkEnrichPersons`: always a success holding one response per person, in order. */
    method BulkEnrichPersons(persons: seq<Option<string>>, now: int, encode: string -> string, server: Request -> Reply)
      returns (r: ApiResponse)
      modifies cache
      ensures var (results, files) := BulkPersons(apiKey, old(cache.files), cache.defaultTtl, persons, now, encode, server);
        r == Success(Arr(AsValues(results))) && cache.files == files
    {
      var results: seq<ApiResponse> := [];
      for i := 0 to |persons|
        invariant (results, cache.files) == BulkPersons(apiKey, old(cache.files), cache.defaultTtl, persons[..i], now, encode, server)
      {
        assert persons[..i + 1][..i] == persons[..i];
        var result := EnrichPerson(persons[i], now, encode, server);
        results := results + [result];
      }
      assert persons[..|persons|] == persons;
      r := Success(Arr(AsValues(results)));
    }

    /** `cleanupCache`: the cache's own cleanup. */
    method CleanupCache(now: int) returns (count: nat)
      modifies cache
      ensures cache.files == old(cache.files) - Stale(old(cache.files), now)
      ensures count == |Stale(old(cache.files), now)|
    {
      count := cache.Cleanup(now);
    }
  }

  /** The object an `ApiResponse` is. */
  function AsValue(r: ApiResponse): Value
  {
    match r
    case Success(data) => Obj(Rec(["success", "data"], map["success" := Bool(true), "data" := data]))
    case Failure(error) => Obj(Rec(["success", "error"], map["success" := Bool(false), "error" := error]))
  }

  function AsValues(rs: seq<ApiResponse>): (vs: seq<Value>)
    ensures |vs| == |rs| && forall i | 0 <= i < |rs| :: vs[i] == AsValue(rs[i])
  {
    seq(|rs|, i requires 0 <= i < |rs| => AsValue(rs[i]))
  }
}
