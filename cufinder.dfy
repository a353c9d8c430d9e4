/**
 * The CUFinder client of src/tools/cufinder.ts: the per-endpoint response
 * cache (`CufinderCache`), the cached POST request (`makeRequest`) and the
 * request routing of the service methods. The cache directory is a map from
 * file path to what the file holds once read and parsed, MD5 is a function
 * parameter, the clock is `now` in milliseconds and the HTTP server a
 * function from request to reply.
 */
module Cufinder {
  import opened Wrappers
  import opened Records
  import opened Values
  import opened Strings
  import opened Json
  import Caches

  // ---------------------------------------------------------------- endpoint configuration

  /** How long an endpoint's responses are kept, in seconds, and whether they are cached at all. */
  datatype EndpointConfig = EndpointConfig(ttl: int, enabled: bool)

  const Day := 24 * 60 * 60

  const EndpointConfigs: map<string, EndpointConfig> := map[
    "/dtc" := EndpointConfig(30 * Day, true),
    "/cuf" := EndpointConfig(30 * Day, true),
    "/rel" := EndpointConfig(7 * Day, true),
    "/epp" := EndpointConfig(Day, true),
    "/lcuf" := EndpointConfig(30 * Day, true),
    "/dte" := EndpointConfig(7 * Day, true),
    "/ntp" := EndpointConfig(30 * Day, true)
  ]

  predicate Cached(endpoint: string)
  {
    endpoint in EndpointConfigs && EndpointConfigs[endpoint].enabled
  }

  // ---------------------------------------------------------------- cache files

  /** The text hashed into the cache key: the endpoint, '_' and the JSON of the parameters with sorted keys. */
  function KeyText(endpoint: string, params: Rec<Value>): (r: string)
    requires Valid(params)
    ensures StartsWith(r, endpoint + "_{") && EndsWith(r, "}")
  {
    var r := endpoint + "_" + Stringify(Obj(Caches.SortedParams(params))).value;
    assert r[..|endpoint + "_{"|] == endpoint + "_{";
    r
  }

  /** `generateCacheKey`, with `md5` standing for the hex MD5 digest. */
  function CacheKey(endpoint: string, params: Rec<Value>, md5: string -> string): (r: string)
    requires Valid(params)
    ensures r == md5(KeyText(endpoint, Caches.SortedParams(params)))
  {
    Caches.SortedParamsOrderFree(params, Caches.SortedParams(params));
    md5(KeyText(endpoint, params))
  }

  predicate IsAlphanumeric(c: char)
  {
    'a' <= c <= 'z' || 'A' <= c <= 'Z' || '0' <= c <= '9'
  }

  /** `endpoint.replace(/[^a-zA-Z0-9]/g, '_')` */
  function EndpointDir(endpoint: string): (r: string)
    ensures |r| == |endpoint|
    ensures forall i | 0 <= i < |r| :: r[i] == (if IsAlphanumeric(endpoint[i]) then endpoint[i] else '_')
  {
    seq(|endpoint|, i requires 0 <= i < |endpoint| => if IsAlphanumeric(endpoint[i]) then endpoint[i] else '_')
  }

  /** The cache directory, relative to the working directory. */
  const CacheRoot := "temp/cufinder"

  /** `getCacheFilePath` */
  function CachePath(endpoint: string, params: Rec<Value>, md5: string -> string): (r: string)
    requires Valid(params)
    ensures EndsWith(r, ".json")
  {
    var r := CacheRoot + "/" + EndpointDir(endpoint) + "/" + CacheKey(endpoint, params, md5) + ".json";
    assert r[|r| - 5..] == ".json";
    r
  }

  /** A cache file: the entry written by `set`, or a file that cannot be read or parsed. */
  datatype CacheFile = Entry(timestamp: int, endpoint: string, params: Rec<Value>, data: Value, ttl: int) | Unreadable

  type Store = map<string, CacheFile>

  /** `(now - timestamp) / 1000 > ttl`: the age in seconds, as a floating-point quotient, exceeds the time to live. */
  predicate Expired(file: CacheFile, now: int)
    requires file.Entry?
  {
    (now - file.timestamp) as real / 1000.0 > file.ttl as real
  }

  /** `get`: nothing for an endpoint that is not cached, a missing or unreadable file; an expired entry is deleted. */
  function Lookup(files: Store, endpoint: string, params: Rec<Value>, now: int, md5: string -> string): (r: (Option<Value>, Store))
    requires Valid(params)
    ensures r.1 == files || r.1 == files - {CachePath(endpoint, params, md5)}
    ensures r.0.Some? ==>
      Cached(endpoint) && CachePath(endpoint, params, md5) in files && files[CachePath(endpoint, params, md5)].Entry? &&
      r.0.value == files[CachePath(endpoint, params, md5)].data && r.1 == files
  {
    if !Cached(endpoint) then (None, files)
    else
      var path := CachePath(endpoint, params, md5);
      if path !in files || files[path].Unreadable? then (None, files)
      else if Expired(files[path], now) then (None, files - {path})
      else (Some(files[path].data), files)
  }

  /** `set`: the entry for the request, stamped with `now` and the endpoint's time to live; nothing for an endpoint that is not cached. */
  function Save(files: Store, endpoint: string, params: Rec<Value>, data: Value, now: int, md5: string -> string): (r: Store)
    requires Valid(params)
    ensures !Cached(endpoint) ==> r == files
    ensures files.Keys <= r.Keys <= files.Keys + {CachePath(endpoint, params, md5)}
    ensures forall p | p in files && p != CachePath(endpoint, params, md5) :: r[p] == files[p]
  {
    if !Cached(endpoint) then files
    else files[CachePath(endpoint, params, md5) := Entry(now, endpoint, ReparseRec(params), Reparse(data), EndpointConfigs[endpoint].ttl)]
  }

  /** What `cleanup` deletes: a '.json' file that is unreadable or expired. */
  predicate Doomed(path: string, file: CacheFile, now: int)
  {
    EndsWith(path, ".json") && (file.Unreadable? || Expired(file, now))
  }

  function Stale(files: Store, now: int): (r: set<string>)
    ensures r <= files.Keys
    ensures forall p | p in r :: EndsWith(p, ".json")
  {
    set p | p in files && Doomed(p, files[p], now)
  }

  /** `CufinderCache` over its directory. */
  class CufinderCache {
    var files: Store

    constructor (files: Store)
      ensures this.files == files
    {
      this.files := files;
    }

    method Get(endpoint: string, params: Rec<Value>, now: int, md5: string -> string) returns (r: Option<Value>)
      requires Valid(params)
      modifies this
      ensures (r, files) == Lookup(old(files), endpoint, params, now, md5)
    {
      if endpoint !in EndpointConfigs || !EndpointConfigs[endpoint].enabled {
        return None;
      }
      var path := CachePath(endpoint, params, md5);
      if path !in files {
        return None;
      }
      var file := files[path];
      if file.Unreadable? {
        return None;
      }
      if (now - file.timestamp) as real / 1000.0 > file.ttl as real {
        files := files - {path};
        return None;
      }
      return Some(file.data);
    }

    method Set(endpoint: string, params: Rec<Value>, data: Value, now: int, md5: string -> string)
      requires Valid(params)
      modifies this
      ensures files == Save(old(files), endpoint, params, data, now, md5)
    {
      if endpoint !in EndpointConfigs || !EndpointConfigs[endpoint].enabled {
        return;
      }
      var config := EndpointConfigs[endpoint];
      files := files[CachePath(endpoint, params, md5) := Entry(now, endpoint, ReparseRec(params), Reparse(data), config.ttl)];
    }

    /** `cleanup`: deletes every unreadable or expired '.json' file under the cache directory; every other file stays. */
    method Cleanup(now: int)
      modifies this
      ensures files == old(files) - Stale(old(files), now)
    {
      files := Prune(files, now);
    }
  }

  /** The walk of `cleanup` over the cache directory, in any order. */
  method Prune(all: Store, now: int) returns (remaining: Store)
    ensures remaining == all - Stale(all, now)
  {
    remaining := all;
    var todo := all.Keys;
    ghost var stale := Stale(all, now);
    while todo != {}
      invariant todo <= all.Keys
      invariant remaining == all - (stale - todo)
      decreases |todo|
    {
      var path :| path in todo;
      var file := all[path];
      if EndsWith(path, ".json") && (file.Unreadable? || (now - file.timestamp) as real / 1000.0 > file.ttl as real) {
        assert Doomed(path, file, now);
        assert stale - (todo - {path}) == (stale - todo) + {path};
        remaining := remaining - {path};
      } else {
        assert !Doomed(path, file, now);
        assert stale - (todo - {path}) == stale - todo;
      }
      todo := todo - {path};
    }
    assert stale - {} == stale;
  }

  // ---------------------------------------------------------------- requests

  /** A `CufinderResponse`. `fromCache` is true only for a cache hit; a fresh response leaves the field out. */
  datatype CufinderResponse =
    | Success(data: Value, totalResults: Value, fromCache: bool)
    | Failure(error: string, details: Value)

  /** A POST request: the endpoint, the form body's pairs in order, and the API key header. */
  datatype Request = Request(endpoint: string, form: seq<(string, string)>, apiKey: string)

  /** What the server does with a request: answer with a status and a body, or throw (with the error's response, possibly `undefined`, and message). */
  datatype Reply = Answer(status: int, statusText: string, body: Value) | Thrown(response: Value, message: string)

  const NoApiKey := "CUFINDER_API_KEY not configured"
  const NoApiKeyDetails := "Please set CUFINDER_API_KEY environment variable"
  const RequestFailed := "Failed to execute Cufinder request"

  /** `a || b` */
  function Or(a: Value, b: Value): Value
  {
    if Truthy(a) then a else b
  }

  predicate Given(s: Option<string>)
  {
    s.Some? && s.value != ""
  }

  /** The form body: one `key=String(value)` pair per parameter, in key order, leaving out `undefined` and `null` values. */
  function FormPairs(r: Rec<Value>, ks: seq<string>): (q: seq<(string, string)>)
    ensures forall p | p in q :: p.0 in ks && p.0 in r.fields && !Nullish(r.fields[p.0]) && p.1 == ToText(r.fields[p.0])
    ensures forall k | k in ks && k in r.fields && !Nullish(r.fields[k]) :: (k, ToText(r.fields[k])) in q
  {
    if ks == [] then []
    else
      var rest := FormPairs(r, ks[1..]);
      if ks[0] in r.fields && !Nullish(r.fields[ks[0]]) then [(ks[0], ToText(r.fields[ks[0]]))] + rest
      else rest
  }

  /** `Array.isArray(data) ? data.length : 1` */
  function Count(data: Value): Value
  {
    Num(if data.Arr? then |data.items| else 1)
  }

  /** The outcome of the request once sent: the response and the cache after it. */
  function Handle(reply: Reply, files: Store, endpoint: string, params: Rec<Value>, now: int, md5: string -> string): (r: (CufinderResponse, Store))
    requires Valid(params)
    ensures r.0.Success? <==> reply.Answer? && reply.status == 200 && Get(reply.body, "data").Ok?
    ensures r.0.Success? ==> !r.0.fromCache
    ensures r.0.Failure? ==> r.1 == files
  {
    match reply
    case Thrown(response, message) =>
      (Failure(RequestFailed, Or(Opt(Opt(response, "data"), "message"), Str(message))), files)
    case Answer(status, statusText, body) =>
      if status != 200 then
        (Failure("HTTP " + IntToString(status) + ": " + statusText, Or(Opt(body, "message"), body)), files)
      else
        match Get(body, "data")
        case Err(typeError) => (Failure(RequestFailed, Str(typeError)), files)
        case Ok(inner) =>
          var data := Or(inner, Or(Opt(body, "results"), body));
          (Success(data, Or(Opt(body, "total"), Count(data)), false), Save(files, endpoint, params, data, now, md5))
  }

  /**
   * `makeRequest`: the response, the request sent if any, and the cache
   * afterwards. The first call of the service cleans the cache up; then a
   * missing API key fails before the cache is read; a truthy cached value
   * is returned without a request.
   */
  function Respond(initialized: bool, apiKey: Option<string>, files: Store, endpoint: string, params: Rec<Value>,
                   now: int, md5: string -> string, server: Request -> Reply): (r: (CufinderResponse, Option<Request>, Store))
    requires Valid(params)
    ensures !Given(apiKey) ==> r.0 == Failure(NoApiKey, Str(NoApiKeyDetails)) && r.1.None?
    ensures r.0.Success? && r.0.fromCache ==> r.1.None?
    ensures r.1.Some? ==> r.1.value == Request(endpoint, FormPairs(params, params.keys), apiKey.value)
  {
    var files0 := if initialized then files else files - Stale(files, now);
    if !Given(apiKey) then (Failure(NoApiKey, Str(NoApiKeyDetails)), None, files0)
    else
      var (hit, files1) := Lookup(files0, endpoint, params, now, md5);
      if hit.Some? && Truthy(hit.value) then (Success(hit.value, Count(hit.value), true), None, files1)
      else
        var request := Request(endpoint, FormPairs(params, params.keys), apiKey.value);
        var (response, files2) := Handle(server(request), files1, endpoint, params, now, md5);
        (response, Some(request), files2)
  }

  // ---------------------------------------------------------------- routing

  /** The service methods, each with its arguments. */
  datatype Operation =
    | SearchCompanyByDomain(domain: string)
    | SearchCompanyByName(name: string)
    | SearchCompanyByLinkedin(linkedin: string)
    | EnrichCompany(companyDomain: Option<string>, companyLinkedin: Option<string>, companyName: Option<string>)
    | SearchPersonByEmail(email: string)
    | SearchPersonByLinkedin(linkedin: string)
    | SearchPersonByNameAndCompany(fullName: string, company: string)
    | EnrichPerson(personName: Option<string>, personCompany: Option<string>, personLinkedin: Option<string>, personEmail: Option<string>)
    | GetDomainFromCompanyName(nameForDomain: string)
    | GetCompanyNameFromDomain(domain: string)
    | GetCompanyLinkedIn(nameForLinkedIn: string)
    | GetCompanyEmail(domain: string)
    | GetCompanyPhone(nameForPhone: string)

  const CompanyParamRequired := "At least one search parameter is required (domain, linkedin, or name)"
  const PersonParamRequired := "At least one search parameter is required (fullName, linkedin, or email)"

  /** `if (s) params[k] = s` */
  function AddIf(r: Rec<Value>, k: string, s: Option<string>): (r': Rec<Value>)
    requires Valid(r) && k !in r.fields
    ensures Valid(r')
    ensures Given(s) ==> r'.keys == r.keys + [k] && r'.fields == r.fields[k := Str(s.value)]
    ensures !Given(s) ==> r' == r
  {
    if Given(s) then Put(r, k, Str(s.value)) else r
  }

  /** Three optional parameters under three different keys: exactly the given ones, in that order. */
  function GivenParams(k0: string, s0: Option<string>, k1: string, s1: Option<string>, k2: string, s2: Option<string>): (r: Rec<Value>)
    requires k0 != k1 && k0 != k2 && k1 != k2
    ensures Valid(r)
    ensures forall k | k in r.fields :: k == k0 || k == k1 || k == k2
    ensures (k0 in r.fields <==> Given(s0)) && (Given(s0) ==> r.fields[k0] == Str(s0.value))
    ensures (k1 in r.fields <==> Given(s1)) && (Given(s1) ==> r.fields[k1] == Str(s1.value))
    ensures (k2 in r.fields <==> Given(s2)) && (Given(s2) ==> r.fields[k2] == Str(s2.value))
  {
    var first := AddIf(Empty(), k0, s0);
    assert forall k | k in first.fields :: k == k0;
    var second := AddIf(first, k1, s1);
    assert forall k | k in second.fields :: k == k0 || k == k1;
    AddIf(second, k2, s2)
  }

  /** The parameters `enrichCompany` sends: exactly the given ones, in the order domain, linkedin, name. */
  function CompanyParams(domain: Option<string>, linkedin: Option<string>, name: Option<string>): (r: Rec<Value>)
    ensures Valid(r)
    ensures forall k | k in r.fields :: k == "domain" || k == "linkedin" || k == "name"
    ensures ("domain" in r.fields <==> Given(domain)) && (Given(domain) ==> r.fields["domain"] == Str(domain.value))
    ensures ("linkedin" in r.fields <==> Given(linkedin)) && (Given(linkedin) ==> r.fields["linkedin"] == Str(linkedin.value))
    ensures ("name" in r.fields <==> Given(name)) && (Given(name) ==> r.fields["name"] == Str(name.value))
  {
    GivenParams("domain", domain, "linkedin", linkedin, "name", name)
  }

  /** The parameters `enrichPerson` sends: exactly the given ones, in the order full_name, company, linkedin, email. */
  function PersonParams(fullName: Option<string>, company: Option<string>, linkedin: Option<string>, email: Option<string>): (r: Rec<Value>)
    ensures Valid(r)
    ensures forall k | k in r.fields :: k == "full_name" || k == "company" || k == "linkedin" || k == "email"
    ensures ("full_name" in r.fields <==> Given(fullName)) && (Given(fullName) ==> r.fields["full_name"] == Str(fullName.value))
    ensures ("company" in r.fields <==> Given(company)) && (Given(company) ==> r.fields["company"] == Str(company.value))
    ensures ("linkedin" in r.fields <==> Given(linkedin)) && (Given(linkedin) ==> r.fields["linkedin"] == Str(linkedin.value))
    ensures ("email" in r.fields <==> Given(email)) && (Given(email) ==> r.fields["email"] == Str(email.value))
  {
    AddIf(GivenParams("full_name", fullName, "company", company, "linkedin", linkedin), "email", email)
  }

  /** The endpoint and parameters a service method requests, or the message it fails with before any request. */
  function Route(op: Operation): (r: Result<(string, Rec<Value>)>)
    ensures r.Ok? ==> Valid(r.value.1)
    ensures r.Err? <==>
      (op.EnrichCompany? && !Given(op.companyDomain) && !Given(op.companyLinkedin) && !Given(op.companyName)) ||
      (op.EnrichPerson? && !Given(op.personName) && !Given(op.personLinkedin) && !Given(op.personEmail))
  {
    match op
    case SearchCompanyByDomain(domain) => Ok(("/dtc", Single("company_website", Str(domain))))
    case SearchCompanyByName(name) => Ok(("/cuf", Single("company_name", Str(name))))
    case SearchCompanyByLinkedin(linkedin) => Ok(("/lcuf", Single("company_name", Str(linkedin))))
    case EnrichCompany(domain, linkedin, name) =>
      if !Given(domain) && !Given(linkedin) && !Given(name) then Err(CompanyParamRequired)
      else Ok(("/company/enrich", CompanyParams(domain, linkedin, name)))
    case SearchPersonByEmail(email) => Ok(("/rel", Single("email", Str(email))))
    case SearchPersonByLinkedin(linkedin) => Ok(("/epp", Single("linkedin_url", Str(linkedin))))
    case SearchPersonByNameAndCompany(_, company) => Ok(("/dte", Single("company_website", Str(company))))
    case EnrichPerson(fullName, company, linkedin, email) =>
      if !Given(fullName) && !Given(linkedin) && !Given(email) then Err(PersonParamRequired)
      else Ok(("/person/enrich", PersonParams(fullName, company, linkedin, email)))
    case GetDomainFromCompanyName(companyName) => Ok(("/cuf", Single("company_name", Str(companyName))))
    case GetCompanyNameFromDomain(domain) => Ok(("/dtc", Single("company_website", Str(domain))))
    case GetCompanyLinkedIn(companyName) => Ok(("/lcuf", Single("company_name", Str(companyName))))
    case GetCompanyEmail(domain) => Ok(("/dte", Single("company_website", Str(domain))))
    case GetCompanyPhone(companyName) => Ok(("/ntp", Single("company_name", Str(companyName))))
  }

  /** A service method call: the route's failure without a request, or `makeRequest` on the route. */
  function Call(op: Operation, initialized: bool, apiKey: Option<string>, files: Store,
                now: int, md5: string -> string, server: Request -> Reply): (r: (CufinderResponse, Option<Request>, Store))
    ensures Route(op).Err? ==> r == (Failure(Route(op).error, Undefined), None, files)
    ensures r.1.Some? ==> Route(op).Ok? && r.1.value.endpoint == Route(op).value.0
  {
    match Route(op)
    case Err(message) => (Failure(message, Undefined), None, files)
    case Ok((endpoint, params)) => Respond(initialized, apiKey, files, endpoint, params, now, md5, server)
  }

  /** `CufinderService` with the cache it shares and its one-time cleanup flag. */
  class Service {
    const apiKey: Option<string>
    const cache: CufinderCache
    var initialized: bool

    constructor (apiKey: Option<string>, files: Store)
      ensures this.apiKey == apiKey && fresh(cache) && cache.files == files && !initialized
    {
      this.apiKey := apiKey;
      cache := new CufinderCache(files);
      initialized := false;
    }

    /** `initialize`: the cache is cleaned up on the first call only. */
    method Initialize(now: int)
      modifies this, cache
      ensures initialized
      ensures cache.files == if old(initialized) then old(cache.files) else old(cache.files) - Stale(old(cache.files), now)
    {
      if !initialized {
        cache.Cleanup(now);
        initialized := true;
      }
    }

    method MakeRequest(endpoint: string, params: Rec<Value>, now: int, md5: string -> string, server: Request -> Reply)
      returns (r: CufinderResponse)
      requires Valid(params)
      modifies this, cache
      ensures initialized
      ensures var (resp, _, files) := Respond(old(initialized), apiKey, old(cache.files), endpoint, params, now, md5, server);
        r == resp && cache.files == files
    {
      Initialize(now);
      if apiKey.None? || apiKey.value == "" {
        return Failure(NoApiKey, Str(NoApiKeyDetails));
      }
      var cached := cache.Get(endpoint, params, now, md5);
      if cached.Some? && Truthy(cached.value) {
        return Success(cached.value, Count(cached.value), true);
      }
      var request := Request(endpoint, FormPairs(params, params.keys), apiKey.value);
      var reply := server(request);
      match reply
      case Thrown(response, message) =>
        r := Failure(RequestFailed, Or(Opt(Opt(response, "data"), "message"), Str(message)));
      case Answer(status, statusText, body) =>
        if status != 200 {
          r := Failure("HTTP " + IntToString(status) + ": " + statusText, Or(Opt(body, "message"), body));
        } else {
          var inner := Get(body, "data");
          if inner.Err? {
            r := Failure(RequestFailed, Str(inner.error));
          } else {
            var data := Or(inner.value, Or(Opt(body, "results"), body));
            cache.Set(endpoint, params, data, now, md5);
            r := Success(data, Or(Opt(body, "total"), Count(data)), false);
          }
        }
    }

    /** Any service method: validation first, then the request its route names. */
    method Perform(op: Operation, now: int, md5: string -> string, server: Request -> Reply) returns (r: CufinderResponse)
      modifies this, cache
      ensures var (resp, _, files) := Call(op, old(initialized), apiKey, old(cache.files), now, md5, server);
        r == resp && cache.files == files
    {
      var route := Route(op);
      if route.Err? {
        return Failure(route.error, Undefined);
      }
      r := MakeRequest(route.value.0, route.value.1, now, md5, server);
    }
  }

  // ---------------------------------------------------------------- properties

  /** Parameter objects with the same entries share a cache file, whatever the order of their keys. */
  lemma CachePathOrderFree(endpoint: string, p: Rec<Value>, q: Rec<Value>, md5: string -> string)
    requires Valid(p) && Valid(q) && p.fields == q.fields
    ensures CachePath(endpoint, p, md5) == CachePath(endpoint, q, md5)
  {
    Caches.SortedParamsOrderFree(p, q);
  }

  /** An endpoint that is not configured, or is disabled, is never read from nor written to the cache. */
  lemma UncachedEndpoint(files: Store, endpoint: string, params: Rec<Value>, data: Value, now: int, md5: string -> string)
    requires Valid(params) && !Cached(endpoint)
    ensures Lookup(files, endpoint, params, now, md5) == (None, files)
    ensures Save(files, endpoint, params, data, now, md5) == files
  {
  }

  /** The age is compared in seconds: an entry expires once it is more than `1000 * ttl` milliseconds old. */
  lemma ExpiryInMilliseconds(file: CacheFile, now: int)
    requires file.Entry?
    ensures Expired(file, now) <==> now - file.timestamp > 1000 * file.ttl
  {
    var age := (now - file.timestamp) as real;
    if now - file.timestamp > 1000 * file.ttl {
      assert age >= (1000 * file.ttl + 1) as real;
    } else {
      assert age <= (1000 * file.ttl) as real;
    }
  }

  /** After `set` on a cached endpoint, `get` returns the data until the endpoint's time to live has passed, and then nothing. */
  lemma GetAfterSet(files: Store, endpoint: string, params: Rec<Value>, data: Value, t: int, now: int, md5: string -> string)
    requires Valid(params) && Cached(endpoint)
    ensures var stored := Save(files, endpoint, params, data, t, md5);
      Lookup(stored, endpoint, params, now, md5).0 ==
        if now - t <= 1000 * EndpointConfigs[endpoint].ttl then Some(Reparse(data)) else None
    ensures WellFormed(data) && Plain(data) && now - t <= 1000 * EndpointConfigs[endpoint].ttl ==>
      Lookup(Save(files, endpoint, params, data, t, md5), endpoint, params, now, md5).0 == Some(data)
  {
    var path := CachePath(endpoint, params, md5);
    var ttl := EndpointConfigs[endpoint].ttl;
    var entry := Entry(t, endpoint, ReparseRec(params), Reparse(data), ttl);
    var stored := Save(files, endpoint, params, data, t, md5);
    assert stored == files[path := entry];
    ExpiryInMilliseconds(entry, now);
    assert Lookup(stored, endpoint, params, now, md5).0 == if Expired(entry, now) then None else Some(Reparse(data));
    if WellFormed(data) && Plain(data) {
      ReparsePlain(data);
    }
  }

  /** The company and person enrichment endpoints have no cache configuration, so their responses are never cached. */
  lemma EnrichmentIsNeverCached(op: Operation)
    requires op.EnrichCompany? || op.EnrichPerson?
    requires Route(op).Ok?
    ensures !Cached(Route(op).value.0)
  {
  }

  /** Every other service method requests a configured endpoint. */
  lemma LookupsAreCached(op: Operation)
    requires !op.EnrichCompany? && !op.EnrichPerson?
    ensures Route(op).Ok? && Cached(Route(op).value.0)
  {
  }

  /** Without an API key the call fails before reading the cache or sending anything; only the first call's cleanup happens. */
  lemma NoKeyNoRequest(initialized: bool, apiKey: Option<string>, files: Store, endpoint: string, params: Rec<Value>,
                       now: int, md5: string -> string, server: Request -> Reply)
    requires Valid(params) && !Given(apiKey)
    ensures var (r, sent, files') := Respond(initialized, apiKey, files, endpoint, params, now, md5, server);
      r == Failure(NoApiKey, Str(NoApiKeyDetails)) && sent.None? &&
      files' == if initialized then files else files - Stale(files, now)
  {
  }

  /** A truthy cache hit is a success marked `fromCache`, counting the elements of an array and 1 otherwise; nothing is sent. */
  lemma CacheHit(apiKey: string, files: Store, endpoint: string, params: Rec<Value>, now: int,
                 md5: string -> string, server: Request -> Reply, data: Value)
    requires Valid(params) && apiKey != "" && Truthy(data)
    requires Lookup(files, endpoint, params, now, md5).0 == Some(data)
    ensures var (r, sent, _) := Respond(true, Some(apiKey), files, endpoint, params, now, md5, server);
      r == Success(data, Num(if data.Arr? then |data.items| else 1), true) && sent.None?
  {
  }

  /** Every configured time to live is positive. */
  lemma PositiveTtl(endpoint: string)
    requires endpoint in EndpointConfigs
    ensures EndpointConfigs[endpoint].ttl > 0
  {
  }

  /** On a cache miss with an API key, the request goes out and its reply decides the outcome. */
  lemma MissSends(apiKey: string, files: Store, endpoint: string, params: Rec<Value>, now: int,
                  md5: string -> string, server: Request -> Reply)
    requires Valid(params) && apiKey != ""
    requires Lookup(files, endpoint, params, now, md5).0.None?
    ensures var request := Request(endpoint, FormPairs(params, params.keys), apiKey);
      var handled := Handle(server(request), Lookup(files, endpoint, params, now, md5).1, endpoint, params, now, md5);
      Respond(true, Some(apiKey), files, endpoint, params, now, md5, server) == (handled.0, Some(request), handled.1)
  {
  }

  /** A 200 reply's data is cached, so the same request at the same moment finds it. */
  lemma FreshDataIsCached(apiKey: string, files: Store, endpoint: string, params: Rec<Value>, now: int,
                          md5: string -> string, server: Request -> Reply)
    requires Valid(params) && apiKey != "" && Cached(endpoint)
    requires Lookup(files, endpoint, params, now, md5).0.None?
    requires var reply := server(Request(endpoint, FormPairs(params, params.keys), apiKey));
      reply.Answer? && reply.status == 200 && !Nullish(reply.body)
    ensures var (r, _, files') := Respond(true, Some(apiKey), files, endpoint, params, now, md5, server);
      r.Success? && !r.fromCache && Lookup(files', endpoint, params, now, md5).0 == Some(Reparse(r.data))
      && (WellFormed(r.data) && Plain(r.data) ==> Lookup(files', endpoint, params, now, md5).0 == Some(r.data))
  {
    var files1 := Lookup(files, endpoint, params, now, md5).1;
    var request := Request(endpoint, FormPairs(params, params.keys), apiKey);
    var body := server(request).body;
    var data := Or(Get(body, "data").value, Or(Opt(body, "results"), body));
    MissSends(apiKey, files, endpoint, params, now, md5, server);
    PositiveTtl(endpoint);
    assert Handle(server(request), files1, endpoint, params, now, md5)
        == (Success(data, Or(Opt(body, "total"), Count(data)), false), Save(files1, endpoint, params, data, now, md5));
    GetAfterSet(files1, endpoint, params, data, now, now, md5);
  }

  /** A person enrichment with only a company fails validation. */
  lemma CompanyAloneIsNotEnough(company: string)
    ensures Route(EnrichPerson(None, Some(company), None, None)) == Err(PersonParamRequired)
  {
  }
}
