/**
 * `module_utils/hcs_utils.py`, a client helper module of its own (the
 * auto-scaling modules import their `Config` from `hwc_utils` and do not
 * call it): a service client that merges its default headers into the
 * caller's, and a configuration object that picks the project- or
 * domain-level client and caches the service endpoints it looks up.
 */
module HcsUtils {
  import opened Wrappers

  // ----- headers --------------------------------------------------------------

  /** A header dict: an object, since `_header` fills the caller's dict in place. */
  class HeaderDict {
    var entries: map<string, string>

    constructor (entries: map<string, string>)
      ensures this.entries == entries
    {
      this.entries := entries;
    }
  }

  /** The `header` argument: None, something that is not a dict, or a dict. */
  datatype HeaderArg = NoHeader | NotADict | DictHeader(d: HeaderDict)

  /** The dicts a `_header` call may fill. */
  function Footprint(header: HeaderArg): set<HeaderDict> {
    if header.DictHeader? then {header.d} else {}
  }

  /** The default header of a client of product `product`. */
  function DefaultHeader(product: string): (h: map<string, string>)
    ensures h.Keys == {"User-Agent", "Accept"}
    ensures h["User-Agent"] == "Huawei-Ansible-MM-" + product && h["Accept"] == "application/json"
  {
    map["User-Agent" := "Huawei-Ansible-MM-" + product, "Accept" := "application/json"]
  }

  /** The caller's entries, with each default whose key the caller did not set. */
  function Merged(h: map<string, string>, defaults: map<string, string>): map<string, string> {
    map k | k in h.Keys + defaults.Keys :: if k in h then h[k] else defaults[k]
  }

  /**
   * Merging adds every default key the caller lacks, keeps the caller's
   * keys and values, and adds nothing else.
   */
  lemma MergedShape(h: map<string, string>, defaults: map<string, string>)
    ensures var m := Merged(h, defaults);
            m.Keys == h.Keys + defaults.Keys &&
            (forall k :: k in h ==> m[k] == h[k]) &&
            (forall k :: k in defaults && k !in h ==> m[k] == defaults[k])
  {
  }

  /** Merging the defaults a second time changes nothing. */
  lemma MergedIdempotent(h: map<string, string>, defaults: map<string, string>)
    ensures Merged(Merged(h, defaults), defaults) == Merged(h, defaults)
  {
    MergedShape(h, defaults);
    MergedShape(Merged(h, defaults), defaults);
  }

  /** The project-level and the domain-level keystone clients. */
  datatype ClientKind = ProjectClient | DomainClient

  /** `_ServiceClient`: a client, its endpoint, and its default header. */
  class ServiceClient {
    const client: ClientKind
    var endpoint: string
    const defaultHeader: HeaderDict

    constructor (client: ClientKind, endpoint: string, product: string)
      ensures this.client == client && this.endpoint == endpoint
      ensures fresh(defaultHeader) && defaultHeader.entries == DefaultHeader(product)
    {
      this.client := client;
      this.endpoint := endpoint;
      defaultHeader := new HeaderDict(DefaultHeader(product));
    }

    /** The `endpoint` setter. */
    method SetEndpoint(e: string)
      modifies this
      ensures endpoint == e
    {
      endpoint := e;
    }

    /**
     * `_header`: a non-empty dict gets every missing default key written
     * into it and is returned; for None, an empty dict or anything else
     * the default header object itself is returned.
     */
    method Header(header: HeaderArg) returns (r: HeaderDict)
      modifies Footprint(header)
      ensures header.DictHeader? && old(header.d.entries) != map[] ==>
                r == header.d && r.entries == Merged(old(header.d.entries), old(defaultHeader.entries))
      ensures !(header.DictHeader? && old(header.d.entries) != map[]) ==>
                r == defaultHeader && unchanged(Footprint(header))
    {
      if header.DictHeader? && header.d.entries != map[] {
        var h := header.d;
        var defaults := defaultHeader.entries;
        var merged := h.entries;
        var todo := defaults.Keys;
        while todo != {}
          invariant todo <= defaults.Keys
          invariant merged == Merged(h.entries, map k | k in defaults.Keys - todo :: defaults[k])
          decreases |todo|
        {
          var k :| k in todo;
          if k !in merged {
            merged := merged[k := defaults[k]];
          }
          todo := todo - {k};
        }
        h.entries := merged;
        r := h;
      } else {
        r := defaultHeader;
      }
    }
  }

  // ----- the endpoint cache -----------------------------------------------------

  /** Why an endpoint cannot be had. */
  datatype EndpointError =
    | LookupFailed(key: string, detail: string)  // "Getting endpoint for ... failed, error=..."
    | NotFound(key: string)                      // "Can not find the endpoint for ..."
    | NotSubscriptable                           // `url[-1]` on None raises a TypeError

  /** The keystone catalogue lookup: an error, no endpoint (None), or a URL. */
  type Catalogue = (ClientKind, string, Option<string>) -> Result<Option<string>, string>

  /** The cache key `"%s.%s" % (service_type, region if region else "")`. */
  function CacheKey(serviceType: string, region: Option<string>): string {
    serviceType + "." + (if region.Some? && region.value != "" then region.value else "")
  }

  /** The key is the service type, a dot, and the region, a missing or empty region reading as "". */
  lemma CacheKeyFormat(serviceType: string, region: string)
    ensures CacheKey(serviceType, None) == serviceType + "."
    ensures CacheKey(serviceType, Some("")) == serviceType + "."
    ensures CacheKey(serviceType, Some(region)) == serviceType + "." + region
  {
  }

  predicate EndsWithSlash(url: string) {
    url != [] && url[|url| - 1] == '/'
  }

  /** `if url[-1] != "/": url += "/"`. */
  function Normalize(url: string): string
    requires url != []
  {
    if url[|url| - 1] != '/' then url + "/" else url
  }

  /**
   * The normalised URL ends with "/", is the URL itself when it already
   * did and the URL with exactly one "/" appended otherwise, and
   * normalising again changes nothing.
   */
  lemma NormalizeShape(url: string)
    requires url != []
    ensures EndsWithSlash(Normalize(url))
    ensures EndsWithSlash(url) ==> Normalize(url) == url
    ensures !EndsWithSlash(url) ==> Normalize(url) == url + "/"
    ensures Normalize(Normalize(url)) == Normalize(url)
  {
    var n := Normalize(url);
    assert n[|n| - 1] == '/';
  }

  /** What one lookup yields, as the code is written: None reaches `url[-1]`. */
  function ResolveAsWritten(found: Result<Option<string>, string>, key: string): Result<string, EndpointError> {
    match found
    case Failure(e) => Failure(LookupFailed(key, e))
    case Success(None) => Failure(NotSubscriptable)
    case Success(Some(url)) => if url == "" then Failure(NotFound(key)) else Success(Normalize(url))
  }

  /** What one lookup yields: a catalogue with no endpoint, None or "", is "Can not find the endpoint". */
  function Resolve(found: Result<Option<string>, string>, key: string): Result<string, EndpointError> {
    match found
    case Failure(e) => Failure(LookupFailed(key, e))
    case Success(None) => Failure(NotFound(key))
    case Success(Some(url)) => if url == "" then Failure(NotFound(key)) else Success(Normalize(url))
  }

  /** As written, a catalogue that returns None makes `url[-1]` raise instead of reporting the missing endpoint. */
  lemma NoneEndpointRaisesAsWritten(key: string)
    ensures ResolveAsWritten(Success(None), key) == Failure(NotSubscriptable)
    ensures ResolveAsWritten(Success(None), key) != ResolveAsWritten(Success(Some("")), key)
  {
  }

  /**
   * Corrected, both ways a catalogue can lack the endpoint are reported
   * as not found under the key, and every URL returned ends with "/".
   */
  lemma ResolveReportsMissing(found: Result<Option<string>, string>, key: string)
    ensures Resolve(Success(None), key) == Failure(NotFound(key))
    ensures Resolve(Success(Some("")), key) == Failure(NotFound(key))
    ensures Resolve(found, key).Success? ==>
              found.Success? && found.value.Some? && found.value.value != "" &&
              Resolve(found, key).value == Normalize(found.value.value) && EndsWithSlash(Resolve(found, key).value)
    ensures found.Success? && found.value.Some? && found.value.value != "" ==> Resolve(found, key).Success?
  {
    if found.Success? && found.value.Some? && found.value.value != "" {
      NormalizeShape(found.value.value);
    }
  }

  /** The code as written and the corrected lookup differ only on a None answer. */
  lemma ResolveAgreesBesideNone(found: Result<Option<string>, string>, key: string)
    ensures found != Success(None) ==> ResolveAsWritten(found, key) == Resolve(found, key)
    ensures found == Success(None) ==> ResolveAsWritten(found, key) == Failure(NotSubscriptable) &&
                                       Resolve(found, key) == Failure(NotFound(key))
  {
  }

  /** Every cached URL ends with "/". */
  predicate ValidCache(cache: map<string, string>) {
    forall k :: k in cache ==> EndsWithSlash(cache[k])
  }

  /** The outcome of `_get_service_endpoint`: the URL or error, the cache after, and whether the catalogue was asked. */
  datatype EndpointStep = EndpointStep(result: Result<string, EndpointError>, cache: map<string, string>, lookedUp: bool)

  /**
   * `_get_service_endpoint` on a cache, as written: a hit answers from the
   * cache; otherwise the catalogue is asked, and a URL found is normalised
   * and cached under the key (a None answer raises at `url[-1]`).
   */
  function LookupEndpoint(cache: map<string, string>, catalogue: Catalogue, client: ClientKind,
                          serviceType: string, region: Option<string>): EndpointStep
  {
    var key := CacheKey(serviceType, region);
    if key in cache then EndpointStep(Success(cache[key]), cache, false)
    else
      var r := ResolveAsWritten(catalogue(client, serviceType, region), key);
      EndpointStep(r, if r.Success? then cache[key := r.value] else cache, true)
  }

  /** A cache hit returns the stored URL, asks nothing and leaves the cache as it was. */
  lemma CacheHitNoLookup(cache: map<string, string>, catalogue: Catalogue, client: ClientKind,
                         serviceType: string, region: Option<string>)
    requires CacheKey(serviceType, region) in cache
    ensures LookupEndpoint(cache, catalogue, client, serviceType, region)
              == EndpointStep(Success(cache[CacheKey(serviceType, region)]), cache, false)
  {
  }

  /** A miss for which the catalogue returns "" fails with "Can not find", and nothing is cached. */
  lemma EmptyEndpointLeavesCache(cache: map<string, string>, catalogue: Catalogue, client: ClientKind,
                                 serviceType: string, region: Option<string>)
    requires CacheKey(serviceType, region) !in cache
    requires catalogue(client, serviceType, region) == Success(Some(""))
    ensures var step := LookupEndpoint(cache, catalogue, client, serviceType, region);
            step.result == Failure(NotFound(CacheKey(serviceType, region))) && step.cache == cache && step.lookedUp
  {
  }

  /** A miss for which the catalogue returns None raises at `url[-1]`, and nothing is cached. */
  lemma NoneEndpointLeavesCache(cache: map<string, string>, catalogue: Catalogue, client: ClientKind,
                                serviceType: string, region: Option<string>)
    requires CacheKey(serviceType, region) !in cache
    requires catalogue(client, serviceType, region) == Success(None)
    ensures var step := LookupEndpoint(cache, catalogue, client, serviceType, region);
            step.result == Failure(NotSubscriptable) && step.cache == cache && step.lookedUp
  {
  }

  /**
   * The cache keeps its invariant; every URL returned ends with "/"; and
   * after a miss that finds a URL, the cache maps the key to exactly the
   * URL returned and nothing else changes.
   */
  lemma LookupKeepsCacheValid(cache: map<string, string>, catalogue: Catalogue, client: ClientKind,
                              serviceType: string, region: Option<string>)
    requires ValidCache(cache)
    ensures var step := LookupEndpoint(cache, catalogue, client, serviceType, region);
            var key := CacheKey(serviceType, region);
            ValidCache(step.cache) &&
            (step.result.Success? ==> EndsWithSlash(step.result.value)) &&
            (step.result.Success? ==> step.cache == cache[key := step.result.value]) &&
            (step.result.Failure? ==> step.cache == cache)
  {
    var key := CacheKey(serviceType, region);
    if key !in cache {
      ResolveAgreesBesideNone(catalogue(client, serviceType, region), key);
      ResolveReportsMissing(catalogue(client, serviceType, region), key);
    }
  }

  /** `client`'s choice: the domain client exactly when the service level is "domain". */
  function ClientFor(serviceLevel: string): (c: ClientKind)
    ensures c == DomainClient <==> serviceLevel == "domain"
  {
    if serviceLevel == "domain" then DomainClient else ProjectClient
  }

  /** `Config`: the product and the endpoint cache, with the catalogue lookups made so far. */
  class Config {
    const product: string
    var endpoints: map<string, string>
    ghost var lookups: seq<(ClientKind, string, Option<string>)>

    ghost predicate Valid()
      reads this
    {
      ValidCache(endpoints)
    }

    constructor (product: string)
      ensures this.product == product && endpoints == map[] && lookups == [] && Valid()
    {
      this.product := product;
      endpoints := map[];
      lookups := [];
    }

    /** `_get_service_endpoint`. */
    method GetServiceEndpoint(catalogue: Catalogue, client: ClientKind, serviceType: string, region: Option<string>)
        returns (r: Result<string, EndpointError>)
      requires Valid()
      modifies this
      ensures Valid()
      ensures var step := LookupEndpoint(old(endpoints), catalogue, client, serviceType, region);
              r == step.result && endpoints == step.cache &&
              lookups == old(lookups) + (if step.lookedUp then [(client, serviceType, region)] else [])
    {
      LookupKeepsCacheValid(endpoints, catalogue, client, serviceType, region);
      var key := CacheKey(serviceType, region);
      if key in endpoints {
        return Success(endpoints[key]);
      }
      lookups := lookups + [(client, serviceType, region)];
      var found := catalogue(client, serviceType, region);
      if found.Failure? {
        return Failure(LookupFailed(key, found.error));
      }
      if found.value.None? {
        return Failure(NotSubscriptable);
      }
      if found.value.value == "" {
        return Failure(NotFound(key));
      }
      var url := found.value.value;
      if url[|url| - 1] != '/' {
        url := url + "/";
      }
      endpoints := endpoints[key := url];
      return Success(url);
    }

    /**
     * `client`: the domain or project client by service level, its
     * endpoint (raising as the lookup does), and a fresh service client.
     */
    method Client(catalogue: Catalogue, region: Option<string>, serviceType: string, serviceLevel: string)
        returns (r: Result<ServiceClient, EndpointError>)
      requires Valid()
      modifies this
      ensures Valid()
      ensures var step := LookupEndpoint(old(endpoints), catalogue, ClientFor(serviceLevel), serviceType, region);
              endpoints == step.cache &&
              lookups == old(lookups) + (if step.lookedUp then [(ClientFor(serviceLevel), serviceType, region)] else []) &&
              (step.result.Failure? ==> r == Failure(step.result.error)) &&
              (step.result.Success? ==>
                 r.Success? && fresh(r.value) && fresh(r.value.defaultHeader) &&
                 r.value.client == ClientFor(serviceLevel) && r.value.endpoint == step.result.value &&
                 r.value.defaultHeader.entries == DefaultHeader(product))
    {
      var c := ProjectClient;
      if serviceLevel == "domain" {
        c := DomainClient;
      }
      var e := GetServiceEndpoint(catalogue, c, serviceType, region);
      if e.Failure? {
        return Failure(e.error);
      }
      var sc := new ServiceClient(c, e.value, product);
      return Success(sc);
    }
  }
}
