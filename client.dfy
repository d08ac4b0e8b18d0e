/**
 * The rate API client: the credential check, the request body (quick rate
 * mode, so no order is created on the provider's side), the transient
 * cache around the request, the classification of the reply, and the
 * separate credential test against the carriers endpoint.
 */
module Client {
  import opened Php
  import opened AdminSettings
  import opened Packager

  const RatesEndpoint: string := "https://ssapi.shipstation.com/shipments/getrates"
  const CarriersEndpoint: string := "https://ssapi.shipstation.com/carriers"
  const CacheKeyPrefix: string := "hp_ss_rates_"

  const MissingCredentialsMessage: string := "ShipStation API credentials not configured."
  const DecodeErrorMessage: string := "Failed to decode ShipStation response."
  const ApiErrorPrefix: string := "ShipStation API returned error "

  /** The WP_Error codes get_rates can return; TransportError stands for the
      error wp_remote_post itself returned. */
  datatype ErrorKind = MissingCredentials | TransportError | ApiError | DecodeError

  /** What get_rates returns: the decoded rates, or a WP_Error. */
  datatype RatesResult =
    | Rates(rates: Value)
    | Failure(kind: ErrorKind, message: string)

  function ApiKey(settings: Option<Settings>): string {
    if settings.Some? then settings.value.apiKey else ""
  }

  function ApiSecret(settings: Option<Settings>): string {
    if settings.Some? then settings.value.apiSecret else ""
  }

  /** Neither credential is empty in PHP's sense. */
  predicate HasCredentials(settings: Option<Settings>) {
    !Empty(ApiKey(settings)) && !Empty(ApiSecret(settings))
  }

  // ---------------------------------------------------------------------------
  // The request

  /** What is asked for: every service of one carrier, in a plain package. */
  function ServiceFields(carrier: string): seq<(string, Value)> {
    [("carrierCode", Str(carrier)), ("serviceCode", Null), ("packageCode", Str("package"))]
  }

  function OriginFields(from: FromAddress): seq<(string, Value)> {
    [("fromPostalCode", Str(from.postcode)), ("fromCity", Str(from.city)),
     ("fromState", Str(from.state)), ("fromCountry", Str(from.country))]
  }

  function DestinationFields(to: ToAddress): seq<(string, Value)> {
    [("toCountry", Str(to.country)), ("toPostalCode", Str(to.postcode)), ("toCity", Str(to.city)),
     ("toState", Str(to.state)), ("toStreet1", Str(to.address1)), ("toStreet2", Str(to.address2))]
  }

  /** The package: weight in pounds, sides in inches. */
  function ParcelFields(pkg: Package): seq<(string, Value)> {
    [("weight", Arr([("value", Num(pkg.weight)), ("units", Str("pounds"))])),
     ("dimensions", Arr([("units", Str("inches")), ("length", Num(pkg.length)),
                         ("width", Num(pkg.width)), ("height", Num(pkg.height))]))]
  }

  /** No delivery confirmation, a residential destination, and quick rate
      mode under both of the API's field names, so that no order is created. */
  function OptionFields(): seq<(string, Value)> {
    [("confirmation", Str("none")), ("residential", Bool(true)),
     ("rate_options", Arr([("rate_type", Str("quick"))])),
     ("rateOptions", Arr([("rateType", Str("quick"))]))]
  }

  /** The body posted to the rates endpoint, before JSON encoding: its
      nineteen keys in the source's order. */
  function RequestBody(from: FromAddress, to: ToAddress, pkg: Package, carrier: string): (b: Value)
    ensures b.Arr? && |b.entries| == 19
  {
    Arr(ServiceFields(carrier) + OriginFields(from) + DestinationFields(to) + ParcelFields(pkg) + OptionFields())
  }

  /** A key of the body is found in the first group of fields that has it. */
  lemma BodyLookup(from: FromAddress, to: ToAddress, pkg: Package, carrier: string, key: string)
    ensures var s, o, d, p, x := ServiceFields(carrier), OriginFields(from), DestinationFields(to), ParcelFields(pkg), OptionFields();
            Lookup(RequestBody(from, to, pkg, carrier).entries, key)
            == if Lookup(s, key).Some? then Lookup(s, key)
               else if Lookup(o, key).Some? then Lookup(o, key)
               else if Lookup(d, key).Some? then Lookup(d, key)
               else if Lookup(p, key).Some? then Lookup(p, key)
               else Lookup(x, key)
  {
    var s, o, d, p, x := ServiceFields(carrier), OriginFields(from), DestinationFields(to), ParcelFields(pkg), OptionFields();
    LookupConcat(s + o + d + p, x, key);
    LookupConcat(s + o + d, p, key);
    LookupConcat(s + o, d, key);
    LookupConcat(s, o, key);
  }

  /** Every rate request asks for all services of the given carrier in a
      plain package. */
  lemma RequestBodyCarrier(from: FromAddress, to: ToAddress, pkg: Package, carrier: string)
    ensures var b := RequestBody(from, to, pkg, carrier);
            && Get(b, "carrierCode") == Str(carrier)
            && Lookup(b.entries, "serviceCode") == Some(Null) && !IsSet(b, "serviceCode")
            && Get(b, "packageCode") == Str("package")
  {
    var s := ServiceFields(carrier);
    BodyLookup(from, to, pkg, carrier, "carrierCode");
    BodyLookup(from, to, pkg, carrier, "serviceCode");
    BodyLookup(from, to, pkg, carrier, "packageCode");
    LookupAt(s, 0, "carrierCode");
    LookupAt(s, 1, "serviceCode");
    LookupAt(s, 2, "packageCode");
  }

  /** The origin travels field by field. */
  lemma RequestBodyOrigin(from: FromAddress, to: ToAddress, pkg: Package, carrier: string)
    ensures var b := RequestBody(from, to, pkg, carrier);
            && Get(b, "fromPostalCode") == Str(from.postcode)
            && Get(b, "fromCity") == Str(from.city)
            && Get(b, "fromState") == Str(from.state)
            && Get(b, "fromCountry") == Str(from.country)
  {
    var s, o := ServiceFields(carrier), OriginFields(from);
    LookupAt(o, 0, "fromPostalCode");
    LookupAt(o, 1, "fromCity");
    LookupAt(o, 2, "fromState");
    LookupAt(o, 3, "fromCountry");
    forall key | key in {"fromPostalCode", "fromCity", "fromState", "fromCountry"}
      ensures Lookup(RequestBody(from, to, pkg, carrier).entries, key) == Lookup(o, key)
    {
      BodyLookup(from, to, pkg, carrier, key);
      LookupNone(s, key);
    }
  }

  /** The destination travels field by field, its street lines included. */
  lemma RequestBodyDestination(from: FromAddress, to: ToAddress, pkg: Package, carrier: string)
    ensures var b := RequestBody(from, to, pkg, carrier);
            && Get(b, "toCountry") == Str(to.country)
            && Get(b, "toPostalCode") == Str(to.postcode)
            && Get(b, "toCity") == Str(to.city)
            && Get(b, "toState") == Str(to.state)
            && Get(b, "toStreet1") == Str(to.address1)
            && Get(b, "toStreet2") == Str(to.address2)
  {
    var s, o, d := ServiceFields(carrier), OriginFields(from), DestinationFields(to);
    LookupAt(d, 0, "toCountry");
    LookupAt(d, 1, "toPostalCode");
    LookupAt(d, 2, "toCity");
    LookupAt(d, 3, "toState");
    LookupAt(d, 4, "toStreet1");
    LookupAt(d, 5, "toStreet2");
    forall key | key in {"toCountry", "toPostalCode", "toCity", "toState", "toStreet1", "toStreet2"}
      ensures Lookup(RequestBody(from, to, pkg, carrier).entries, key) == Lookup(d, key)
    {
      BodyLookup(from, to, pkg, carrier, key);
      LookupNone(s, key);
      LookupNone(o, key);
    }
  }

  /** The package travels unchanged: weight in pounds, sides in inches. */
  lemma RequestBodyPackage(from: FromAddress, to: ToAddress, pkg: Package, carrier: string)
    ensures var b := RequestBody(from, to, pkg, carrier);
            && Get(Get(b, "weight"), "value") == Num(pkg.weight)
            && Get(Get(b, "weight"), "units") == Str("pounds")
            && Get(Get(b, "dimensions"), "units") == Str("inches")
            && Get(Get(b, "dimensions"), "length") == Num(pkg.length)
            && Get(Get(b, "dimensions"), "width") == Num(pkg.width)
            && Get(Get(b, "dimensions"), "height") == Num(pkg.height)
  {
    var s, o, d, p := ServiceFields(carrier), OriginFields(from), DestinationFields(to), ParcelFields(pkg);
    LookupAt(p, 0, "weight");
    LookupAt(p, 1, "dimensions");
    forall key | key in {"weight", "dimensions"}
      ensures Lookup(RequestBody(from, to, pkg, carrier).entries, key) == Lookup(p, key)
    {
      BodyLookup(from, to, pkg, carrier, key);
      LookupNone(s, key);
      LookupNone(o, key);
      LookupNone(d, key);
    }
    var w := p[0].1.entries;
    LookupAt(w, 1, "units");
    var dims := p[1].1.entries;
    LookupAt(dims, 1, "length");
    LookupAt(dims, 2, "width");
    LookupAt(dims, 3, "height");
  }

  /** The option keys come last and are found among the options. */
  lemma OptionLookup(from: FromAddress, to: ToAddress, pkg: Package, carrier: string, key: string)
    requires key in {"confirmation", "residential", "rate_options", "rateOptions"}
    ensures Lookup(RequestBody(from, to, pkg, carrier).entries, key) == Lookup(OptionFields(), key)
  {
    BodyLookup(from, to, pkg, carrier, key);
    LookupNone(ServiceFields(carrier), key);
    LookupNone(OriginFields(from), key);
    LookupNone(DestinationFields(to), key);
    LookupNone(ParcelFields(pkg), key);
  }

  /** Every rate request has no delivery confirmation and a residential destination. */
  lemma RequestBodyDelivery(from: FromAddress, to: ToAddress, pkg: Package, carrier: string)
    ensures var b := RequestBody(from, to, pkg, carrier);
            Get(b, "confirmation") == Str("none") && Get(b, "residential") == Bool(true)
  {
    var x := OptionFields();
    OptionLookup(from, to, pkg, carrier, "confirmation");
    OptionLookup(from, to, pkg, carrier, "residential");
    LookupAt(x, 0, "confirmation");
    LookupAt(x, 1, "residential");
  }

  /** Every rate request asks for quick rate mode, under both field names. */
  lemma RequestBodyQuickMode(from: FromAddress, to: ToAddress, pkg: Package, carrier: string)
    ensures var b := RequestBody(from, to, pkg, carrier);
            && Get(Get(b, "rate_options"), "rate_type") == Str("quick")
            && Get(Get(b, "rateOptions"), "rateType") == Str("quick")
  {
    var x := OptionFields();
    OptionLookup(from, to, pkg, carrier, "rate_options");
    OptionLookup(from, to, pkg, carrier, "rateOptions");
    LookupAt(x, 2, "rate_options");
    LookupAt(x, 3, "rateOptions");
  }

  /** The POST get_rates sends, with Basic auth from the stored credentials. */
  function RateRequest(settings: Option<Settings>, from: FromAddress, to: ToAddress, pkg: Package, carrier: string): Request {
    Request("POST", RatesEndpoint, ApiKey(settings), ApiSecret(settings), RequestBody(from, to, pkg, carrier))
  }

  // ---------------------------------------------------------------------------
  // The cache key

  /** The data hashed into the key: destination postcode and country, weight, carrier. */
  function KeyData(to: ToAddress, pkg: Package, carrier: string): Value {
    Arr([("to_postcode", Str(to.postcode)), ("to_country", Str(to.country)),
         ("weight", Num(pkg.weight)), ("carrier", Str(carrier))])
  }

  /** get_cache_key. */
  function CacheKey(to: ToAddress, pkg: Package, carrier: string, host: Host): (k: string)
    ensures CacheKeyPrefix <= k
  {
    CacheKeyPrefix + host.md5(host.jsonEncode(KeyData(to, pkg, carrier)))
  }

  /** The key depends on nothing but destination postcode and country,
      weight and carrier: requests that differ in the sides, the city, the
      street or the origin share it. */
  lemma CacheKeyDependsOnlyOn(to1: ToAddress, pkg1: Package, to2: ToAddress, pkg2: Package, carrier: string, host: Host)
    requires to1.postcode == to2.postcode && to1.country == to2.country && pkg1.weight == pkg2.weight
    ensures CacheKey(to1, pkg1, carrier, host) == CacheKey(to2, pkg2, carrier, host)
  {
  }

  // ---------------------------------------------------------------------------
  // The reply

  /** The api_error message: the status code, then ': ' and the body's
      message when the body decodes to an array that has one. */
  function ApiErrorMessage(code: int, decoded: Value, host: Host): (m: string)
    ensures ApiErrorPrefix + IntToString(code) <= m
    ensures |m| > |ApiErrorPrefix + IntToString(code)| <==> IsSet(decoded, "message")
    ensures IsSet(decoded, "message") ==>
              m == ApiErrorPrefix + IntToString(code) + ": " + ToText(Get(decoded, "message"), host)
  {
    var base := ApiErrorPrefix + IntToString(code);
    if decoded.Arr? && IsSet(decoded, "message") then base + ": " + ToText(Get(decoded, "message"), host) else base
  }

  /** The status code can be read back from an api_error message. */
  lemma ApiErrorMessageCarriesCode(code: int, decoded: Value, host: Host)
    ensures var m := ApiErrorMessage(code, decoded, host);
            var digits := m[|ApiErrorPrefix|..|ApiErrorPrefix| + |IntToString(code)|];
            digits == IntToString(code) && ParseInt(digits) == code
  {
    var m := ApiErrorMessage(code, decoded, host);
    var s := ApiErrorPrefix + IntToString(code);
    assert m[..|s|] == s;
    assert m[|ApiErrorPrefix|..|s|] == s[|ApiErrorPrefix|..];
    assert s[|ApiErrorPrefix|..] == IntToString(code);
    ParseIntOfIntToString(code);
  }

  /** How get_rates reads a reply to a request it sent. */
  function Classify(reply: HttpResult, host: Host): (r: RatesResult)
    ensures r.Failure? ==> r.kind != MissingCredentials
    ensures r.Rates? <==> reply.Response? && reply.code == 200 && host.jsonDecode(reply.body).Arr?
    ensures r.Rates? ==> r.rates == host.jsonDecode(reply.body)
    ensures (r.Failure? && r.kind == TransportError) <==> reply.TransportFailure?
    ensures reply.TransportFailure? ==> r.message == reply.message
    ensures (r.Failure? && r.kind == ApiError) <==> reply.Response? && reply.code != 200
    ensures r.Failure? && r.kind == ApiError ==>
              r.message == ApiErrorMessage(reply.code, host.jsonDecode(reply.body), host)
    ensures (r.Failure? && r.kind == DecodeError) <==>
              reply.Response? && reply.code == 200 && !host.jsonDecode(reply.body).Arr?
  {
    match reply
    case TransportFailure(message) => Failure(TransportError, message)
    case Response(code, body) =>
      var decoded := host.jsonDecode(body);
      if code != 200 then Failure(ApiError, ApiErrorMessage(code, decoded, host))
      else if !decoded.Arr? then Failure(DecodeError, DecodeErrorMessage)
      else Rates(decoded)
  }

  // ---------------------------------------------------------------------------
  // get_rates: the cache around the request

  /** One call of get_rates: what it returns, the transient store after it,
      and the request it sent, if any. */
  datatype Fetch = Fetch(result: RatesResult, transients: map<string, Value>, sent: Option<Request>)

  /** get_transient found a value: the key is stored and is not `false`. */
  predicate CacheHit(transients: map<string, Value>, key: string) {
    key in transients && transients[key] != Bool(false)
  }

  function FetchRates(settings: Option<Settings>, from: FromAddress, to: ToAddress, pkg: Package, carrier: string,
                      host: Host, transients: map<string, Value>, network: Request -> HttpResult): Fetch
  {
    if !HasCredentials(settings) then
      Fetch(Failure(MissingCredentials, MissingCredentialsMessage), transients, None)
    else
      var key := CacheKey(to, pkg, carrier, host);
      if CacheHit(transients, key) then
        Fetch(Rates(transients[key]), transients, None)
      else
        var request := RateRequest(settings, from, to, pkg, carrier);
        var result := Classify(network(request), host);
        Fetch(result, if result.Rates? then transients[key := result.rates] else transients, Some(request))
  }

  /** Missing credentials: a missing_credentials error, and neither the cache
      nor the network is touched; no other path gives that error. */
  lemma MissingCredentialsShortCircuit(settings: Option<Settings>, from: FromAddress, to: ToAddress, pkg: Package,
                                       carrier: string, host: Host, transients: map<string, Value>,
                                       network: Request -> HttpResult)
    ensures var f := FetchRates(settings, from, to, pkg, carrier, host, transients, network);
            (f.result.Failure? && f.result.kind == MissingCredentials) <==> !HasCredentials(settings)
    ensures !HasCredentials(settings) ==>
              FetchRates(settings, from, to, pkg, carrier, host, transients, network)
              == Fetch(Failure(MissingCredentials, MissingCredentialsMessage), transients, None)
  {
  }

  /** A cache hit returns the cached value and sends nothing. */
  lemma CacheHitSkipsRequest(settings: Option<Settings>, from: FromAddress, to: ToAddress, pkg: Package,
                             carrier: string, host: Host, transients: map<string, Value>,
                             network: Request -> HttpResult)
    requires HasCredentials(settings) && CacheHit(transients, CacheKey(to, pkg, carrier, host))
    ensures FetchRates(settings, from, to, pkg, carrier, host, transients, network)
            == Fetch(Rates(transients[CacheKey(to, pkg, carrier, host)]), transients, None)
  {
  }

  /** A miss sends exactly the rate request and keeps only an array reply. */
  lemma CacheMissSendsRequest(settings: Option<Settings>, from: FromAddress, to: ToAddress, pkg: Package,
                              carrier: string, host: Host, transients: map<string, Value>,
                              network: Request -> HttpResult)
    requires HasCredentials(settings) && !CacheHit(transients, CacheKey(to, pkg, carrier, host))
    ensures var f := FetchRates(settings, from, to, pkg, carrier, host, transients, network);
            var request := RateRequest(settings, from, to, pkg, carrier);
            && f.sent == Some(request)
            && f.result == Classify(network(request), host)
            && (f.result.Rates? ==> f.transients == transients[CacheKey(to, pkg, carrier, host) := f.result.rates])
            && (f.result.Failure? ==> f.transients == transients)
  {
  }

  /** Every cached value is an array. */
  predicate CachedArrays(transients: map<string, Value>) {
    forall k :: k in transients ==> transients[k].Arr?
  }

  /** Only a successful array is stored, so a cache of arrays stays one, a
      changed cache means a success, and a hit always yields an array. */
  lemma FetchKeepsCachedArrays(settings: Option<Settings>, from: FromAddress, to: ToAddress, pkg: Package,
                               carrier: string, host: Host, transients: map<string, Value>,
                               network: Request -> HttpResult)
    requires CachedArrays(transients)
    ensures var f := FetchRates(settings, from, to, pkg, carrier, host, transients, network);
            && CachedArrays(f.transients)
            && (f.transients != transients ==> f.result.Rates? && f.sent.Some?)
            && (f.result.Rates? ==> f.result.rates.Arr?)
  {
  }

  /** After a call that returned rates, a second call for the same
      destination postcode and country, weight and carrier (any origin, city,
      street or sides, any network) returns the same rates without a request. */
  lemma SecondCallHitsCache(settings: Option<Settings>, from1: FromAddress, to1: ToAddress, pkg1: Package,
                            from2: FromAddress, to2: ToAddress, pkg2: Package, carrier: string, host: Host,
                            transients: map<string, Value>, network1: Request -> HttpResult,
                            network2: Request -> HttpResult)
    requires to1.postcode == to2.postcode && to1.country == to2.country && pkg1.weight == pkg2.weight
    requires FetchRates(settings, from1, to1, pkg1, carrier, host, transients, network1).result.Rates?
    ensures var f1 := FetchRates(settings, from1, to1, pkg1, carrier, host, transients, network1);
            var f2 := FetchRates(settings, from2, to2, pkg2, carrier, host, f1.transients, network2);
            f2 == Fetch(f1.result, f1.transients, None)
  {
    var f1 := FetchRates(settings, from1, to1, pkg1, carrier, host, transients, network1);
    CacheKeyDependsOnlyOn(to1, pkg1, to2, pkg2, carrier, host);
    var key := CacheKey(to1, pkg1, carrier, host);
    assert key in f1.transients && f1.transients[key] == f1.result.rates;
    assert CacheHit(f1.transients, key);
  }

  /** The WordPress state get_rates touches: the transient store and the log
      of requests sent over the network. */
  class Site {
    var transients: map<string, Value>
    var requests: seq<Request>

    constructor (transients: map<string, Value>)
      ensures this.transients == transients && requests == []
    {
      this.transients := transients;
      requests := [];
    }
  }

  /** get_rates. */
  method GetRates(site: Site, settings: Option<Settings>, from: FromAddress, to: ToAddress, pkg: Package,
                  carrier: string, host: Host, network: Request -> HttpResult) returns (r: RatesResult)
    modifies site
    ensures var f := FetchRates(settings, from, to, pkg, carrier, host, old(site.transients), network);
            && r == f.result
            && site.transients == f.transients
            && site.requests == old(site.requests) + (if f.sent.Some? then [f.sent.value] else [])
  {
    var apiKey := ApiKey(settings);
    var apiSecret := ApiSecret(settings);
    if Empty(apiKey) || Empty(apiSecret) {
      return Failure(MissingCredentials, MissingCredentialsMessage);
    }

    var request := Request("POST", RatesEndpoint, apiKey, apiSecret, RequestBody(from, to, pkg, carrier));

    var cacheKey := CacheKey(to, pkg, carrier, host);
    if cacheKey in site.transients && site.transients[cacheKey] != Bool(false) {
      return Rates(site.transients[cacheKey]);
    }

    site.requests := site.requests + [request];
    var response := network(request);
    if response.TransportFailure? {
      return Failure(TransportError, response.message);
    }

    var responseCode := response.code;
    var responseBody := response.body;
    if responseCode != 200 {
      return Failure(ApiError, ApiErrorMessage(responseCode, host.jsonDecode(responseBody), host));
    }

    var rates := host.jsonDecode(responseBody);
    if !rates.Arr? {
      return Failure(DecodeError, DecodeErrorMessage);
    }

    site.transients := site.transients[cacheKey := rates];
    return Rates(rates);
  }

  // ---------------------------------------------------------------------------
  // test_credentials

  /** The five outcomes test_credentials tells apart. */
  datatype CredentialCheck =
    | MissingInput
    | ConnectionFailed(reason: string)
    | Connected(carriers: nat)
    | Unauthorized
    | HttpError(code: int)

  datatype TestResult = TestResult(success: bool, message: string)

  /** The GET test_credentials sends. */
  function CarriersRequest(apiKey: string, apiSecret: string): Request {
    Request("GET", CarriersEndpoint, apiKey, apiSecret, Null)
  }

  function CheckCredentials(apiKey: string, apiSecret: string, host: Host, network: Request -> HttpResult): (c: CredentialCheck)
    ensures c.MissingInput? <==> Empty(apiKey) || Empty(apiSecret)
    ensures !c.MissingInput? ==>
              var reply := network(CarriersRequest(apiKey, apiSecret));
              && (c.ConnectionFailed? <==> reply.TransportFailure?)
              && (c.Connected? <==> reply.Response? && reply.code == 200)
              && (c.Unauthorized? <==> reply.Response? && reply.code == 401)
              && (c.HttpError? <==> reply.Response? && reply.code != 200 && reply.code != 401)
              && (c.HttpError? ==> c.code == reply.code)
              && (c.ConnectionFailed? ==> c.reason == reply.message)
              && (c.Connected? ==> c.carriers == (if host.jsonDecode(reply.body).Arr?
                                                  then |host.jsonDecode(reply.body).entries| else 0))
  {
    if Empty(apiKey) || Empty(apiSecret) then MissingInput
    else
      match network(CarriersRequest(apiKey, apiSecret))
      case TransportFailure(message) => ConnectionFailed(message)
      case Response(code, body) =>
        if code == 200 then
          var carriers := host.jsonDecode(body);
          Connected(if carriers.Arr? then |carriers.entries| else 0)
        else if code == 401 then Unauthorized
        else HttpError(code)
  }

  /** The array test_credentials returns for each outcome. */
  function Report(c: CredentialCheck): (r: TestResult)
    ensures r.success <==> c.Connected?
  {
    match c
    case MissingInput => TestResult(false, "API Key and Secret are required.")
    case ConnectionFailed(reason) => TestResult(false, "Connection failed: " + reason)
    case Connected(n) => TestResult(true, "Connection successful! Found " + IntToString(n) + " carriers.")
    case Unauthorized => TestResult(false, "Authentication failed. Please check your API Key and Secret.")
    case HttpError(code) => TestResult(false, "API returned error " + IntToString(code))
  }

  /** test_credentials. */
  function TestCredentials(apiKey: string, apiSecret: string, host: Host, network: Request -> HttpResult): (r: TestResult)
    ensures r.success <==> !Empty(apiKey) && !Empty(apiSecret) &&
                           network(CarriersRequest(apiKey, apiSecret)).Response? &&
                           network(CarriersRequest(apiKey, apiSecret)).code == 200
  {
    Report(CheckCredentials(apiKey, apiSecret, host, network))
  }

  /** With a credential missing, nothing is asked of the network: the
      answer is the same whatever the network would have said. */
  lemma TestCredentialsOfflineWhenEmpty(apiKey: string, apiSecret: string, host: Host,
                                        network1: Request -> HttpResult, network2: Request -> HttpResult)
    requires Empty(apiKey) || Empty(apiSecret)
    ensures TestCredentials(apiKey, apiSecret, host, network1) == TestCredentials(apiKey, apiSecret, host, network2)
    ensures TestCredentials(apiKey, apiSecret, host, network1) == TestResult(false, "API Key and Secret are required.")
  {
  }
}
