/**
 * The shipping method: calculate_shipping, which checks the preconditions,
 * asks the rate API once per carrier that has services enabled, keeps the
 * allowed services of each reply and hands the result to WooCommerce; and
 * filter_rates, which turns one carrier's raw reply into WooCommerce rates.
 */
module Shipping {
  import opened Php
  import opened AdminSettings
  import opened Packager
  import opened Client

  /** The provider's carrier codes and the names shown at checkout. */
  const UspsCarrier: string := "stamps_com"
  const UpsCarrier: string := "ups_walleted"
  const UspsName: string := "USPS"
  const UpsName: string := "UPS"
  const RateIdPrefix: string := "hp_ss_"

  /** A rate as handed to add_rate (`rateLabel` is its label). */
  datatype RateMeta = RateMeta(carrier: string, serviceCode: string)
  datatype ShippingRate = ShippingRate(id: string, rateLabel: string, cost: real, meta: RateMeta)

  // ---------------------------------------------------------------------------
  // filter_rates

  /** The entry has the three fields filter_rates reads. */
  predicate Complete(rate: Value) {
    IsSet(rate, "serviceCode") && IsSet(rate, "serviceName") && IsSet(rate, "shipmentCost")
  }

  /** The entry is complete and its code is one of the allowed codes,
      compared strictly: only a string equal to an allowed code matches. */
  predicate Allowed(rate: Value, allowed: seq<string>) {
    Complete(rate) && Get(rate, "serviceCode").Str? && Get(rate, "serviceCode").s in allowed
  }

  /** The WooCommerce rate built from an allowed entry. */
  function Shape(rate: Value, carrier: string, host: Host): (r: ShippingRate)
    requires Complete(rate) && Get(rate, "serviceCode").Str?
    ensures r.meta == RateMeta(carrier, Get(rate, "serviceCode").s)
    ensures r.id == RateIdPrefix + host.sanitizeTitle(r.meta.serviceCode)
    ensures r.rateLabel == carrier + " " + ToText(Get(rate, "serviceName"), host)
    ensures r.cost == FloatVal(Get(rate, "shipmentCost"), host)
  {
    var serviceCode := Get(rate, "serviceCode").s;
    var serviceName := Get(rate, "serviceName");
    var cost := FloatVal(Get(rate, "shipmentCost"), host);
    ShippingRate(RateIdPrefix + host.sanitizeTitle(serviceCode), carrier + " " + ToText(serviceName, host), cost,
                 RateMeta(carrier, serviceCode))
  }

  /** The rates filter_rates returns, stated on prefixes as its loop builds them. */
  function Filtered(rates: seq<Value>, allowed: seq<string>, carrier: string, host: Host): seq<ShippingRate>
    decreases |rates|
  {
    if rates == [] then []
    else
      var last := rates[|rates| - 1];
      Filtered(rates[..|rates| - 1], allowed, carrier, host)
      + if Allowed(last, allowed) then [Shape(last, carrier, host)] else []
  }

  /** The positions of the entries filter_rates keeps, in order. */
  function KeptIndices(rates: seq<Value>, allowed: seq<string>): seq<nat>
    decreases |rates|
  {
    if rates == [] then []
    else
      KeptIndices(rates[..|rates| - 1], allowed)
      + if Allowed(rates[|rates| - 1], allowed) then [|rates| - 1] else []
  }

  /** filter_rates. */
  method FilterRates(rates: seq<Value>, allowed: seq<string>, carrier: string, host: Host)
    returns (filtered: seq<ShippingRate>)
    ensures filtered == Filtered(rates, allowed, carrier, host)
  {
    filtered := [];
    for i := 0 to |rates|
      invariant filtered == Filtered(rates[..i], allowed, carrier, host)
    {
      assert rates[..i + 1][..i] == rates[..i];
      var rate := rates[i];
      if !IsSet(rate, "serviceCode") || !IsSet(rate, "serviceName") || !IsSet(rate, "shipmentCost") {
        continue;
      }
      var serviceCode := Get(rate, "serviceCode");
      var serviceName := Get(rate, "serviceName");
      var cost := FloatVal(Get(rate, "shipmentCost"), host);
      if serviceCode.Str? && serviceCode.s in allowed {
        filtered := filtered + [ShippingRate(RateIdPrefix + host.sanitizeTitle(serviceCode.s),
                                             carrier + " " + ToText(serviceName, host), cost,
                                             RateMeta(carrier, serviceCode.s))];
      }
    }
    assert rates[..|rates|] == rates;
  }

  /** The kept positions are in range, strictly increasing, and are exactly
      the positions of the allowed entries. */
  lemma {:induction false} KeptIndicesExact(rates: seq<Value>, allowed: seq<string>)
    ensures forall k :: 0 <= k < |KeptIndices(rates, allowed)| ==> KeptIndices(rates, allowed)[k] < |rates|
    ensures forall k, l :: 0 <= k < l < |KeptIndices(rates, allowed)| ==>
              KeptIndices(rates, allowed)[k] < KeptIndices(rates, allowed)[l]
    ensures forall i :: 0 <= i < |rates| ==> (Allowed(rates[i], allowed) <==> i in KeptIndices(rates, allowed))
    decreases |rates|
  {
    if rates != [] {
      var init := rates[..|rates| - 1];
      KeptIndicesExact(init, allowed);
      assert forall i :: 0 <= i < |init| ==> init[i] == rates[i];
    }
  }

  /** The k-th rate filter_rates returns is the shaped k-th kept entry: the
      output follows the input's order and is never re-sorted. */
  lemma {:induction false} FilteredFollowsInput(rates: seq<Value>, allowed: seq<string>, carrier: string, host: Host)
    ensures |Filtered(rates, allowed, carrier, host)| == |KeptIndices(rates, allowed)|
    ensures forall k :: 0 <= k < |KeptIndices(rates, allowed)| ==>
              var i := KeptIndices(rates, allowed)[k];
              i < |rates| && Allowed(rates[i], allowed) &&
              Filtered(rates, allowed, carrier, host)[k] == Shape(rates[i], carrier, host)
    decreases |rates|
  {
    if rates != [] {
      var init := rates[..|rates| - 1];
      FilteredFollowsInput(init, allowed, carrier, host);
      KeptIndicesExact(init, allowed);
      assert forall i :: 0 <= i < |init| ==> init[i] == rates[i];
    }
  }

  /** Every returned rate carries the carrier's name and an allowed code,
      from which its id is made. */
  lemma FilteredRatesAllowed(rates: seq<Value>, allowed: seq<string>, carrier: string, host: Host)
    ensures forall r :: r in Filtered(rates, allowed, carrier, host) ==>
              && r.meta.carrier == carrier
              && r.meta.serviceCode in allowed
              && r.id == RateIdPrefix + host.sanitizeTitle(r.meta.serviceCode)
  {
    FilteredFollowsInput(rates, allowed, carrier, host);
    forall r | r in Filtered(rates, allowed, carrier, host)
      ensures r.meta.carrier == carrier && r.meta.serviceCode in allowed
    {
      var k :| 0 <= k < |Filtered(rates, allowed, carrier, host)| && Filtered(rates, allowed, carrier, host)[k] == r;
    }
  }

  /** filter_rates works entry by entry: the result for a split reply is the
      two results put together. */
  lemma {:induction false} FilteredAppend(a: seq<Value>, b: seq<Value>, allowed: seq<string>, carrier: string, host: Host)
    ensures Filtered(a + b, allowed, carrier, host) == Filtered(a, allowed, carrier, host) + Filtered(b, allowed, carrier, host)
    decreases |b|
  {
    if b == [] {
      assert a + b == a;
    } else {
      var b' := b[..|b| - 1];
      assert (a + b)[..|a + b| - 1] == a + b';
      assert (a + b)[|a + b| - 1] == b[|b| - 1];
      FilteredAppend(a, b', allowed, carrier, host);
    }
  }

  /** An entry that lacks a field, or whose code is not allowed (a number
      whose digits spell an allowed code included), adds nothing wherever it
      stands in the reply. */
  lemma DroppedEntryIsInert(a: seq<Value>, x: Value, b: seq<Value>, allowed: seq<string>, carrier: string, host: Host)
    requires !Allowed(x, allowed)
    ensures Filtered(a + [x] + b, allowed, carrier, host) == Filtered(a + b, allowed, carrier, host)
  {
    assert [x][..0] == [];
    FilteredAppend(a + [x], b, allowed, carrier, host);
    FilteredAppend(a, [x], allowed, carrier, host);
    FilteredAppend(a, b, allowed, carrier, host);
  }

  // ---------------------------------------------------------------------------
  // calculate_shipping

  /** The service lists calculate_shipping reads: empty when nothing was saved. */
  function UspsServices(settings: Option<Settings>): seq<string> {
    if settings.Some? then settings.value.uspsServices else []
  }

  function UpsServices(settings: Option<Settings>): seq<string> {
    if settings.Some? then settings.value.upsServices else []
  }

  /** What a calculation (or one carrier's part of it) does: the rates it
      adds, the transient store after it, and the requests it sends. */
  datatype Outcome = Outcome(added: seq<ShippingRate>, transients: map<string, Value>, sent: seq<Request>)

  /** What one get_rates answer contributes: the allowed rates of an array,
      nothing for an error (or for a cached value that is not an array). */
  function Contribution(result: RatesResult, allowed: seq<string>, carrier: string, host: Host): seq<ShippingRate> {
    if result.Rates? && result.rates.Arr? then Filtered(Values(result.rates), allowed, carrier, host) else []
  }

  /** One carrier's part: asked only when it has services enabled. */
  function CarrierPart(services: seq<string>, carrierCode: string, carrierName: string, settings: Option<Settings>,
                       from: FromAddress, to: ToAddress, pkg: Package, host: Host,
                       transients: map<string, Value>, network: Request -> HttpResult): Outcome
  {
    if services == [] then Outcome([], transients, [])
    else
      var f := FetchRates(settings, from, to, pkg, carrierCode, host, transients, network);
      Outcome(Contribution(f.result, services, carrierName, host), f.transients,
              if f.sent.Some? then [f.sent.value] else [])
  }

  /** The destination has what the rate request needs. */
  predicate HasDestination(to: ToAddress) {
    !Empty(to.postcode) && !Empty(to.country)
  }

  /** Both carriers in turn, USPS first, UPS with the cache USPS left. */
  function BothCarriers(settings: Option<Settings>, from: FromAddress, to: ToAddress, pkg: Package, host: Host,
                        transients: map<string, Value>, network: Request -> HttpResult): Outcome
  {
    var usps := CarrierPart(UspsServices(settings), UspsCarrier, UspsName, settings, from, to, pkg, host,
                            transients, network);
    var ups := CarrierPart(UpsServices(settings), UpsCarrier, UpsName, settings, from, to, pkg, host,
                           usps.transients, network);
    Outcome(usps.added + ups.added, ups.transients, usps.sent + ups.sent)
  }

  /** calculate_shipping, from the stored settings, the store's data, the
      cart package and the transient store it starts from. */
  function Calculation(settings: Option<Settings>, store: Store, contents: seq<CartItem>,
                       destination: map<string, string>, host: Host,
                       transients: map<string, Value>, network: Request -> HttpResult): Outcome
  {
    if !HasCredentials(settings) then Outcome([], transients, [])
    else
      var from := FromAddressOf(store);
      var to := ToAddressOf(destination);
      var pkg := PackageOf(contents, settings, host);
      if !HasDestination(to) then Outcome([], transients, [])
      else BothCarriers(settings, from, to, pkg, host, transients, network)
  }

  /** One carrier's block of calculate_shipping: when the carrier has
      services enabled, get_rates for its code and, when that returns an
      array, filter_rates over it. */
  method CarrierRates(site: Site, services: seq<string>, carrierCode: string, carrierName: string,
                      settings: Option<Settings>, from: FromAddress, to: ToAddress, pkg: Package,
                      host: Host, network: Request -> HttpResult) returns (part: seq<ShippingRate>)
    modifies site
    ensures var o := CarrierPart(services, carrierCode, carrierName, settings, from, to, pkg, host,
                                 old(site.transients), network);
            && part == o.added
            && site.transients == o.transients
            && site.requests == old(site.requests) + o.sent
  {
    part := [];
    if services != [] {
      var result := GetRates(site, settings, from, to, pkg, carrierCode, host, network);
      if result.Rates? && result.rates.Arr? {
        part := FilterRates(Values(result.rates), services, carrierName, host);
      }
    }
  }

  /** The two carrier blocks of calculate_shipping. */
  method FetchBothCarriers(site: Site, settings: Option<Settings>, from: FromAddress, to: ToAddress, pkg: Package,
                           host: Host, network: Request -> HttpResult) returns (allRates: seq<ShippingRate>)
    modifies site
    ensures var o := BothCarriers(settings, from, to, pkg, host, old(site.transients), network);
            && allRates == o.added
            && site.transients == o.transients
            && site.requests == old(site.requests) + o.sent
  {
    ghost var usps := CarrierPart(UspsServices(settings), UspsCarrier, UspsName, settings, from, to, pkg, host,
                                  site.transients, network);
    ghost var ups := CarrierPart(UpsServices(settings), UpsCarrier, UpsName, settings, from, to, pkg, host,
                                 usps.transients, network);
    allRates := [];
    var uspsRates := CarrierRates(site, UspsServices(settings), UspsCarrier, UspsName, settings,
                                  from, to, pkg, host, network);
    allRates := allRates + uspsRates;
    ghost var afterUsps := site.requests;
    assert site.transients == usps.transients;
    var upsRates := CarrierRates(site, UpsServices(settings), UpsCarrier, UpsName, settings,
                                 from, to, pkg, host, network);
    allRates := allRates + upsRates;
    assert allRates == usps.added + ups.added;
    assert site.requests == afterUsps + ups.sent;
    assert site.requests == old(site.requests) + (usps.sent + ups.sent);
  }

  /** The WooCommerce shipping method; `rates` is what add_rate has collected. */
  class ShippingMethod {
    var rates: seq<ShippingRate>

    constructor ()
      ensures rates == []
    {
      rates := [];
    }

    /** add_rate. */
    method AddRate(rate: ShippingRate)
      modifies this
      ensures rates == old(rates) + [rate]
    {
      rates := rates + [rate];
    }

    /** calculate_shipping. */
    method CalculateShipping(site: Site, settings: Option<Settings>, store: Store, contents: seq<CartItem>,
                             destination: map<string, string>, host: Host, network: Request -> HttpResult)
      modifies this, site
      ensures var o := Calculation(settings, store, contents, destination, host, old(site.transients), network);
              && rates == old(rates) + o.added
              && site.transients == o.transients
              && site.requests == old(site.requests) + o.sent
    {
      var apiKey := ApiKey(settings);
      var apiSecret := ApiSecret(settings);
      if Empty(apiKey) || Empty(apiSecret) {
        NoCredentialsNoRates(settings, store, contents, destination, host, site.transients, network);
        return;
      }

      var fromAddress := FromAddressOf(store);
      var toAddress := ToAddressOf(destination);
      var packageData := BuildPackage(contents, settings, host);

      if Empty(toAddress.postcode) || Empty(toAddress.country) {
        NoDestinationNoRates(settings, store, contents, destination, host, site.transients, network);
        return;
      }

      ghost var o := BothCarriers(settings, fromAddress, toAddress, packageData, host, site.transients, network);
      assert o == Calculation(settings, store, contents, destination, host, site.transients, network);
      var allRates := FetchBothCarriers(site, settings, fromAddress, toAddress, packageData, host, network);

      AddRates(allRates);
    }

    /** The emitting loop of calculate_shipping: add_rate on each rate in order. */
    method AddRates(allRates: seq<ShippingRate>)
      modifies this
      ensures rates == old(rates) + allRates
    {
      if allRates != [] {
        for i := 0 to |allRates|
          invariant rates == old(rates) + allRates[..i]
        {
          AddRate(allRates[i]);
        }
      }
    }
  }

  // ---------------------------------------------------------------------------
  // Properties of a calculation

  /** Without credentials nothing is added, nothing is sent and the cache is
      untouched, whatever the cart and destination. */
  lemma NoCredentialsNoRates(settings: Option<Settings>, store: Store, contents: seq<CartItem>,
                             destination: map<string, string>, host: Host,
                             transients: map<string, Value>, network: Request -> HttpResult)
    requires !HasCredentials(settings)
    ensures Calculation(settings, store, contents, destination, host, transients, network) == Outcome([], transients, [])
  {
  }

  /** A destination without postcode or country: no request and no rates. */
  lemma NoDestinationNoRates(settings: Option<Settings>, store: Store, contents: seq<CartItem>,
                             destination: map<string, string>, host: Host,
                             transients: map<string, Value>, network: Request -> HttpResult)
    requires !HasDestination(ToAddressOf(destination))
    ensures Calculation(settings, store, contents, destination, host, transients, network) == Outcome([], transients, [])
  {
  }

  /** The USPS part of a calculation that passed its preconditions. */
  function UspsPart(settings: Option<Settings>, store: Store, contents: seq<CartItem>, destination: map<string, string>,
                    host: Host, transients: map<string, Value>, network: Request -> HttpResult): Outcome
  {
    CarrierPart(UspsServices(settings), UspsCarrier, UspsName, settings, FromAddressOf(store), ToAddressOf(destination),
                PackageOf(contents, settings, host), host, transients, network)
  }

  /** The UPS part, asked after the USPS part with the cache it left. */
  function UpsPart(settings: Option<Settings>, store: Store, contents: seq<CartItem>, destination: map<string, string>,
                   host: Host, transients: map<string, Value>, network: Request -> HttpResult): Outcome
  {
    CarrierPart(UpsServices(settings), UpsCarrier, UpsName, settings, FromAddressOf(store), ToAddressOf(destination),
                PackageOf(contents, settings, host), host,
                UspsPart(settings, store, contents, destination, host, transients, network).transients, network)
  }

  /** Past its preconditions, a calculation is the USPS part followed by the
      UPS part. */
  lemma CalculationByCarrier(settings: Option<Settings>, store: Store, contents: seq<CartItem>,
                             destination: map<string, string>, host: Host,
                             transients: map<string, Value>, network: Request -> HttpResult)
    requires HasCredentials(settings) && HasDestination(ToAddressOf(destination))
    ensures var usps := UspsPart(settings, store, contents, destination, host, transients, network);
            var ups := UpsPart(settings, store, contents, destination, host, transients, network);
            Calculation(settings, store, contents, destination, host, transients, network)
            == Outcome(usps.added + ups.added, ups.transients, usps.sent + ups.sent)
  {
  }

  /** A carrier part sends at most the one rate request for its carrier,
      and sends none when the carrier has no services enabled. */
  lemma CarrierPartRequests(services: seq<string>, carrierCode: string, carrierName: string, settings: Option<Settings>,
                            from: FromAddress, to: ToAddress, pkg: Package, host: Host,
                            transients: map<string, Value>, network: Request -> HttpResult)
    ensures var o := CarrierPart(services, carrierCode, carrierName, settings, from, to, pkg, host, transients, network);
            && |o.sent| <= 1
            && (services == [] ==> o.sent == [] && o.added == [] && o.transients == transients)
            && (forall q :: q in o.sent ==> q == RateRequest(settings, from, to, pkg, carrierCode))
  {
  }

  /** Each carrier is asked, with its own carrier code, only when its list of
      services is non-empty; at most two requests go out, USPS's first. */
  lemma RequestsPerCarrier(settings: Option<Settings>, store: Store, contents: seq<CartItem>,
                           destination: map<string, string>, host: Host,
                           transients: map<string, Value>, network: Request -> HttpResult)
    requires HasCredentials(settings) && HasDestination(ToAddressOf(destination))
    ensures var o := Calculation(settings, store, contents, destination, host, transients, network);
            var from, to, pkg := FromAddressOf(store), ToAddressOf(destination), PackageOf(contents, settings, host);
            && |o.sent| <= 2
            && o.sent == UspsPart(settings, store, contents, destination, host, transients, network).sent
                         + UpsPart(settings, store, contents, destination, host, transients, network).sent
            && (forall q :: q in o.sent ==>
                  (q == RateRequest(settings, from, to, pkg, UspsCarrier) && UspsServices(settings) != []) ||
                  (q == RateRequest(settings, from, to, pkg, UpsCarrier) && UpsServices(settings) != []))
            && (UspsServices(settings) == [] && UpsServices(settings) == [] ==> o == Outcome([], transients, []))
  {
    var from, to, pkg := FromAddressOf(store), ToAddressOf(destination), PackageOf(contents, settings, host);
    var usps := UspsPart(settings, store, contents, destination, host, transients, network);
    CalculationByCarrier(settings, store, contents, destination, host, transients, network);
    CarrierPartRequests(UspsServices(settings), UspsCarrier, UspsName, settings, from, to, pkg, host, transients, network);
    CarrierPartRequests(UpsServices(settings), UpsCarrier, UpsName, settings, from, to, pkg, host, usps.transients, network);
  }

  /** The rates added are all of USPS's, then all of UPS's; each carrier's
      follow its reply's order (no sorting by price). */
  lemma UspsThenUps(settings: Option<Settings>, store: Store, contents: seq<CartItem>,
                    destination: map<string, string>, host: Host,
                    transients: map<string, Value>, network: Request -> HttpResult)
    requires HasCredentials(settings) && HasDestination(ToAddressOf(destination))
    ensures var o := Calculation(settings, store, contents, destination, host, transients, network);
            var usps := UspsPart(settings, store, contents, destination, host, transients, network);
            var ups := UpsPart(settings, store, contents, destination, host, transients, network);
            && o.added == usps.added + ups.added
            && (forall i :: 0 <= i < |usps.added| ==> o.added[i].meta.carrier == UspsName)
            && (forall i :: |usps.added| <= i < |o.added| ==> o.added[i].meta.carrier == UpsName)
  {
    var from, to, pkg := FromAddressOf(store), ToAddressOf(destination), PackageOf(contents, settings, host);
    var usps := UspsPart(settings, store, contents, destination, host, transients, network);
    var ups := UpsPart(settings, store, contents, destination, host, transients, network);
    CarrierPartCarrier(UspsServices(settings), UspsCarrier, UspsName, settings, from, to, pkg, host, transients, network);
    CarrierPartCarrier(UpsServices(settings), UpsCarrier, UpsName, settings, from, to, pkg, host, usps.transients, network);
    var all := usps.added + ups.added;
    assert forall i :: |usps.added| <= i < |all| ==> all[i] == ups.added[i - |usps.added|];
  }

  /** Every rate of a carrier part carries that carrier's name and one of its
      allowed codes. */
  lemma CarrierPartCarrier(services: seq<string>, carrierCode: string, carrierName: string, settings: Option<Settings>,
                           from: FromAddress, to: ToAddress, pkg: Package, host: Host,
                           transients: map<string, Value>, network: Request -> HttpResult)
    ensures var o := CarrierPart(services, carrierCode, carrierName, settings, from, to, pkg, host, transients, network);
            forall r :: r in o.added ==> r.meta.carrier == carrierName && r.meta.serviceCode in services
  {
    var f := FetchRates(settings, from, to, pkg, carrierCode, host, transients, network);
    if services != [] && f.result.Rates? && f.result.rates.Arr? {
      FilteredRatesAllowed(Values(f.result.rates), services, carrierName, host);
    }
  }

  /** A carrier part reads the settings only for the credentials. */
  lemma CarrierPartReadsCredentials(services: seq<string>, carrierCode: string, carrierName: string,
                                    s1: Option<Settings>, s2: Option<Settings>,
                                    from: FromAddress, to: ToAddress, pkg: Package, host: Host,
                                    transients: map<string, Value>, network: Request -> HttpResult)
    requires ApiKey(s1) == ApiKey(s2) && ApiSecret(s1) == ApiSecret(s2)
    ensures CarrierPart(services, carrierCode, carrierName, s1, from, to, pkg, host, transients, network)
            == CarrierPart(services, carrierCode, carrierName, s2, from, to, pkg, host, transients, network)
  {
    assert RateRequest(s1, from, to, pkg, carrierCode) == RateRequest(s2, from, to, pkg, carrierCode);
  }

  /** A USPS request that fails adds nothing and leaves the cache as it was:
      the calculation adds what it would have added with no USPS services
      enabled, and UPS is asked exactly as it would have been. */
  lemma UspsFailureIsSkipped(settings: Settings, store: Store, contents: seq<CartItem>,
                             destination: map<string, string>, host: Host,
                             transients: map<string, Value>, network: Request -> HttpResult)
    requires FetchRates(Some(settings), FromAddressOf(store), ToAddressOf(destination),
                        PackageOf(contents, Some(settings), host), UspsCarrier, host, transients, network).result.Failure?
    ensures var o := Calculation(Some(settings), store, contents, destination, host, transients, network);
            var without := Calculation(Some(settings.(uspsServices := [])), store, contents, destination, host,
                                       transients, network);
            o.added == without.added && o.transients == without.transients
  {
    var s, s' := Some(settings), Some(settings.(uspsServices := []));
    var from, to, pkg := FromAddressOf(store), ToAddressOf(destination), PackageOf(contents, s, host);
    assert PackageOf(contents, s', host) == pkg;
    if HasCredentials(s) && HasDestination(to) {
      var usps := CarrierPart(UspsServices(s), UspsCarrier, UspsName, s, from, to, pkg, host, transients, network);
      assert usps.added == [] && usps.transients == transients;
      CarrierPartReadsCredentials(UpsServices(s), UpsCarrier, UpsName, s, s', from, to, pkg, host, transients, network);
    }
  }

  /** A UPS request that fails adds nothing and leaves the cache as USPS left
      it: the calculation adds what it would have added with no UPS services
      enabled. */
  lemma UpsFailureIsSkipped(settings: Settings, store: Store, contents: seq<CartItem>,
                            destination: map<string, string>, host: Host,
                            transients: map<string, Value>, network: Request -> HttpResult)
    requires FetchRates(Some(settings), FromAddressOf(store), ToAddressOf(destination),
                        PackageOf(contents, Some(settings), host), UpsCarrier, host,
                        UspsPart(Some(settings), store, contents, destination, host, transients, network).transients,
                        network).result.Failure?
    ensures var o := Calculation(Some(settings), store, contents, destination, host, transients, network);
            var without := Calculation(Some(settings.(upsServices := [])), store, contents, destination, host,
                                       transients, network);
            o.added == without.added && o.transients == without.transients
  {
    var s, s' := Some(settings), Some(settings.(upsServices := []));
    var from, to, pkg := FromAddressOf(store), ToAddressOf(destination), PackageOf(contents, s, host);
    assert PackageOf(contents, s', host) == pkg;
    if HasCredentials(s) && HasDestination(to) {
      CarrierPartReadsCredentials(UspsServices(s), UspsCarrier, UspsName, s, s', from, to, pkg, host, transients, network);
      var usps := CarrierPart(UspsServices(s), UspsCarrier, UspsName, s, from, to, pkg, host, transients, network);
      var ups := CarrierPart(UpsServices(s), UpsCarrier, UpsName, s, from, to, pkg, host, usps.transients, network);
      assert ups.added == [] && ups.transients == usps.transients;
    }
  }
}
