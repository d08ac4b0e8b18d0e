/**
 * The package builder: folds the cart's line items into one package, in
 * pounds and inches, with the configured fallbacks and the final clamps;
 * and the two address mappers beside it.
 */
module Packager {
  import opened Php
  import opened AdminSettings

  /** The product attributes the builder reads; WooCommerce returns them as
      strings, '' when unset. */
  datatype Product = Product(needsShipping: bool, weight: string, length: string, width: string, height: string)

  /** A cart line: `data` is the product (absent when the line has none) and
      `quantity` the line's intval'd quantity, when present. */
  datatype CartItem = CartItem(data: Option<Product>, quantity: Option<int>)

  /** The package sent to the rate API: weight in pounds, sides in inches. */
  datatype Package = Package(weight: real, length: real, width: real, height: real)

  datatype Axis = Length | Width | Height

  function Max(a: real, b: real): real {
    if a >= b then a else b
  }

  // ---------------------------------------------------------------------------
  // Fallbacks read from the stored settings

  /** A configured default when it is positive, else the built-in one. */
  function Fallback(configured: Option<real>, builtIn: real): (r: real)
    requires builtIn > 0.0
    ensures r > 0.0
    ensures configured.Some? && configured.value > 0.0 ==> r == configured.value
    ensures !(configured.Some? && configured.value > 0.0) ==> r == builtIn
  {
    if configured.Some? && configured.value > 0.0 then configured.value else builtIn
  }

  function DefaultSide(settings: Option<Settings>, axis: Axis): real {
    Fallback(
      if settings.None? then None
      else Some(match axis
        case Length => settings.value.defaultLength
        case Width => settings.value.defaultWidth
        case Height => settings.value.defaultHeight),
      12.0)
  }

  function DefaultWeight(settings: Option<Settings>): real {
    Fallback(if settings.None? then None else Some(settings.value.defaultWeight), 1.0)
  }

  // ---------------------------------------------------------------------------
  // What one line item contributes

  /** `$x !== '' && is_numeric($x) && $x > 0`. */
  predicate Positive(s: string, host: Host) {
    s != "" && host.numeric(s).Some? && host.numeric(s).value > 0.0
  }

  /** The line is counted at all: it has a product and that product ships. */
  predicate Ships(item: CartItem) {
    item.data.Some? && item.data.value.needsShipping
  }

  function Quantity(item: CartItem): int {
    item.quantity.GetOr(1)
  }

  function Side(p: Product, axis: Axis): string {
    match axis
    case Length => p.length
    case Width => p.width
    case Height => p.height
  }

  predicate HasWeight(item: CartItem, host: Host) {
    Ships(item) && Positive(item.data.value.weight, host)
  }

  /** All three sides are usable; a partial set counts for no side. */
  predicate HasDimensions(item: CartItem, host: Host) {
    && Ships(item)
    && Positive(item.data.value.length, host)
    && Positive(item.data.value.width, host)
    && Positive(item.data.value.height, host)
  }

  /** The line's weight in pounds times its quantity, 0 when it has no usable weight. */
  function ItemWeight(item: CartItem, host: Host): real {
    if HasWeight(item, host)
    then host.toPounds(host.numeric(item.data.value.weight).value) * Quantity(item) as real
    else 0.0
  }

  /** One side of a line with a complete set of sides, in inches. */
  function ItemSide(item: CartItem, axis: Axis, host: Host): real
    requires HasDimensions(item, host)
  {
    host.toInches(host.numeric(Side(item.data.value, axis)).value)
  }

  // ---------------------------------------------------------------------------
  // The fold over the cart, stated on prefixes as the loop builds it

  /** The running total weight. */
  function TotalWeight(items: seq<CartItem>, host: Host): real
    decreases |items|
  {
    if items == [] then 0.0
    else TotalWeight(items[..|items| - 1], host) + ItemWeight(items[|items| - 1], host)
  }

  /** Whether some line had a complete set of sides. */
  predicate AnyDimensions(items: seq<CartItem>, host: Host)
    decreases |items|
  {
    items != [] && (AnyDimensions(items[..|items| - 1], host) || HasDimensions(items[|items| - 1], host))
  }

  /** The running maximum of one side, starting from 0. */
  function MaxSide(items: seq<CartItem>, axis: Axis, host: Host): (r: real)
    ensures r >= 0.0
    decreases |items|
  {
    if items == [] then 0.0
    else
      var m := MaxSide(items[..|items| - 1], axis, host);
      var last := items[|items| - 1];
      if HasDimensions(last, host) then Max(m, ItemSide(last, axis, host)) else m
  }

  /** PHP's round($x, 2): to hundredths, halves away from zero. */
  function Round2(x: real): real {
    if x >= 0.0 then (x * 100.0 + 0.5).Floor as real / 100.0
    else -((-x * 100.0 + 0.5).Floor as real / 100.0)
  }

  /** The package build_package returns. */
  function PackageOf(items: seq<CartItem>, settings: Option<Settings>, host: Host): (p: Package)
    ensures p.weight >= 0.1
    ensures p.length >= 1.0 && p.width >= 1.0 && p.height >= 1.0
  {
    var total := TotalWeight(items, host);
    var weight := if total <= 0.0 then DefaultWeight(settings) else total;
    var dims := AnyDimensions(items, host);
    var length := if dims then MaxSide(items, Length, host) else DefaultSide(settings, Length);
    var width := if dims then MaxSide(items, Width, host) else DefaultSide(settings, Width);
    var height := if dims then MaxSide(items, Height, host) else DefaultSide(settings, Height);
    Package(Max(0.1, Round2(weight)), Max(1.0, Round2(length)), Max(1.0, Round2(width)), Max(1.0, Round2(height)))
  }

  /** build_package: one pass over the cart, then defaults and clamps. */
  method BuildPackage(contents: seq<CartItem>, settings: Option<Settings>, host: Host) returns (p: Package)
    ensures p == PackageOf(contents, settings, host)
  {
    var defaultLength := DefaultSide(settings, Length);
    var defaultWidth := DefaultSide(settings, Width);
    var defaultHeight := DefaultSide(settings, Height);
    var defaultWeight := DefaultWeight(settings);

    var totalWeight := 0.0;
    var maxLength, maxWidth, maxHeight := 0.0, 0.0, 0.0;
    var hasDimensions := false;

    for i := 0 to |contents|
      invariant totalWeight == TotalWeight(contents[..i], host)
      invariant hasDimensions == AnyDimensions(contents[..i], host)
      invariant maxLength == MaxSide(contents[..i], Length, host)
      invariant maxWidth == MaxSide(contents[..i], Width, host)
      invariant maxHeight == MaxSide(contents[..i], Height, host)
    {
      assert contents[..i + 1][..i] == contents[..i];
      var item := contents[i];
      if item.data.None? {
        continue;
      }
      var product := item.data.value;
      var quantity := if item.quantity.Some? then item.quantity.value else 1;
      if !product.needsShipping {
        continue;
      }

      if Positive(product.weight, host) {
        var weightInLbs := host.toPounds(host.numeric(product.weight).value);
        totalWeight := totalWeight + weightInLbs * quantity as real;
      }

      if Positive(product.length, host) && Positive(product.width, host) && Positive(product.height, host) {
        hasDimensions := true;
        var lengthInInches := host.toInches(host.numeric(product.length).value);
        var widthInInches := host.toInches(host.numeric(product.width).value);
        var heightInInches := host.toInches(host.numeric(product.height).value);
        maxLength := Max(maxLength, lengthInInches);
        maxWidth := Max(maxWidth, widthInInches);
        maxHeight := Max(maxHeight, heightInInches);
      }
    }
    assert contents[..|contents|] == contents;

    if totalWeight <= 0.0 {
      totalWeight := defaultWeight;
    }
    if !hasDimensions {
      maxLength := defaultLength;
      maxWidth := defaultWidth;
      maxHeight := defaultHeight;
    }
    p := Package(Max(0.1, Round2(totalWeight)), Max(1.0, Round2(maxLength)),
                 Max(1.0, Round2(maxWidth)), Max(1.0, Round2(maxHeight)));
  }

  // ---------------------------------------------------------------------------
  // Properties of the fold

  /** The total weight is additive over any split of the cart. */
  lemma {:induction false} TotalWeightAppend(a: seq<CartItem>, b: seq<CartItem>, host: Host)
    ensures TotalWeight(a + b, host) == TotalWeight(a, host) + TotalWeight(b, host)
    decreases |b|
  {
    if b == [] {
      assert a + b == a;
    } else {
      var b' := b[..|b| - 1];
      assert (a + b)[..|a + b| - 1] == a + b';
      assert (a + b)[|a + b| - 1] == b[|b| - 1];
      TotalWeightAppend(a, b', host);
    }
  }

  /** The total weight is the sum of the lines' weight times quantity. */
  lemma {:induction false} TotalWeightIsSum(items: seq<CartItem>, host: Host)
    ensures items != [] ==> TotalWeight(items, host) == ItemWeight(items[0], host) + TotalWeight(items[1..], host)
  {
    if items != [] {
      assert items == [items[0]] + items[1..];
      TotalWeightAppend([items[0]], items[1..], host);
      assert [items[0]][..0] == [];
    }
  }

  /** The running maximum over a split cart is the larger of the two maxima. */
  lemma {:induction false} MaxSideAppend(a: seq<CartItem>, b: seq<CartItem>, axis: Axis, host: Host)
    ensures MaxSide(a + b, axis, host) == Max(MaxSide(a, axis, host), MaxSide(b, axis, host))
    decreases |b|
  {
    if b == [] {
      assert a + b == a;
    } else {
      var b' := b[..|b| - 1];
      assert (a + b)[..|a + b| - 1] == a + b';
      assert (a + b)[|a + b| - 1] == b[|b| - 1];
      MaxSideAppend(a, b', axis, host);
    }
  }

  lemma {:induction false} AnyDimensionsAppend(a: seq<CartItem>, b: seq<CartItem>, host: Host)
    ensures AnyDimensions(a + b, host) == (AnyDimensions(a, host) || AnyDimensions(b, host))
    decreases |b|
  {
    if b == [] {
      assert a + b == a;
    } else {
      var b' := b[..|b| - 1];
      assert (a + b)[..|a + b| - 1] == a + b';
      assert (a + b)[|a + b| - 1] == b[|b| - 1];
      AnyDimensionsAppend(a, b', host);
    }
  }

  /** The flag is set exactly when some line had a complete set of sides. */
  lemma {:induction false} AnyDimensionsMeansSomeLine(items: seq<CartItem>, host: Host)
    ensures AnyDimensions(items, host) <==> exists i :: 0 <= i < |items| && HasDimensions(items[i], host)
    decreases |items|
  {
    if items != [] {
      var init := items[..|items| - 1];
      AnyDimensionsMeansSomeLine(init, host);
      assert forall i :: 0 <= i < |init| ==> init[i] == items[i];
      if AnyDimensions(items, host) && !HasDimensions(items[|items| - 1], host) {
        var i :| 0 <= i < |init| && HasDimensions(init[i], host);
        assert HasDimensions(items[i], host);
      }
    }
  }

  /** Each side is the largest converted side among the lines that had a
      complete set, or 0 when the largest of them is not positive. */
  lemma {:induction false} MaxSideIsMaximum(items: seq<CartItem>, axis: Axis, host: Host)
    ensures forall i :: 0 <= i < |items| && HasDimensions(items[i], host) ==>
              ItemSide(items[i], axis, host) <= MaxSide(items, axis, host)
    ensures MaxSide(items, axis, host) == 0.0 ||
            exists i :: 0 <= i < |items| && HasDimensions(items[i], host) &&
                        MaxSide(items, axis, host) == ItemSide(items[i], axis, host)
    decreases |items|
  {
    if items != [] {
      var init := items[..|items| - 1];
      MaxSideIsMaximum(init, axis, host);
      assert forall i :: 0 <= i < |init| ==> init[i] == items[i];
      var m := MaxSide(items, axis, host);
      if m != 0.0 && m == MaxSide(init, axis, host) {
        var i :| 0 <= i < |init| && HasDimensions(init[i], host) && MaxSide(init, axis, host) == ItemSide(init[i], axis, host);
        assert HasDimensions(items[i], host) && m == ItemSide(items[i], axis, host);
      }
    }
  }

  /** A line without a product, or whose product does not ship, changes
      neither the weight nor any side nor the dimensions flag. */
  lemma NonShippingLineIsInert(a: seq<CartItem>, x: CartItem, b: seq<CartItem>, host: Host)
    requires !Ships(x)
    ensures TotalWeight(a + [x] + b, host) == TotalWeight(a + b, host)
    ensures AnyDimensions(a + [x] + b, host) == AnyDimensions(a + b, host)
    ensures forall axis: Axis :: MaxSide(a + [x] + b, axis, host) == MaxSide(a + b, axis, host)
  {
    assert ([x])[..0] == [];
    TotalWeightAppend(a + [x], b, host);
    TotalWeightAppend(a, [x], host);
    TotalWeightAppend(a, b, host);
    AnyDimensionsAppend(a + [x], b, host);
    AnyDimensionsAppend(a, [x], host);
    AnyDimensionsAppend(a, b, host);
    forall axis: Axis ensures MaxSide(a + [x] + b, axis, host) == MaxSide(a + b, axis, host) {
      MaxSideAppend(a + [x], b, axis, host);
      MaxSideAppend(a, [x], axis, host);
      MaxSideAppend(a, b, axis, host);
    }
  }

  /** A shipping line with a usable weight but an incomplete set of sides
      adds its weight and nothing else. */
  lemma PartialSidesAddWeightOnly(items: seq<CartItem>, x: CartItem, host: Host)
    requires HasWeight(x, host) && !HasDimensions(x, host)
    ensures TotalWeight(items + [x], host)
            == TotalWeight(items, host) + host.toPounds(host.numeric(x.data.value.weight).value) * Quantity(x) as real
    ensures AnyDimensions(items + [x], host) == AnyDimensions(items, host)
    ensures forall axis: Axis :: MaxSide(items + [x], axis, host) == MaxSide(items, axis, host)
  {
    assert (items + [x])[..|items|] == items;
  }

  // ---------------------------------------------------------------------------
  // Fallbacks and clamps

  /** A cart with no usable weight gets the default weight; one with no
      complete set of sides gets all three default sides. */
  lemma DefaultsApply(items: seq<CartItem>, settings: Option<Settings>, host: Host)
    ensures TotalWeight(items, host) <= 0.0 ==>
              PackageOf(items, settings, host).weight == Max(0.1, Round2(DefaultWeight(settings)))
    ensures TotalWeight(items, host) > 0.0 ==>
              PackageOf(items, settings, host).weight == Max(0.1, Round2(TotalWeight(items, host)))
    ensures !AnyDimensions(items, host) ==>
              var p := PackageOf(items, settings, host);
              p.length == Max(1.0, Round2(DefaultSide(settings, Length))) &&
              p.width == Max(1.0, Round2(DefaultSide(settings, Width))) &&
              p.height == Max(1.0, Round2(DefaultSide(settings, Height)))
    ensures AnyDimensions(items, host) ==>
              var p := PackageOf(items, settings, host);
              p.length == Max(1.0, Round2(MaxSide(items, Length, host))) &&
              p.width == Max(1.0, Round2(MaxSide(items, Width, host))) &&
              p.height == Max(1.0, Round2(MaxSide(items, Height, host)))
  {
  }

  /** With nothing configured, an empty cart becomes a 1 lb, 12 x 12 x 12 in package. */
  lemma EmptyCartDefaultPackage(host: Host)
    ensures PackageOf([], None, host) == Package(1.0, 12.0, 12.0, 12.0)
  {
    assert Round2(1.0) == 1.0 by { assert (1.0 * 100.0 + 0.5).Floor == 100; }
    assert Round2(12.0) == 12.0 by { assert (12.0 * 100.0 + 0.5).Floor == 1200; }
  }

  /** Rounding to hundredths moves a non-negative value by at most half a hundredth. */
  lemma Round2Close(x: real)
    requires x >= 0.0
    ensures x - 0.005 < Round2(x) <= x + 0.005
  {
    var n := (x * 100.0 + 0.5).Floor;
    assert n as real <= x * 100.0 + 0.5 < n as real + 1.0;
  }

  /** When the cart's weight is at least the clamp, the package weight is
      that weight rounded. */
  lemma WeightTracksCart(items: seq<CartItem>, settings: Option<Settings>, host: Host)
    requires TotalWeight(items, host) >= 0.1
    ensures var w := PackageOf(items, settings, host).weight;
            w == Round2(TotalWeight(items, host)) &&
            TotalWeight(items, host) - 0.005 < w <= TotalWeight(items, host) + 0.005
  {
    var t := TotalWeight(items, host);
    Round2Close(t);
    var n := (t * 100.0 + 0.5).Floor;
    assert n >= 10;
  }

  // ---------------------------------------------------------------------------
  // Addresses

  /** The origin, from the store's options and WooCommerce's countries object. */
  datatype FromAddress = FromAddress(postcode: string, city: string, state: string, country: string)

  /** The destination as the rate request reads it. */
  datatype ToAddress = ToAddress(
    postcode: string, city: string, state: string, country: string, address1: string, address2: string)

  /** The store's own data: the two options (absent when unset) and
      WC()->countries, absent when unavailable, whose two getters are absent
      when the method does not exist. */
  datatype Countries = Countries(baseState: Option<string>, baseCountry: Option<string>)
  datatype Store = Store(postcode: Option<string>, city: Option<string>, countries: Option<Countries>)

  /** get_from_address. */
  function FromAddressOf(store: Store): (a: FromAddress)
    ensures a.postcode == store.postcode.GetOr("") && a.city == store.city.GetOr("")
    ensures a.state == (if store.countries.Some? && store.countries.value.baseState.Some?
                        then store.countries.value.baseState.value else "")
    ensures a.country == (if store.countries.Some? && store.countries.value.baseCountry.Some?
                          then store.countries.value.baseCountry.value else "US")
  {
    var c := store.countries;
    FromAddress(
      store.postcode.GetOr(""),
      store.city.GetOr(""),
      if c.Some? then c.value.baseState.GetOr("") else "",
      if c.Some? then c.value.baseCountry.GetOr("US") else "US")
  }

  /** A destination field, '' when absent. */
  function Field(destination: map<string, string>, key: string): string {
    if key in destination then destination[key] else ""
  }

  /** get_to_address: 'address' feeds address1, every missing field is ''. */
  function ToAddressOf(destination: map<string, string>): (a: ToAddress)
    ensures "postcode" in destination ==> a.postcode == destination["postcode"]
    ensures "postcode" !in destination ==> a.postcode == ""
    ensures "city" in destination ==> a.city == destination["city"]
    ensures "city" !in destination ==> a.city == ""
    ensures "state" in destination ==> a.state == destination["state"]
    ensures "state" !in destination ==> a.state == ""
    ensures "country" in destination ==> a.country == destination["country"]
    ensures "country" !in destination ==> a.country == ""
    ensures "address" in destination ==> a.address1 == destination["address"]
    ensures "address" !in destination ==> a.address1 == ""
    ensures "address_2" in destination ==> a.address2 == destination["address_2"]
    ensures "address_2" !in destination ==> a.address2 == ""
  {
    ToAddress(
      Field(destination, "postcode"),
      Field(destination, "city"),
      Field(destination, "state"),
      Field(destination, "country"),
      Field(destination, "address"),
      Field(destination, "address_2"))
  }

  /** The WooCommerce destination an address came from. */
  function DestinationOf(a: ToAddress): map<string, string> {
    map["postcode" := a.postcode, "city" := a.city, "state" := a.state, "country" := a.country,
        "address" := a.address1, "address_2" := a.address2]
  }

  /** The mapping loses nothing: a destination with all six fields maps back. */
  lemma ToAddressRoundTrip(a: ToAddress)
    ensures ToAddressOf(DestinationOf(a)) == a
  {
  }

  /** Only the six destination keys matter. */
  lemma ToAddressReadsSixKeys(d1: map<string, string>, d2: map<string, string>)
    requires forall k :: k in {"postcode", "city", "state", "country", "address", "address_2"} ==>
               (k in d1 <==> k in d2) && (k in d1 ==> d1[k] == d2[k])
    ensures ToAddressOf(d1) == ToAddressOf(d2)
  {
    assert Field(d1, "postcode") == Field(d2, "postcode");
    assert Field(d1, "city") == Field(d2, "city");
    assert Field(d1, "state") == Field(d2, "state");
    assert Field(d1, "country") == Field(d2, "country");
    assert Field(d1, "address") == Field(d2, "address");
    assert Field(d1, "address_2") == Field(d2, "address_2");
  }
}
