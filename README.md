# HP ShipStation Rates: the rate-resolution pipeline in Dafny

This project models the checkout-time rate pipeline of the HP ShipStation Rates
WooCommerce plugin.

- **Package builder** (`Packager`, packager.dfy). `build_package` folds the cart
  lines into one package:
  - the weight is the sum of weight × quantity, in pounds;
  - each side is the largest value of that side over the lines with a complete side set, in inches;
  - the configured defaults are used all-or-nothing per category;
  - the result is clamped at weight ≥ 0.1 and each side ≥ 1.

  Beside it sit the origin and destination address mappers.
- **Rate client** (`Client`, client.dfy). `get_rates` works in this order:
  - it checks the credentials;
  - it builds the fixed request body, asking for "quick" rate mode under both of the API's field names;
  - it looks up a transient cache keyed by destination postcode and country, weight and carrier;
  - it posts the request and classifies the reply as transport error, `api_error`, `decode_error` or rates;
  - it caches only a successful array.

  `test_credentials` sorts its reply into five outcomes.
- **Shipping method** (`Shipping`, shipping.dfy). `calculate_shipping` works in this order:
  - it checks the credentials, then the destination's postcode and country;
  - it asks USPS (`stamps_com`) and then UPS (`ups_walleted`), each only when its service list is non-empty;
  - it skips a carrier whose call fails;
  - it hands WooCommerce the USPS rates and then the UPS rates.

  `filter_rates` keeps the complete entries whose code is strictly in the allowed list. It shapes each one into an id, a label, a cost and metadata.
- **Settings sanitiser** (`AdminSettings`, settings.dfy). `sanitize_settings`
  turns arbitrary form input into the nine-key record stored as the
  `hp_ss_settings` option. Every other component reads that record.
- **PHP runtime** (`Php`, php.dfy). It holds:
  - PHP values (decoded JSON, form input, request bodies) as one datatype;
  - `isset`, `empty`, `is_numeric`, `floatval` and string conversion;
  - `sprintf('%d')`, with a parser as its inverse;
  - the HTTP result `TransportFailure(message) | Response(code, body)`.

  The foreign WordPress and WooCommerce functions are fields of a `Host` record of total functions that the model never looks inside.

State is modelled as follows:
- The WordPress transient store and the log of outbound requests are fields of
  the class `Client.Site`.
- The rates collected by `add_rate` are a field of `Shipping.ShippingMethod`.
- Each method is proved against a function of its inputs and the old state:
  `BuildPackage` against `PackageOf`, `GetRates` against `FetchRates`,
  `FilterRates` against `Filtered`, and `CalculateShipping` against `Calculation`.
- The properties are lemmas about those functions.

What the shipping method does, and does not do:
- the cost of a rate is `shipmentCost` alone (includes/class-hp-ss-shipping-method.php:181); no `otherCost` is added;
- the allowed services are two plain lists of codes; there is no per-service configuration and no custom display name;
- there is no session lock and no rates cache in the shipping method itself; only the client's transient cache is used;
- rates are not sorted by price; they stay in USPS-then-UPS, provider order.

## Model

| member | source | states |
|---|---|---|
| AdminSettings.Sanitize | admin/class-hp-ss-settings.php:55-78 | the credentials are sanitised or `''` when absent; a service list is kept element-wise with its length only when set and an array, else empty; each default is the numeric input, else 12 (sides) or 1 (weight); `debug_enabled` is 'yes' exactly when the key is set, and is always 'yes' or 'no' |
| AdminSettings.StoredKeys | admin/class-hp-ss-settings.php:56-77 | the stored record has exactly the nine settings keys, each once |
| AdminSettings.SanitizeIgnoresOtherKeys | admin/class-hp-ss-settings.php:55-77 | input keys other than the nine settings keys have no effect on the result |
| AdminSettings.ResanitizeTurnsDebugOn | admin/class-hp-ss-settings.php:75 | sanitising a stored record again returns it unchanged except that `debug_enabled` becomes 'yes', even when it was 'no' |
| Packager.Fallback | includes/class-hp-ss-packager.php:29-32 | a default is the configured value when that is > 0, else the built-in value, and is always positive |
| Packager.BuildPackage | includes/class-hp-ss-packager.php:25-102 | the loop computes exactly the package `PackageOf` specifies for the cart and settings |
| Packager.PackageOf | includes/class-hp-ss-packager.php:84-101 | the package always has weight ≥ 0.1 and length, width, height ≥ 1 |
| Packager.TotalWeightAppend | includes/class-hp-ss-packager.php:54-60 | the total weight is additive over any split of the cart |
| Packager.TotalWeightIsSum | includes/class-hp-ss-packager.php:54-60 | the total weight is the first line's weight × quantity plus the rest's total |
| Packager.MaxSideAppend | includes/class-hp-ss-packager.php:78-80 | the side maximum over a split cart is the larger of the two maxima |
| Packager.AnyDimensionsAppend | includes/class-hp-ss-packager.php:67-71 | a split cart has a complete side set exactly when one of its parts does |
| Packager.AnyDimensionsMeansSomeLine | includes/class-hp-ss-packager.php:67-71 | `has_dimensions` is set exactly when some shipping line has all three sides numeric and > 0 |
| Packager.MaxSideIsMaximum | includes/class-hp-ss-packager.php:67-81 | each side bounds every converted side of the complete lines and equals one of them, or is 0 |
| Packager.NonShippingLineIsInert | includes/class-hp-ss-packager.php:41-52 | a line without a product, or whose product does not ship, changes neither the weight, nor any side, nor the dimensions flag, wherever it stands |
| Packager.PartialSidesAddWeightOnly | includes/class-hp-ss-packager.php:56-81 | a line with a usable weight but an incomplete side set adds its converted weight × quantity and changes no side |
| Packager.DefaultsApply | includes/class-hp-ss-packager.php:84-101 | a weight ≤ 0 gives the default weight; no complete side set gives all three default sides; otherwise the cart's values are used, clamped and rounded |
| Packager.EmptyCartDefaultPackage | includes/class-hp-ss-packager.php:29-32 | with nothing configured, an empty cart becomes a 1 lb, 12 × 12 × 12 in package |
| Packager.Round2Close | includes/class-hp-ss-packager.php:97-100 | rounding to hundredths moves a non-negative value by at most half a hundredth |
| Packager.WeightTracksCart | includes/class-hp-ss-packager.php:97 | a cart weight ≥ 0.1 reaches the package rounded, within half a hundredth |
| Packager.FromAddressOf | includes/class-hp-ss-packager.php:109-116 | postcode and city come from the store options or are `''`; state comes from the base state or is `''`; country comes from the base country or is 'US' |
| Packager.ToAddressOf | includes/class-hp-ss-packager.php:124-133 | each of postcode, city, state and country is copied from the destination when present and is `''` when missing; `address` feeds `address_1` and `address_2` feeds `address_2`, likewise copied or `''` |
| Packager.ToAddressRoundTrip | includes/class-hp-ss-packager.php:124-133 | no field is lost: a destination carrying all six fields maps back to the address it came from |
| Packager.ToAddressReadsSixKeys | includes/class-hp-ss-packager.php:124-133 | only the six destination keys affect the mapped address |
| Client.RequestBody | includes/class-hp-ss-client.php:45-78 | the request body has the source's nineteen keys |
| Client.RequestBodyCarrier | includes/class-hp-ss-client.php:46-48 | `carrierCode` is the argument, `serviceCode` is null (present but not set), `packageCode` is 'package' |
| Client.RequestBodyOrigin | includes/class-hp-ss-client.php:49-52 | the origin's postcode, city, state and country are sent unchanged |
| Client.RequestBodyDestination | includes/class-hp-ss-client.php:53-58 | the destination's country, postcode, city, state and two street lines are sent unchanged |
| Client.RequestBodyPackage | includes/class-hp-ss-client.php:59-68 | the weight is sent in 'pounds' and the sides in 'inches', each with the package's value unchanged |
| Client.RequestBodyDelivery | includes/class-hp-ss-client.php:69-70 | `confirmation` is 'none' and `residential` is true |
| Client.RequestBodyQuickMode | includes/class-hp-ss-client.php:71-77 | both quick-mode flags, `rate_options.rate_type` and `rateOptions.rateType`, are 'quick' |
| Client.CacheKey | includes/class-hp-ss-client.php:184-192 | the cache key starts with 'hp_ss_rates_' |
| Client.CacheKeyDependsOnlyOn | includes/class-hp-ss-client.php:184-192 | requests with the same destination postcode and country, weight and carrier share a key, whatever their sides, city, street or origin |
| Client.ApiErrorMessage | includes/class-hp-ss-client.php:138-143 | the message starts with the status code and gets `: <message>` appended exactly when the decoded body is an array whose `message` is set |
| Client.ApiErrorMessageCarriesCode | includes/class-hp-ss-client.php:139 | the status code can be parsed back out of the `api_error` message |
| Client.Classify | includes/class-hp-ss-client.php:115-173 | a transport failure gives a transport error with its message; a non-200 status gives `api_error`; a 200 reply whose body is not an array gives `decode_error`; only a 200 reply with an array body gives rates, and those are the decoded body |
| Client.MissingCredentialsShortCircuit | includes/class-hp-ss-client.php:33-42 | an empty key or secret gives `missing_credentials`, with the cache unchanged and no request sent; no other path gives that error |
| Client.CacheHitSkipsRequest | includes/class-hp-ss-client.php:98-106 | on a cache hit the cached value is returned and no request is sent |
| Client.CacheMissSendsRequest | includes/class-hp-ss-client.php:108-171 | on a miss exactly the rate request is sent; rates are stored under the key and any error leaves the cache unchanged |
| Client.FetchKeepsCachedArrays | includes/class-hp-ss-client.php:151-171 | a cache holding only arrays keeps holding only arrays; the cache changes only on a successful request |
| Client.SecondCallHitsCache | includes/class-hp-ss-client.php:98-106 | after a call that returned rates, a call with the same postcode, country, weight and carrier returns the same rates without a request |
| Client.GetRates | includes/class-hp-ss-client.php:33-174 | `get_rates` returns what `FetchRates` specifies, leaves the cache as it specifies, and logs exactly the request it sends |
| Client.CheckCredentials | includes/class-hp-ss-client.php:201-251 | the five outcomes: missing input exactly when a credential is empty; otherwise a transport failure, 200 with the body's array count (0 when the body is not an array), 401, or another status with its code |
| Client.Report | includes/class-hp-ss-client.php:201-251 | the reported success is true exactly for a connected outcome |
| Client.TestCredentials | includes/class-hp-ss-client.php:201-251 | success exactly when both credentials are non-empty and the carriers request answers 200 |
| Client.TestCredentialsOfflineWhenEmpty | includes/class-hp-ss-client.php:202-207 | with a credential missing, the answer is the fixed failure whatever the network would say |
| Shipping.Shape | includes/class-hp-ss-shipping-method.php:179-193 | the id is 'hp_ss_' plus the sanitized code; the label is the carrier, a space and the service name; the cost is `shipmentCost` alone; the meta is the carrier and code |
| Shipping.FilterRates | includes/class-hp-ss-shipping-method.php:171-198 | the loop returns exactly `Filtered` of the reply |
| Shipping.KeptIndicesExact | includes/class-hp-ss-shipping-method.php:174-195 | the kept positions are strictly increasing. A position is kept exactly when its entry has all three fields and its code is a string in the allowed list |
| Shipping.FilteredFollowsInput | includes/class-hp-ss-shipping-method.php:174-197 | the k-th returned rate is the shaped k-th kept entry, so the output is a subsequence of the input in the same order |
| Shipping.FilteredRatesAllowed | includes/class-hp-ss-shipping-method.php:184-192 | every returned rate carries the carrier and an allowed code, and its id is made from that code |
| Shipping.FilteredAppend | includes/class-hp-ss-shipping-method.php:174-195 | filtering a split reply gives the two filtered parts in order |
| Shipping.DroppedEntryIsInert | includes/class-hp-ss-shipping-method.php:175-184 | an entry missing a field, or whose code is not strictly in the list, adds nothing wherever it stands |
| Shipping.CarrierRates | includes/class-hp-ss-shipping-method.php:130-138 | one carrier block does what `CarrierPart` specifies for the cache and the request log |
| Shipping.FetchBothCarriers | includes/class-hp-ss-shipping-method.php:128-148 | the two carrier blocks, USPS then UPS, do what `BothCarriers` specifies |
| Shipping.ShippingMethod.AddRate | includes/class-hp-ss-shipping-method.php:153 | `add_rate` appends one rate |
| Shipping.ShippingMethod.AddRates | includes/class-hp-ss-shipping-method.php:151-154 | the emitting loop appends all the rates in order |
| Shipping.ShippingMethod.CalculateShipping | includes/class-hp-ss-shipping-method.php:86-161 | `calculate_shipping` adds exactly the rates `Calculation` specifies and leaves the cache and request log as it specifies |
| Shipping.NoCredentialsNoRates | includes/class-hp-ss-shipping-method.php:95-104 | without credentials, no rates are added, nothing is sent and the cache is untouched |
| Shipping.NoDestinationNoRates | includes/class-hp-ss-shipping-method.php:116-122 | with an empty destination postcode or country, no rates are added and nothing is sent |
| Shipping.CalculationByCarrier | includes/class-hp-ss-shipping-method.php:124-148 | past its preconditions, a calculation is the USPS part followed by the UPS part, with UPS seeing the cache USPS left |
| Shipping.CarrierPartRequests | includes/class-hp-ss-shipping-method.php:131-132 | a carrier part sends at most its own rate request, and none (adding nothing) when its list is empty |
| Shipping.RequestsPerCarrier | includes/class-hp-ss-shipping-method.php:124-148 | at most two requests go out, the USPS part's before the UPS part's: 'stamps_com' only when `usps_services` is non-empty, 'ups_walleted' only when `ups_services` is non-empty; with both lists empty nothing happens |
| Shipping.UspsThenUps | includes/class-hp-ss-shipping-method.php:128-153 | the added rates are all USPS rates and then all UPS rates |
| Shipping.CarrierPartCarrier | includes/class-hp-ss-shipping-method.php:133-134 | each rate of a carrier part has that carrier's name and one of its allowed codes |
| Shipping.CarrierPartReadsCredentials | includes/class-hp-ss-shipping-method.php:132 | a carrier part depends on the settings only through the credentials |
| Shipping.UspsFailureIsSkipped | includes/class-hp-ss-shipping-method.php:131-138 | a failed USPS call adds what the calculation would add with no USPS services enabled, and leaves the same cache; UPS is unaffected |
| Shipping.UpsFailureIsSkipped | includes/class-hp-ss-shipping-method.php:141-148 | a failed UPS call adds what the calculation would add with no UPS services enabled, keeping the USPS rates |

## Left out

- HTTP, JSON and hashing: `wp_remote_post` and `wp_remote_get` are a `network` function from request to result. The Basic-auth header is the credential pair carried in the request. `wp_json_encode`, `json_decode`, `md5`, `sanitize_text_field`, `sanitize_title`, `wc_get_weight`, `wc_get_dimension`, `is_numeric`/`floatval` on strings and number-to-string conversion are uninterpreted host functions.
- Transient expiry (90 seconds) is not modelled: the cache is a map without time.
- `round(x, 2)` and `floatval` work on reals. Rounding is to hundredths, halves away from zero, with no floating-point error.
- `error_log` debug output and the `debug_enabled` branches that only log are left out. They change nothing else.
- Cart lines carry their product's attributes as strings, and their quantity already passed through `intval`. A destination is a map from field name to string, so a field present with a null value is not represented.
- The stored option is either absent or a record written by `sanitize_settings`. A hand-edited option with other shapes is not modelled.
- `get_from_address` reads the store options and `WC()->countries` through a `Store` record. An absent option or getter stands for the `''`/'US' fallbacks.
- UI and hook glue are not part of this model: the settings page rendering, `ajax_test_connection`, script enqueueing, `init`, `add_settings_page`, `register_settings`, the `WC_Shipping_Method` constructor and form fields, the admin JavaScript, and the plugin bootstrap file.
- Client.CacheKey: states only the key's prefix and what it depends on (`Client.CacheKeyDependsOnlyOn`); that different data gives different keys rests on `md5` and is not claimed.
