/**
 * The settings sanitiser: the callback that turns the raw settings form
 * input into the fixed-key record that is stored as the 'hp_ss_settings'
 * option. Every other component reads that stored record.
 */
module AdminSettings {
  import opened Php

  /** The sanitised settings, one field per stored key. */
  datatype Settings = Settings(
    apiKey: string,
    apiSecret: string,
    uspsServices: seq<string>,
    upsServices: seq<string>,
    defaultLength: real,
    defaultWidth: real,
    defaultHeight: real,
    defaultWeight: real,
    debugEnabled: string)

  /** The keys the sanitiser reads and writes. */
  const SettingsKeys: set<string> := {
    "api_key", "api_secret", "usps_services", "ups_services",
    "default_length", "default_width", "default_height", "default_weight",
    "debug_enabled"
  }

  /** A text field: sanitised when set, else ''. */
  function TextField(input: Value, key: string, host: Host): string {
    if IsSet(input, key) then host.sanitizeText(Get(input, key)) else ""
  }

  /** A service list: sanitised element-wise when set and an array, else empty. */
  function ServiceList(input: Value, key: string, host: Host): seq<string> {
    if IsSet(input, key) && Get(input, key).Arr? then
      var list := Get(input, key).entries;
      seq(|list|, i requires 0 <= i < |list| => host.sanitizeText(list[i].1))
    else []
  }

  /** A numeric field: its floatval when set and numeric, else the fallback. */
  function NumberField(input: Value, key: string, fallback: real, host: Host): real {
    if IsSet(input, key) && IsNumeric(Get(input, key), host) then NumberOf(Get(input, key), host) else fallback
  }

  /** sanitize_settings. */
  function Sanitize(input: Value, host: Host): (r: Settings)
    ensures !IsSet(input, "api_key") ==> r.apiKey == ""
    ensures !IsSet(input, "api_secret") ==> r.apiSecret == ""
    ensures IsSet(input, "api_key") ==> r.apiKey == host.sanitizeText(Get(input, "api_key"))
    ensures IsSet(input, "api_secret") ==> r.apiSecret == host.sanitizeText(Get(input, "api_secret"))
    ensures IsSet(input, "usps_services") && Get(input, "usps_services").Arr? ==>
              |r.uspsServices| == |Get(input, "usps_services").entries| &&
              forall i :: 0 <= i < |r.uspsServices| ==>
                r.uspsServices[i] == host.sanitizeText(Get(input, "usps_services").entries[i].1)
    ensures !(IsSet(input, "usps_services") && Get(input, "usps_services").Arr?) ==> r.uspsServices == []
    ensures IsSet(input, "ups_services") && Get(input, "ups_services").Arr? ==>
              |r.upsServices| == |Get(input, "ups_services").entries| &&
              forall i :: 0 <= i < |r.upsServices| ==>
                r.upsServices[i] == host.sanitizeText(Get(input, "ups_services").entries[i].1)
    ensures !(IsSet(input, "ups_services") && Get(input, "ups_services").Arr?) ==> r.upsServices == []
    ensures r.defaultLength == if IsSet(input, "default_length") && IsNumeric(Get(input, "default_length"), host)
                               then NumberOf(Get(input, "default_length"), host) else 12.0
    ensures r.defaultWidth == if IsSet(input, "default_width") && IsNumeric(Get(input, "default_width"), host)
                              then NumberOf(Get(input, "default_width"), host) else 12.0
    ensures r.defaultHeight == if IsSet(input, "default_height") && IsNumeric(Get(input, "default_height"), host)
                               then NumberOf(Get(input, "default_height"), host) else 12.0
    ensures r.defaultWeight == if IsSet(input, "default_weight") && IsNumeric(Get(input, "default_weight"), host)
                               then NumberOf(Get(input, "default_weight"), host) else 1.0
    ensures r.debugEnabled == "yes" || r.debugEnabled == "no"
    ensures r.debugEnabled == "yes" <==> IsSet(input, "debug_enabled")
  {
    Settings(
      TextField(input, "api_key", host),
      TextField(input, "api_secret", host),
      ServiceList(input, "usps_services", host),
      ServiceList(input, "ups_services", host),
      NumberField(input, "default_length", 12.0, host),
      NumberField(input, "default_width", 12.0, host),
      NumberField(input, "default_height", 12.0, host),
      NumberField(input, "default_weight", 1.0, host),
      if IsSet(input, "debug_enabled") then "yes" else "no")
  }

  /** A list of strings as a PHP list array. */
  function StringList(xs: seq<string>): (v: Value)
    ensures v.Arr? && |v.entries| == |xs|
    ensures forall i :: 0 <= i < |xs| ==> v.entries[i].1 == Str(xs[i])
  {
    Arr(seq(|xs|, i requires 0 <= i < |xs| => (IntToString(i), Str(xs[i]))))
  }

  /** The array that is stored as the option. */
  function Stored(s: Settings): (v: Value)
    ensures v.Arr? && |v.entries| == 9
  {
    Arr([
      ("api_key", Str(s.apiKey)),
      ("api_secret", Str(s.apiSecret)),
      ("usps_services", StringList(s.uspsServices)),
      ("ups_services", StringList(s.upsServices)),
      ("default_length", Num(s.defaultLength)),
      ("default_width", Num(s.defaultWidth)),
      ("default_height", Num(s.defaultHeight)),
      ("default_weight", Num(s.defaultWeight)),
      ("debug_enabled", Str(s.debugEnabled))
    ])
  }

  /** The stored array has exactly the nine settings keys, each once. */
  lemma StoredKeys(s: Settings)
    ensures KeysOf(Stored(s)) == SettingsKeys
    ensures forall i, j :: 0 <= i < j < 9 ==> Stored(s).entries[i].0 != Stored(s).entries[j].0
  {
    var e := Stored(s).entries;
    assert KeysOf(Stored(s)) == {e[0].0, e[1].0, e[2].0, e[3].0, e[4].0, e[5].0, e[6].0, e[7].0, e[8].0};
  }

  /** The entries of an array whose key is in `keys`, in order. */
  function Restrict(entries: seq<(string, Value)>, keys: set<string>): (r: seq<(string, Value)>)
    ensures forall i :: 0 <= i < |r| ==> r[i].0 in keys
    decreases |entries|
  {
    if entries == [] then []
    else if entries[0].0 in keys then [entries[0]] + Restrict(entries[1..], keys)
    else Restrict(entries[1..], keys)
  }

  lemma {:induction false} LookupRestrict(entries: seq<(string, Value)>, keys: set<string>, key: string)
    requires key in keys
    ensures Lookup(Restrict(entries, keys), key) == Lookup(entries, key)
    decreases |entries|
  {
    if entries != [] {
      LookupRestrict(entries[1..], keys, key);
    }
  }

  /** Keys other than the nine settings keys are dropped: the result is the
      same when the input is cut down to those keys. */
  lemma SanitizeIgnoresOtherKeys(input: Value, host: Host)
    requires input.Arr?
    ensures Sanitize(Arr(Restrict(input.entries, SettingsKeys)), host) == Sanitize(input, host)
  {
    forall key | key in SettingsKeys
      ensures Lookup(Restrict(input.entries, SettingsKeys), key) == Lookup(input.entries, key)
    {
      LookupRestrict(input.entries, SettingsKeys, key);
    }
  }

  /** The sanitised strings of `s` are fixed points of sanitize_text_field. */
  predicate TextIsSanitized(s: Settings, host: Host) {
    && host.sanitizeText(Str(s.apiKey)) == s.apiKey
    && host.sanitizeText(Str(s.apiSecret)) == s.apiSecret
    && (forall i :: 0 <= i < |s.uspsServices| ==> host.sanitizeText(Str(s.uspsServices[i])) == s.uspsServices[i])
    && (forall i :: 0 <= i < |s.upsServices| ==> host.sanitizeText(Str(s.upsServices[i])) == s.upsServices[i])
  }

  /** The credentials and service lists of the stored array read back their fields. */
  lemma StoredLookupsHead(s: Settings)
    ensures Get(Stored(s), "api_key") == Str(s.apiKey)
    ensures Get(Stored(s), "api_secret") == Str(s.apiSecret)
    ensures Get(Stored(s), "usps_services") == StringList(s.uspsServices)
    ensures Get(Stored(s), "ups_services") == StringList(s.upsServices)
  {
    var e := Stored(s).entries;
    LookupAt(e, 0, "api_key");
    LookupAt(e, 1, "api_secret");
    LookupAt(e, 2, "usps_services");
    LookupAt(e, 3, "ups_services");
  }

  /** The defaults and the debug flag of the stored array read back their fields. */
  lemma StoredLookupsTail(s: Settings)
    ensures Get(Stored(s), "default_length") == Num(s.defaultLength)
    ensures Get(Stored(s), "default_width") == Num(s.defaultWidth)
    ensures Get(Stored(s), "default_height") == Num(s.defaultHeight)
    ensures Get(Stored(s), "default_weight") == Num(s.defaultWeight)
    ensures Get(Stored(s), "debug_enabled") == Str(s.debugEnabled)
  {
    var e := Stored(s).entries;
    var head, tail := e[..4], e[4..];
    assert e == head + tail;
    LookupAt(tail, 0, "default_length");
    LookupAt(tail, 1, "default_width");
    LookupAt(tail, 2, "default_height");
    LookupAt(tail, 3, "default_weight");
    LookupAt(tail, 4, "debug_enabled");
    forall key | key in {"default_length", "default_width", "default_height", "default_weight", "debug_enabled"}
      ensures Lookup(e, key) == Lookup(tail, key)
    {
      LookupConcat(head, tail, key);
      LookupNone(head, key);
    }
  }

  /** Sanitising the stored array again gives back the same settings, except
      that debug_enabled becomes 'yes': the key is present (holding 'yes' or
      'no'), and 'no' is not told apart from 'yes'. */
  lemma ResanitizeTurnsDebugOn(s: Settings, host: Host)
    requires TextIsSanitized(s, host)
    ensures Sanitize(Stored(s), host) == s.(debugEnabled := "yes")
  {
    StoredLookupsHead(s);
    StoredLookupsTail(s);
    var input := Stored(s);
    assert ServiceList(input, "usps_services", host) == s.uspsServices;
    assert ServiceList(input, "ups_services", host) == s.upsServices;
  }
}
