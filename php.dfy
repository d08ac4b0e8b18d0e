/**
 * The PHP runtime as the plugin sees it: dynamic values (decoded JSON, form
 * input, request bodies), the few pieces of PHP semantics the plugin's
 * branches depend on (isset, empty, is_numeric, floatval, string
 * conversion, sprintf's %d), the WordPress HTTP result, and the foreign
 * functions of WordPress and WooCommerce, which stay uninterpreted.
 */
module Php {

  datatype Option<T> = None | Some(value: T) {
    function GetOr(default: T): T {
      if Some? then value else default
    }
  }

  /** A PHP value. Arrays are ordered maps; every key is kept as a string
      (list arrays have the keys "0", "1", ...). */
  datatype Value =
    | Null
    | Bool(b: bool)
    | Num(x: real)
    | Str(s: string)
    | Arr(entries: seq<(string, Value)>)

  /** The entry stored under `key`, if any (PHP keys are unique, so the
      first match is the only one in a well-formed array). */
  function Lookup(entries: seq<(string, Value)>, key: string): Option<Value>
    decreases |entries|
  {
    if entries == [] then None
    else if entries[0].0 == key then Some(entries[0].1)
    else Lookup(entries[1..], key)
  }

  /** Lookup finds nothing exactly when no entry carries the key. */
  lemma {:induction false} LookupNone(entries: seq<(string, Value)>, key: string)
    ensures Lookup(entries, key).None? <==> forall i :: 0 <= i < |entries| ==> entries[i].0 != key
    decreases |entries|
  {
    if entries != [] {
      LookupNone(entries[1..], key);
      assert forall i :: 1 <= i < |entries| ==> entries[i] == entries[1..][i - 1];
    }
  }

  /** Lookup finds the first entry that carries the key. */
  lemma {:induction false} LookupAt(entries: seq<(string, Value)>, i: nat, key: string)
    requires i < |entries| && entries[i].0 == key
    requires forall j :: 0 <= j < i ==> entries[j].0 != key
    ensures Lookup(entries, key) == Some(entries[i].1)
    decreases i
  {
    if i > 0 {
      assert entries[1..][i - 1] == entries[i];
      LookupAt(entries[1..], i - 1, key);
    }
  }

  /** A lookup in two arrays' entries put together finds the first array's
      entry when it has one, else the second's. */
  lemma {:induction false} LookupConcat(a: seq<(string, Value)>, b: seq<(string, Value)>, key: string)
    ensures Lookup(a + b, key) == if Lookup(a, key).Some? then Lookup(a, key) else Lookup(b, key)
    decreases |a|
  {
    if a == [] {
      assert a + b == b;
    } else {
      assert (a + b)[1..] == a[1..] + b;
      LookupConcat(a[1..], b, key);
    }
  }

  /** `$v[$key]` read for its value: an absent key, or a non-array, reads as null. */
  function Get(v: Value, key: string): Value {
    if v.Arr? then Lookup(v.entries, key).GetOr(Null) else Null
  }

  /** `isset($v[$key])`: the key is present and its value is not null.
      A string offset with a non-numeric key is never set. */
  predicate IsSet(v: Value, key: string) {
    v.Arr? && Lookup(v.entries, key).Some? && Lookup(v.entries, key).value != Null
  }

  /** The values of an array in order (what `foreach` visits). */
  function Values(v: Value): (r: seq<Value>)
    requires v.Arr?
    ensures |r| == |v.entries|
    ensures forall i :: 0 <= i < |r| ==> r[i] == v.entries[i].1
  {
    seq(|v.entries|, i requires 0 <= i < |v.entries| => v.entries[i].1)
  }

  /** The keys of an array. */
  function KeysOf(v: Value): set<string>
    requires v.Arr?
  {
    set i | 0 <= i < |v.entries| :: v.entries[i].0
  }

  /** PHP's `empty()` on a string: the empty string and "0" are empty. */
  predicate Empty(s: string) {
    s == "" || s == "0"
  }

  /** The foreign functions the plugin calls; the model never looks inside them. */
  datatype Host = Host(
    numeric: string -> Option<real>,   // is_numeric on a string, with its floatval when numeric
    floatOfString: string -> real,     // floatval on a string that is not numeric (leading-number parse)
    numberToString: real -> string,    // PHP's conversion of a number to a string
    sanitizeText: Value -> string,     // sanitize_text_field
    sanitizeTitle: string -> string,   // sanitize_title
    toPounds: real -> real,            // wc_get_weight(x, 'lbs') from the store's weight unit
    toInches: real -> real,            // wc_get_dimension(x, 'in') from the store's dimension unit
    jsonEncode: Value -> string,       // wp_json_encode
    jsonDecode: string -> Value,       // json_decode(s, true), Null when s is not JSON
    md5: string -> string)

  /** `is_numeric($v)`. */
  predicate IsNumeric(v: Value, host: Host) {
    match v
    case Num(_) => true
    case Str(s) => host.numeric(s).Some?
    case _ => false
  }

  /** `floatval($v)` of a numeric value. */
  function NumberOf(v: Value, host: Host): real
    requires IsNumeric(v, host)
  {
    match v
    case Num(x) => x
    case Str(s) => host.numeric(s).value
  }

  /** `floatval($v)` of any value. */
  function FloatVal(v: Value, host: Host): (r: real)
    ensures IsNumeric(v, host) ==> r == NumberOf(v, host)
  {
    match v
    case Null => 0.0
    case Bool(b) => if b then 1.0 else 0.0
    case Num(x) => x
    case Str(s) => if host.numeric(s).Some? then host.numeric(s).value else host.floatOfString(s)
    case Arr(e) => if |e| == 0 then 0.0 else 1.0
  }

  /** PHP's conversion of a value to a string, as in `.` concatenation. */
  function ToText(v: Value, host: Host): string {
    match v
    case Null => ""
    case Bool(b) => if b then "1" else ""
    case Num(x) => host.numberToString(x)
    case Str(s) => s
    case Arr(_) => "Array"
  }

  /** The result of `wp_remote_post` / `wp_remote_get`: a transport-level
      WP_Error, or a response with its status code and raw body. */
  datatype HttpResult =
    | TransportFailure(message: string)
    | Response(code: int, body: string)

  /** An outbound HTTP request: method, URL, the Basic-auth credential pair
      and the body before JSON encoding (Null for a GET). */
  datatype Request = Request(verb: string, url: string, user: string, password: string, body: Value)

  // ---------------------------------------------------------------------------
  // sprintf's %d, with its inverse as the partner

  predicate IsDigit(c: char) {
    '0' <= c <= '9'
  }

  function Digit(d: nat): (c: char)
    requires d < 10
    ensures IsDigit(c) && c as int - '0' as int == d
  {
    ('0' as int + d) as char
  }

  function NatToString(n: nat): (s: string)
    ensures |s| >= 1
    ensures forall i :: 0 <= i < |s| ==> IsDigit(s[i])
    decreases n
  {
    if n < 10 then [Digit(n)] else NatToString(n / 10) + [Digit(n % 10)]
  }

  /** The decimal text `sprintf('%d', n)` produces. */
  function IntToString(n: int): (s: string)
    ensures |s| >= 1
  {
    if n < 0 then "-" + NatToString(-n) else NatToString(n)
  }

  function ParseNat(s: string): nat
    requires forall i :: 0 <= i < |s| ==> IsDigit(s[i])
    decreases |s|
  {
    if s == [] then 0
    else
      assert IsDigit(s[|s| - 1]);
      ParseNat(s[..|s| - 1]) * 10 + (s[|s| - 1] as int - '0' as int)
  }

  function ParseInt(s: string): int
    requires |s| >= 1
    requires s[0] == '-' ==> forall i :: 1 <= i < |s| ==> IsDigit(s[i])
    requires s[0] != '-' ==> forall i :: 0 <= i < |s| ==> IsDigit(s[i])
  {
    if s[0] == '-' then -(ParseNat(s[1..]) as int) else ParseNat(s)
  }

  lemma {:induction false} ParseNatOfNatToString(n: nat)
    ensures ParseNat(NatToString(n)) == n
    decreases n
  {
    if n >= 10 {
      var s := NatToString(n / 10);
      assert (s + [Digit(n % 10)])[..|s|] == s;
      ParseNatOfNatToString(n / 10);
    }
  }

  /** The status code written into a message can be read back from it. */
  lemma ParseIntOfIntToString(n: int)
    ensures ParseInt(IntToString(n)) == n
  {
    if n < 0 {
      assert ("-" + NatToString(-n))[1..] == NatToString(-n);
      ParseNatOfNatToString(-n);
    } else {
      ParseNatOfNatToString(n);
    }
  }
}
