/**
 * Parsed JSON values, as `JSON.parse` hands them to the gateway, together with the few
 * pieces of JavaScript semantics the gateway applies to them: property access (`body.key`),
 * nullish coalescing (`v ?? d`) and string conversion inside a template literal (`${v}`).
 */
module Json {
  import opened Wrappers

  /** A JSON value. Numbers are integers in this model. */
  datatype Json =
    | JNull
    | JBool(b: bool)
    | JNumber(n: int)
    | JString(s: string)
    | JArray(items: seq<Json>)
    | JObject(fields: map<string, Json>)

  /**
   * `v.key` for a value that is not `null` (property access on `null` throws, and callers
   * handle that case first), for the keys the gateway reads from a 402 body: `invoice`,
   * `macaroon`, `payment_hash` and `amount_sats`. Only a parsed object can hold one of
   * these (no array, string, number or boolean has them as own keys, and no prototype
   * supplies them); on any other value the access yields `undefined`, written None.
   */
  function Property(v: Json, key: string): (r: Option<Json>)
    requires !v.JNull?
    ensures r.Some? <==> v.JObject? && key in v.fields
    ensures r.Some? ==> r.value == v.fields[key]
  {
    match v
    case JObject(fields) => if key in fields then Some(fields[key]) else None
    case _ => None
  }

  /** `v ?? d`: the default replaces `undefined` (None) and `null`, and nothing else. */
  function Coalesce(v: Option<Json>, d: Json): (r: Json)
    ensures (v.None? || v.value.JNull?) ==> r == d
    ensures (v.Some? && !v.value.JNull?) ==> r == v.value
  {
    if v.Some? && !v.value.JNull? then v.value else d
  }

  /** The decimal digit for 0 <= d < 10. */
  function Digit(d: int): char
    requires 0 <= d < 10
  {
    "0123456789"[d]
  }

  /** Decimal representation of a natural number, without leading zeros. */
  function NatToString(n: nat): (s: string)
    ensures |s| > 0
    ensures forall i :: 0 <= i < |s| ==> '0' <= s[i] <= '9'
    ensures n >= 10 ==> s[0] != '0'
  {
    if n < 10 then [Digit(n)] else NatToString(n / 10) + [Digit(n % 10)]
  }

  /** The numeric value of a string of decimal digits. */
  function DigitsValue(s: string): nat
    requires forall i :: 0 <= i < |s| ==> '0' <= s[i] <= '9'
  {
    if s == [] then 0 else 10 * DigitsValue(s[..|s| - 1]) + (s[|s| - 1] - '0') as nat
  }

  /** Reading the decimal representation back gives the number: NatToString is injective. */
  lemma {:induction false} NatToStringRoundTrip(n: nat)
    ensures DigitsValue(NatToString(n)) == n
  {
    if n >= 10 {
      NatToStringRoundTrip(n / 10);
      var s := NatToString(n);
      assert s[..|s| - 1] == NatToString(n / 10);
    }
  }

  lemma NatToStringInjective(m: nat, n: nat)
    requires NatToString(m) == NatToString(n)
    ensures m == n
  {
    NatToStringRoundTrip(m);
    NatToStringRoundTrip(n);
  }

  /** JavaScript's `String(n)` for an integer (below 1e21 in magnitude). */
  function IntToString(n: int): (s: string)
    ensures |s| > 0
  {
    if n < 0 then "-" + NatToString(-n) else NatToString(n)
  }

  /**
   * Whether JavaScript's string conversion throws on a JSON value. An object converts
   * through its `toString` and then its `valueOf`. A parsed object that has its own
   * `toString` key holds a non-function there, so that step is skipped. Its `valueOf` gives no
   * primitive either: an own `valueOf` key is not a function, and the inherited one returns
   * the object itself. So the conversion raises a TypeError. An object
   * without that key uses the inherited `toString`. An array converts by joining its
   * elements, so it throws when one of its elements does. Other values never throw.
   */
  predicate ConversionThrows(v: Json)
  {
    match v
    case JObject(fields) => "toString" in fields
    case JArray(items) => exists i :: 0 <= i < |items| && ConversionThrows(items[i])
    case _ => false
  }

  /**
   * The text a template literal `${v}` produces for a JSON value, or None when the
   * conversion throws: a string is itself, a number its decimal form, an array the
   * comma-joined texts of its elements (with `null` elements as empty text), and an object
   * without its own `toString` key "[object Object]".
   */
  function TemplateString(v: Json): (s: Option<string>)
    decreases v, 1
    ensures s.None? <==> ConversionThrows(v)
    ensures v.JString? ==> s == Some(v.s)
    ensures v.JObject? && s.Some? ==> s.value == "[object Object]"
  {
    match v
    case JNull => Some("null")
    case JBool(b) => Some(if b then "true" else "false")
    case JNumber(n) => Some(IntToString(n))
    case JString(t) => Some(t)
    case JArray(items) => JoinElements(v, 0)
    case JObject(fields) => if "toString" in fields then None else Some("[object Object]")
  }

  /**
   * `Array.prototype.join(",")` over the elements of array `v` from index `i` on, or None
   * when converting one of them throws.
   */
  function JoinElements(v: Json, i: nat): (s: Option<string>)
    requires v.JArray? && i <= |v.items|
    decreases v, 0, |v.items| - i
    ensures s.None? <==> exists j :: i <= j < |v.items| && ConversionThrows(v.items[j])
  {
    if i == |v.items| then Some("")
    else
      var head := if v.items[i].JNull? then Some("") else TemplateString(v.items[i]);
      if head.None? then None
      else if i + 1 == |v.items| then head
      else
        var tail := JoinElements(v, i + 1);
        if tail.None? then None else Some(head.value + "," + tail.value)
  }
}
