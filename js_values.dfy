/**
 * The JavaScript values the Kasa client handles: decoded JSON bodies, the
 * `undefined` produced by reading a missing property, truthiness (`!!x`),
 * property reads that tolerate non-objects (`?.`), and the `String(x)`
 * coercion used by template literals and by `JSON.parse` on a non-string.
 */
module JsValues {

  datatype Option<+T> = None | Some(value: T)

  /** A decoded JSON value. Numbers are modelled as integers. */
  datatype Json =
    | JNull
    | JBool(b: bool)
    | JNum(n: int)
    | JStr(s: string)
    | JArr(items: seq<Json>)
    | JObj(fields: map<string, Json>)

  /** A value as the client code sees it: a JSON value, or `undefined`. */
  datatype Value = Undefined | Def(json: Json)

  /** `JSON.parse` on a string: `None` stands for the parse throwing. */
  type Parser = string -> Option<Json>

  /** JavaScript truthiness, `!!v`. */
  function Truthy(v: Value): (t: bool)
    ensures t ==> v.Def? && v.json != JNull
    ensures v.Def? && (v.json.JArr? || v.json.JObj?) ==> t
  {
    match v
    case Undefined => false
    case Def(j) =>
      match j
      case JNull => false
      case JBool(b) => b
      case JNum(n) => n != 0
      case JStr(s) => s != ""
      case JArr(_) => true
      case JObj(_) => true
  }

  /**
   * Reading property `key`, as `v?.key` does. Only objects carry the
   * properties this client reads; every other value yields `undefined`.
   */
  function Get(v: Value, key: string): (r: Value)
    ensures r.Def? ==> v.Def? && v.json.JObj? && key in v.json.fields && r.json == v.json.fields[key]
    ensures v.Def? && v.json.JObj? && key in v.json.fields ==> r.Def?
  {
    if v.Def? && v.json.JObj? && key in v.json.fields then Def(v.json.fields[key]) else Undefined
  }

  /** A JSON object holding exactly one property. */
  function Single(key: string, j: Json): (o: Json)
    ensures Get(Def(o), key) == Def(j)
  {
    JObj(map[key := j])
  }

  /** The decimal digits of `n`, most significant first. */
  function NatToDecimal(n: nat): (s: string)
    ensures |s| >= 1
    ensures forall i :: 0 <= i < |s| ==> '0' <= s[i] <= '9'
  {
    var digit := ['0' + (n % 10) as char];
    if n < 10 then digit else NatToDecimal(n / 10) + digit
  }

  /** The number a string of decimal digits denotes, last digit least significant. */
  function DecimalValue(s: string): nat
    requires forall i :: 0 <= i < |s| ==> '0' <= s[i] <= '9'
  {
    if s == [] then 0
    else DecimalValue(s[..|s| - 1]) * 10 + (s[|s| - 1] - '0') as nat
  }

  /** The digits denote `n`, and only 0 is written with a leading zero. */
  lemma {:induction false} DecimalRoundTrip(n: nat)
    ensures DecimalValue(NatToDecimal(n)) == n
    ensures NatToDecimal(n)[0] == '0' <==> n == 0
  {
    var s := NatToDecimal(n);
    var digit := ['0' + (n % 10) as char];
    if n < 10 {
      assert s == digit;
      assert s[..0] == [];
    } else {
      DecimalRoundTrip(n / 10);
      assert s == NatToDecimal(n / 10) + digit;
      assert s[..|s| - 1] == NatToDecimal(n / 10);
      assert s[0] == NatToDecimal(n / 10)[0];
    }
  }

  function IntToDecimal(n: int): (s: string)
    ensures |s| >= 1
    ensures s[0] == '-' <==> n < 0
  {
    if n < 0 then "-" + NatToDecimal(-n) else NatToDecimal(n)
  }

  /** `String(v)` in JavaScript. */
  function JsString(v: Value): (s: string)
    ensures v.Def? && v.json.JStr? ==> s == v.json.s
  {
    match v
    case Undefined => "undefined"
    case Def(j) => JsonString(j)
  }

  function JsonString(j: Json): string
    decreases j, 1
  {
    match j
    case JNull => "null"
    case JBool(b) => if b then "true" else "false"
    case JNum(n) => IntToDecimal(n)
    case JStr(s) => s
    case JArr(items) => ElementsString(j, 0)
    case JObj(_) => "[object Object]"
  }

  /**
   * `Array.prototype.join(",")` from index `k` on, as used by `String` on an
   * array: `null` elements print as the empty string.
   */
  function ElementsString(arr: Json, k: nat): string
    requires arr.JArr?
    decreases arr, 0, |arr.items| - k
  {
    if k >= |arr.items| then ""
    else
      var item := arr.items[k];
      var text := if item == JNull then "" else JsonString(item);
      if k + 1 < |arr.items| then text + "," + ElementsString(arr, k + 1) else text
  }
}
