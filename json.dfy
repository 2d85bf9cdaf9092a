/** JavaScript values as they arrive in request bodies, database rows and
    decoded model replies, with the few pieces of JavaScript semantics the
    controllers rely on: truthiness, `||` defaulting, property access and the
    text a template literal substitutes for a value. */
module Json {
  import opened Wrappers

  /** A JSON value. Numbers are integers in this model. */
  datatype Json =
    | JNull
    | JBool(b: bool)
    | JNum(n: int)
    | JStr(s: string)
    | JArr(items: seq<Json>)
    | JObj(fields: map<string, Json>)

  /** JavaScript truthiness of a possibly `undefined` (`None`) value:
      `undefined`, `null`, `false`, `0` and `""` are falsy. */
  predicate Truthy(v: Option<Json>) {
    match v
    case None => false
    case Some(JNull) => false
    case Some(JBool(b)) => b
    case Some(JNum(n)) => n != 0
    case Some(JStr(s)) => s != ""
    case Some(JArr(_)) => true
    case Some(JObj(_)) => true
  }

  /** `v || d`: the value itself when truthy, the default otherwise. */
  function OrElse(v: Option<Json>, d: Json): Json {
    if Truthy(v) then v.value else d
  }

  /** `v.key`: only an object carries properties; on anything else the
      property is `undefined`. */
  function Get(v: Json, key: string): Option<Json> {
    match v
    case JObj(fields) => if key in fields then Some(fields[key]) else None
    case _ => None
  }

  /** The array `[ "s0", "s1", ... ]` of the given strings. */
  function Strings(ss: seq<string>): (r: Json)
    ensures r.JArr? && |r.items| == |ss|
    ensures forall i :: 0 <= i < |ss| ==> r.items[i] == JStr(ss[i])
  {
    JArr(seq(|ss|, i requires 0 <= i < |ss| => JStr(ss[i])))
  }

  /** The text `${v}` substitutes for `v` in a template literal (`String(v)`):
      an array is the comma-joined text of its elements, with `null`
      elements as empty text. */
  function ToText(v: Json): string
    decreases v, 1
  {
    match v
    case JNull => "null"
    case JBool(b) => if b then "true" else "false"
    case JNum(n) => Decimal(n)
    case JStr(s) => s
    case JArr(items) => JoinItems(v, 0)
    case JObj(_) => "[object Object]"
  }

  /** `items.slice(from).join(",")` for the items of array `v`. */
  function JoinItems(v: Json, from: nat): string
    requires v.JArr?
    decreases v, 0, |v.items| - from
  {
    if from >= |v.items| then ""
    else
      var item := v.items[from];
      var text := if item.JNull? then "" else ToText(item);
      if from == |v.items| - 1 then text else text + "," + JoinItems(v, from + 1)
  }

  predicate IsDigit(c: char) { '0' <= c <= '9' }

  /** The decimal digits of a natural number, most significant first. */
  function Digits(n: nat): (r: string)
    ensures |r| > 0
    ensures forall i :: 0 <= i < |r| ==> IsDigit(r[i])
  {
    if n < 10 then ['0' + n as char]
    else Digits(n / 10) + ['0' + (n % 10) as char]
  }

  /** The number a string of decimal digits denotes. */
  function DigitsValue(s: string): nat
    requires forall i :: 0 <= i < |s| ==> IsDigit(s[i])
  {
    if |s| == 0 then 0
    else
      assert IsDigit(s[|s| - 1]);
      DigitsValue(s[..|s| - 1]) * 10 + (s[|s| - 1] as int - '0' as int)
  }

  /** The decimal text JavaScript prints for an integer of magnitude below
      10^21 (larger ones print in exponent form, which is not modelled). */
  function Decimal(n: int): string {
    if n < 0 then "-" + Digits(-n) else Digits(n)
  }

  /** Reads back the text `Decimal` prints. */
  function ParseDecimal(s: string): Option<int> {
    if |s| > 0 && s[0] == '-' && |s| > 1 && forall i :: 1 <= i < |s| ==> IsDigit(s[i]) then
      Some(-(DigitsValue(s[1..]) as int))
    else if |s| > 0 && forall i :: 0 <= i < |s| ==> IsDigit(s[i]) then
      Some(DigitsValue(s))
    else None
  }

  lemma {:induction false} DigitsRoundTrip(n: nat)
    ensures DigitsValue(Digits(n)) == n
  {
    if n >= 10 {
      DigitsRoundTrip(n / 10);
      var d := Digits(n / 10);
      var r := d + ['0' + (n % 10) as char];
      assert r[..|r| - 1] == d;
    }
  }

  /** The severity a prompt shows can be read back exactly: printing an
      integer loses nothing. */
  lemma DecimalRoundTrip(n: int)
    ensures ParseDecimal(Decimal(n)) == Some(n)
  {
    if n < 0 {
      DigitsRoundTrip(-n);
      var d := Digits(-n);
      assert ("-" + d)[1..] == d;
    } else {
      DigitsRoundTrip(n);
    }
  }
}
