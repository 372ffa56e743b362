/** The JavaScript values the handler inspects: values parsed from JSON
    (request and provider bodies), `undefined`, truthiness, property access
    with and without optional chaining, and conversion to a string inside a
    template literal.  Numbers are modelled as integers. */
module JsValues {
  import opened Wrappers

  datatype Json =
    | JNull
    | JBool(b: bool)
    | JNumber(n: int)
    | JString(s: string)
    | JArray(items: seq<Json>)
    | JObject(fields: map<string, Json>)

  /** What a property access yields: `undefined`, or a JSON value. */
  datatype Value = Undefined | Defined(json: Json)

  /** JavaScript truthiness: `undefined`, `null`, `false`, `0` and `""` are falsy. */
  predicate Truthy(v: Value) {
    match v
    case Undefined => false
    case Defined(j) =>
      match j
      case JNull => false
      case JBool(b) => b
      case JNumber(n) => n != 0
      case JString(s) => s != ""
      case JArray(_) => true
      case JObject(_) => true
  }

  /** The property names the handler reads: none is an array index, none is
      `length`, and neither Object.prototype nor String.prototype defines one. */
  predicate PlainName(name: string) {
    name in {"choices", "message", "content", "error"}
  }

  /** `v.name` for a plain property name.  Reading a property of `null`
      throws a TypeError, modelled as None; only an object can own the name. */
  function Member(v: Json, name: string): (r: Option<Value>)
    requires PlainName(name)
    ensures r.None? <==> v.JNull?
    ensures r == Some(Undefined) <==> !v.JNull? && !(v.JObject? && name in v.fields)
    ensures v.JObject? && name in v.fields ==> r == Some(Defined(v.fields[name]))
  {
    match v
    case JNull => None
    case JObject(fields) => Some(if name in fields then Defined(fields[name]) else Undefined)
    case _ => Some(Undefined)
  }

  /** `v?.name`: `undefined` when `v` is `undefined` or `null`, never a TypeError. */
  function OptionalMember(v: Value, name: string): (r: Value)
    requires PlainName(name)
    ensures r.Defined? <==> v.Defined? && v.json.JObject? && name in v.json.fields
    ensures r.Defined? ==> r.json == v.json.fields[name]
  {
    match v
    case Undefined => Undefined
    case Defined(j) => if j.JNull? then Undefined else Member(j, name).value
  }

  /** `v?.[0]`: the first element of an array, the property "0" of an
      object, the first character of a string; otherwise `undefined`. */
  function OptionalFirst(v: Value): (r: Value)
    ensures v.Defined? && v.json.JArray? ==>
      r == if v.json.items == [] then Undefined else Defined(v.json.items[0])
    ensures r.Defined? ==> v.Defined? && (v.json.JArray? || v.json.JObject? || v.json.JString?)
  {
    match v
    case Undefined => Undefined
    case Defined(j) =>
      match j
      case JArray(items) => if items == [] then Undefined else Defined(items[0])
      case JObject(fields) => if "0" in fields then Defined(fields["0"]) else Undefined
      case JString(s) => if s == [] then Undefined else Defined(JString([s[0]]))
      case _ => Undefined
  }

  function DigitChar(d: nat): (c: char)
    requires d < 10
    ensures '0' <= c <= '9'
  {
    "0123456789"[d]
  }

  function DigitValue(c: char): nat
    requires '0' <= c <= '9'
  {
    (c as int - '0' as int) as nat
  }

  /** Decimal digits of `n`, most significant first, without leading zeros. */
  function NatToDecimal(n: nat): (r: string)
    ensures r != []
    ensures forall i :: 0 <= i < |r| ==> '0' <= r[i] <= '9'
    ensures |r| > 1 ==> r[0] != '0'
  {
    if n < 10 then [DigitChar(n)] else NatToDecimal(n / 10) + [DigitChar(n % 10)]
  }

  /** The number a string of decimal digits denotes. */
  function DecimalValue(r: string): nat
    requires forall i :: 0 <= i < |r| ==> '0' <= r[i] <= '9'
  {
    if r == [] then 0 else 10 * DecimalValue(r[..|r| - 1]) + DigitValue(r[|r| - 1])
  }

  lemma {:induction false} DecimalRoundTrip(n: nat)
    ensures DecimalValue(NatToDecimal(n)) == n
  {
    if n >= 10 {
      var r := NatToDecimal(n);
      assert r[..|r| - 1] == NatToDecimal(n / 10);
      DecimalRoundTrip(n / 10);
      DigitRoundTrip(n % 10);
    } else {
      DigitRoundTrip(n);
    }
  }

  lemma DigitRoundTrip(d: nat)
    requires d < 10
    ensures DigitValue(DigitChar(d)) == d
  {
    assert "0123456789"[d] as int - '0' as int == d;
  }

  /** `String(n)` for an integer-valued number. */
  function NumberToString(n: int): (r: string)
    ensures n >= 0 ==> forall i :: 0 <= i < |r| ==> '0' <= r[i] <= '9'
    ensures n >= 0 ==> DecimalValue(r) == n
    ensures n < 0 ==> |r| >= 2 && r[0] == '-' && forall i :: 1 <= i < |r| ==> '0' <= r[i] <= '9'
    ensures n < 0 ==> DecimalValue(r[1..]) == -n
    ensures n >= 0 ==> r != [] && (|r| > 1 ==> r[0] != '0')
    ensures n < 0 ==> r[1] != '0'
  {
    if n < 0 then
      DecimalRoundTrip(-n);
      assert ("-" + NatToDecimal(-n))[1..] == NatToDecimal(-n);
      assert ("-" + NatToDecimal(-n))[1] == NatToDecimal(-n)[0];
      "-" + NatToDecimal(-n)
    else
      DecimalRoundTrip(n);
      NatToDecimal(n)
  }

  /** Zero and a two-digit number print as JavaScript prints them. */
  lemma NumberSpelling()
    ensures NumberToString(0) == "0"
    ensures NumberToString(42) == "42"
    ensures NumberToString(-7) == "-7"
  {
    assert NatToDecimal(4) == "4";
  }

  /** The string a template literal `${v}` produces, or None where the
      conversion throws a TypeError.  An object converts through its
      `toString`; an own property `toString` parsed from JSON is not callable,
      and the fallback `valueOf` yields the object itself, so the conversion
      throws.  An array joins its elements with ",", `null` elements giving "". */
  function ToJsString(v: Json): (r: Option<string>)
    ensures v.JString? ==> r == Some(v.s)
    ensures v.JObject? ==> (r.None? <==> "toString" in v.fields)
    ensures v.JNumber? ==> r == Some(NumberToString(v.n))
    ensures v.JArray? ==> (r.None? <==> exists e :: e in v.items && Unconvertible(e))
    decreases v, 1
  {
    match v
    case JNull => Some("null")
    case JBool(b) => Some(if b then "true" else "false")
    case JNumber(n) => Some(NumberToString(n))
    case JString(s) => Some(s)
    case JArray(items) =>
      assert forall e :: e in items ==> e < v;
      JoinElements(v, items)
    case JObject(fields) => if "toString" in fields then None else Some("[object Object]")
  }

  /** An array element whose conversion to a string throws: `null` joins as
      "", anything else converts as in a template literal. */
  predicate Unconvertible(e: Json)
    decreases e, 2
  {
    !e.JNull? && ToJsString(e).None?
  }

  /** `Array.prototype.join(",")` over the elements of `parent`. */
  function JoinElements(parent: Json, items: seq<Json>): (r: Option<string>)
    requires forall e :: e in items ==> e < parent
    ensures r.None? <==> exists e :: e in items && Unconvertible(e)
    decreases parent, 0, |items|
  {
    if items == [] then Some("")
    else
      assert items[0] in items;
      assert forall e :: e in items[1..] ==> e in items;
      var first := if items[0].JNull? then Some("") else ToJsString(items[0]);
      if first.None? then None
      else if |items| == 1 then first
      else
        match JoinElements(parent, items[1..])
        case None => None
        case Some(rest) => Some(first.value + "," + rest)
  }

  /** Strings joined with ",". */
  function JoinComma(ss: seq<string>): string {
    if ss == [] then ""
    else if |ss| == 1 then ss[0]
    else ss[0] + "," + JoinComma(ss[1..])
  }

  /** The JSON array of the strings `ss`. */
  function StringArray(ss: seq<string>): (items: seq<Json>)
    ensures |items| == |ss| && forall i :: 0 <= i < |ss| ==> items[i] == JString(ss[i])
  {
    seq(|ss|, i requires 0 <= i < |ss| => JString(ss[i]))
  }

  /** An array of strings converts to its elements joined with ",". */
  lemma StringArrayToString(ss: seq<string>)
    ensures ToJsString(JArray(StringArray(ss))) == Some(JoinComma(ss))
  {
    var v := JArray(StringArray(ss));
    assert forall e :: e in v.items ==> e < v;
    JoinStrings(v, ss);
  }

  lemma {:induction false} JoinStrings(parent: Json, ss: seq<string>)
    requires forall e :: e in StringArray(ss) ==> e < parent
    ensures JoinElements(parent, StringArray(ss)) == Some(JoinComma(ss))
    decreases |ss|
  {
    if ss != [] {
      var items := StringArray(ss);
      assert items[1..] == StringArray(ss[1..]);
      assert forall e :: e in items[1..] ==> e in items;
      JoinStrings(parent, ss[1..]);
    }
  }
}
