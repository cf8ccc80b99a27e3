/**
 * The JSON messages exchanged by the router and the transform services,
 * and the two pieces of Python's value semantics the router relies on:
 * truthiness (`if result`) and `str(result)`.
 */
module Messages {
  import opened Wrappers

  /** A JSON value as Flask decodes it (floating-point numbers are not modelled). */
  datatype Json =
    | Null
    | Bool(b: bool)
    | Int(i: int)
    | Str(s: string)
    | Array(items: seq<Json>)
    | Object(fields: map<string, Json>)

  /**
   * A request body as the handlers read it: a JSON object whose fields of
   * interest are strings or null (`Some` / `None`).
   */
  type RequestBody = map<string, Option<string>>

  /** An HTTP response: status code and JSON object body. */
  datatype Reply = Reply(status: int, body: map<string, Json>)

  /** The `{"error": message}` reply with the given status. */
  function ErrorReply(status: int, message: string): (r: Reply)
    ensures r.status == status && r.body.Keys == {"error"} && r.body["error"] == Str(message)
  {
    Reply(status, map["error" := Str(message)])
  }

  /** Python's `data.get(key)` on a request body: an absent key and a null value both give None. */
  function Field(body: RequestBody, key: string): (r: Option<string>)
    ensures key in body ==> r == body[key]
    ensures key !in body ==> r.None?
  {
    if key in body then body[key] else None
  }

  /** Python's `response_data.get(key)` on a reply body. */
  function Lookup(body: map<string, Json>, key: string): (r: Option<Json>)
    ensures r.Some? <==> key in body
    ensures r.Some? ==> r.value == body[key]
  {
    if key in body then Some(body[key]) else None
  }

  /** Python truthiness of a decoded JSON value: null, false, 0 and empty containers are false. */
  predicate Truthy(v: Json)
    ensures !Truthy(v) <==> v in {Null, Bool(false), Int(0), Str([]), Array([]), Object(map[])}
  {
    match v
    case Null => false
    case Bool(b) => b
    case Int(i) => i != 0
    case Str(s) => s != []
    case Array(items) => items != []
    case Object(fields) => fields != map[]
  }

  /** The decimal digit for 0 <= d < 10. */
  function Digit(d: nat): (c: char)
    requires d < 10
    ensures '0' <= c <= '9' && c as int - '0' as int == d
  {
    ('0' as int + d) as char
  }

  /** Python's `str(n)` for a natural number: decimal digits, most significant first. */
  function Decimal(n: nat): (s: string)
    ensures s != []
    ensures IsDigits(s)
    ensures n == 0 ==> s == "0"
    ensures n > 0 ==> s[0] != '0'
  {
    if n < 10 then [Digit(n)] else Decimal(n / 10) + [Digit(n % 10)]
  }

  /** Every code point of `s` is a decimal digit. */
  predicate IsDigits(s: string) {
    forall k :: 0 <= k < |s| ==> '0' <= s[k] <= '9'
  }

  /** The number a string of decimal digits denotes (the reading direction of `Decimal`). */
  function DecimalValue(s: string): nat
    requires IsDigits(s)
  {
    if s == [] then 0 else DecimalValue(s[..|s| - 1]) * 10 + (s[|s| - 1] as int - '0' as int)
  }

  /** `Decimal` loses nothing: reading its digits back gives the number. */
  lemma {:induction false} DecimalRoundTrip(n: nat)
    ensures DecimalValue(Decimal(n)) == n
  {
    if n >= 10 {
      var prefix := Decimal(n / 10);
      var s := prefix + [Digit(n % 10)];
      assert s[..|s| - 1] == prefix;
      DecimalRoundTrip(n / 10);
    }
  }

  /**
   * Python's `str(v)` for the scalar values the services reply with.
   * Arrays and objects are rendered by fixed placeholder texts.
   */
  function Show(v: Json): (s: string)
    ensures v.Str? ==> s == v.s
    ensures v.Bool? ==> s == (if v.b then "True" else "False")
    ensures v.Int? && v.i >= 0 ==> IsDigits(s) && DecimalValue(s) == v.i
    ensures v.Int? && v.i == 0 ==> s == "0"
    ensures v.Int? && v.i > 0 ==> s != [] && s[0] != '0'
    ensures v.Int? && v.i < 0 ==> |s| > 1 && s[0] == '-' && IsDigits(s[1..]) && DecimalValue(s[1..]) == -v.i
    ensures v.Int? && v.i < 0 ==> |s| > 1 && s[1] != '0'
  {
    match v
    case Null => "None"
    case Bool(b) => if b then "True" else "False"
    case Int(i) =>
      if i < 0 then
        var digits := Decimal(-i);
        DecimalRoundTrip(-i);
        assert ("-" + digits)[1..] == digits;
        "-" + digits
      else
        DecimalRoundTrip(i);
        Decimal(i)
    case Str(s) => s
    case Array(_) => "[...]"
    case Object(_) => "{...}"
  }
}
