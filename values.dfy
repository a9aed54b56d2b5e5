/** The Python values the service handles: JSON as decoded by Python's json
    module, Python's truthiness and `dict.get`, the text an f-string writes for
    a value, and the exceptions that travel up to the request handler. */
module PyValues {

  /** A decoded JSON value. Floats are not modelled. */
  datatype Value =
    | Null
    | Bool(b: bool)
    | Int(i: int)
    | Str(s: string)
    | List(items: seq<Value>)
    | Dict(entries: map<string, Value>)

  /** A JSON object, i.e. a Python dict with string keys. */
  type JsonObject = map<string, Value>

  /** Python's `bool(v)`: None, False, 0, "" and empty containers are falsy. */
  predicate Truthy(v: Value) {
    match v
    case Null => false
    case Bool(b) => b
    case Int(i) => i != 0
    case Str(s) => s != ""
    case List(items) => items != []
    case Dict(entries) => entries != map[]
  }

  /** `d.get(key)`: the stored value, or None when the key is missing. */
  function Get(d: JsonObject, key: string): Value {
    if key in d then d[key] else Null
  }

  /** `type(v).__name__`, as it appears in an AttributeError message. */
  function TypeName(v: Value): string {
    match v
    case Null => "NoneType"
    case Bool(_) => "bool"
    case Int(_) => "int"
    case Str(_) => "str"
    case List(_) => "list"
    case Dict(_) => "dict"
  }

  /** An exception as the request handler tells them apart; `text` is `str(e)`. */
  datatype Error =
    | AuthenticationFailed(text: string)   // simple_salesforce.SalesforceAuthenticationFailed
    | ResourceNotFound(text: string)       // simple_salesforce.SalesforceResourceNotFound
    | DatabaseError(text: string)          // psycopg2.Error and its subclasses
    | OtherError(text: string)             // any other Exception

  /** The AttributeError raised by `v.get(...)` when `v` is not a dict. */
  function NoGetAttribute(v: Value): Error {
    OtherError("'" + TypeName(v) + "' object has no attribute 'get'")
  }

  /** The IndexError raised by `[][0]`. */
  const ListIndexOutOfRange: Error := OtherError("list index out of range")

  predicate IsDigit(c: char) {
    '0' <= c <= '9'
  }

  predicate AllDigits(s: string) {
    forall k :: 0 <= k < |s| ==> IsDigit(s[k])
  }

  function DigitChar(d: nat): char
    requires d < 10
  {
    "0123456789"[d]
  }

  function DigitValue(c: char): nat
    requires IsDigit(c)
  {
    (c - '0') as nat
  }

  /** `str(n)` for a non-negative int: its decimal digits, without leading zeros. */
  function DecimalDigits(n: nat): (s: string)
    ensures |s| >= 1 && AllDigits(s)
    ensures s[0] == '0' ==> n == 0 && |s| == 1
    decreases n
  {
    if n < 10 then [DigitChar(n)] else DecimalDigits(n / 10) + [DigitChar(n % 10)]
  }

  /** Reads a string of decimal digits back as a number. */
  function ParseDigits(s: string): nat
    requires AllDigits(s)
    decreases |s|
  {
    if s == [] then 0 else 10 * ParseDigits(s[..|s| - 1]) + DigitValue(s[|s| - 1])
  }

  lemma {:induction false} ParseDigitsInvertsDecimalDigits(n: nat)
    ensures ParseDigits(DecimalDigits(n)) == n
    decreases n
  {
    var s := DecimalDigits(n);
    if n < 10 {
      assert s[..0] == [];
    } else {
      var prefix := DecimalDigits(n / 10);
      assert s[..|s| - 1] == prefix;
      ParseDigitsInvertsDecimalDigits(n / 10);
    }
  }

  /** What an f-string writes for `v` (`str(v)`). Containers are written as
      the fixed texts "[...]" and "{...}" rather than Python's repr. */
  function Render(v: Value): (s: string)
    ensures v.Str? ==> s == v.s
    ensures v.Int? && v.i >= 0 ==> AllDigits(s) && ParseDigits(s) == v.i
    ensures v.Int? && v.i < 0 ==> |s| >= 2 && s[0] == '-' && AllDigits(s[1..]) && ParseDigits(s[1..]) == -v.i
    ensures v.Int? && v.i >= 0 ==> s == DecimalDigits(v.i)
    ensures v.Int? && v.i < 0 ==> s == "-" + DecimalDigits(-v.i)
    ensures v == Bool(true) ==> s == "True"
  {
    match v
    case Null => "None"
    case Bool(b) => if b then "True" else "False"
    case Int(i) =>
      if i >= 0 then
        ParseDigitsInvertsDecimalDigits(i);
        DecimalDigits(i)
      else
        ParseDigitsInvertsDecimalDigits(-i);
        assert ("-" + DecimalDigits(-i))[1..] == DecimalDigits(-i);
        "-" + DecimalDigits(-i)
    case Str(s) => s
    case List(_) => "[...]"
    case Dict(_) => "{...}"
  }
}
