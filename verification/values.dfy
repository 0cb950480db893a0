/**
  The Python values a change event is made of, as the handler sees them after
  the event source has decoded its JSON payload: `None`, booleans, integers,
  strings, lists and dicts with string keys.  The handler tests most fields by
  Python truthiness and turns identifiers into text with `str()`; both are
  defined here, together with the exceptions the handler can raise.
 */
module Values {

  /** A decoded JSON value.  Floats are not part of the model. */
  datatype Value =
    | Null
    | Bool(b: bool)
    | Int(i: int)
    | Str(s: string)
    | Arr(items: seq<Value>)
    | Obj(fields: map<string, Value>)

  /** A Python dict with string keys: a document, an event envelope, a record. */
  type Document = map<string, Value>

  /** Python truthiness: `None`, `False`, `0`, `''`, `[]` and `{}` are false, everything else is true. */
  predicate Truthy(v: Value) {
    match v
    case Null => false
    case Bool(b) => b
    case Int(i) => i != 0
    case Str(s) => s != []
    case Arr(xs) => xs != []
    case Obj(m) => m != map[]
  }

  /** `d.get(key, default)` */
  function GetOr(d: Document, key: string, default: Value): Value {
    if key in d then d[key] else default
  }

  /** `d.get(key)`: a missing key reads as `None`. */
  function Get(d: Document, key: string): Value {
    GetOr(d, key, Null)
  }

  /** The exceptions the handler can meet while it processes a batch. */
  datatype Fault =
    | AttributeError   // `.get` on something that is not a dict
    | TypeError        // iterating over something that is not iterable
    | DatabaseError    // a statement or a commit refused by a store

  /** A computation that either returns a value or raises. */
  datatype Result<+T> = Ok(value: T) | Raised(fault: Fault) {
    predicate IsFailure() {
      Raised?
    }

    function PropagateFailure<U>(): Result<U>
      requires Raised?
    {
      Raised(fault)
    }

    function Extract(): T
      requires Ok?
    {
      value
    }
  }

  /** Calling `.get` on `v`: only a dict has that attribute. */
  function AsDict(v: Value): Result<Document> {
    match v
    case Obj(m) => Ok(m)
    case _ => Raised(AttributeError)
  }

  // ---------------------------------------------------------------------------
  // Decimal text of integers, as `str(n)` writes it
  // ---------------------------------------------------------------------------

  predicate IsDigit(c: char) {
    '0' <= c <= '9'
  }

  predicate AllDigits(s: string) {
    forall i :: 0 <= i < |s| ==> IsDigit(s[i])
  }

  function DigitChar(d: nat): (c: char)
    requires d < 10
    ensures IsDigit(c)
    ensures c as int - '0' as int == d
  {
    ('0' as int + d) as char
  }

  /** The decimal digits of `n`, most significant first, without leading zeros. */
  function NatToDecimal(n: nat): (s: string)
    ensures s != []
    ensures AllDigits(s)
    ensures n > 0 ==> s[0] != '0'
    decreases n
  {
    if n < 10 then [DigitChar(n)] else NatToDecimal(n / 10) + [DigitChar(n % 10)]
  }

  /** Reads a string of digits back as a number: the reference for `NatToDecimal`. */
  function DigitsValue(s: string): nat
    requires AllDigits(s)
  {
    if s == [] then 0 else 10 * DigitsValue(s[..|s| - 1]) + (s[|s| - 1] as int - '0' as int)
  }

  /** Writing a number in decimal and reading it back gives the number. */
  lemma {:induction false} DecimalRoundTrip(n: nat)
    ensures DigitsValue(NatToDecimal(n)) == n
  {
    if n >= 10 {
      var s := NatToDecimal(n / 10);
      var t := s + [DigitChar(n % 10)];
      assert t[..|t| - 1] == s;
      DecimalRoundTrip(n / 10);
    }
  }

  /** `str(i)` for an integer: an optional minus sign, then the digits of `|i|`. */
  function IntToDecimal(i: int): string {
    if i < 0 then "-" + NatToDecimal(-i) else NatToDecimal(i)
  }

  /** Two different integers never print the same. */
  lemma IntToDecimalInjective(i: int, j: int)
    requires IntToDecimal(i) == IntToDecimal(j)
    ensures i == j
  {
    if i < 0 && j < 0 {
      var si, sj := NatToDecimal(-i), NatToDecimal(-j);
      assert si == IntToDecimal(i)[1..];
      assert sj == IntToDecimal(j)[1..];
      DecimalRoundTrip(-i);
      DecimalRoundTrip(-j);
    } else if i >= 0 && j >= 0 {
      DecimalRoundTrip(i);
      DecimalRoundTrip(j);
    }
  }

  /**
    `str(v)`.  Exact for `None`, booleans, integers and strings; a list or a
    dict is rendered as a fixed placeholder, because the order of a dict's keys
    is not part of this model.
   */
  function PyStr(v: Value): (s: string)
    ensures v.Str? ==> s == v.s
    ensures Truthy(v) ==> s != []
  {
    match v
    case Null => "None"
    case Bool(b) => if b then "True" else "False"
    case Int(i) => IntToDecimal(i)
    case Str(s) => s
    case Arr(_) => "[...]"
    case Obj(_) => "{...}"
  }
}
