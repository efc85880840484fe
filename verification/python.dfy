/** The Python values the analytics code works on: objects decoded from the vendor's JSON,
    the dictionary and list accesses that can raise, and `float()`. A raised exception is
    modelled as an `Err` carrying the exception class. */
module Python {
  import opened Wrappers
  import Text

  /** A JSON-decoded Python object. */
  datatype Value =
    | PyNone
    | PyBool(b: bool)
    | PyInt(i: int)
    | PyFloat(f: real)
    | PyStr(s: string)
    | PyList(items: seq<Value>)
    | PyDict(entries: map<string, Value>)

  /** A `dict` with string keys, such as the usage record. */
  type Dict = map<string, Value>

  /** The exceptions the modelled code can raise. `ParserError` is the date parser's. */
  datatype Exception =
    | KeyError(key: string)
    | IndexError
    | TypeError
    | ValueError
    | OverflowError
    | ZeroDivisionError
    | ParserError
    | AttributeError

  /** `d[key]` on a dictionary. */
  function Get(d: Dict, key: string): (r: Result<Value, Exception>)
    ensures r.Ok? <==> key in d
    ensures r.Ok? ==> r.value == d[key]
    ensures r.Err? ==> r.error == KeyError(key)
  {
    if key in d then Ok(d[key]) else Err(KeyError(key))
  }

  /** `v[key]` on an arbitrary value: only a dictionary can be indexed by a string. */
  function GetItem(v: Value, key: string): (r: Result<Value, Exception>)
    ensures r.Ok? <==> v.PyDict? && key in v.entries
    ensures r.Ok? ==> r.value == v.entries[key]
    ensures !v.PyDict? ==> r == Err(TypeError)
  {
    match v
    case PyDict(entries) => Get(entries, key)
    case _ => Err(TypeError)
  }

  /** `v[-1]`: the last element of a list or the last character of a string. A
      dictionary looks the integer key `-1` up and raises `KeyError`. */
  function LastItem(v: Value): (r: Result<Value, Exception>)
    ensures v.PyList? ==> (r.Ok? <==> |v.items| > 0)
    ensures v.PyList? && r.Ok? ==> r.value == v.items[|v.items| - 1]
    ensures (v.PyList? && v.items == []) || v == PyStr("") ==> r == Err(IndexError)
  {
    match v
    case PyList(items) => if items == [] then Err(IndexError) else Ok(items[|items| - 1])
    case PyStr(s) => if s == "" then Err(IndexError) else Ok(PyStr([s[|s| - 1]]))
    case PyDict(_) => Err(KeyError("-1"))
    case _ => Err(TypeError)
  }

  /** What a `for` loop over `v` visits: a list's items, a string's one-character strings;
      `None`, booleans and numbers are not iterable. A dictionary visits its keys in
      insertion order, which a `map` does not keep, so callers handle that case. */
  function Iterate(v: Value): (r: Option<seq<Value>>)
    requires !v.PyDict?
    ensures v.PyList? ==> r == Some(v.items)
    ensures v.PyStr? ==> r.Some? && |r.value| == |v.s|
    ensures v.PyNone? || v.PyBool? || v.PyInt? || v.PyFloat? ==> r == None
  {
    match v
    case PyList(items) => Some(items)
    case PyStr(s) => Some(seq(|s|, i requires 0 <= i < |s| => PyStr([s[i]])))
    case _ => None
  }

  /** Python's truth value of `v`: `None`, `False`, zero, and empty strings, lists and
      dictionaries are false. */
  predicate Truthy(v: Value)
  {
    match v
    case PyNone => false
    case PyBool(b) => b
    case PyInt(i) => i != 0
    case PyFloat(f) => f != 0.0
    case PyStr(s) => s != ""
    case PyList(items) => items != []
    case PyDict(entries) => entries != map[]
  }

  /** `v[0]`: the first element of a list or the first character of a string. A
      dictionary looks the integer key `0` up and raises `KeyError`. */
  function FirstItem(v: Value): (r: Result<Value, Exception>)
    ensures v.PyList? ==> (r.Ok? <==> |v.items| > 0)
    ensures v.PyList? && r.Ok? ==> r.value == v.items[0]
    ensures (v.PyList? && v.items == []) || v == PyStr("") ==> r == Err(IndexError)
  {
    match v
    case PyList(items) => if items == [] then Err(IndexError) else Ok(items[0])
    case PyStr(s) => if s == "" then Err(IndexError) else Ok(PyStr([s[0]]))
    case PyDict(_) => Err(KeyError("0"))
    case _ => Err(TypeError)
  }

  /** `a + b`: numbers add (booleans count as 0 and 1), strings and lists concatenate, and
      every other pairing raises `TypeError`. */
  function Add(a: Value, b: Value): (r: Result<Value, Exception>)
    ensures a.PyStr? && b.PyStr? ==> r == Ok(PyStr(a.s + b.s))
    ensures a.PyStr? && !b.PyStr? ==> r == Err(TypeError)
    ensures a.PyInt? && b.PyInt? ==> r == Ok(PyInt(a.i + b.i))
  {
    if a.PyStr? && b.PyStr? then Ok(PyStr(a.s + b.s))
    else if a.PyList? && b.PyList? then Ok(PyList(a.items + b.items))
    else if IsInteger(a) && IsInteger(b) then Ok(PyInt(IntValue(a) + IntValue(b)))
    else if IsNumber(a) && IsNumber(b) then Ok(PyFloat(ToFloat(a).value + ToFloat(b).value))
    else Err(TypeError)
  }

  predicate IsInteger(v: Value)
  {
    v.PyBool? || v.PyInt?
  }

  predicate IsNumber(v: Value)
  {
    IsInteger(v) || v.PyFloat?
  }

  function IntValue(v: Value): int
    requires IsInteger(v)
  {
    if v.PyInt? then v.i else if v.b then 1 else 0
  }

  predicate AllDigits(s: string)
  {
    forall i :: 0 <= i < |s| ==> Text.IsDigit(s[i])
  }

  /** The value of the digits after a decimal point: `.d1d2...` is `(d1 + .d2...) / 10`. */
  function FractionValue(digits: string): real
    requires AllDigits(digits)
  {
    if digits == [] then 0.0
    else
      assert Text.IsDigit(digits[0]);
      ((digits[0] as int - '0' as int) as real + FractionValue(digits[1..])) / 10.0
  }

  /** The index of the first `.` in `s` at or after `from`, or `|s|` when there is none. */
  function DotIndex(s: string, from: nat): (k: nat)
    requires from <= |s|
    ensures from <= k <= |s|
    ensures k < |s| ==> s[k] == '.'
    ensures forall i :: from <= i < k ==> s[i] != '.'
    decreases |s| - from
  {
    if from == |s| || s[from] == '.' then from else DotIndex(s, from + 1)
  }

  /** The value of digits with at most one decimal point and at least one digit. */
  function UnsignedDecimal(body: string): Option<real>
  {
    var k := DotIndex(body, 0);
    var whole := body[..k];
    var fraction := if k < |body| then body[k + 1..] else "";
    if AllDigits(whole) && AllDigits(fraction) && |whole| + |fraction| > 0 then
      Some(Text.DecimalValue(whole) as real + FractionValue(fraction))
    else
      None
  }

  /** `float(s)` for a plain decimal literal: an optional sign, then digits with at most one
      decimal point and at least one digit. */
  function ParseFloat(s: string): Option<real>
  {
    if |s| > 0 && (s[0] == '-' || s[0] == '+') then
      match UnsignedDecimal(s[1..])
      case Some(x) => Some(if s[0] == '-' then -x else x)
      case None => None
    else
      UnsignedDecimal(s)
  }

  /** `float(str(n))` is `n`: the decimal text of an integer reads back as its value. */
  lemma ParseFloatIntDecimal(n: int)
    ensures ParseFloat(Text.IntDecimal(n)) == Some(n as real)
  {
    var s := Text.IntDecimal(n);
    var m: nat := if n < 0 then -n else n;
    var digits := Text.NatDecimal(m);
    assert AllDigits(digits);
    assert DotIndex(digits, 0) == |digits|;
    assert digits[..|digits|] == digits;
    Text.NatDecimalRoundTrip(m);
    assert UnsignedDecimal(digits) == Some(m as real);
    if n < 0 {
      assert s == "-" + digits;
      assert s[1..] == digits;
    } else {
      assert Text.IsDigit(s[0]);
    }
  }

  /** `float(v)`. Booleans and integers convert exactly; a string converts when it is a
      plain decimal literal and raises `ValueError` otherwise; anything else raises
      `TypeError`. */
  function ToFloat(v: Value): (r: Result<real, Exception>)
    ensures r.Ok? <==> IsNumber(v) || (v.PyStr? && ParseFloat(v.s).Some?)
    ensures v.PyInt? ==> r == Ok(v.i as real)
    ensures v.PyFloat? ==> r == Ok(v.f)
    ensures v.PyNone? || v.PyList? || v.PyDict? ==> r == Err(TypeError)
    ensures v.PyStr? && r.Err? ==> r == Err(ValueError)
  {
    match v
    case PyBool(b) => Ok(if b then 1.0 else 0.0)
    case PyInt(i) => Ok(i as real)
    case PyFloat(f) => Ok(f)
    case PyStr(s) => if ParseFloat(s).Some? then Ok(ParseFloat(s).value) else Err(ValueError)
    case _ => Err(TypeError)
  }
}
