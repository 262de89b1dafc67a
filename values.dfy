/** JSON-shaped values as the project document holds them after json.loads, and the Python conversions the core
    applies to them: int(), float(), str(), dict() and truthiness. */
module Values {
  import opened Wrappers
  import opened Text

  datatype Value =
    | VNone
    | VBool(b: bool)
    | VInt(i: int)
    | VReal(r: real)
    | VStr(s: string)
    | VList(items: seq<Value>)
    | VMap(fields: map<string, Value>)

  /** A Python dict with string keys. */
  type Dict = map<string, Value>

  /** `d.get(key, default)`. */
  function Get(d: Dict, key: string, default: Value): (r: Value)
    ensures key in d ==> r == d[key]
    ensures key !in d ==> r == default
  {
    if key in d then d[key] else default
  }

  /** Python's int() of a float: truncation toward zero. */
  function Truncate(x: real): (r: int)
    ensures x >= 0.0 ==> 0 <= r && r as real <= x < r as real + 1.0
    ensures x < 0.0 ==> r <= 0 && r as real - 1.0 < x <= r as real
  {
    if x >= 0.0 then x.Floor else -((-x).Floor)
  }

  /** Python's int(v). A bool is an int; a float is truncated; a string is parsed; None, lists and dicts raise. */
  function ToInt(v: Value): (r: Result<int>)
    ensures v.VInt? ==> r == Ok(v.i)
    ensures v.VBool? ==> r == Ok(if v.b then 1 else 0)
    ensures v.VNone? || v.VList? || v.VMap? ==> r == Err(NotConvertible("int"))
    ensures v.VStr? ==> (r.Ok? <==> ParseInt(v.s).Some?)
  {
    match v
    case VInt(i) => Ok(i)
    case VBool(b) => Ok(if b then 1 else 0)
    case VReal(x) => Ok(Truncate(x))
    case VStr(s) => (match ParseInt(s) case Some(i) => Ok(i) case None => Err(NotConvertible("int")))
    case _ => Err(NotConvertible("int"))
  }

  /** Python's float(v) on numbers and bools. Strings are not parsed (see the README). */
  function ToReal(v: Value): (r: Result<real>)
    ensures v.VReal? ==> r == Ok(v.r)
    ensures v.VInt? ==> r == Ok(v.i as real)
    ensures v.VBool? ==> r == Ok(if v.b then 1.0 else 0.0)
    ensures v.VNone? || v.VList? || v.VMap? ==> r.Err?
  {
    match v
    case VReal(x) => Ok(x)
    case VInt(i) => Ok(i as real)
    case VBool(b) => Ok(if b then 1.0 else 0.0)
    case _ => Err(NotConvertible("float"))
  }

  /** Python's str(v) on strings, ints, bools and None. The repr of floats, lists and dicts is not modelled. */
  function ToStr(v: Value): (r: Result<string>)
    ensures v.VStr? ==> r == Ok(v.s)
    ensures v.VInt? ==> r == Ok(IntToString(v.i))
    ensures v.VBool? ==> r == Ok(if v.b then "True" else "False")
    ensures v.VNone? ==> r == Ok("None")
  {
    match v
    case VStr(s) => Ok(s)
    case VInt(i) => Ok(IntToString(i))
    case VBool(b) => Ok(if b then "True" else "False")
    case VNone => Ok("None")
    case _ => Err(NotConvertible("str"))
  }

  /** Python's dict(v) on a dict (a copy) or on an empty iterable; None and numbers raise. */
  function ToDict(v: Value): (r: Result<Dict>)
    ensures v.VMap? ==> r == Ok(v.fields)
    ensures v.VNone? || v.VInt? || v.VReal? || v.VBool? ==> r.Err?
  {
    match v
    case VMap(m) => Ok(m)
    case VList(xs) => if xs == [] then Ok(map[]) else Err(NotConvertible("dict"))
    case VStr(s) => if s == "" then Ok(map[]) else Err(NotConvertible("dict"))
    case _ => Err(NotConvertible("dict"))
  }

  /** int(str(i)) == i for every integer. */
  lemma IntStrRoundTrip(i: int)
    ensures ToStr(VInt(i)).Ok? && ToInt(VStr(ToStr(VInt(i)).value)) == Ok(i)
  {
    assert ToStr(VInt(i)) == Ok(IntToString(i));
    ParseIntToString(i);
  }

  /** int(float(i)) == i for every integer a double holds exactly, that is |i| <= 2^53. */
  lemma IntFloatRoundTrip(i: int)
    requires -0x20_0000_0000_0000 <= i <= 0x20_0000_0000_0000
    ensures ToReal(VInt(i)).Ok? && ToInt(VReal(ToReal(VInt(i)).value)) == Ok(i)
  {
    assert Truncate(i as real) == i;
  }

  /** Python's bool(v): None, False, zero and empty containers are false. */
  predicate Truthy(v: Value) {
    match v
    case VNone => false
    case VBool(b) => b
    case VInt(i) => i != 0
    case VReal(x) => x != 0.0
    case VStr(s) => s != ""
    case VList(xs) => xs != []
    case VMap(m) => m != map[]
  }
}
