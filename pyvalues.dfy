/**
 * The Python values the server code passes around in dictionaries: JSON
 * request data, the printer status dictionary and the form data of a
 * stored label.  Only the conversions the code relies on are modelled:
 * truthiness, `str()`, `int()` and `len()`.
 */
module PyValues {
  import opened Wrappers
  import opened Strings

  datatype PyValue =
    | PNone
    | PBool(b: bool)
    | PInt(i: int)
    | PStr(s: string)
    | PList(items: seq<PyValue>)

  /** A Python dictionary whose keys are strings. */
  type PyDict = map<string, PyValue>

  /** Python's `bool(v)`. */
  predicate Truthy(v: PyValue) {
    match v
    case PNone => false
    case PBool(b) => b
    case PInt(i) => i != 0
    case PStr(s) => |s| > 0
    case PList(items) => |items| > 0
  }

  function TypeName(v: PyValue): string {
    match v
    case PNone => "NoneType"
    case PBool(_) => "bool"
    case PInt(_) => "int"
    case PStr(_) => "str"
    case PList(_) => "list"
  }

  /** Python's `repr(v)` (string escapes are not modelled). */
  function Repr(v: PyValue): string
    decreases v, 1
  {
    match v
    case PStr(s) => "'" + s + "'"
    case PList(items) => "[" + ReprItems(items) + "]"
    case _ => Str(v)
  }

  function ReprItems(items: seq<PyValue>): string
    decreases items, 2
  {
    if |items| == 0 then ""
    else if |items| == 1 then Repr(items[0])
    else Repr(items[0]) + ", " + ReprItems(items[1..])
  }

  /** Python's `str(v)`. */
  function Str(v: PyValue): string
    decreases v, 0
  {
    match v
    case PNone => "None"
    case PBool(b) => if b then "True" else "False"
    case PInt(i) => IntToString(i)
    case PStr(s) => s
    case PList(items) => "[" + ReprItems(items) + "]"
  }

  /** Python's `int(v)`; a failure carries the exception's message. */
  function Int(v: PyValue): (r: Result<int>)
    ensures v.PInt? ==> r == Ok(v.i)
    ensures v.PNone? || v.PList? ==> r.Err?
  {
    match v
    case PInt(i) => Ok(i)
    case PBool(b) => Ok(if b then 1 else 0)
    case PStr(s) => ParseInt(s)
    case _ => Err("int() argument must be a string, a bytes-like object or a real number, not '" + TypeName(v) + "'")
  }

  /** Python's `len(v)`. */
  function Len(v: PyValue): (r: Result<nat>)
    ensures v.PStr? ==> r == Ok(|v.s|)
    ensures !v.PStr? && !v.PList? ==> r.Err?
  {
    match v
    case PStr(s) => Ok(|s|)
    case PList(items) => Ok(|items|)
    case _ => Err("object of type '" + TypeName(v) + "' has no len()")
  }

  /** `d[key]`, which raises KeyError when the key is missing. */
  function Index(d: PyDict, key: string): (r: Result<PyValue>)
    ensures r.Ok? <==> key in d
    ensures r.Ok? ==> r.value == d[key]
  {
    if key in d then Ok(d[key]) else Err("'" + key + "'")
  }

  /** `d.get(key, default)`. */
  function GetOr(d: PyDict, key: string, default: PyValue): PyValue {
    if key in d then d[key] else default
  }

  /** `int(str(i)) == i` and `int(i) == i`: a number survives being written as text. */
  lemma IntOfStr(i: int)
    ensures Int(PStr(Str(PInt(i)))) == Ok(i)
  {
    IntRoundTrip(i);
  }
}
