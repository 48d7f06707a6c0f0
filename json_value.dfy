/** Python values as they come out of `json.loads` and flow through dictionaries:
    the truthiness rules, `dict.get`, and the `float()` / `str()` conversions. */
module JsonValue {
  import opened PyText

  datatype Json =
    | JNull
    | JBool(b: bool)
    | JInt(i: int)
    | JNum(r: real)
    | JStr(s: string)
    | JArr(a: seq<Json>)
    | JObj(o: map<string, Json>)

  /** Python truthiness: None, False, 0, 0.0, "" and empty containers are false. */
  predicate Truthy(j: Json) {
    match j
    case JNull => false
    case JBool(b) => b
    case JInt(i) => i != 0
    case JNum(r) => r != 0.0
    case JStr(s) => s != []
    case JArr(a) => a != []
    case JObj(o) => o != map[]
  }

  /** Python's name of a value's type. */
  function TypeName(v: Json): string {
    match v
    case JNull => "NoneType"
    case JBool(_) => "bool"
    case JInt(_) => "int"
    case JNum(_) => "float"
    case JStr(_) => "str"
    case JArr(_) => "list"
    case JObj(_) => "dict"
  }

  /** A name between single quotes, as Python's messages quote type and
      attribute names. */
  function Quote(name: string): string {
    "'" + name + "'"
  }

  /** `str(e)` of the AttributeError raised when the method `name` (`get`,
      `lower`, `split`) is looked up on a value that lacks it. */
  function NoAttribute(v: Json, name: string): string {
    Quote(TypeName(v)) + " object has no attribute " + Quote(name)
  }

  /** `str(e)` of the TypeError raised by `v >= x` with `x` a float and `v` a
      value that cannot be ordered against one. */
  function NotComparable(v: Json): string {
    "'>=' not supported between instances of " + Quote(TypeName(v)) + " and 'float'"
  }

  /** `str(e)` of what `float(j)` raises: a ValueError quoting the text, or a
      TypeError naming the type. */
  function FloatError(j: Json): string {
    if j.JStr? then "could not convert string to float: " + StrRepr(j.s)
    else "float() argument must be a string or a real number, not " + Quote(TypeName(j))
  }

  /** `.get` on None, word for word. */
  lemma NoneHasNoGet()
    ensures NoAttribute(JNull, "get") == "'NoneType'" + " object has no attribute " + "'get'"
  {
  }

  /** `.get` on a list, word for word. */
  lemma ListHasNoGet(a: seq<Json>)
    ensures NoAttribute(JArr(a), "get") == "'list'" + " object has no attribute " + "'get'"
  {
  }

  /** A string confidence compared with a float threshold, word for word. */
  lemma StrNotComparable(s: string)
    ensures NotComparable(JStr(s)) == "'>=' not supported between instances of " + "'str'" + " and 'float'"
  {
  }

  /** `float(None)`, word for word. */
  lemma NoneNotFloat()
    ensures FloatError(JNull) == "float() argument must be a string or a real number, not " + "'NoneType'"
  {
  }

  /** `float("x")`, word for word. */
  lemma XNotFloat()
    ensures FloatError(JStr("x")) == "could not convert string to float: " + "'x'"
  {
    ReprOfPlain("x");
  }

  /** `float("abc")`, word for word. */
  lemma AbcNotFloat()
    ensures FloatError(JStr("abc")) == "could not convert string to float: " + "'abc'"
  {
    ReprOfPlain("abc");
  }

  /** `d.get(k, default)` on a dictionary. */
  function GetOr(d: map<string, Json>, k: string, default: Json): (r: Json)
    ensures k in d ==> r == d[k]
    ensures k !in d ==> r == default
  {
    if k in d then d[k] else default
  }

  /** `d.get(k)`: a missing key reads as None. */
  function Get(d: map<string, Json>, k: string): (r: Json)
    ensures k in d ==> r == d[k]
    ensures k !in d ==> r == JNull
  {
    GetOr(d, k, JNull)
  }

  /** `a or b`. */
  function Or(a: Json, b: Json): (r: Json)
    ensures Truthy(a) ==> r == a
    ensures !Truthy(a) ==> r == b
  {
    if Truthy(a) then a else b
  }

  /** `float(j)`: numbers and booleans convert, decimal text is parsed, anything
      else makes Python raise. */
  function ToFloat(j: Json): (r: Option<real>)
    ensures j.JInt? ==> r == Some(j.i as real)
    ensures j.JNum? ==> r == Some(j.r)
    ensures j.JNull? || j.JArr? || j.JObj? ==> r == None
  {
    match j
    case JBool(b) => Some(if b then 1.0 else 0.0)
    case JInt(i) => Some(i as real)
    case JNum(r) => Some(r)
    case JStr(s) => ParseDecimal(s)
    case _ => None
  }

  /** A dictionary of strings as a JSON object. */
  function StrMap(m: map<string, string>): (r: Json)
    ensures r.JObj? && r.o.Keys == m.Keys
    ensures forall k :: k in m ==> r.o[k] == JStr(m[k])
  {
    JObj(map k | k in m :: JStr(m[k]))
  }

  /** The number a value stands for where Python compares it with a float or
      formats it with `{:.2f}`: booleans, integers and floats; on anything else
      the comparison or the formatting raises. */
  function AsNumber(j: Json): (r: Option<real>)
    ensures j.JInt? ==> r == Some(j.i as real)
    ensures j.JNum? ==> r == Some(j.r)
    ensures j.JStr? || j.JNull? || j.JArr? || j.JObj? ==> r.None?
  {
    match j
    case JBool(b) => Some(if b then 1.0 else 0.0)
    case JInt(i) => Some(i as real)
    case JNum(x) => Some(x)
    case _ => None
  }
}
