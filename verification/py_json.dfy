/** JSON values as Python holds them after `json.loads`, together with the
    handful of Python behaviours the tools apply to them: truthiness,
    `dict.get`, subscripting, slicing, `str()` and the text of the
    exceptions these raise. */
module PyJson {
  import opened Wrappers
  import opened PyStr

  /** A decoded JSON value. Numbers are integers; objects are dicts. */
  datatype Json =
    | JNull
    | JBool(b: bool)
    | JNum(n: int)
    | JStr(s: string)
    | JArr(items: seq<Json>)
    | JObj(fields: map<string, Json>)

  /** The library behaviour the model does not spell out, taken as given:
      `json.loads` (with the decoder's error message on failure),
      `json.dumps(indent=2)`, `str()` of a list or dict, and the message of
      the TypeError raised when a value that does not support it is
      subscripted (the Python version decides its wording). */
  datatype Codec = Codec(
    loads: string -> Result<Json, string>,
    dumps: Json -> string,
    repr: Json -> string,
    subscriptError: (string, string) -> string)

  /** Python's `bool(v)`: `None`, `False`, `0`, and empty strings, lists and
      dicts are false; everything else is true. */
  predicate Truthy(v: Json) {
    match v
    case JNull => false
    case JBool(b) => b
    case JNum(n) => n != 0
    case JStr(s) => s != []
    case JArr(xs) => xs != []
    case JObj(m) => m != map[]
  }

  /** `type(v).__name__`. */
  function TypeName(v: Json): string {
    match v
    case JNull => "NoneType"
    case JBool(_) => "bool"
    case JNum(_) => "int"
    case JStr(_) => "str"
    case JArr(_) => "list"
    case JObj(_) => "dict"
  }

  /** `str(v)`, which is also what an f-string placeholder inserts. */
  function StrOf(c: Codec, v: Json): string {
    match v
    case JNull => "None"
    case JBool(b) => if b then "True" else "False"
    case JNum(n) => IntToString(n)
    case JStr(s) => s
    case _ => c.repr(v)
  }

  /** The exceptions the modelled code can raise inside its `try` blocks. */
  datatype PyError =
    | ConnectionError(msg: string)   // raised by the HTTP client
    | DecodeError(msg: string)       // `response.json()` on a non-JSON body
    | KeyError(key: string)          // `d[key]` with `key` missing
    | AttributeError(typeName: string, attr: string)  // `.get`/`.upper` on the wrong type
    | NotIterable(typeName: string)  // `for x in v` on a scalar
    | BadSubscript(typeName: string, subscript: string)  // `v[...]` on the wrong type

  /** `str(e)`. */
  function ErrorText(c: Codec, e: PyError): string {
    match e
    case ConnectionError(m) => m
    case DecodeError(m) => m
    case KeyError(k) => "'" + k + "'"
    case AttributeError(t, a) => "'" + t + "' object has no attribute '" + a + "'"
    case NotIterable(t) => "'" + t + "' object is not iterable"
    case BadSubscript(t, s) => c.subscriptError(t, s)
  }

  /** Calling the dict method `attr` on `v`: only a dict has it. */
  function AsDict(v: Json, attr: string): (r: Result<map<string, Json>, PyError>)
    ensures r.Success? <==> v.JObj?
    ensures r.Success? ==> r.value == v.fields
    ensures r.Failure? ==> r.error == AttributeError(TypeName(v), attr)
  {
    match v
    case JObj(m) => Success(m)
    case _ => Failure(AttributeError(TypeName(v), attr))
  }

  /** `d.get(key, default)` on a dict `d`. */
  function GetOr(m: map<string, Json>, key: string, default: Json): (r: Json)
    ensures key in m ==> r == m[key]
    ensures key !in m ==> r == default
  {
    if key in m then m[key] else default
  }

  /** `v.get(key, default)`: only dicts have a `get` method. */
  function Get(v: Json, key: string, default: Json): (r: Result<Json, PyError>)
    ensures r.Failure? <==> !v.JObj?
    ensures r.Failure? ==> r.error == AttributeError(TypeName(v), "get")
    ensures v.JObj? && key in v.fields ==> r == Success(v.fields[key])
    ensures v.JObj? && key !in v.fields ==> r == Success(default)
  {
    match v
    case JObj(m) => Success(GetOr(m, key, default))
    case _ => Failure(AttributeError(TypeName(v), "get"))
  }

  /** `v[key]`: a KeyError on a dict without the key, a TypeError on
      anything that is not a dict. */
  function Index(v: Json, key: string): (r: Result<Json, PyError>)
    ensures r.Success? <==> v.JObj? && key in v.fields
    ensures r.Success? ==> r.value == v.fields[key]
    ensures v.JObj? && key !in v.fields ==> r == Failure(KeyError(key))
  {
    match v
    case JObj(m) =>
      if key in m then Success(m[key]) else Failure(KeyError(key))
    case _ => Failure(BadSubscript(TypeName(v), "['" + key + "']"))
  }

  /** `v[:n]`: strings and lists are cut to their first `n` elements. */
  function SlicePrefix(v: Json, n: nat): (r: Result<Json, PyError>)
    ensures r.Success? <==> v.JStr? || v.JArr?
    ensures v.JStr? ==> r == Success(JStr(Take(v.s, n)))
    ensures v.JArr? ==> r == Success(JArr(Take(v.items, n)))
  {
    match v
    case JStr(s) => Success(JStr(Take(s, n)))
    case JArr(xs) => Success(JArr(Take(xs, n)))
    case _ => Failure(BadSubscript(TypeName(v), "[:" + NatToString(n) + "]"))
  }
}
