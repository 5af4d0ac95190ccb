/**
 * The Python values and operations the client and the agent work with: JSON
 * values as `json.loads` produces them, the exceptions the code raises or lets
 * through, and the meaning of `key in x`, `x[key]` and `x.get(key, default)`
 * for every kind of value, including the ones that raise.
 */
module Py {
  import opened Text

  datatype Option<+T> = None | Some(value: T)

  /** A value `json.loads` can return (floating-point numbers are not modelled). */
  datatype Json =
    | Null
    | Bool(b: bool)
    | Num(n: int)
    | Str(s: string)
    | Arr(items: seq<Json>)
    | Obj(fields: map<string, Json>)

  /**
   * The exceptions of the core. The ones the code raises itself carry what
   * their text is made of; Python's built-in ones carry what they complain of.
   */
  datatype Error =
    | HttpStatus(code: int)         // non-2xx reply, re-raised as "MCP server HTTP error: <code>"
    | Transport(detail: string)     // connection-level httpx failure, re-raised unchanged
    | NoData                        // no `data: ` line in the reply
    | InvalidJson(detail: string)   // the first data line is not JSON; detail is the decoder's message
    | ServerError(payload: Json)    // the reply carried a JSON-RPC `error`
    | TypeError(fault: TypeFault)
    | AttributeError(typeName: string, attribute: string)  // `x.attribute` on a value of that type
    | KeyError(key: string)                                // `d[key]` on a dict without the key
    | ValueError(text: string)

  /** What a `TypeError` complains of; `typeName` is `type(x).__name__` of the offending value. */
  datatype TypeFault =
    | NotContainer(typeName: string)     // `key in x`
    | NotIterable(typeName: string)      // `for e in x`
    | NotSubscriptable(typeName: string) // `x[key]`
    | ListIndex                          // `a_list[key]`
    | StrIndex                           // `a_str[key]`
    | Unhashable(typeName: string)       // `x in a_set`

  datatype Result<+T> = Ok(value: T) | Err(error: Error)

  /** A parameter with a declared default: the value the caller passed, or the default when it passed none. */
  function Defaulted<T>(given: Option<T>, default: T): T
  {
    if given.Some? then given.value else default
  }

  /** A call that returns nothing or raises. */
  datatype Outcome = Pass | Fail(error: Error)

  /** What `json.loads(text)` does: a value, or a `JSONDecodeError` with its message. */
  datatype Decoded = Parsed(value: Json) | Malformed(reason: string)

  /**
   * The parts of the Python runtime the model does not define: the JSON decoder,
   * the JSON encoder, `str()` of a list or a dict, and `str()` of a built-in
   * exception (the interpreter's wording of a TypeError, AttributeError or KeyError).
   */
  datatype Runtime = Runtime(
    loads: string -> Decoded,
    dumps: Json -> string,
    containerText: Json -> string,
    builtinText: Error -> string)

  /** A prefix one element longer is the prefix with that element appended. */
  lemma PrefixGrows<T>(s: seq<T>, i: nat)
    requires i < |s|
    ensures s[..i + 1] == s[..i] + [s[i]]
  {
  }

  /** The prefix as long as the sequence is the sequence. */
  lemma WholePrefix<T>(s: seq<T>)
    ensures s[..|s|] == s
  {
  }

  /** `type(j).__name__`. */
  function TypeName(j: Json): string
  {
    match j
    case Null => "NoneType"
    case Bool(_) => "bool"
    case Num(_) => "int"
    case Str(_) => "str"
    case Arr(_) => "list"
    case Obj(_) => "dict"
  }

  /** Python truthiness: `None`, `False`, `0` and empty strings, lists and dicts are false. */
  predicate Truthy(j: Json)
  {
    match j
    case Null => false
    case Bool(b) => b
    case Num(n) => n != 0
    case Str(s) => s != []
    case Arr(items) => items != []
    case Obj(fields) => fields != map[]
  }

  /** `str(j)`: a string is its own text; lists and dicts are rendered by the runtime. */
  function Show(rt: Runtime, j: Json): string
  {
    match j
    case Null => "None"
    case Bool(b) => if b then "True" else "False"
    case Num(n) => Decimal(n)
    case Str(s) => s
    case _ => rt.containerText(j)
  }

  /** `str(e)` for each exception of the model. */
  function Message(rt: Runtime, e: Error): string
  {
    match e
    case HttpStatus(code) => "MCP server HTTP error: " + Decimal(code)
    case Transport(detail) => detail
    case NoData => "No data found in SSE response"
    case InvalidJson(detail) => "Invalid JSON in SSE response: " + detail
    case ServerError(payload) => "MCP server error: " + Show(rt, payload)
    case TypeError(_) => rt.builtinText(e)
    case AttributeError(_, _) => rt.builtinText(e)
    case KeyError(_) => rt.builtinText(e)
    case ValueError(text) => text
  }

  /** `key in c` for a string key: dict membership, list membership, substring, or TypeError. */
  function In(key: string, c: Json): (r: Result<bool>)
    ensures r.Err? <==> !(c.Obj? || c.Arr? || c.Str?)
    ensures c.Obj? ==> r == Ok(key in c.fields)
  {
    match c
    case Obj(fields) => Ok(key in fields)
    case Arr(items) => Ok(Str(key) in items)
    case Str(s) => Ok(Contains(s, key))
    case _ => Err(TypeError(NotContainer(TypeName(c))))
  }

  /** `c[key]` for a string key. */
  function Subscript(c: Json, key: string): (r: Result<Json>)
    ensures r.Ok? <==> c.Obj? && key in c.fields
    ensures r.Ok? ==> r.value == c.fields[key]
  {
    match c
    case Obj(fields) => if key in fields then Ok(fields[key]) else Err(KeyError(key))
    case Arr(_) => Err(TypeError(ListIndex))
    case Str(_) => Err(TypeError(StrIndex))
    case _ => Err(TypeError(NotSubscriptable(TypeName(c))))
  }

  /** `fields.get(key, default)` on a dict. */
  function Lookup(fields: map<string, Json>, key: string, default: Json): Json
  {
    if key in fields then fields[key] else default
  }

  /** `c.get(key, default)`: only a dict has a `get` method. */
  function Get(c: Json, key: string, default: Json): (r: Result<Json>)
    ensures r.Ok? <==> c.Obj?
    ensures c.Obj? ==> r.value == Lookup(c.fields, key, default)
  {
    match c
    case Obj(fields) => Ok(Lookup(fields, key, default))
    case _ => Err(AttributeError(TypeName(c), "get"))
  }
}
