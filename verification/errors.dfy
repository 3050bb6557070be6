/** The exceptions the client raises, as values, and the Python lookups that raise
    them. */
module Errors {
  import opened Json

  /** One raised exception: its class and what it carries. */
  datatype Failure =
    | RequestTimeoutError(message: string, request: JSON)
    | RequestFailedError(message: string, request: JSON, response: JSON)
      /** `httpx.RequestError` subclass of the client */
    | RequestError(message: string)
      /** `httpx.HTTPStatusError` subclass of the client; `carriesExchange` says whether
          the request and response were attached */
    | ClientError(message: string, carriesExchange: bool)
      /** `KeyError(arg)`: for a failed dict lookup `arg` is the missing key */
    | KeyError(arg: string)
    | ValueError(message: string)
    | IndexError(message: string)
    | TypeError(message: string)

  datatype Option<T> = None | Some(value: T)

  /** A value, or the exception raised instead of producing it. */
  datatype Result<T> = Ok(value: T) | Err(error: Failure)

  /** `d[key]` on a dict. */
  function Lookup(d: map<string, JSON>, key: string): (r: Result<JSON>)
    ensures r.Ok? <==> key in d
    ensures r.Ok? ==> r.value == d[key]
    ensures r.Err? ==> r.error == KeyError(key)
  {
    if key in d then Ok(d[key]) else Err(KeyError(key))
  }

  /** `v[key]` for a str `key` and any decoded value `v`: only a dict can answer; the
      messages are those of CPython 3.11. */
  function Subscript(v: JSON, key: string): (r: Result<JSON>)
    ensures r.Ok? <==> v.JMap? && key in v.fields
    ensures r.Ok? ==> r.value == v.fields[key]
    ensures v.JMap? && key !in v.fields ==> r == Err(KeyError(key))
    ensures !v.JMap? ==> r.Err? && r.error.TypeError?
  {
    match v
    case JMap(m) => Lookup(m, key)
    case JList(_) => Err(TypeError("list indices must be integers or slices, not str"))
    case JStr(_) => Err(TypeError("string indices must be integers, not 'str'"))
    case JNull => Err(TypeError("'NoneType' object is not subscriptable"))
    case JBool(_) => Err(TypeError("'bool' object is not subscriptable"))
    case JInt(_) => Err(TypeError("'int' object is not subscriptable"))
  }
}
