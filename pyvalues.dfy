/**
 * The Python values the Ohmage client handles: request parameters, cached
 * credentials and decoded JSON replies, with Python's truthiness, Python's
 * `obj[key]` lookup and the exceptions the client can raise.
 */
module PyValues {

  datatype Option<+T> = None | Some(value: T)

  /** A Python value as it comes out of a JSON decoder or goes into a request:
      None, bool, int, str, list and dict (floats are not modelled). */
  datatype Json =
    | JNull
    | JBool(b: bool)
    | JInt(i: int)
    | JStr(s: string)
    | JArr(items: seq<Json>)
    | JObj(fields: map<string, Json>)

  /** The exceptions the modelled code can raise. */
  datatype PyError =
    | JsonDecodeError                                  // simplejson.loads on a body that is not JSON
    | TypeError                                        // indexing or converting a value of the wrong kind
    | KeyError(key: string)                            // dict lookup of a missing key
    | ValueError                                       // int() of a string that is not an integer literal
    | HttpException(status: string, body: string)      // BaseApi.HTTPException
    | OhmageApiException(errors: Json)                 // OhmageApi.OhmageApiException

  /** Either the value a Python expression evaluates to or the exception it raises. */
  datatype Result<+T> = Success(value: T) | Failure(error: PyError)

  /** Python truthiness: `bool(v)`. */
  predicate Truthy(v: Json) {
    match v
    case JNull => false
    case JBool(b) => b
    case JInt(i) => i != 0
    case JStr(s) => s != ""
    case JArr(items) => items != []
    case JObj(fields) => fields != map[]
  }

  /** Python `v[key]` for a string key: a dict yields its entry or raises
      KeyError; every other kind of value raises TypeError (a list, a str
      and None cannot be indexed by a string). */
  function Lookup(v: Json, key: string): (r: Result<Json>)
    ensures r.Success? <==> v.JObj? && key in v.fields
    ensures r.Success? ==> r.value == v.fields[key]
    ensures r.Failure? ==> r.error == (if v.JObj? then KeyError(key) else TypeError)
  {
    match v
    case JObj(fields) => if key in fields then Success(fields[key]) else Failure(KeyError(key))
    case _ => Failure(TypeError)
  }
}
