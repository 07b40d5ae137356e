/** The Python values that flow through the form-data resolver: request
    payloads, query parameters, decoded JSON documents and caller
    arguments, together with the failure cases the resolver can raise. */
module Values {

  datatype Option<+T> = None | Some(value: T)

  /** A result that is either a value or the exception the source raises. */
  datatype Result<+T, +E> = Ok(value: T) | Err(error: E)

  /** A Python value as far as the resolver cares: the JSON kinds (integral
      numbers only), plus an uploaded file handle from a multipart body,
      which carries its file name. */
  datatype Value =
    | Null
    | Bool(b: bool)
    | Number(n: int)
    | Str(s: string)
    | List(elems: seq<Value>)
    | Dict(entries: seq<(string, Value)>)
    | Upload(filename: string)

  /** The ordered key/value pairs of a multi-dict; one key may occur many times. */
  type Items = seq<(string, Value)>

  /** The exceptions the resolver and the form factory let escape. */
  datatype Error =
    | JsonDecodeError                 // the body or the re-parsed string is not valid JSON
    | BodyError                       // the body cannot be read or parsed (a consumed stream, a client disconnect, a malformed multipart body)
    | NotAMapping                     // MultiDict(x) with an x that is neither a mapping nor key/value pairs
    | DuplicateKeyword(name: string)  // a keyword argument that names an already-bound parameter

  /** The keys that occur in `items`. */
  function KeysOf(items: Items): set<string>
  {
    set i | 0 <= i < |items| :: items[i].0
  }
}
