/** JSON values as the service receives and returns them, with Python's truthiness. */
module Json {

  datatype Option<+T> = None | Some(value: T)

  datatype Result<+T, +E> = Ok(value: T) | Err(error: E)

  /** A decoded JSON value. Numbers are integers only. */
  datatype JsonValue =
    | JNull
    | JBool(b: bool)
    | JInt(i: int)
    | JStr(s: string)
    | JArray(items: seq<JsonValue>)
    | JObject(fields: map<string, JsonValue>)

  /** A JSON object, which is what Python hands around as a dict. */
  type Object = map<string, JsonValue>

  /** The two kinds of exception the pipeline distinguishes: `ValueError` and a plain `Exception`. */
  datatype Failure = ValidationError(message: string) | ServiceError(message: string)

  /** Python's `not v`: None, False, 0, "", [] and {} are falsy. */
  predicate Falsy(v: JsonValue) {
    match v
    case JNull => true
    case JBool(b) => !b
    case JInt(i) => i == 0
    case JStr(s) => s == []
    case JArray(items) => items == []
    case JObject(fields) => fields == map[]
  }

  /** `d.get(key, default)`. */
  function GetOr(d: Object, key: string, default: JsonValue): JsonValue {
    if key in d then d[key] else default
  }

  /** `d.get(key)`, whose default is None. */
  function Get(d: Object, key: string): JsonValue {
    GetOr(d, key, JNull)
  }

  /** A Python optional string as a JSON value: None becomes null. */
  function OptionalStr(o: Option<string>): JsonValue {
    match o
    case None => JNull
    case Some(s) => JStr(s)
  }

  /** A Python optional integer as a JSON value: None becomes null. */
  function OptionalInt(o: Option<nat>): JsonValue {
    match o
    case None => JNull
    case Some(n) => JInt(n)
  }
}
