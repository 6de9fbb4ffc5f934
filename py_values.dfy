/** Python values the submission pipeline passes around: what `json.loads`
    returns (and the dict literals the pipeline builds itself), and the
    outcome of a Python expression that may raise. */
module PyValues {

  /** The conventional Some/None wrapper. */
  datatype Option<+T> = None | Some(value: T)

  /** A Python expression that either yields a value or raises an exception;
      the exception is kept as the text `str(e)` gives for it. */
  datatype Attempt<+T> = Value(value: T) | Raised(cause: string)

  /** A decoded JSON value. Numbers keep their literal text: nothing in the
      pipeline looks at them. */
  datatype Json =
    | JNull
    | JBool(b: bool)
    | JNumber(literal: string)
    | JString(s: string)
    | JArray(items: seq<Json>)
    | JObject(fields: map<string, Json>)

  /** `{}` */
  const EmptyObject: Json := JObject(map[])

  /** `d.get(key, default)` on a dict `d`. */
  function Get(fields: map<string, Json>, key: string, default: Json): Json
  {
    if key in fields then fields[key] else default
  }
}
