/**
 * The JSON values a request body can carry, and Python's truthiness of the
 * optional strings that Flask hands over for query arguments and settings.
 */
module JsonValues {
  import opened Wrappers

  /** A decoded JSON value; numbers are integers (floating point is not modelled). */
  datatype Json =
    | JNull
    | JBool(b: bool)
    | JNum(n: int)
    | JStr(s: string)
    | JArr(items: seq<Json>)
    | JObj(fields: map<string, Json>)

  /** `if x:` on a value that is either None or a string: false for None and for "". */
  predicate Truthy(x: Option<string>) {
    x.Some? && x.value != ""
  }
}
