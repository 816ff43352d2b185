/**
 * The parsed content of an uploaded work-order file. Parsing itself
 * (`JSON.parse`) is not modelled: a file-loaded event carries the parsed
 * value, or nothing when parsing throws.
 */
module JsonValue {
  import opened Opt

  /** A JSON value. Numbers are reals: JSON cannot spell NaN or infinities. */
  datatype Json =
    | JNull
    | JBool(b: bool)
    | JNum(n: real)
    | JStr(s: string)
    | JArr(items: seq<Json>)
    | JObj(fields: map<string, Json>)

  /** An object's own properties, the shape a stored work order has. */
  type Document = map<string, Json>

  /** Reading `doc.key`: the property's value, or `undefined` (None) when absent. */
  function Field(doc: Document, key: string): Option<Json>
  {
    if key in doc then Some(doc[key]) else None
  }

  /**
   * JavaScript truthiness of a property read. `undefined`, `null`, `false`,
   * `0` and the empty string are falsy; arrays and objects, even empty ones,
   * are truthy.
   */
  predicate Truthy(v: Option<Json>)
  {
    match v
    case None => false
    case Some(JNull) => false
    case Some(JBool(b)) => b
    case Some(JNum(n)) => n != 0.0
    case Some(JStr(s)) => s != ""
    case Some(JArr(_)) => true
    case Some(JObj(_)) => true
  }
}
