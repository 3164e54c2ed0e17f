/**
 * JSON values as `JSON.parse` produces them, and the serialised form that
 * travels as a Kafka message value.
 */
module Json {
  import opened Wrappers

  /** A JSON value. Numbers are reals: JSON text cannot denote NaN or an infinity. */
  datatype Json =
    | JNull
    | JBool(b: bool)
    | JNum(n: real)
    | JStr(s: string)
    | JArr(items: seq<Json>)
    | JObj(fields: Object)

  /** A JSON object: its keys and their values (an absent key is `undefined`). */
  type Object = map<string, Json>

  /**
   * The text of a message value. The JSON grammar is not modelled: a payload is
   * either the serialisation of some JSON value or text that does not parse.
   */
  datatype Payload = Serialized(doc: Json) | Unparseable(text: string)

  /** `JSON.stringify`: the payload parses back to exactly the value serialised. */
  function Stringify(v: Json): (p: Payload)
    ensures Parse(p) == Some(v)
  {
    Serialized(v)
  }

  /** `JSON.parse`: fails (throws a SyntaxError) exactly on text that is not JSON. */
  function Parse(p: Payload): (r: Option<Json>)
    ensures r.None? <==> p.Unparseable?
  {
    match p
    case Serialized(doc) => Some(doc)
    case Unparseable(_) => None
  }

  /** The fields of a value read as a record: a non-object has none. */
  function FieldsOf(v: Json): Object
  {
    if v.JObj? then v.fields else map[]
  }
}
