/** The JSON view of a request body: a document tree, and the stream of tokens a pull
    parser produces while reading it (start and end of objects and arrays, field names,
    string values, and every other scalar). */
module Json {

  datatype Json =
    | JString(s: string)
    | JArray(items: seq<Json>)
    | JObject(members: seq<Member>)
    | JOther                       // numbers, booleans and null

  datatype Member = Member(name: string, value: Json)

  datatype Token =
    | StartObject
    | EndObject
    | StartArray
    | EndArray
    | FieldName(name: string)
    | ValueString
    | ValueOther

  /** The tokens a pull parser reports for a value, in document order. */
  function Tokenize(v: Json): (r: seq<Token>)
    ensures r != [] && !r[0].FieldName?
    decreases v
  {
    match v
    case JString(_) => [ValueString]
    case JOther => [ValueOther]
    case JArray(items) => [StartArray] + TokenizeItems(items) + [EndArray]
    case JObject(ms) => [StartObject] + TokenizeMembers(ms) + [EndObject]
  }

  function TokenizeItems(items: seq<Json>): seq<Token>
    decreases items
  {
    if items == [] then [] else Tokenize(items[0]) + TokenizeItems(items[1..])
  }

  function TokenizeMembers(ms: seq<Member>): seq<Token>
    decreases ms
  {
    if ms == [] then []
    else [FieldName(ms[0].name)] + Tokenize(ms[0].value) + TokenizeMembers(ms[1..])
  }
}
