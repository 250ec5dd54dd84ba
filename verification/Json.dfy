/**
 JSON values and their text form.

 The text form is abstract: a codec is any pair of functions of which decoding undoes
 encoding.  Numbers are decimals with six places, counted in millionths.
 */
module Json {
  import opened Wrappers

  datatype JValue =
    | JNull
    | JBool(flag: bool)
    | JNum(millionths: int)
    | JStr(text: string)
    | JArr(items: seq<JValue>)
    | JObj(fields: map<string, JValue>)

  const UNIT := 1_000_000

  function JInt(n: int): JValue {
    JNum(n * UNIT)
  }

  datatype Codec = Codec(encode: JValue -> string, decode: string -> Option<JValue>)

  ghost predicate Lawful(codec: Codec) {
    forall v :: codec.decode(codec.encode(v)) == Some(v)
  }

  /** A value's text is a single line, and the end mark of an event stream is not JSON. */
  ghost predicate FitsEventStream(codec: Codec) {
    (forall v :: '\n' !in codec.encode(v)) && codec.decode("[DONE]").None?
  }

  /** The value of a field, with JSON null standing for a missing field as Go's decoder does. */
  function Field(fields: map<string, JValue>, name: string): JValue {
    if name in fields then fields[name] else JNull
  }

  predicate IsInt64(n: int) {
    -0x8000_0000_0000_0000 <= n <= 0x7fff_ffff_ffff_ffff
  }

  type Int64 = n: int | IsInt64(n)

  // ---- Reading a field of a Go type: null leaves it zero, another type is an error --------

  function IntField(v: JValue): Option<Int64> {
    match v
    case JNull => Some(0)
    case JNum(m) => if m % UNIT == 0 && IsInt64(m / UNIT) then Some(m / UNIT) else None
    case _ => None
  }

  function FloatField(v: JValue): Option<int> {
    match v
    case JNull => Some(0)
    case JNum(m) => Some(m)
    case _ => None
  }

  function StringField(v: JValue): Option<string> {
    match v
    case JNull => Some("")
    case JStr(s) => Some(s)
    case _ => None
  }

  function BoolField(v: JValue): Option<bool> {
    match v
    case JNull => Some(false)
    case JBool(b) => Some(b)
    case _ => None
  }
}
