/** JSON values as trees, and Go's decoding of one field or value out of them. */
module JsonTrees {
  import opened Text

  datatype Json =
    | Null
    | Bool(b: bool)
    | Int(n: int)
    | Fraction(literal: string)
    | Str(text: string)
    | Arr(items: seq<Json>)
    | Obj(fields: Fields)

  type Fields = map<string, Json>

  /** A raw message: absent, or a value. */
  type Raw = Option<Json>

  function Field(f: Fields, key: string): Raw {
    if key in f then Some(f[key]) else None
  }

  /** Decoding into a string field: an absent or null value leaves it empty. */
  function AsString(raw: Raw): Option<string> {
    match raw
    case None => Some("")
    case Some(Null) => Some("")
    case Some(Str(s)) => Some(s)
    case _ => None
  }

  function AsBool(raw: Raw): Option<bool> {
    match raw
    case None => Some(false)
    case Some(Null) => Some(false)
    case Some(Bool(b)) => Some(b)
    case _ => None
  }

  /** A value that must be present and an object. */
  function AsObject(raw: Raw): Option<Fields> {
    match raw
    case Some(Obj(f)) => Some(f)
    case _ => None
  }

  /** decodeArray: an absent or null array is empty. */
  function AsArray(raw: Raw): Option<seq<Json>> {
    match raw
    case None => Some([])
    case Some(Null) => Some([])
    case Some(Arr(items)) => Some(items)
    case _ => None
  }

  /** rawConfigured. */
  predicate Configured(raw: Raw) {
    raw.Some? && raw.value != Null && raw.value != Str("") && raw.value != Obj(map[])
  }

  /** optionalString: the fallback also covers a value of another type. */
  function StringOr(raw: Raw, fallback: string): string {
    match raw
    case Some(Str(s)) => s
    case _ => fallback
  }
}
