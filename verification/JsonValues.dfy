/** JSON values as the gateway reads them: numbers keep their printed form, object members their order. */
module JsonValues {
  import opened Wrappers

  datatype Json =
    | JNull
    | JBool(b: bool)
    | JNumber(literal: string, integral: bool)
    | JString(s: string)
    | JArray(items: seq<Json>)
    | JObject(members: seq<(string, Json)>)

  /** The JSON reader and writer in use, with nothing assumed but that what was read reads back once it is written. */
  datatype Codec = Codec(parse: string -> Option<Json>, write: Json -> string) {
    ghost predicate Lawful() {
      forall s: string :: parse(s).Some? ==> parse(write(parse(s).value)) == parse(s)
    }

    /** A value the reader returns; one with a repeated member name, say, is none. */
    ghost predicate Reads(v: Json) {
      exists s: string :: parse(s) == Some(v)
    }
  }
}
