/** JSON values (RFC 8259) as the model sees them. The JSON text functions are not
    written out: `json.loads` and `json.dumps` are the two arrows of a `Codec`,
    supplied by the caller. */
module Json {
  import opened Wrappers

  datatype Json =
    | Null
    | Bool(b: bool)
    | Number(n: int)
    | Str(s: string)
    | Array(items: seq<Json>)
    | Object(fields: map<string, Json>)

  /** `json.loads` (which raises on malformed text) and `json.dumps`. */
  datatype Codec = Codec(loads: string -> Outcome<Json>, dumps: Json -> string)
}
