/** JSON values and the three entry points of Python's `json` module that the program calls. */
module Json {
  import opened Wrappers
  import opened Text

  datatype Json =
    | Obj(fields: map<string, Json>)
    | Str(text: string)
    | Other(lexeme: string)

  /** `isinstance(v, dict) and isinstance(v.get("tool"), str)` */
  predicate IsToolObject(v: Json) {
    v.Obj? && "tool" in v.fields && v.fields["tool"].Str?
  }

  datatype Decoded = Decoded(value: Json, end: nat)

  /** What `JSONDecoder().raw_decode` is relied upon for: it consumes a non-empty prefix of its
      argument, and only a text that begins with a brace decodes to an object. */
  ghost predicate DecodesPrefixes(d: string -> Option<Decoded>) {
    forall s :: d(s).Some? ==>
      && 0 < d(s).value.end <= |s|
      && (d(s).value.value.Obj? ==> s[0] == '{')
  }

  type Decoder = d: string -> Option<Decoded> | DecodesPrefixes(d) witness (s: string) => None
}
