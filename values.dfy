/** The values passed between the services: JSON-like metadata, embedding vectors and retrieved sources. */
module Values {
  import opened Wrappers

  /** A JSON value as produced by the services' dictionaries. */
  datatype Json =
    | Null
    | Bool(b: bool)
    | Num(n: real)
    | Str(s: string)
    | List(items: seq<Json>)
    | Object(fields: map<string, Json>)

  /** A document's metadata dictionary. */
  type Metadata = map<string, Json>

  /** An embedding vector; floats are modelled as reals. */
  type Vector = seq<real>

  /** A retrieved chunk as the vector store returns it: `{content, metadata, similarity}`.
      `similarity` is None when the dictionary has no "similarity" key. */
  datatype Source = Source(content: string, metadata: Metadata, similarity: Option<real>)

  /** Token usage reported by the completion provider. */
  datatype Usage = Usage(promptTokens: int, completionTokens: int, totalTokens: int)
}
