/** The LangChain `Document` the pipeline passes around, and the JSON-like values its
    metadata maps and the vector-store filters are made of. */
module Documents {

  /** A metadata or filter value: a string, an integer, null, or a nested dictionary
      (operator filters such as `{"$eq": v}` and `{"$contains": " "}`). */
  datatype Value = Null | Int(i: int) | Str(s: string) | Dict(entries: map<string, Value>)

  type Metadata = map<string, Value>

  /** `Document(page_content=..., metadata=...)`. */
  datatype Document = Document(pageContent: string, metadata: Metadata)
}
