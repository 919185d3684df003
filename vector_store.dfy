/** The LangChain vector store behind both repositories (a Chroma collection or a PGVector
    table), as the sequence of stored records. Only what the repositories rely on is modelled:
    appending documents under fresh ids, `get(where=...)`, and searches restricted by a
    metadata filter and a `where_document` condition. Embeddings and similarity ranking are
    not modelled: a search returns the matching records in the order they were stored. */
module VectorStore {
  import opened Wrappers
  import opened Documents

  /** A stored chunk under the id the store assigned to it. */
  datatype Record = Record(id: nat, document: Document)

  /** One filter condition: `{"$eq": v}` or a bare `v`, both meaning equality with `v`. */
  predicate ValueMatches(value: Value, condition: Value)
  {
    if condition.Dict? && condition.entries.Keys == {"$eq"} then value == condition.entries["$eq"]
    else value == condition
  }

  /** A metadata filter: every key it names is present and meets its condition. */
  predicate Matches(metadata: Metadata, filter: Metadata)
  {
    forall key :: key in filter ==> key in metadata && ValueMatches(metadata[key], filter[key])
  }

  predicate IsSubstring(needle: string, haystack: string)
  {
    exists i :: 0 <= i <= |haystack| && needle <= haystack[i..]
  }

  /** A `where_document` condition; only `{"$contains": text}` is modelled, and no condition
      (or another operator) lets every document through. */
  predicate ContentMatches(content: string, whereDocument: Option<Metadata>)
  {
    (whereDocument.Some? && "$contains" in whereDocument.value && whereDocument.value["$contains"].Str?)
    ==> IsSubstring(whereDocument.value["$contains"].s, content)
  }

  predicate Selected(record: Record, filter: Metadata, whereDocument: Option<Metadata>)
  {
    Matches(record.document.metadata, filter) && ContentMatches(record.document.pageContent, whereDocument)
  }

  /** Some stored record passes the filter and the `where_document` condition. */
  predicate AnySelected(records: seq<Record>, filter: Metadata, whereDocument: Option<Metadata>)
  {
    exists i :: 0 <= i < |records| && Selected(records[i], filter, whereDocument)
  }

  /** Some stored record's metadata passes the filter. */
  predicate AnyMatch(records: seq<Record>, filter: Metadata)
  {
    AnySelected(records, filter, None)
  }

  lemma AnySelectedAppend(a: seq<Record>, b: seq<Record>, filter: Metadata, whereDocument: Option<Metadata>)
    ensures AnySelected(a + b, filter, whereDocument) <==>
      AnySelected(a, filter, whereDocument) || AnySelected(b, filter, whereDocument)
  {
    if AnySelected(a, filter, whereDocument) {
      var i :| 0 <= i < |a| && Selected(a[i], filter, whereDocument);
      assert (a + b)[i] == a[i];
    }
    if AnySelected(b, filter, whereDocument) {
      var i :| 0 <= i < |b| && Selected(b[i], filter, whereDocument);
      assert (a + b)[|a| + i] == b[i];
    }
  }

  /** The records the store creates for `documents`, numbered from `firstId`. */
  function Stamp(firstId: nat, documents: seq<Document>): (records: seq<Record>)
    ensures |records| == |documents|
  {
    seq(|documents|, i requires 0 <= i < |documents| => Record(firstId + i, documents[i]))
  }

  /** The ids `first`, ..., `first + n - 1`. */
  function IdRange(first: nat, n: nat): (ids: seq<nat>)
    ensures |ids| == n
  {
    seq(n, i requires 0 <= i < n => first + i)
  }

  /** A stored document that passes a filter is still found once more documents are added. */
  lemma StampedMatch(records: seq<Record>, firstId: nat, documents: seq<Document>, filter: Metadata, j: int)
    requires 0 <= j < |documents| && Matches(documents[j].metadata, filter)
    ensures AnyMatch(records + Stamp(firstId, documents), filter)
  {
    var stamped := Stamp(firstId, documents);
    assert Selected(stamped[j], filter, None);
    AnySelectedAppend(records, stamped, filter, None);
  }

  /** `get(where=...)["ids"]`: the ids of the records whose metadata passes the filter. */
  function GetIds(records: seq<Record>, where: Metadata): (ids: seq<nat>)
    ensures |ids| > 0 <==> AnyMatch(records, where)
    ensures |ids| <= |records|
    decreases |records|
  {
    if |records| == 0 then []
    else
      var rest := GetIds(records[1..], where);
      assert records == [records[0]] + records[1..];
      AnySelectedAppend([records[0]], records[1..], where, None);
      if Matches(records[0].document.metadata, where) then [records[0].id] + rest else rest
  }

  /** The first `k` records that pass the filter and the `where_document` condition, in store
      order; a `k` below 1 finds nothing. */
  function FirstSelected(records: seq<Record>, k: int, filter: Metadata, whereDocument: Option<Metadata>)
    : (found: seq<Record>)
    ensures |found| <= |records|
    ensures k <= 0 ==> found == []
    ensures k > 0 ==> |found| <= k
    ensures k > 0 ==> (|found| > 0 <==> AnySelected(records, filter, whereDocument))
    ensures forall i :: 0 <= i < |found| ==> Selected(found[i], filter, whereDocument)
    decreases |records|
  {
    if |records| == 0 || k <= 0 then []
    else
      assert records == [records[0]] + records[1..];
      AnySelectedAppend([records[0]], records[1..], filter, whereDocument);
      if Selected(records[0], filter, whereDocument) then
        [records[0]] + FirstSelected(records[1..], k - 1, filter, whereDocument)
      else
        FirstSelected(records[1..], k, filter, whereDocument)
  }

  /** The arguments that reach the store's `similarity_search_with_score`. */
  datatype SearchCall = SearchCall(query: string, k: int, filter: Metadata, whereDocument: Option<Metadata>)

  /** A search hit with its relevance score. */
  datatype Scored = Scored(document: Document, score: real)

  class Store {
    var records: seq<Record>
    var nextId: nat
    /** The score the store gives a page content for a query; it stands for the embeddings. */
    const relevance: (string, string) -> real

    /** Every stored id was issued before `nextId`, and no id is used twice. */
    ghost predicate Valid()
      reads this
    {
      && (forall i :: 0 <= i < |records| ==> records[i].id < nextId)
      && (forall i, j :: 0 <= i < j < |records| ==> records[i].id != records[j].id)
    }

    constructor(relevance: (string, string) -> real)
      ensures records == [] && nextId == 0 && this.relevance == relevance
      ensures Valid()
    {
      records := [];
      nextId := 0;
      this.relevance := relevance;
    }

    /** `add_documents`: the documents are stored unchanged, in order, under fresh ids,
        which are returned. */
    method AddDocuments(documents: seq<Document>) returns (ids: seq<nat>)
      requires Valid()
      modifies this
      ensures Valid()
      ensures records == old(records) + Stamp(old(nextId), documents)
      ensures nextId == old(nextId) + |documents|
      ensures ids == IdRange(old(nextId), |documents|)
      ensures forall i, j :: 0 <= i < |ids| && 0 <= j < |old(records)| ==> ids[i] != old(records)[j].id
    {
      ids := IdRange(nextId, |documents|);
      records := records + Stamp(nextId, documents);
      nextId := nextId + |documents|;
    }

    /** `get(where=...)["ids"]`. */
    function Get(where: Metadata): (ids: seq<nat>)
      reads this
      ensures |ids| > 0 <==> AnyMatch(records, where)
    {
      GetIds(records, where)
    }

    /** `similarity_search(query, k, filter)`: no `where_document` condition. */
    function SimilaritySearch(query: string, k: int, filter: Metadata): (documents: seq<Document>)
      reads this
      ensures k > 0 ==> (|documents| > 0 <==> AnyMatch(records, filter))
      ensures forall i :: 0 <= i < |documents| ==> Matches(documents[i].metadata, filter)
    {
      var found := FirstSelected(records, k, filter, None);
      seq(|found|, i requires 0 <= i < |found| => found[i].document)
    }

    /** `similarity_search_with_score(...)`: the hits with their scores. */
    function SimilaritySearchWithScore(call: SearchCall): (results: seq<Scored>)
      reads this
      ensures call.k > 0 ==> |results| <= call.k
      ensures call.k > 0 ==> (|results| > 0 <==> AnySelected(records, call.filter, call.whereDocument))
      ensures forall i :: 0 <= i < |results| ==>
        && Matches(results[i].document.metadata, call.filter)
        && ContentMatches(results[i].document.pageContent, call.whereDocument)
        && results[i].score == relevance(call.query, results[i].document.pageContent)
    {
      var found := FirstSelected(records, call.k, call.filter, call.whereDocument);
      seq(|found|, i requires 0 <= i < |found| =>
        Scored(found[i].document, relevance(call.query, found[i].document.pageContent)))
    }
  }

  /** `as_retriever(search_type=..., search_kwargs=...)`: a retriever over a store. */
  datatype Retriever = Retriever(store: Store, searchType: string, searchKwargs: Metadata)
}
