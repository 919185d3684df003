/** `VectorDBRepository`, the repository over a Chroma collection: it forwards writes to the
    store, fills in defaults for searches and retrievers, and answers the existence test with
    `get(where=...)`. Creating the collection and the Chroma client is not modelled. */
module ChromaRepository {
  import opened Wrappers
  import opened Documents
  import Config
  import opened VectorStore
  import TextExtractor

  /** The filter used when a search gives none (or an empty one); note the hyphenated key. */
  const DefaultFilter: Metadata := map["tipo-documento" := Str("documento-pdf")]

  /** The `where_document` used when a search gives none: content with at least one space. */
  const DefaultWhereDocument: Metadata := map["$contains" := Str(" ")]

  /** Chroma's `where` validation refuses a condition whose value is null; only the top-level
      conditions of a filter are looked at here. */
  predicate HasNullCondition(where: Metadata)
  {
    exists key :: key in where && where[key] == Null
  }

  /** The `ValueError` Chroma's `where` validation raises for a null condition value. */
  const NullWhereValueError: Exception :=
    Exception("ValueError", "Expected where value to be a str, int, float, or operator, got None")

  class VectorDbRepository {
    const settings: Config.Settings
    const vdb: Store

    constructor(settings: Config.Settings, vdb: Store)
      ensures this.settings == settings && this.vdb == vdb
    {
      this.settings := settings;
      this.vdb := vdb;
    }

    /** `add_documents`: the list goes to the store unchanged and the store's ids come back
        unchanged. */
    method AddDocuments(documents: seq<Document>) returns (ids: seq<nat>)
      requires vdb.Valid()
      modifies vdb
      ensures vdb.Valid()
      ensures vdb.records == old(vdb.records) + Stamp(old(vdb.nextId), documents)
      ensures vdb.nextId == old(vdb.nextId) + |documents|
      ensures ids == IdRange(old(vdb.nextId), |documents|)
    {
      ids := vdb.AddDocuments(documents);
    }

    /** The call `similarity_search_with_score` makes on the store, defaults filled in. */
    function SearchArgs(query: string, k: Option<int> := None, filter: Option<Metadata> := None,
                        whereDocument: Option<Metadata> := None): (call: SearchCall)
      ensures call.query == query
      ensures call.k == (if k == None || k == Some(0) then settings.defaultKResults else k.value)
      ensures call.filter == (if filter == None || filter == Some(map[]) then DefaultFilter else filter.value)
      ensures call.whereDocument ==
        Some(if whereDocument == None || whereDocument == Some(map[]) then DefaultWhereDocument else whereDocument.value)
    {
      SearchCall(query, IntOr(k, settings.defaultKResults), DictOr(filter, DefaultFilter),
                 Some(DictOr(whereDocument, DefaultWhereDocument)))
    }

    /** `similarity_search_with_score(query, k=None, filter=None, where_document=None)`. */
    function SimilaritySearchWithScore(query: string, k: Option<int> := None, filter: Option<Metadata> := None,
                                       whereDocument: Option<Metadata> := None): (results: seq<Scored>)
      reads vdb
      ensures var call := SearchArgs(query, k, filter, whereDocument);
        && (call.k > 0 ==> |results| <= call.k)
        && forall i :: 0 <= i < |results| ==>
             Matches(results[i].document.metadata, call.filter)
             && ContentMatches(results[i].document.pageContent, call.whereDocument)
    {
      vdb.SimilaritySearchWithScore(SearchArgs(query, k, filter, whereDocument))
    }

    /** `as_retriever(search_type="similarity", search_kwargs=None)`. */
    function AsRetriever(searchType: string := "similarity", searchKwargs: Option<Metadata> := None)
      : (retriever: Retriever)
      ensures retriever.store == vdb && retriever.searchType == searchType
      ensures retriever.searchKwargs == (if searchKwargs.Some? then searchKwargs.value else map[])
    {
      Retriever(vdb, searchType, DictOr(searchKwargs, map[]))
    }

    /** `check_document_exists`: the store's `get` finds at least one id; `get` raises first
        when the filter has a null condition. */
    function CheckDocumentExists(titleFilter: Metadata): (found: Result<bool>)
      reads vdb
      ensures found.Err? <==> HasNullCondition(titleFilter)
      ensures found.Err? ==> found.error == NullWhereValueError
      ensures found.Ok? ==> (found.value <==> AnyMatch(vdb.records, titleFilter))
    {
      if HasNullCondition(titleFilter) then Err(NullWhereValueError)
      else Ok(|vdb.Get(titleFilter)| > 0)
    }
  }

  /** The default filter's key is spelled `tipo-documento`, while the text extractor writes
      `tipo_documento`: a search without a filter finds no extracted page, whatever its type. */
  lemma DefaultFilterMissesExtractedPages(pages: seq<string>, title: string, documentType: string, i: int)
    requires 0 <= i < |pages|
    ensures !Matches(TextExtractor.Extracted(pages, title, documentType)[i].metadata, DefaultFilter)
  {
    TextExtractor.ExtractedMetadata(pages, title, documentType, i);
    assert "tipo-documento" in DefaultFilter;
  }
}
