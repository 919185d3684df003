/** `PGVectorDBRepository`, the repository over a PGVector table: it forwards writes to the
    store, fills in defaults for searches and retrievers, and answers the existence test with
    a one-result search. Creating the engine and the table is not modelled. */
module PgVectorRepository {
  import opened Wrappers
  import opened Documents
  import Config
  import opened VectorStore
  import TextExtractor

  /** The filter used when a search gives none (or an empty one); note the underscored key. */
  const DefaultFilter: Metadata := map["tipo_documento" := Str("documento-pdf")]

  class PgVectorDbRepository {
    const settings: Config.Settings
    const vdb: Store

    constructor(settings: Config.Settings, vdb: Store)
      ensures this.settings == settings && this.vdb == vdb
    {
      this.settings := settings;
      this.vdb := vdb;
    }

    /** `add_documents`: the list goes to the store unchanged and the store's ids come back
        unchanged. */
    method AddDocuments(documents: seq<Document>) returns (ids: seq<nat>)
      requires vdb.Valid()
      modifies vdb
      ensures vdb.Valid()
      ensures vdb.records == old(vdb.records) + Stamp(old(vdb.nextId), documents)
      ensures vdb.nextId == old(vdb.nextId) + |documents|
      ensures ids == IdRange(old(vdb.nextId), |documents|)
    {
      ids := vdb.AddDocuments(documents);
    }

    /** The call `similarity_search_with_score` makes on the store: the filter and `k` get
        defaults, and `where_document` is passed on as given, `None` included. */
    function SearchArgs(query: string, k: Option<int> := None, metadataFilter: Option<Metadata> := None,
                        whereDocument: Option<Metadata> := None): (call: SearchCall)
      ensures call.query == query
      ensures call.k == (if k == None || k == Some(0) then settings.defaultKResults else k.value)
      ensures call.filter ==
        (if metadataFilter == None || metadataFilter == Some(map[]) then DefaultFilter else metadataFilter.value)
      ensures call.whereDocument == whereDocument
    {
      SearchCall(query, IntOr(k, settings.defaultKResults), DictOr(metadataFilter, DefaultFilter), whereDocument)
    }

    /** `similarity_search_with_score(query, k=None, metadata_filter=None, where_document=None)`. */
    function SimilaritySearchWithScore(query: string, k: Option<int> := None, metadataFilter: Option<Metadata> := None,
                                       whereDocument: Option<Metadata> := None): (results: seq<Scored>)
      reads vdb
      ensures var call := SearchArgs(query, k, metadataFilter, whereDocument);
        && (call.k > 0 ==> |results| <= call.k)
        && forall i :: 0 <= i < |results| ==>
             Matches(results[i].document.metadata, call.filter)
             && ContentMatches(results[i].document.pageContent, whereDocument)
    {
      vdb.SimilaritySearchWithScore(SearchArgs(query, k, metadataFilter, whereDocument))
    }

    /** `as_retriever(search_type="similarity", search_kwargs=None)`. */
    function AsRetriever(searchType: string := "similarity", searchKwargs: Option<Metadata> := None)
      : (retriever: Retriever)
      ensures retriever.store == vdb && retriever.searchType == searchType
      ensures retriever.searchKwargs == (if searchKwargs.Some? then searchKwargs.value else map[])
    {
      Retriever(vdb, searchType, DictOr(searchKwargs, map[]))
    }

    /** `check_document_exists`: a search for "" with `k=1` under the filter finds something. */
    function CheckDocumentExists(titleFilter: Metadata): (found: bool)
      reads vdb
      ensures found <==> AnyMatch(vdb.records, titleFilter)
    {
      |vdb.SimilaritySearch("", 1, titleFilter)| > 0
    }
  }

  /** A search without a filter finds exactly the extracted pages of type "documento-pdf", so
      pages ingested under the ingestion service's own default "documento_pdf" are left out. */
  lemma DefaultFilterSelectsPdfPages(pages: seq<string>, title: string, documentType: string, i: int)
    requires 0 <= i < |pages|
    ensures Matches(TextExtractor.Extracted(pages, title, documentType)[i].metadata, DefaultFilter)
      <==> documentType == "documento-pdf"
  {
    var metadata := TextExtractor.Extracted(pages, title, documentType)[i].metadata;
    TextExtractor.ExtractedMetadata(pages, title, documentType, i);
    assert DefaultFilter.Keys == {"tipo_documento"};
    assert !DefaultFilter["tipo_documento"].Dict?;
    if documentType == "documento-pdf" {
      forall key | key in DefaultFilter
        ensures key in metadata && ValueMatches(metadata[key], DefaultFilter[key])
      {
        assert key == "tipo_documento";
      }
    }
  }
}
