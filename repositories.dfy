/** The repository the services are given: the Chroma one or the PGVector one, whichever the
    settings selected when the application was wired. Both answer the existence test and take
    writes the same way, so the services need not know which one they hold. */
module Repositories {
  import opened Wrappers
  import opened Documents
  import Config
  import opened VectorStore
  import ChromaRepository
  import PgVectorRepository

  datatype Repository =
    | Chroma(chroma: ChromaRepository.VectorDbRepository)
    | PgVector(pgvector: PgVectorRepository.PgVectorDbRepository)
  {
    /** The store the repository writes to and reads from. */
    function Vdb(): Store
    {
      match this
      case Chroma(r) => r.vdb
      case PgVector(r) => r.vdb
    }

    function Settings(): Config.Settings
    {
      match this
      case Chroma(r) => r.settings
      case PgVector(r) => r.settings
    }

    /** `check_document_exists`: on either backend, some stored chunk passes the filter; only
        Chroma raises, for a filter with a null condition. */
    function CheckDocumentExists(titleFilter: Metadata): (found: Result<bool>)
      reads Vdb()
      ensures found.Err? <==> Chroma? && ChromaRepository.HasNullCondition(titleFilter)
      ensures found.Err? ==> found.error == ChromaRepository.NullWhereValueError
      ensures found.Ok? ==> (found.value <==> AnyMatch(Vdb().records, titleFilter))
    {
      match this
      case Chroma(r) => r.CheckDocumentExists(titleFilter)
      case PgVector(r) => Ok(r.CheckDocumentExists(titleFilter))
    }

    /** `similarity_search_with_score` on either backend, the filter given by position (the
        Chroma repository names the parameter `filter`, the PGVector one `metadata_filter`). */
    function SimilaritySearchWithScore(query: string, k: Option<int>, filter: Option<Metadata>,
                                       whereDocument: Option<Metadata> := None): (results: seq<Scored>)
      reads Vdb()
      ensures var call := SearchArgs(query, k, filter, whereDocument);
        && (call.k > 0 ==> |results| <= call.k)
        && forall i :: 0 <= i < |results| ==>
             Matches(results[i].document.metadata, call.filter)
             && ContentMatches(results[i].document.pageContent, call.whereDocument)
    {
      match this
      case Chroma(r) => r.SimilaritySearchWithScore(query, k, filter, whereDocument)
      case PgVector(r) => r.SimilaritySearchWithScore(query, k, filter, whereDocument)
    }

    /** The store call a search makes, after the backend's defaults. */
    function SearchArgs(query: string, k: Option<int>, filter: Option<Metadata>, whereDocument: Option<Metadata>)
      : SearchCall
    {
      match this
      case Chroma(r) => r.SearchArgs(query, k, filter, whereDocument)
      case PgVector(r) => r.SearchArgs(query, k, filter, whereDocument)
    }

    /** `as_retriever` on either backend. */
    function AsRetriever(searchType: string := "similarity", searchKwargs: Option<Metadata> := None)
      : (retriever: Retriever)
      ensures retriever.store == Vdb() && retriever.searchType == searchType
      ensures retriever.searchKwargs == (if searchKwargs.Some? then searchKwargs.value else map[])
    {
      match this
      case Chroma(r) => r.AsRetriever(searchType, searchKwargs)
      case PgVector(r) => r.AsRetriever(searchType, searchKwargs)
    }

    /** `add_documents` on either backend. */
    method AddDocuments(documents: seq<Document>) returns (ids: seq<nat>)
      requires Vdb().Valid()
      modifies Vdb()
      ensures Vdb().Valid()
      ensures Vdb().records == old(Vdb().records) + Stamp(old(Vdb().nextId), documents)
      ensures Vdb().nextId == old(Vdb().nextId) + |documents|
      ensures ids == IdRange(old(Vdb().nextId), |documents|)
    {
      match this
      case Chroma(r) => ids := r.AddDocuments(documents);
      case PgVector(r) => ids := r.AddDocuments(documents);
    }
  }

  /** The two backends agree on the existence test for the same stored records, except that
      Chroma raises where the filter has a null condition. */
  lemma BackendsAgreeOnExistence(chroma: ChromaRepository.VectorDbRepository,
                                 pgvector: PgVectorRepository.PgVectorDbRepository, titleFilter: Metadata)
    requires chroma.vdb.records == pgvector.vdb.records
    ensures !ChromaRepository.HasNullCondition(titleFilter) ==>
      chroma.CheckDocumentExists(titleFilter) == Ok(pgvector.CheckDocumentExists(titleFilter))
    ensures ChromaRepository.HasNullCondition(titleFilter) ==>
      chroma.CheckDocumentExists(titleFilter) == Err(ChromaRepository.NullWhereValueError)
  {
  }
}
