/** The decision logic of the first API's controller: `process_document` (which always hands
    the upload to the ingestion service), `search_vdb`, `query_qa_chain` and
    `query_reranked_chain`. As for the `/documents` router, a handler takes the parsed
    request and its collaborators and yields the response it produces. */
module ProcessDocumentController {
  import opened Wrappers
  import opened Documents
  import opened VectorStore
  import opened Http
  import opened Repositories
  import Ingestion
  import TextExtractor
  import ChromaRepository
  import QaService
  import RerankService

  const DefaultDocumentType: string := "documento-pdf"

  /** `ProcessDocumentRequest` as parsed: `document_type` may be an explicit null. */
  datatype ProcessDocumentRequest = ProcessDocumentRequest(title: string, documentType: Option<string>,
                                                           documentContent: string)

  /** `SearchVectorDataBaseRequest` as parsed: every field but `query` may be null. */
  datatype SearchVectorDataBaseRequest = SearchVectorDataBaseRequest(
    title: Option<string>,
    documentType: Option<string>,
    query: string,
    kResults: Option<int>,
    metadataFilter: Option<Metadata>)

  /** The existence filter `{"titulo": request.title}`; a missing title is a null. */
  function TitleFilter(title: Option<string>): Metadata
  {
    map["titulo" := if title.Some? then Str(title.value) else Null]
  }

  /** A missing title is the only null condition of the existence filter. */
  lemma TitleFilterNull(title: Option<string>)
    ensures ChromaRepository.HasNullCondition(TitleFilter(title)) <==> title.None?
  {
    assert "titulo" in TitleFilter(title);
  }

  /** The existence test of the three search handlers raises: Chroma and no title. */
  predicate ExistenceTestRaises(title: Option<string>, vdbRepo: Repository)
  {
    vdbRepo.Chroma? && title.None?
  }

  /** `{"query_id": ..., "status": ...}`. */
  datatype ProcessBody = ProcessBody(queryId: string, status: bool)

  /** The answer of `process_document` once the service has given its result; `queryId`
      stands for the fresh `uuid.uuid4()`. */
  function ProcessResponse(serviceResult: Result<bool>, queryId: string): (response: Response<ProcessBody>)
    ensures response.HttpError? <==> serviceResult.Err?
    ensures response.HttpError? ==>
      response == HttpError(InternalServerError500, ErrorDetail("Error procesando documento: ", serviceResult.error))
    ensures response.JsonResponse? ==>
      && (response.statusCode == Created201 <==> serviceResult.value)
      && (response.statusCode == Ok200 <==> !serviceResult.value)
      && response.body == ProcessBody(queryId, serviceResult.value)
      && response.headers == map[]
  {
    match serviceResult
    case Err(e) => HttpError(InternalServerError500, ErrorDetail("Error procesando documento: ", e))
    case Ok(resultProcess) =>
      JsonResponse(if resultProcess then Created201 else Ok200, ProcessBody(queryId, resultProcess), map[])
  }

  /** `process_document`: one call of the ingestion service with the request's content and
      title, its type or "documento-pdf", and the "recursive" method; this handler makes no
      existence test of its own. */
  method ProcessDocument(request: ProcessDocumentRequest, ingestionService: Ingestion.DocumentIngestionService,
                         queryId: string)
    returns (response: Response<ProcessBody>, ghost steps: seq<Ingestion.Step>)
    requires ingestionService.vdbRepository.Vdb().Valid()
    modifies ingestionService.vdbRepository.Vdb()
    ensures ingestionService.vdbRepository.Vdb().Valid()
    ensures var run := ingestionService.Run(old(ingestionService.vdbRepository.Vdb().records), request.documentContent,
                                            request.title, StringOr(request.documentType, DefaultDocumentType),
                                            "recursive", None, None);
      && response == ProcessResponse(run.result, queryId)
      && steps == run.steps
      && ingestionService.vdbRepository.Vdb().records
         == old(ingestionService.vdbRepository.Vdb().records) + Stamp(old(ingestionService.vdbRepository.Vdb().nextId), run.written)
      && ingestionService.vdbRepository.Vdb().nextId
         == old(ingestionService.vdbRepository.Vdb().nextId) + |run.written|
  {
    var resultProcess;
    resultProcess, steps := ingestionService.IngestDocument(request.documentContent, request.title,
                                                            StringOr(request.documentType, DefaultDocumentType),
                                                            "recursive");
    response := ProcessResponse(resultProcess, queryId);
  }

  /** A title already stored gives 200 with status false, a new one 201 with status true,
      through the service's own existence test. */
  lemma ProcessStatusFollowsExistence(service: Ingestion.DocumentIngestionService, records: seq<Record>,
                                      request: ProcessDocumentRequest, queryId: string)
    ensures var run := service.Run(records, request.documentContent, request.title,
                                   StringOr(request.documentType, DefaultDocumentType), "recursive", None, None);
      var response := ProcessResponse(run.result, queryId);
      && (AnyMatch(records, Ingestion.TitleFilter(request.title)) ==>
            response == JsonResponse(Ok200, ProcessBody(queryId, false), map[]))
      && (!AnyMatch(records, Ingestion.TitleFilter(request.title)) && response.JsonResponse? ==>
            response == JsonResponse(Created201, ProcessBody(queryId, true), map[]))
  {
  }

  /** `{"results": [(document, score), ...]}`. */
  datatype VdbBody = VdbBody(results: seq<Scored>)

  /** `search_vdb`: an unknown title gives no results without a search; otherwise the
      repository's hits for the query, `k_results` and metadata filter, in order. A failing
      existence test is a 500. */
  function SearchVdb(request: SearchVectorDataBaseRequest, vdbRepo: Repository): (response: Response<VdbBody>)
    reads vdbRepo.Vdb()
    ensures ExistenceTestRaises(request.title, vdbRepo) ==>
      response == HttpError(InternalServerError500,
                            ErrorDetail("Error en búsqueda: ", ChromaRepository.NullWhereValueError))
    ensures !ExistenceTestRaises(request.title, vdbRepo) && !AnyMatch(vdbRepo.Vdb().records, TitleFilter(request.title)) ==>
      response == JsonResponse(Ok200, VdbBody([]), map[])
    ensures !ExistenceTestRaises(request.title, vdbRepo) && AnyMatch(vdbRepo.Vdb().records, TitleFilter(request.title)) ==>
      response == JsonResponse(Ok200, VdbBody(
        vdbRepo.SimilaritySearchWithScore(request.query, request.kResults, request.metadataFilter)), map[])
  {
    TitleFilterNull(request.title);
    match vdbRepo.CheckDocumentExists(TitleFilter(request.title))
    case Err(e) => HttpError(InternalServerError500, ErrorDetail("Error en búsqueda: ", e))
    case Ok(found) =>
      if !found then JsonResponse(Ok200, VdbBody([]), map[])
      else
        var vdbResults := vdbRepo.SimilaritySearchWithScore(request.query, request.kResults, request.metadataFilter);
        JsonResponse(Ok200, VdbBody(vdbResults), map[])
  }

  /** `{"query": ..., "result": ..., "source_documents": [...]}`. */
  datatype QaBody = QaBody(query: string, result: Option<string>, sourceDocuments: seq<Document>)

  /** `query_qa_chain`: an unknown title gives a null result and no sources without asking the
      service; otherwise the chain's query (or the request's when it has none), its result and
      its sources. Any exception, the existence test's included, becomes a 500. */
  function QueryQaChain(request: SearchVectorDataBaseRequest, qaService: QaService.QaService, vdbRepo: Repository)
    : (response: Response<QaBody>)
    reads vdbRepo.Vdb()
    ensures ExistenceTestRaises(request.title, vdbRepo) ==>
      response == HttpError(InternalServerError500,
                            ErrorDetail("Error en cadena QA: ", ChromaRepository.NullWhereValueError))
    ensures !ExistenceTestRaises(request.title, vdbRepo) && !AnyMatch(vdbRepo.Vdb().records, TitleFilter(request.title)) ==>
      response == JsonResponse(Ok200, QaBody(request.query, None, []), map[])
    ensures !ExistenceTestRaises(request.title, vdbRepo) && AnyMatch(vdbRepo.Vdb().records, TitleFilter(request.title)) ==>
      match qaService.AnswerQuestion(request.query, StringOr(request.documentType, DefaultDocumentType), request.kResults)
      case Err(e) => response == HttpError(InternalServerError500, ErrorDetail("Error en cadena QA: ", e))
      case Ok(qa) =>
        && response.JsonResponse? && response.statusCode == Ok200
        && response.body.query == (if qa.query.Some? then qa.query.value else request.query)
        && response.body.result == qa.result
        && response.body.sourceDocuments == (if qa.sourceDocuments.Some? then qa.sourceDocuments.value else [])
  {
    TitleFilterNull(request.title);
    match vdbRepo.CheckDocumentExists(TitleFilter(request.title))
    case Err(e) => HttpError(InternalServerError500, ErrorDetail("Error en cadena QA: ", e))
    case Ok(found) =>
      if !found then JsonResponse(Ok200, QaBody(request.query, None, []), map[])
      else
        match qaService.AnswerQuestion(request.query, StringOr(request.documentType, DefaultDocumentType), request.kResults)
        case Err(e) => HttpError(InternalServerError500, ErrorDetail("Error en cadena QA: ", e))
        case Ok(qaResult) =>
          JsonResponse(Ok200, QaBody(
            if qaResult.query.Some? then qaResult.query.value else request.query,
            qaResult.result,
            if qaResult.sourceDocuments.Some? then qaResult.sourceDocuments.value else []), map[])
  }

  /** `{"query": ..., "result": ...}`. */
  datatype RankedBody = RankedBody(query: string, result: Option<string>)

  /** `query_reranked_chain`: an unknown title gives a null result without asking the
      service; otherwise the request's query and the service's answer. Any exception, the
      existence test's included, becomes a 500. */
  function QueryRerankedChain(request: SearchVectorDataBaseRequest, rerankService: RerankService.RerankService,
                              vdbRepo: Repository): (response: Response<RankedBody>)
    reads vdbRepo.Vdb()
    ensures ExistenceTestRaises(request.title, vdbRepo) ==>
      response == HttpError(InternalServerError500,
                            ErrorDetail("Error en cadena rankeada: ", ChromaRepository.NullWhereValueError))
    ensures !ExistenceTestRaises(request.title, vdbRepo) && !AnyMatch(vdbRepo.Vdb().records, TitleFilter(request.title)) ==>
      response == JsonResponse(Ok200, RankedBody(request.query, None), map[])
    ensures !ExistenceTestRaises(request.title, vdbRepo) && AnyMatch(vdbRepo.Vdb().records, TitleFilter(request.title)) ==>
      match rerankService.AnswerQuestion(request.query, StringOr(request.documentType, DefaultDocumentType),
                                         request.kResults)
      case Err(e) => response == HttpError(InternalServerError500, ErrorDetail("Error en cadena rankeada: ", e))
      case Ok(answer) => response == JsonResponse(Ok200, RankedBody(request.query, Some(answer)), map[])
  {
    TitleFilterNull(request.title);
    match vdbRepo.CheckDocumentExists(TitleFilter(request.title))
    case Err(e) => HttpError(InternalServerError500, ErrorDetail("Error en cadena rankeada: ", e))
    case Ok(found) =>
      if !found then JsonResponse(Ok200, RankedBody(request.query, None), map[])
      else
        match rerankService.AnswerQuestion(request.query, StringOr(request.documentType, DefaultDocumentType),
                                           request.kResults)
        case Err(e) => HttpError(InternalServerError500, ErrorDetail("Error en cadena rankeada: ", e))
        case Ok(answer) => JsonResponse(Ok200, RankedBody(request.query, Some(answer)), map[])
  }

  /** Unknown titles, and titles whose existence test raises, never reach the answering
      services: any other services give the same responses. */
  lemma UnknownTitleSkipsServices(request: SearchVectorDataBaseRequest, vdbRepo: Repository,
                                  qaService: QaService.QaService, qaService': QaService.QaService,
                                  rerankService: RerankService.RerankService,
                                  rerankService': RerankService.RerankService)
    requires !AnyMatch(vdbRepo.Vdb().records, TitleFilter(request.title)) || ExistenceTestRaises(request.title, vdbRepo)
    ensures QueryQaChain(request, qaService, vdbRepo) == QueryQaChain(request, qaService', vdbRepo)
    ensures QueryRerankedChain(request, rerankService, vdbRepo) == QueryRerankedChain(request, rerankService', vdbRepo)
  {
  }

  /** A request without a title: with Chroma each of the three handlers answers 500 with its
      own prefix, since `get` refuses the filter `{"titulo": None}`. */
  lemma MissingTitleWithChroma(request: SearchVectorDataBaseRequest, qaService: QaService.QaService,
                               rerankService: RerankService.RerankService, vdbRepo: Repository)
    requires request.title.None? && vdbRepo.Chroma?
    ensures SearchVdb(request, vdbRepo).HttpError? && SearchVdb(request, vdbRepo).statusCode == InternalServerError500
    ensures QueryQaChain(request, qaService, vdbRepo)
         == HttpError(500, "Error en cadena QA: ValueError - " + ChromaRepository.NullWhereValueError.message)
    ensures QueryRerankedChain(request, rerankService, vdbRepo)
         == HttpError(500, "Error en cadena rankeada: ValueError - " + ChromaRepository.NullWhereValueError.message)
  {
    var e := ChromaRepository.NullWhereValueError;
    assert ErrorDetail("Error en cadena QA: ", e) == "Error en cadena QA: " + "ValueError" + " - " + e.message;
    assert "Error en cadena QA: " + "ValueError" + " - " == "Error en cadena QA: ValueError - ";
    assert ErrorDetail("Error en cadena rankeada: ", e) == "Error en cadena rankeada: " + "ValueError" + " - " + e.message;
    assert "Error en cadena rankeada: " + "ValueError" + " - " == "Error en cadena rankeada: ValueError - ";
  }

  /** With PGVector, whose filter compares a null value for equality, a request without a
      title looks for chunks whose `titulo` is null, which no page the text extractor makes
      has. */
  lemma MissingTitleMatchesNoPage(pages: seq<string>, title: string, documentType: string, i: int)
    requires 0 <= i < |pages|
    ensures !Matches(TextExtractor.Extracted(pages, title, documentType)[i].metadata, TitleFilter(None))
  {
    TextExtractor.ExtractedMetadata(pages, title, documentType, i);
    assert "titulo" in TitleFilter(None);
  }
}
