/** The decision logic of the `/documents` router: `ingest_document` (which writes through the
    ingestion service), `search_document` and `ask_question`. Request parsing, dependency
    injection and serialisation belong to the framework and are not modelled; a handler here
    takes the parsed request and its collaborators and yields the response it produces. */
module DocumentRouter {
  import opened Wrappers
  import opened Documents
  import opened VectorStore
  import opened Http
  import opened Repositories
  import DocumentRequest
  import SearchRequest
  import Ingestion
  import QaService
  import RerankService

  /** The document type the handlers use when the request does not give one. */
  const DefaultDocumentType: string := "documento-pdf"

  datatype DocumentIngestResponse = DocumentIngestResponse(documentId: string, title: string, status: string,
                                                           message: string)

  /** The arguments a handler passes to `ingest_document`. */
  datatype IngestArgs = IngestArgs(base64Content: string, title: string, documentType: string, splittingMethod: string)

  /** The answer of `ingest_document` once the existence test and (for a new title) the
      ingestion service have given their results; `documentId` stands for the fresh
      `uuid.uuid4()`. The service's boolean is not looked at. */
  function IngestResponse(documentExists: bool, serviceResult: Result<bool>, documentId: string, title: string)
    : (response: Response<DocumentIngestResponse>)
    ensures response.HttpError? <==> !documentExists && serviceResult.Err?
    ensures response.HttpError? ==>
      response == HttpError(InternalServerError500, ErrorDetail("Error ingesting document: ", serviceResult.error))
    ensures response.JsonResponse? ==>
      && response.statusCode == (if documentExists then Ok200 else Created201)
      && response.body.documentId == documentId && response.body.title == title
      && response.body.status == (if documentExists then "updated" else "created")
      && ("Location" in response.headers <==> !documentExists)
      && (!documentExists ==> response.headers["Location"] == "/api/v1/documents/" + documentId)
  {
    if documentExists then
      JsonResponse(Ok200, DocumentIngestResponse(documentId, title, "updated", "Document 'updated' successfully"), map[])
    else if serviceResult.Err? then
      HttpError(InternalServerError500, ErrorDetail("Error ingesting document: ", serviceResult.error))
    else
      JsonResponse(Created201, DocumentIngestResponse(documentId, title, "created", "Document 'created' successfully"),
                   map["Location" := "/api/v1/documents/" + documentId])
  }

  /** The status word of the body and the status code always agree: "created" is 201 and
      "updated" is 200, and the message repeats the word. */
  lemma IngestStatusAgrees(documentExists: bool, serviceResult: Result<bool>, documentId: string, title: string)
    ensures var response := IngestResponse(documentExists, serviceResult, documentId, title);
      response.JsonResponse? ==>
        && (response.body.status == "created" <==> response.statusCode == Created201)
        && (response.body.status == "updated" <==> response.statusCode == Ok200)
        && response.body.message == "Document '" + response.body.status + "' successfully"
  {
    var response := IngestResponse(documentExists, serviceResult, documentId, title);
    if documentExists {
      assert response.body.status == "updated";
      assert "Document '" + "updated" + "' successfully" == "Document 'updated' successfully";
    } else if serviceResult.Ok? {
      assert response.body.status == "created";
      assert "Document '" + "created" + "' successfully" == "Document 'created' successfully";
    }
  }

  /** `ingest_document`: the existence test on `{"titulo": title}`; for a new title, one call
      of the ingestion service with the request's content and title, its type or
      "documento-pdf", and the "recursive" method. The two share the application's one
      repository. `serviceCall` records the call to the service, if any. */
  method IngestDocument(request: DocumentRequest.DocumentIngestRequest,
                        ingestionService: Ingestion.DocumentIngestionService, vdbRepo: Repository, documentId: string)
    returns (response: Response<DocumentIngestResponse>, ghost serviceCall: Option<IngestArgs>)
    requires vdbRepo.Vdb() == ingestionService.vdbRepository.Vdb()
    requires vdbRepo.Vdb().Valid()
    modifies vdbRepo.Vdb()
    ensures vdbRepo.Vdb().Valid()
    ensures var existed := AnyMatch(old(vdbRepo.Vdb().records), Ingestion.TitleFilter(request.title));
      var documentType := StringOr(request.documentType, DefaultDocumentType);
      var run := ingestionService.Run(old(vdbRepo.Vdb().records), request.documentContent, request.title,
                                      documentType, "recursive", None, None);
      && response == IngestResponse(existed, run.result, documentId, request.title)
      && (existed ==> serviceCall == None && run.written == [])
      && (!existed ==> serviceCall == Some(IngestArgs(request.documentContent, request.title, documentType, "recursive")))
      && vdbRepo.Vdb().records == old(vdbRepo.Vdb().records) + Stamp(old(vdbRepo.Vdb().nextId), run.written)
      && vdbRepo.Vdb().nextId == old(vdbRepo.Vdb().nextId) + |run.written|
  {
    var found := vdbRepo.CheckDocumentExists(Ingestion.TitleFilter(request.title));
    assert found.Ok?;
    var documentExists := found.value;
    if documentExists {
      response := IngestResponse(true, Ok(false), documentId, request.title);
      serviceCall := None;
      return;
    }
    var documentType := StringOr(request.documentType, DefaultDocumentType);
    ghost var steps;
    var resultProcess;
    resultProcess, steps := ingestionService.IngestDocument(request.documentContent, request.title, documentType,
                                                            "recursive");
    serviceCall := Some(IngestArgs(request.documentContent, request.title, documentType, "recursive"));
    response := IngestResponse(false, resultProcess, documentId, request.title);
  }

  /** A request without `document_type` is ingested as "documento-pdf", not under the service's
      own default "documento_pdf". */
  lemma IngestDefaultDocumentType(request: DocumentRequest.DocumentIngestRequest)
    requires request.documentType == None
    ensures StringOr(request.documentType, DefaultDocumentType) == "documento-pdf"
    ensures StringOr(request.documentType, DefaultDocumentType) != Ingestion.DefaultDocumentType
  {
  }

  datatype SearchResultItem = SearchResultItem(content: string, score: real, metadata: Metadata)

  /** The body of `search_document`: `{"results": []}` for an unknown title, otherwise a
      `DocumentSearchResponse`. */
  datatype SearchBody =
    | EmptyResults
    | DocumentSearchResponse(query: string, results: seq<SearchResultItem>, totalResults: int)

  /** The exception `SearchResultItem` raises for a score outside [0, 1]. */
  function ScoreError(score: real): Exception
  {
    Exception("ValidationError", if score < 0.0 then "score: Input should be greater than or equal to 0"
                                 else "score: Input should be less than or equal to 1")
  }

  /** The items built from the repository's `(document, score)` pairs, in order; building one
      raises when its score is outside [0, 1]. */
  function SearchItems(results: seq<Scored>): (items: Result<seq<SearchResultItem>>)
    ensures items.Ok? <==> forall i :: 0 <= i < |results| ==> 0.0 <= results[i].score <= 1.0
    ensures items.Ok? ==> |items.value| == |results|
    ensures items.Ok? ==> forall i :: 0 <= i < |results| ==>
      items.value[i] == SearchResultItem(results[i].document.pageContent, results[i].score, results[i].document.metadata)
    decreases |results|
  {
    if |results| == 0 then Ok([])
    else
      var r := results[0];
      if !(0.0 <= r.score <= 1.0) then Err(ScoreError(r.score))
      else match SearchItems(results[1..])
        case Err(e) => Err(e)
        case Ok(rest) => Ok([SearchResultItem(r.document.pageContent, r.score, r.document.metadata)] + rest)
  }

  /** `search_document(document_id, request)`: an unknown title gives empty results without a
      search; otherwise the repository's hits for the query, `k_results` and metadata filter,
      in the repository's order, counted by `total_results`. */
  function SearchDocument(documentId: string, request: SearchRequest.DocumentSearchRequest, vdbRepo: Repository)
    : (response: Response<SearchBody>)
    reads vdbRepo.Vdb()
    ensures !AnyMatch(vdbRepo.Vdb().records, Ingestion.TitleFilter(documentId)) ==>
      response == JsonResponse(Ok200, EmptyResults, map[])
    ensures AnyMatch(vdbRepo.Vdb().records, Ingestion.TitleFilter(documentId)) ==>
      var results := vdbRepo.SimilaritySearchWithScore(request.query, Some(request.kResults),
                                                       Some(request.metadataFilter));
      match SearchItems(results)
      case Ok(items) =>
        response == JsonResponse(Ok200, DocumentSearchResponse(request.query, items, |results|), map[])
      case Err(e) => response == HttpError(InternalServerError500, ErrorDetail("Error searching document: ", e))
  {
    if !vdbRepo.CheckDocumentExists(Ingestion.TitleFilter(documentId)).value then
      JsonResponse(Ok200, EmptyResults, map[])
    else
      var vdbResults := vdbRepo.SimilaritySearchWithScore(request.query, Some(request.kResults),
                                                          Some(request.metadataFilter));
      match SearchItems(vdbResults)
      case Err(e) => HttpError(InternalServerError500, ErrorDetail("Error searching document: ", e))
      case Ok(searchItems) =>
        JsonResponse(Ok200, DocumentSearchResponse(request.query, searchItems, |searchItems|), map[])
  }

  /** The fields `DocumentSearchResponse` requires, all three declared without a default. */
  const SearchResponseFields: set<string> := {"query", "results", "total_results"}

  /** The top-level keys of the JSON a body serialises to. */
  function BodyKeys(body: SearchBody): set<string>
  {
    match body
    case EmptyResults => {"results"}
    case DocumentSearchResponse(_, _, _) => SearchResponseFields
  }

  /** The plain-text body of the framework's answer to an exception nobody handled. */
  const UnhandledErrorDetail: string := "Internal Server Error"

  /** What the client receives from a route declared with `response_model=DocumentSearchResponse`:
      a returned body is validated against the model after the handler has returned, and a
      body missing a required field raises `ResponseValidationError`, which no handler catches
      and the server answers with a plain 500. An `HTTPException` is answered as raised. */
  function Served(response: Response<SearchBody>): (served: Response<SearchBody>)
    ensures served == response <==> response.HttpError? || SearchResponseFields <= BodyKeys(response.body)
    ensures served != response ==> served == HttpError(InternalServerError500, UnhandledErrorDetail)
  {
    if response.JsonResponse? && !(SearchResponseFields <= BodyKeys(response.body)) then
      HttpError(InternalServerError500, UnhandledErrorDetail)
    else response
  }

  /** As written, the unknown-title branch returns a body without `query` and `total_results`:
      the client gets the framework's plain 500, neither the handler's 200 nor a 404. */
  lemma UnknownTitleSearchIsServerError(documentId: string, request: SearchRequest.DocumentSearchRequest,
                                        vdbRepo: Repository)
    requires !AnyMatch(vdbRepo.Vdb().records, Ingestion.TitleFilter(documentId))
    ensures "query" !in BodyKeys(SearchDocument(documentId, request, vdbRepo).body)
    ensures "total_results" !in BodyKeys(SearchDocument(documentId, request, vdbRepo).body)
    ensures Served(SearchDocument(documentId, request, vdbRepo)) == HttpError(InternalServerError500, UnhandledErrorDetail)
  {
  }

  /** `search_document` as its route declaration, `ask_question` and the router's tests have
      it: an unknown title is a 404 "Document '<id>' not found" (re-raised past the generic
      handler as `ask_question` does); a known title is searched as before. */
  function IntendedSearchDocument(documentId: string, request: SearchRequest.DocumentSearchRequest,
                                  vdbRepo: Repository): (response: Response<SearchBody>)
    reads vdbRepo.Vdb()
    ensures response == HttpError(NotFound404, "Document '" + documentId + "' not found")
      <==> !AnyMatch(vdbRepo.Vdb().records, Ingestion.TitleFilter(documentId))
    ensures AnyMatch(vdbRepo.Vdb().records, Ingestion.TitleFilter(documentId)) ==>
      response == SearchDocument(documentId, request, vdbRepo)
    ensures Served(response) == response
  {
    if !vdbRepo.CheckDocumentExists(Ingestion.TitleFilter(documentId)).value then
      HttpError(NotFound404, "Document '" + documentId + "' not found")
    else
      SearchDocument(documentId, request, vdbRepo)
  }

  /** For a request that passed validation, a search returns at most `k_results` hits, each
      passing the metadata filter the repository used. */
  lemma SearchReturnsAtMostK(documentId: string, request: SearchRequest.DocumentSearchRequest, vdbRepo: Repository)
    requires SearchRequest.MinKResults <= request.kResults <= SearchRequest.MaxKResults
    ensures var response := IntendedSearchDocument(documentId, request, vdbRepo);
      response.JsonResponse? ==>
        && response.body.DocumentSearchResponse?
        && response.body.totalResults == |response.body.results| <= request.kResults
        && forall i :: 0 <= i < |response.body.results| ==>
             Matches(response.body.results[i].metadata,
                     vdbRepo.SearchArgs(request.query, Some(request.kResults), Some(request.metadataFilter), None).filter)
  {
    var results := vdbRepo.SimilaritySearchWithScore(request.query, Some(request.kResults), Some(request.metadataFilter));
    var call := vdbRepo.SearchArgs(request.query, Some(request.kResults), Some(request.metadataFilter), None);
    assert call.k == request.kResults;
  }

  datatype SourceDocument = SourceDocument(pageContent: string, metadata: Metadata, score: Option<real>)

  datatype QuestionAnswerResponse = QuestionAnswerResponse(
    question: string,
    answer: Option<string>,
    documentId: string,
    strategy: string,
    sourceDocuments: seq<SourceDocument>)

  /** The sources of a standard answer: each document of the chain's `source_documents`, in
      order, without a score. */
  function Sources(documents: seq<Document>): (sources: seq<SourceDocument>)
    ensures |sources| == |documents|
    ensures forall i :: 0 <= i < |documents| ==>
      sources[i] == SourceDocument(documents[i].pageContent, documents[i].metadata, None)
  {
    seq(|documents|, i requires 0 <= i < |documents| => SourceDocument(documents[i].pageContent, documents[i].metadata, None))
  }

  /** What `ask_question` answers once the title is known to exist: the strategy picks the
      service, asked about "documento-pdf" with the request's question and `k_results`, and any
      exception of a service becomes a 500. */
  function AnswerResponse(documentId: string, request: SearchRequest.QuestionRequest,
                          qaService: QaService.QaService, rerankService: RerankService.RerankService)
    : (response: Response<QuestionAnswerResponse>)
    ensures response.JsonResponse? ==>
      && response.statusCode == Ok200
      && response.body.question == request.question && response.body.documentId == documentId
      && response.body.strategy == request.strategy.Name()
    ensures response.HttpError? ==> response.statusCode == InternalServerError500
    ensures request.strategy == SearchRequest.Rerank ==>
      var answer := rerankService.AnswerQuestion(request.question, DefaultDocumentType, Some(request.kResults));
      answer.Err? ==> response == HttpError(InternalServerError500, ErrorDetail("Error answering question: ", answer.error))
    ensures request.strategy == SearchRequest.Standard ==>
      var qa := qaService.AnswerQuestion(request.question, DefaultDocumentType, Some(request.kResults));
      qa.Err? ==> response == HttpError(InternalServerError500, ErrorDetail("Error answering question: ", qa.error))
  {
    if request.strategy == SearchRequest.Rerank then
      match rerankService.AnswerQuestion(request.question, DefaultDocumentType, Some(request.kResults))
      case Err(e) => HttpError(InternalServerError500, ErrorDetail("Error answering question: ", e))
      case Ok(answer) =>
        JsonResponse(Ok200, QuestionAnswerResponse(request.question, Some(answer), documentId, "rerank", []), map[])
    else
      match qaService.AnswerQuestion(request.question, DefaultDocumentType, Some(request.kResults))
      case Err(e) => HttpError(InternalServerError500, ErrorDetail("Error answering question: ", e))
      case Ok(qaResult) =>
        var sourceDocs := Sources(if qaResult.sourceDocuments.Some? then qaResult.sourceDocuments.value else []);
        JsonResponse(Ok200, QuestionAnswerResponse(request.question, qaResult.result, documentId, "standard", sourceDocs),
                     map[])
  }

  /** `ask_question(document_id, request)`: an unknown title is a 404, raised before either
      service is asked and passed on as it is; otherwise the answer of `AnswerResponse`, so a
      404 never comes from an existing title. */
  function AskQuestion(documentId: string, request: SearchRequest.QuestionRequest,
                       qaService: QaService.QaService, rerankService: RerankService.RerankService,
                       vdbRepo: Repository): (response: Response<QuestionAnswerResponse>)
    reads vdbRepo.Vdb()
    ensures !AnyMatch(vdbRepo.Vdb().records, Ingestion.TitleFilter(documentId)) ==>
      response == HttpError(NotFound404, "Document '" + documentId + "' not found")
    ensures AnyMatch(vdbRepo.Vdb().records, Ingestion.TitleFilter(documentId)) ==>
      response == AnswerResponse(documentId, request, qaService, rerankService)
    ensures response.HttpError? && response.statusCode == NotFound404 ==>
      !AnyMatch(vdbRepo.Vdb().records, Ingestion.TitleFilter(documentId))
  {
    if !vdbRepo.CheckDocumentExists(Ingestion.TitleFilter(documentId)).value then
      HttpError(NotFound404, "Document '" + documentId + "' not found")
    else
      AnswerResponse(documentId, request, qaService, rerankService)
  }

  /** An unknown title is answered without consulting either service: any other pair of
      services gives the same 404. */
  lemma UnknownTitleSkipsServices(documentId: string, request: SearchRequest.QuestionRequest,
                                  qaService: QaService.QaService, rerankService: RerankService.RerankService,
                                  qaService': QaService.QaService, rerankService': RerankService.RerankService,
                                  vdbRepo: Repository)
    requires !AnyMatch(vdbRepo.Vdb().records, Ingestion.TitleFilter(documentId))
    ensures AskQuestion(documentId, request, qaService, rerankService, vdbRepo)
         == AskQuestion(documentId, request, qaService', rerankService', vdbRepo)
  {
  }

  /** With the rerank strategy the answer is the service's string, unchanged, with no sources;
      a failure of the service is a 500 naming its exception. */
  lemma RerankAnswer(documentId: string, request: SearchRequest.QuestionRequest,
                     qaService: QaService.QaService, rerankService: RerankService.RerankService, vdbRepo: Repository)
    requires AnyMatch(vdbRepo.Vdb().records, Ingestion.TitleFilter(documentId))
    requires request.strategy == SearchRequest.Rerank
    ensures var answer := rerankService.AnswerQuestion(request.question, "documento-pdf", Some(request.kResults));
      var response := AskQuestion(documentId, request, qaService, rerankService, vdbRepo);
      && (answer.Ok? ==> response.JsonResponse? && response.body.answer == Some(answer.value)
                         && response.body.sourceDocuments == [])
      && (answer.Err? ==> response == HttpError(500, "Error answering question: " + answer.error.name + " - "
                                                      + answer.error.message))
  {
  }

  /** With the standard strategy the answer is the chain's `result` and the sources are its
      `source_documents`, same number and order, each without a score. */
  lemma StandardAnswer(documentId: string, request: SearchRequest.QuestionRequest,
                       qaService: QaService.QaService, rerankService: RerankService.RerankService, vdbRepo: Repository)
    requires AnyMatch(vdbRepo.Vdb().records, Ingestion.TitleFilter(documentId))
    requires request.strategy == SearchRequest.Standard
    requires qaService.AnswerQuestion(request.question, "documento-pdf", Some(request.kResults)).Ok?
    ensures var qa := qaService.AnswerQuestion(request.question, "documento-pdf", Some(request.kResults)).value;
      var documents := if qa.sourceDocuments.Some? then qa.sourceDocuments.value else [];
      var response := AskQuestion(documentId, request, qaService, rerankService, vdbRepo);
      && response.JsonResponse?
      && response.body.answer == qa.result
      && |response.body.sourceDocuments| == |documents|
      && forall i :: 0 <= i < |documents| ==>
           && response.body.sourceDocuments[i].pageContent == documents[i].pageContent
           && response.body.sourceDocuments[i].metadata == documents[i].metadata
           && response.body.sourceDocuments[i].score == None
  {
  }
}
