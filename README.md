# rag-docs, modelled in Dafny

rag-docs is a retrieval-augmented question-answering microservice over PDF documents. A
client uploads a PDF as base64 under a title. The service decodes it and extracts one
LangChain `Document` per page, tagged with `titulo`, `tipo_documento` and `pagina`. It splits
the pages into chunks and writes the chunks to a vector store, either Chroma or PGVector.
Afterwards the client can run similarity searches over the chunks of a title, or ask
questions. Questions are answered by a "stuff" `RetrievalQA` chain (the standard strategy) or
by a chain whose retriever is reranked by Cohere (the rerank strategy).

This project models the decision logic of that core:

- request validation, including strict base64 checking;
- page extraction and its metadata;
- the choice of splitter;
- the two repositories and the store they share;
- the ingestion pipeline;
- the two answering services;
- the HTTP handlers of both API generations: the `/api/v1/documents` router and the older
  process-document controller.

The older controller imports its providers from `app/core/dependencies.py`, where they exist
only as commented-out stubs. The model wires it to the providers of
`backend/app/core/dependencies.py` instead, which give Chroma or PGVector as configured.

Each module follows one source file:

- `Wrappers`: `Option`, `Result`, raised exceptions, Python's `x or default`, pydantic field
  errors.
- `Documents`: metadata values and `Document`.
- `Config`: the settings the core reads, `get_vector_size`.
- `Base64`: standard base64 and the strict decoder `b64decode(..., validate=True)`.
- `DocumentRequest`, `SearchRequest`: the request models and their validation.
- `TextExtractor`: `PDFTextExtractor.extract_with_metadata`, an imperative loop.
- `TextSplitter`: `TextSplitterFactory.create_splitter`.
- `VectorStore`: the LangChain store, as a class holding the stored records and the id
  counter.
- `ChromaRepository`, `PgVectorRepository`: the two repositories.
- `Repositories`: whichever of the two the application was configured with.
- `Ingestion`: `DocumentIngestionService.ingest_document`, a method on the shared store, proved
  against the specification function `Run`.
- `QaService`, `RerankService`: the two `answer_question` operations.
- `Http`, `DocumentRouter`, `ProcessDocumentController`: the handlers.

Collaborators that cannot be seen from the code are parameters of the model:

- the PDF loader;
- the splitter's `split_documents`;
- the store's relevance score (it stands for the embeddings);
- the chains' `invoke`, which stands for the language model and the Cohere reranker;
- the fresh `uuid4`.

## Model

| member | source | states |
|---|---|---|
| Config.GetVectorSize | backend/app/core/config.py:81-96 | the size is one of 768, 1536, 3072; a model missing from the table gives 768 |
| Config.KnownModelSizes | backend/app/core/config.py:82-88 | each known embeddings model gets its own dimension |
| Config.VectorSizeFollowsSelectedModel | backend/app/core/config.py:90-96 | with `local_llm` only the Ollama model decides the size; otherwise only the OpenAI model does |
| Config.DefaultVectorSize | backend/app/core/config.py:14 | out of the box the vector size is 1536 |
| Wrappers.IntOr | backend/app/services/rag/qa_service.py:49 | `k or default`: the value itself when it is present and non-zero, else the default |
| Wrappers.StringOr | backend/app/services/rag/qa_service.py:50 | `s or default`: the value itself when it is present and non-empty, else the default |
| Wrappers.DictOr | app/infrastructure/vector_db/repository.py:53-54 | `d or default`: the value itself when it is present and non-empty, else the default |
| Base64.DecodeAcceptsExactlyWellFormed | backend/app/models/requests/document_request.py:19 | strict decoding succeeds exactly on strings of whole four-character groups of the alphabet in which only the last group may end in one or two `=` |
| Base64.ExcessPaddingRejected | backend/app/models/requests/document_request.py:19 | one or two `=` after a complete group of four make strict decoding fail |
| Base64.ExcessPaddingExample | backend/app/models/requests/document_request.py:19 | `QUJD` decodes to `ABC`, while `QUJD=` and `QUJD==` are refused |
| Base64.RejectsForeignCharacter | backend/app/models/requests/document_request.py:19 | one character outside the alphabet and `=`, anywhere, makes strict decoding fail |
| Base64.DecodeEncode | backend/app/models/requests/document_request.py:19 | decoding the standard encoding of any byte string gives it back |
| Base64.EncodeWellFormed | backend/app/models/requests/document_request.py:19 | every standard encoding is accepted, and is four characters per started triple |
| DocumentRequest.ValidateBase64 | backend/app/models/requests/document_request.py:15-22 | the content comes back unchanged exactly when it is well-formed base64; otherwise a ValueError "Invalid base64 encoding" |
| DocumentRequest.ContentErrors | backend/app/models/requests/document_request.py:13-22 | `document_content` is reported exactly when it is missing or is not valid base64 |
| DocumentRequest.NewDocumentIngestRequest | backend/app/models/requests/document_request.py:7-22 | the body is valid iff title and content are present and the content is valid base64; an absent `document_type` becomes "documento-pdf" and an explicit null stays null; each failing field is reported |
| DocumentRequest.EncodedContentAccepted | backend/app/models/requests/document_request.py:9-22 | the base64 encoding of any file is accepted unchanged, typed "documento-pdf" |
| DocumentRequest.DashedContentRejected | backend/app/models/requests/document_request.py:18-22 | "not-valid-base64!!!" is refused with the validator's message |
| SearchRequest.ParseStrategy | backend/app/models/requests/search_request.py:14-16 | only "standard" and "rerank" name a strategy, and the strategy gives its literal back |
| SearchRequest.KResultsErrors | backend/app/models/requests/search_request.py:8 | `k_results` is reported exactly when it is given outside 1..10 |
| SearchRequest.NewDocumentSearchRequest | backend/app/models/requests/search_request.py:6-9 | valid iff the query is present and `k_results` is absent or within 1..10; the defaults are 4 and `{}`; a missing query and an out-of-range `k_results` are reported |
| SearchRequest.QuestionErrors | backend/app/models/requests/search_request.py:13 | `question` is reported exactly when it is missing or empty |
| SearchRequest.StrategyErrors | backend/app/models/requests/search_request.py:14-16 | `strategy` is reported exactly when it is given and is not one of the two literals |
| SearchRequest.NewQuestionRequest | backend/app/models/requests/search_request.py:12-18 | valid iff the question is non-empty, the strategy is allowed and `k_results` is within 1..10; given values are kept, the defaults are "standard", 4 and `{}`; each failing field, `k_results` included, is reported |
| TextExtractor.ExtractWithMetadata | backend/app/services/document/text_extractor.py:11-52 | the loop builds exactly `Extracted`: one record per page, record i holding page i's text and page number i |
| TextExtractor.ExtractedRecords | backend/app/services/document/text_extractor.py:30-50 | record i is page i's text verbatim, empty pages included, with the metadata of page i |
| TextExtractor.ExtractedMetadata | backend/app/services/document/text_extractor.py:43-47 | every record's metadata has exactly the keys `titulo`, `tipo_documento` and `pagina`, holding the given title and type |
| TextExtractor.ExtractedPagesIncrease | backend/app/services/document/text_extractor.py:30 | page numbers strictly increase in record order |
| TextSplitter.TextSplitterFactory.CreateSplitter | app/services/document/text_splitter.py:18-57 | succeeds iff the method is "semantic", or "recursive" with an overlap no larger than the size; semantic gives the gradient chunker; a larger overlap is LangChain's ValueError naming both numbers; any other method is a ValueError with the source's message |
| TextSplitter.SemanticIgnoresSizes | app/services/document/text_splitter.py:38-43 | the semantic chunker does not depend on the size and overlap given |
| TextSplitter.RecursiveSizes | app/services/document/text_splitter.py:45-54 | the recursive splitter uses a given non-zero size and overlap, and the settings' defaults otherwise; it is built exactly when the resolved overlap does not exceed the resolved size |
| TextSplitter.ZeroMeansDefault | app/services/document/text_splitter.py:47-48 | a size or overlap of 0 builds the same splitter as leaving it out |
| TextSplitter.DefaultIsRecursive | app/services/document/text_splitter.py:18-23 | without arguments the recursive splitter is built, with 800 and 50 under the default settings |
| TextSplitter.SmallChunkSizeRejected | app/services/document/text_splitter.py:45-54 | under the default settings a chunk size of 30 with the default overlap of 50 is refused, the message naming 50 and 30 |
| TextSplitter.UnknownMethodRejected | app/services/document/text_splitter.py:56-57 | any other method string, "Semantic" or "" included, is refused with "Invalid splitting method: ..." |
| VectorStore.GetIds | app/infrastructure/vector_db/repository.py:72-73 | `get(where=...)` finds some id exactly when some stored record's metadata passes the filter |
| VectorStore.FirstSelected | backend/app/infrastructure/vector_db/pgvector_repository.py:89-94 | a search finds at most k records, each passing the filter and the document condition; it finds some exactly when k > 0 and some record passes |
| VectorStore.Store.AddDocuments | app/infrastructure/vector_db/repository.py:42-43 | the documents are appended unchanged and in order under fresh ids, which are returned; the store's invariant (ids distinct and issued) is kept |
| VectorStore.Store.SimilaritySearch | backend/app/infrastructure/vector_db/pgvector_repository.py:89-93 | for k > 0, the hits are non-empty exactly when some record passes the filter; every hit passes it |
| VectorStore.Store.SimilaritySearchWithScore | app/infrastructure/vector_db/repository.py:56-61 | at most k hits, each passing the filter and the `where_document` condition, non-empty exactly when some record does |
| VectorStore.StampedMatch | backend/app/services/ingest/ingestion.py:69 | once a document passing a filter is written, the store holds a match for that filter |
| VectorStore.AnySelectedAppend | app/infrastructure/vector_db/repository.py:42-43 | a match in a grown store is a match in the old records or in the new ones |
| ChromaRepository.VectorDbRepository.AddDocuments | app/infrastructure/vector_db/repository.py:42-43 | the list reaches the store unchanged and the store's ids come back |
| ChromaRepository.VectorDbRepository.SearchArgs | app/infrastructure/vector_db/repository.py:53-60 | a missing or falsy filter becomes `{"tipo-documento": "documento-pdf"}`, `where_document` becomes `{"$contains": " "}`, and k falls back to `default_k_results` |
| ChromaRepository.VectorDbRepository.SimilaritySearchWithScore | app/infrastructure/vector_db/repository.py:45-61 | at most k hits under the defaulted arguments, each passing the filter and the content condition |
| ChromaRepository.VectorDbRepository.AsRetriever | app/infrastructure/vector_db/repository.py:63-68 | a retriever over the repository's store, with the given search type and the kwargs or `{}` |
| ChromaRepository.VectorDbRepository.CheckDocumentExists | app/infrastructure/vector_db/repository.py:70-73 | a filter with a null value is refused with Chroma's ValueError, and nothing else is; otherwise true exactly when some stored chunk's metadata passes the filter |
| ChromaRepository.DefaultFilterMissesExtractedPages | app/infrastructure/vector_db/repository.py:53 | the hyphenated default filter matches no page the text extractor produces |
| PgVectorRepository.PgVectorDbRepository.AddDocuments | backend/app/infrastructure/vector_db/pgvector_repository.py:55-56 | the list reaches the store unchanged and the store's ids come back |
| PgVectorRepository.PgVectorDbRepository.SearchArgs | backend/app/infrastructure/vector_db/pgvector_repository.py:67-75 | a missing or falsy filter becomes `{"tipo_documento": "documento-pdf"}`, `where_document` is passed on as given, and k falls back to `default_k_results` |
| PgVectorRepository.PgVectorDbRepository.SimilaritySearchWithScore | backend/app/infrastructure/vector_db/pgvector_repository.py:58-76 | at most k hits under the defaulted arguments, each passing the filter and the given content condition |
| PgVectorRepository.PgVectorDbRepository.AsRetriever | backend/app/infrastructure/vector_db/pgvector_repository.py:78-83 | a retriever over the repository's store, with the given search type and the kwargs or `{}` |
| PgVectorRepository.PgVectorDbRepository.CheckDocumentExists | backend/app/infrastructure/vector_db/pgvector_repository.py:85-94 | a one-result search for "" finds something exactly when some stored chunk passes the title filter |
| PgVectorRepository.DefaultFilterSelectsPdfPages | backend/app/infrastructure/vector_db/pgvector_repository.py:67 | the default filter matches an extracted page exactly when it was typed "documento-pdf" |
| Repositories.Repository.CheckDocumentExists | backend/app/core/dependencies.py:56-66 | the existence test raises exactly for Chroma and a filter with a null value; when it answers, existence means that some stored chunk passes the filter |
| Repositories.Repository.SimilaritySearchWithScore | backend/app/core/dependencies.py:56-66 | whichever backend is configured, at most k hits, each passing that backend's defaulted filter |
| Repositories.Repository.AsRetriever | backend/app/core/dependencies.py:56-66 | whichever backend is configured, a retriever over its store with the kwargs or `{}` |
| Repositories.Repository.AddDocuments | backend/app/core/dependencies.py:56-66 | whichever backend is configured, the documents are appended to its store under fresh ids |
| Repositories.BackendsAgreeOnExistence | backend/app/core/dependencies.py:59-66 | over the same records the two backends give the same existence answer, except that Chroma raises on a null condition where PGVector answers |
| Ingestion.DocumentIngestionService.IngestDocument | backend/app/services/ingest/ingestion.py:19-72 | outcome and calls are those of `Run` on the store as it was, and the store gains exactly the written chunks, stamped with fresh ids |
| Ingestion.DocumentIngestionService.ExistingTitleIsNoOp | backend/app/services/ingest/ingestion.py:43-45 | an already stored title gives false after the one existence test, and nothing is written |
| Ingestion.DocumentIngestionService.CallsInOrder | backend/app/services/ingest/ingestion.py:43-69 | every run starts with the existence test on `{"titulo": title}`, then makes load, extract, splitter, split and write in that order, each at most once |
| Ingestion.DocumentIngestionService.WritesExactlyTheSplit | backend/app/services/ingest/ingestion.py:48-72 | the result is true exactly when the title is new and every stage succeeds; then exactly the split chunks are written, and otherwise nothing is |
| Ingestion.DocumentIngestionService.FailuresPropagate | backend/app/services/ingest/ingestion.py:48-65 | a failure of the loader, the factory or the splitter is raised as it is, after the calls made up to that stage, and nothing is written |
| Ingestion.DocumentIngestionService.SecondIngestIsNoOp | backend/app/services/ingest/ingestion.py:43-45 | after a run that wrote a chunk carrying the title, ingesting the same title again is a no-op returning false |
| Ingestion.ExtractedPagesCarryTitle | backend/app/services/document/text_extractor.py:43-47 | every extracted page passes the existence filter of its own title |
| QaService.FilterSelectsDocumentType | backend/app/services/rag/qa_service.py:57-61 | the retriever's filter passes exactly the chunks whose `tipo_documento` is the requested type |
| QaService.SearchKwargsKeys | backend/app/services/rag/qa_service.py:57-61 | the search kwargs are exactly k, the type filter and the "contains a space" condition |
| QaService.FilterSelectsExtractedPages | backend/app/services/rag/qa_service.py:57-61 | the filter lets through an extracted page exactly when it was extracted under the requested type |
| QaService.QaService.Chain | backend/app/services/rag/qa_service.py:49-75 | a similarity retriever over the repository's store with k or its default; a "stuff" chain returning its sources; the custom prompt or the default one |
| QaService.QaService.AnswerQuestion | backend/app/services/rag/qa_service.py:29-82 | the chain is invoked once with `{"query": query}` and its answer or exception is returned; an answer without sources becomes a KeyError |
| QaService.FalsyArgumentsUseDefaults | backend/app/services/rag/qa_service.py:49-50 | a `k_results` of 0 and an empty prompt give the same answer as leaving them out |
| RerankService.FilterSelectsDocumentType | app/services/rag/rerank_service.py:64-71 | the base retriever's filter passes exactly the chunks whose `tipo-documento` is the requested type |
| RerankService.FilterMissesExtractedPages | app/services/rag/rerank_service.py:64-71 | because of that spelling, the filter passes no page the text extractor produces |
| RerankService.RerankService.Chain | app/services/rag/rerank_service.py:54-94 | a similarity base retriever with k or its default, a Cohere reranker keeping `top_n` or its default with the configured model, and the custom prompt or the default one |
| RerankService.RerankService.AnswerQuestion | app/services/rag/rerank_service.py:31-100 | the chain is invoked once with the raw query, and its answer string or exception is returned |
| RerankService.DefaultRerankConfiguration | app/services/rag/rerank_service.py:54-56 | under the default settings the reranker keeps 3 of 4 retrieved chunks with "rerank-v3.5" |
| RerankService.FalsyArgumentsUseDefaults | app/services/rag/rerank_service.py:54-56 | a `k_results`, `rerank_top_n` of 0 and an empty prompt give the same answer as leaving them out |
| Http.ErrorDetailShape | backend/app/api/routers/v1/document.py:70-76 | a 500's detail is the handler's prefix, the exception's type name, " - ", and its message |
| DocumentRouter.IngestResponse | backend/app/api/routers/v1/document.py:53-76 | an existing title gives 200 "updated"; a new one 201 "created" with a `Location` header; a failure of the service for a new title gives 500 "Error ingesting document: ..." |
| DocumentRouter.IngestStatusAgrees | backend/app/api/routers/v1/document.py:53-68 | "created" always goes with 201 and "updated" with 200, and the message repeats the word |
| DocumentRouter.IngestDocument | backend/app/api/routers/v1/document.py:30-76 | the existence test first; for a new title, exactly one service call with the request's content and title, its type or "documento-pdf", and "recursive"; the response and store update follow from those, and the id counter advances by the chunks written |
| DocumentRouter.IngestDefaultDocumentType | backend/app/api/routers/v1/document.py:46-51 | a request without a type is ingested as "documento-pdf", not under the service's default "documento_pdf" |
| DocumentRouter.SearchItems | backend/app/models/responses/search_response.py:6-10 | the items mirror the hits in order, and building them fails exactly when some score lies outside [0, 1] |
| DocumentRouter.SearchDocument | backend/app/api/routers/v1/document.py:89-128 | the handler's own return value: an unknown title gives the bare `{"results": []}` with status 200, without a search; otherwise the hits for the query, `k_results` and filter, counted by `total_results`; a failure is a 500 |
| DocumentRouter.Served | backend/app/api/routers/v1/document.py:79-82 | a returned body lacking a field that `DocumentSearchResponse` requires becomes the framework's plain 500, and every other response reaches the client unchanged |
| DocumentRouter.UnknownTitleSearchIsServerError | backend/app/api/routers/v1/document.py:96-97 | for an unknown title the returned body has no `query` and no `total_results`, so the client receives a 500 |
| DocumentRouter.IntendedSearchDocument | backend/app/api/routers/v1/document.py:85-97 | the corrected handler: a 404 "Document '<id>' not found" exactly for an unknown title, the handler's search otherwise, and every response passes the response model |
| DocumentRouter.SearchReturnsAtMostK | backend/app/api/routers/v1/document.py:100-120 | under the corrected handler, a validated request returns at most `k_results` hits, each passing the filter the repository used |
| DocumentRouter.Sources | backend/app/api/routers/v1/document.py:179-186 | one source per returned document, in order, with its content and metadata and no score |
| DocumentRouter.AskQuestion | backend/app/api/routers/v1/document.py:141-204 | an unknown title is a 404 "Document '<id>' not found", and only an unknown title is; a known title is answered by `AnswerResponse` |
| DocumentRouter.AnswerResponse | backend/app/api/routers/v1/document.py:156-204 | a 200 echoes the question, the id and the strategy; a failure of either service is a 500 "Error answering question: ..." naming the exception, and no other 500 arises |
| DocumentRouter.UnknownTitleSkipsServices | backend/app/api/routers/v1/document.py:150-153 | an unknown title is answered without either service |
| DocumentRouter.RerankAnswer | backend/app/api/routers/v1/document.py:156-170 | with the rerank strategy the answer is the service's string with no sources; its failure is a 500 naming the exception |
| DocumentRouter.StandardAnswer | backend/app/api/routers/v1/document.py:171-194 | with the standard strategy the answer is the chain's `result` and the sources are its documents, same number and order, without scores |
| ProcessDocumentController.ProcessResponse | app/api/controllers/process_document_controller.py:30-43 | 201 when the service stored the document, 200 when it did not, both echoing `query_id` and the status; a failure is a 500 "Error procesando documento: ..." |
| ProcessDocumentController.ProcessDocument | app/api/controllers/process_document_controller.py:14-43 | exactly one service call, with the request's type or "documento-pdf" and "recursive"; the response and store update follow from that run, and the id counter advances by the chunks written |
| ProcessDocumentController.ProcessStatusFollowsExistence | app/api/controllers/process_document_controller.py:23-35 | a stored title gives 200 with status false; a new one that succeeds gives 201 with status true |
| ProcessDocumentController.SearchVdb | app/api/controllers/process_document_controller.py:46-74 | with Chroma, a missing title is a 500 "Error en búsqueda: ValueError - ..."; otherwise an unknown title gives no results without a search, and a known one the repository's hits for the query, k and filter |
| ProcessDocumentController.QueryQaChain | app/api/controllers/process_document_controller.py:77-112 | with Chroma, a missing title is a 500 from the existence test; otherwise an unknown title gives a null result and no sources without asking the service, and a known one the chain's query (or the request's), result and sources; a failure is a 500 "Error en cadena QA: ..." |
| ProcessDocumentController.QueryRerankedChain | app/api/controllers/process_document_controller.py:115-147 | with Chroma, a missing title is a 500 from the existence test; otherwise an unknown title gives a null result without asking the service, and a known one the request's query and the service's answer; a failure is a 500 "Error en cadena rankeada: ..." |
| ProcessDocumentController.UnknownTitleSkipsServices | app/api/controllers/process_document_controller.py:82-90 | unknown titles, and missing titles under Chroma, never reach the answering services |
| ProcessDocumentController.MissingTitleMatchesNoPage | app/api/controllers/process_document_controller.py:53 | with PGVector, a request without a title looks for a null `titulo`, which no extracted page has |
| ProcessDocumentController.MissingTitleWithChroma | app/api/controllers/process_document_controller.py:46-147 | with Chroma, a request without a title makes each of the three search handlers answer 500 with its own prefix and Chroma's ValueError |

## Left out

- PDF parsing (`fitz`) and `PDFLoader.load_from_base64` are not modelled. The loader is a parameter of the ingestion service, and an opened PDF is the sequence of its page texts.
- The actual splitting of text (`split_documents`) is not modelled. It is a parameter, so chunk sizes are chosen but never checked against chunk contents.
- Embeddings and similarity ranking are not modelled. A search returns the first k matching records in store order, and each score comes from a relevance function given to the store. Chroma's `$contains` is the only `where_document` operator modelled, and `$eq` or a bare value the only metadata operators.
- The language model, the Cohere reranker and the LangChain chains are left out. Each service is given its chain's `invoke` as a function. The Cohere API key and the prompt file are not modelled either.
- Connection and database exceptions of the stores are not modelled, so add and search never raise, and `get` raises only on a null filter value (below). As a result, the "Error en búsqueda: " 500 of `search_vdb` arises only from a missing title under Chroma. The "Error searching document: " 500 of the router arises only from the score validation of `SearchResultItem`.
- `uuid4` is a parameter of the handlers. Store ids are a counter.
- FastAPI's response-model validation is modelled only for `search_document` (`DocumentRouter.Served`). There it turns the handler's bare `{"results": []}` for an unknown title into a plain 500, while the router's unit test expects a 404. `DocumentRouter.SearchDocument` states the handler's return value as written, and `DocumentRouter.IntendedSearchDocument` is the corrected handler (see "## Findings").
- The router passes its filter to `similarity_search_with_score` as `metadata_filter=`, and the legacy controller passes it as `filter=`. Each repository spells only one of these keywords. Repositories.Repository.SimilaritySearchWithScore passes the filter by position to whichever backend is configured, so the mismatch (a TypeError on the other backend) is not modelled.
- The router module's own Chroma repository (`backend/app/infrastructure/vector_db/repository.py`) is not part of this model. Its Chroma backend is the one in `app/infrastructure/vector_db/repository.py`.
- Pydantic's error messages are abbreviated. Only the field, the error kind and a short message are modelled.
- The legacy request models (`ProcessDocumentRequest`, `SearchVectorDataBaseRequest`) are modelled as already parsed. Their field validation is not modelled.
- Concurrency is not modelled: two ingestions of the same title may race between the existence test and the write. Environment loading, logging and tracing are also left out.
- A negative `k` reaching the store returns nothing. The real stores raise or behave differently, and the model does not capture that.
- ChromaRepository.VectorDbRepository.CheckDocumentExists: Chroma's `where` validation is modelled only for a top-level null value, and its message follows one chromadb version. Other malformed filters are not refused.
- ProcessDocumentController.MissingTitleMatchesNoPage: describes PGVector only. Its null handling is modelled as equality with null (no row has a null `titulo`), which is not checked against the library. Under Chroma, `MissingTitleWithChroma` gives the three handlers' 500s instead.
- TextSplitter.TextSplitterFactory.CreateSplitter: only LangChain's overlap-larger-than-size check is modelled. The size > 0 and overlap >= 0 checks of newer LangChain versions are not.
- Base64.DecodeAcceptsExactlyWellFormed: follows the strict mode of Python 3.11 and later, which refuses `=` after a complete group ("Excess padding not allowed"). Before 3.11, `validate=True` checked only the characters, so `QUJD=` was accepted there.
- DocumentRequest.ValidateBase64: accepts exactly what `Base64.Decode` accepts, so it too follows Python 3.11 and later on trailing padding.
- Settings: only the fields the core reads are modelled. The legacy and backend `Settings` share their defaults for these fields.

## Findings

| source | as written | input that shows it | evidently intended | confidence | as-written member | corrected member |
|---|---|---|---|---|---|---|
| backend/app/api/routers/v1/document.py:97 | an unknown title returns `{"results": []}` from a route whose response model requires `query` and `total_results`, so the client gets a plain 500 | a search under any title with no stored chunk | a 404 "Document '<id>' not found", as the route declares at line 85 and the router's unit test expects | medium; not executed | DocumentRouter.UnknownTitleSearchIsServerError | DocumentRouter.IntendedSearchDocument |
| app/services/rag/rerank_service.py:68 | the rerank retriever filters on `tipo-documento`, while the text extractor writes `tipo_documento` (backend/app/services/document/text_extractor.py:45) | a rerank question over any ingested document: no extracted page is ever retrieved | the key `tipo_documento`, as the standard strategy's filter spells it | high; not executed | RerankService.FilterMissesExtractedPages | QaService.FilterSelectsExtractedPages |
| app/infrastructure/vector_db/repository.py:53 | Chroma's default search filter is `{"tipo-documento": "documento-pdf"}` | a Chroma search without a filter: no extracted page matches | `{"tipo_documento": "documento-pdf"}`, PGVector's default | high; not executed | ChromaRepository.DefaultFilterMissesExtractedPages | PgVectorRepository.DefaultFilterSelectsPdfPages |

The services and repositories keep the spelling as written, since that is what the program
runs. The corrected filters are the ones the standard strategy and PGVector already use.
