/** `QAService.answer_question`: standard retrieval-augmented answering. It resolves its
    defaults, builds a similarity retriever restricted to one document type, wraps it with the
    language model in a "stuff" `RetrievalQA` chain that returns its sources, invokes the chain
    once with the query and returns what the chain returned. The chain itself (retrieval,
    prompting, generation) is foreign and is given to the service as a function. */
module QaService {
  import opened Wrappers
  import opened Documents
  import opened VectorStore
  import Config
  import opened Repositories
  import TextExtractor

  /** `PromptTemplate.from_template(template=...)`. */
  datatype PromptTemplate = PromptTemplate(template: string)

  /** `RetrievalQA.from_chain_type(llm=..., retriever=..., return_source_documents=...,
      chain_type=..., chain_type_kwargs={"prompt": ...})`; the language model is the service's. */
  datatype RetrievalQa = RetrievalQa(retriever: Retriever, returnSourceDocuments: bool, chainType: string,
                                     prompt: PromptTemplate)

  /** The dictionary the chain returns; each key may be absent. */
  datatype QaAnswer = QaAnswer(query: Option<string>, result: Option<string>, sourceDocuments: Option<seq<Document>>)

  /** The exception `answer["source_documents"]` raises when the chain left the key out. */
  const MissingSourcesError: Exception := Exception("KeyError", "'source_documents'")

  /** The retriever's `search_kwargs` for `k` chunks of one document type containing a space. */
  function SearchKwargs(k: int, documentType: string): Metadata
  {
    map[
      "k" := Int(k),
      "filter" := Dict(map["tipo_documento" := Dict(map["$eq" := Str(documentType)])]),
      "where_document" := Dict(map["$contains" := Str(" ")])]
  }

  /** The retriever's filter lets through exactly the chunks of the requested type, under the
      key the text extractor writes. */
  lemma FilterSelectsDocumentType(k: int, documentType: string, metadata: Metadata)
    ensures SearchKwargs(k, documentType)["filter"].Dict?
    ensures Matches(metadata, SearchKwargs(k, documentType)["filter"].entries) <==>
      "tipo_documento" in metadata && metadata["tipo_documento"] == Str(documentType)
  {
    var filter := SearchKwargs(k, documentType)["filter"].entries;
    assert filter.Keys == {"tipo_documento"};
    if "tipo_documento" in metadata && metadata["tipo_documento"] == Str(documentType) {
      forall key | key in filter
        ensures key in metadata && ValueMatches(metadata[key], filter[key])
      {
        assert key == "tipo_documento";
        assert filter[key].entries.Keys == {"$eq"};
      }
    }
    if Matches(metadata, filter) {
      assert "tipo_documento" in filter;
      assert filter["tipo_documento"].entries.Keys == {"$eq"};
    }
  }

  /** With the key spelled as the text extractor writes it, the filter lets through exactly
      the extracted pages of the requested type. */
  lemma FilterSelectsExtractedPages(k: int, documentType: string, pages: seq<string>, title: string,
                                    extractedType: string, i: int)
    requires 0 <= i < |pages|
    ensures Matches(TextExtractor.Extracted(pages, title, extractedType)[i].metadata,
                    SearchKwargs(k, documentType)["filter"].entries)
      <==> extractedType == documentType
  {
    TextExtractor.ExtractedMetadata(pages, title, extractedType, i);
    FilterSelectsDocumentType(k, documentType, TextExtractor.Extracted(pages, title, extractedType)[i].metadata);
  }

  /** The service holds the settings, the repository, the default prompt read at start-up,
      and the chain's `invoke`. */
  datatype QaService = QaService(
    settings: Config.Settings,
    vdbRepository: Repository,
    defaultPrompt: string,
    invoke: (RetrievalQa, map<string, string>) -> Result<QaAnswer>)
  {
    /** The chain `answer_question` builds, defaults resolved: `k_results or default_k_results`
        and `custom_prompt or DEFAULT_PROMPT`. */
    function Chain(documentType: string, kResults: Option<int>, customPrompt: Option<string>): (chain: RetrievalQa)
      ensures chain.retriever.store == vdbRepository.Vdb()
      ensures chain.retriever.searchType == "similarity"
      ensures chain.returnSourceDocuments && chain.chainType == "stuff"
      ensures chain.retriever.searchKwargs == SearchKwargs(
        if kResults == None || kResults == Some(0) then settings.defaultKResults else kResults.value, documentType)
      ensures chain.prompt.template ==
        (if customPrompt == None || customPrompt == Some("") then defaultPrompt else customPrompt.value)
    {
      var k := IntOr(kResults, settings.defaultKResults);
      var promptText := StringOr(customPrompt, defaultPrompt);
      var kwargs := SearchKwargs(k, documentType);
      assert "k" in kwargs;
      var retriever := vdbRepository.AsRetriever("similarity", Some(kwargs));
      RetrievalQa(retriever, true, "stuff", PromptTemplate(promptText))
    }

    /** `answer_question(query, document_type, k_results=None, custom_prompt=None)`: the chain
        is invoked once, with `{"query": query}`, and its answer (or exception) is returned
        unchanged; the log line that counts the sources raises a `KeyError` when the answer has
        none. */
    function AnswerQuestion(query: string, documentType: string, kResults: Option<int> := None,
                            customPrompt: Option<string> := None): (answer: Result<QaAnswer>)
      ensures var raw := invoke(Chain(documentType, kResults, customPrompt), map["query" := query]);
        && (raw.Err? ==> answer == raw)
        && (raw.Ok? && raw.value.sourceDocuments.Some? ==> answer == raw)
        && (raw.Ok? && raw.value.sourceDocuments.None? ==> answer == Err(MissingSourcesError))
      ensures answer.Ok? ==> answer.value.sourceDocuments.Some?
    {
      var chain := Chain(documentType, kResults, customPrompt);
      match invoke(chain, map["query" := query])
      case Err(e) => Err(e)
      case Ok(result) =>
        if result.sourceDocuments.None? then Err(MissingSourcesError) else Ok(result)
    }
  }

  /** The search kwargs hold exactly `k`, the type filter and the "contains a space"
      document condition. */
  lemma SearchKwargsKeys(k: int, documentType: string)
    ensures SearchKwargs(k, documentType).Keys == {"k", "filter", "where_document"}
    ensures SearchKwargs(k, documentType)["k"] == Int(k)
    ensures SearchKwargs(k, documentType)["where_document"] == Dict(map["$contains" := Str(" ")])
  {
  }

  /** A `k_results` of 0 asks for the default, as leaving it out does; so does an empty prompt. */
  lemma FalsyArgumentsUseDefaults(service: QaService, query: string, documentType: string)
    ensures service.AnswerQuestion(query, documentType, Some(0), Some(""))
         == service.AnswerQuestion(query, documentType)
  {
  }
}
