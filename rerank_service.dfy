/** `RerankService.answer_question`: retrieval-augmented answering with Cohere reranking. It
    resolves its defaults, builds a similarity retriever restricted to one document type, puts
    a Cohere reranker keeping the best `top_n` chunks in front of it, composes question,
    context, prompt, language model and string parser into one chain, invokes it once with the
    raw query and returns the answer string. The chain is foreign and given as a function. */
module RerankService {
  import opened Wrappers
  import opened Documents
  import opened VectorStore
  import Config
  import opened Repositories
  import TextExtractor

  /** `ChatPromptTemplate.from_template(template=...)`. */
  datatype ChatPromptTemplate = ChatPromptTemplate(template: string)

  /** `CohereRerank(top_n=..., model=...)`; the API key is not modelled. */
  datatype CohereRerank = CohereRerank(topN: int, model: string)

  /** `ContextualCompressionRetriever(base_compressor=..., base_retriever=...)`. */
  datatype CompressionRetriever = CompressionRetriever(baseCompressor: CohereRerank, baseRetriever: Retriever)

  /** The chain `{"question": passthrough, "context": retriever} | prompt | llm | parser`;
      the language model and the parser are the service's. */
  datatype RerankChain = RerankChain(context: CompressionRetriever, prompt: ChatPromptTemplate)

  /** The base retriever's `search_kwargs`; note the hyphenated metadata key. */
  function SearchKwargs(k: int, documentType: string): Metadata
  {
    map[
      "k" := Int(k),
      "filter" := Dict(map["tipo-documento" := Dict(map["$eq" := Str(documentType)])]),
      "where_document" := Dict(map["$contains" := Str(" ")])]
  }

  /** The base retriever's filter lets through exactly the chunks whose `tipo-documento` is
      the requested type. */
  lemma FilterSelectsDocumentType(k: int, documentType: string, metadata: Metadata)
    ensures SearchKwargs(k, documentType)["filter"].Dict?
    ensures Matches(metadata, SearchKwargs(k, documentType)["filter"].entries) <==>
      "tipo-documento" in metadata && metadata["tipo-documento"] == Str(documentType)
  {
    var filter := SearchKwargs(k, documentType)["filter"].entries;
    assert filter.Keys == {"tipo-documento"};
    if "tipo-documento" in metadata && metadata["tipo-documento"] == Str(documentType) {
      forall key | key in filter
        ensures key in metadata && ValueMatches(metadata[key], filter[key])
      {
        assert key == "tipo-documento";
        assert filter[key].entries.Keys == {"$eq"};
      }
    }
    if Matches(metadata, filter) {
      assert "tipo-documento" in filter;
      assert filter["tipo-documento"].entries.Keys == {"$eq"};
    }
  }

  /** Because of that spelling, the base retriever's filter lets through no page record the
      text extractor makes, whose key is `tipo_documento`. */
  lemma FilterMissesExtractedPages(k: int, documentType: string, pages: seq<string>, title: string,
                                   extractedType: string, i: int)
    requires 0 <= i < |pages|
    ensures !Matches(TextExtractor.Extracted(pages, title, extractedType)[i].metadata,
                     SearchKwargs(k, documentType)["filter"].entries)
  {
    TextExtractor.ExtractedMetadata(pages, title, extractedType, i);
    FilterSelectsDocumentType(k, documentType, TextExtractor.Extracted(pages, title, extractedType)[i].metadata);
  }

  datatype RerankService = RerankService(
    settings: Config.Settings,
    vdbRepository: Repository,
    defaultPrompt: string,
    invoke: (RerankChain, string) -> Result<string>)
  {
    /** The chain `answer_question` builds, defaults resolved: `k_results or default_k_results`,
        `rerank_top_n or default_rerank_top_n` and `custom_prompt or DEFAULT_PROMPT`. */
    function Chain(documentType: string, kResults: Option<int>, rerankTopN: Option<int>,
                   customPrompt: Option<string>): (chain: RerankChain)
      ensures chain.context.baseRetriever.store == vdbRepository.Vdb()
      ensures chain.context.baseRetriever.searchType == "similarity"
      ensures chain.context.baseRetriever.searchKwargs == SearchKwargs(
        if kResults == None || kResults == Some(0) then settings.defaultKResults else kResults.value, documentType)
      ensures chain.context.baseCompressor == CohereRerank(
        if rerankTopN == None || rerankTopN == Some(0) then settings.defaultRerankTopN else rerankTopN.value,
        settings.cohereModel)
      ensures chain.prompt.template ==
        (if customPrompt == None || customPrompt == Some("") then defaultPrompt else customPrompt.value)
    {
      var k := IntOr(kResults, settings.defaultKResults);
      var topN := IntOr(rerankTopN, settings.defaultRerankTopN);
      assert topN == if rerankTopN == None || rerankTopN == Some(0) then settings.defaultRerankTopN else rerankTopN.value;
      var promptText := StringOr(customPrompt, defaultPrompt);
      var kwargs := SearchKwargs(k, documentType);
      assert "k" in kwargs;
      var baseRetriever := vdbRepository.AsRetriever("similarity", Some(kwargs));
      var compressor := CohereRerank(topN, settings.cohereModel);
      RerankChain(CompressionRetriever(compressor, baseRetriever), ChatPromptTemplate(promptText))
    }

    /** `answer_question(query, document_type, k_results=None, rerank_top_n=None,
        custom_prompt=None)`: the chain is invoked once, with the raw query, and its answer
        string (or exception) is returned unchanged. */
    function AnswerQuestion(query: string, documentType: string, kResults: Option<int> := None,
                            rerankTopN: Option<int> := None, customPrompt: Option<string> := None)
      : (answer: Result<string>)
      ensures answer == invoke(Chain(documentType, kResults, rerankTopN, customPrompt), query)
    {
      var chain := Chain(documentType, kResults, rerankTopN, customPrompt);
      invoke(chain, query)
    }
  }

  /** Out of the box the reranker keeps the best 3 chunks of the 4 retrieved, with
      "rerank-v3.5". */
  lemma DefaultRerankConfiguration(service: RerankService, documentType: string)
    requires service.settings == Config.DefaultSettings
    ensures var chain := service.Chain(documentType, None, None, None);
      && chain.context.baseCompressor == CohereRerank(3, "rerank-v3.5")
      && chain.context.baseRetriever.searchKwargs["k"] == Int(4)
  {
  }

  /** A `k_results` or `rerank_top_n` of 0 asks for the default, as leaving it out does; so
      does an empty prompt. */
  lemma FalsyArgumentsUseDefaults(service: RerankService, query: string, documentType: string)
    ensures service.AnswerQuestion(query, documentType, Some(0), Some(0), Some(""))
         == service.AnswerQuestion(query, documentType)
  {
  }
}
