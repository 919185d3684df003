/** The part of `Settings` the core reads: the embeddings model selection that decides the
    vector size, and the RAG defaults used by the splitter factory, the repositories and the
    two answering services. Loading the values from the environment is not modelled. */
module Config {

  datatype Settings = Settings(
    localLlm: bool,
    ollamaEmbeddingsModel: string,
    embeddingsModel: string,
    defaultChunkSize: int,
    defaultChunkOverlap: int,
    defaultKResults: int,
    defaultRerankTopN: int,
    cohereModel: string)

  /** The field defaults of `Settings` when no environment variable overrides them. */
  const DefaultSettings: Settings := Settings(
    localLlm := false,
    ollamaEmbeddingsModel := "nomic-embed-text:v1.5",
    embeddingsModel := "text-embedding-ada-002",
    defaultChunkSize := 800,
    defaultChunkOverlap := 50,
    defaultKResults := 4,
    defaultRerankTopN := 3,
    cohereModel := "rerank-v3.5")

  /** The embedding dimension of each known model. */
  const ModelSizes: map<string, int> := map[
    "nomic-embed-text:v1.5" := 768,
    "text-embedding-ada-002" := 1536,
    "text-embedding-3-large" := 3072]

  /** The fallback dimension for a model missing from `ModelSizes`. */
  const FallbackVectorSize: int := 768

  /** The embeddings model in use: the Ollama one for a local LLM, the OpenAI one otherwise. */
  function CurrentEmbeddingsModel(settings: Settings): string
  {
    if settings.localLlm then settings.ollamaEmbeddingsModel else settings.embeddingsModel
  }

  /** `Settings.get_vector_size`: the dimension of the vector column. */
  function GetVectorSize(settings: Settings): (size: int)
    ensures size == 768 || size == 1536 || size == 3072
    ensures CurrentEmbeddingsModel(settings) !in ModelSizes ==> size == FallbackVectorSize
  {
    var model := CurrentEmbeddingsModel(settings);
    if model in ModelSizes then ModelSizes[model] else FallbackVectorSize
  }

  /** Each known model maps to its fixed size. */
  lemma KnownModelSizes(settings: Settings)
    ensures CurrentEmbeddingsModel(settings) == "nomic-embed-text:v1.5" ==> GetVectorSize(settings) == 768
    ensures CurrentEmbeddingsModel(settings) == "text-embedding-ada-002" ==> GetVectorSize(settings) == 1536
    ensures CurrentEmbeddingsModel(settings) == "text-embedding-3-large" ==> GetVectorSize(settings) == 3072
  {
  }

  /** With a local LLM only the Ollama model matters; otherwise only the OpenAI model does. */
  lemma VectorSizeFollowsSelectedModel(settings: Settings, other: string)
    ensures settings.localLlm ==>
      GetVectorSize(settings) == GetVectorSize(settings.(embeddingsModel := other))
    ensures !settings.localLlm ==>
      GetVectorSize(settings) == GetVectorSize(settings.(ollamaEmbeddingsModel := other))
  {
  }

  /** Out of the box (`local_llm=False`, `text-embedding-ada-002`) the vector size is 1536. */
  lemma DefaultVectorSize()
    ensures GetVectorSize(DefaultSettings) == 1536
  {
  }
}
