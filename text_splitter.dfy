/** `TextSplitterFactory.create_splitter`: the choice between LangChain's semantic chunker and
    its recursive character splitter, described by the configuration each is built with. The
    splitting itself is the library's and is not part of this model. */
module TextSplitter {
  import opened Wrappers
  import Config

  /** The embeddings client handed to the factory, named by its model. */
  datatype EmbeddingsClient = EmbeddingsClient(model: string)

  /** A splitter, as the arguments of its constructor. */
  datatype Splitter =
    | SemanticChunker(embeddings: EmbeddingsClient, breakpointThresholdType: string)
    | RecursiveCharacterTextSplitter(chunkSize: int, chunkOverlap: int)

  const Semantic: string := "semantic"
  const Recursive: string := "recursive"
  const GradientBreakpoint: string := "gradient"

  function InvalidMethodMessage(splitMethod: string): string
  {
    "Invalid splitting method: " + splitMethod + ". Use 'semantic' or 'recursive'"
  }

  /** The `ValueError` LangChain's `TextSplitter` constructor raises when the overlap exceeds
      the size. */
  function LargerOverlapMessage(chunkOverlap: int, chunkSize: int): string
  {
    "Got a larger chunk overlap (" + IntToString(chunkOverlap) + ") than chunk size ("
      + IntToString(chunkSize) + "), should be smaller."
  }

  datatype TextSplitterFactory = TextSplitterFactory(settings: Config.Settings, embeddings: EmbeddingsClient)
  {
    /** `chunk_size or default_chunk_size`. */
    function ResolvedChunkSize(chunkSize: Option<int>): int
    {
      IntOr(chunkSize, settings.defaultChunkSize)
    }

    /** `chunk_overlap or default_chunk_overlap`. */
    function ResolvedChunkOverlap(chunkOverlap: Option<int>): int
    {
      IntOr(chunkOverlap, settings.defaultChunkOverlap)
    }

    /** `create_splitter(method="recursive", chunk_size=None, chunk_overlap=None)`; building the
        recursive splitter raises when the resolved overlap exceeds the resolved size. */
    function CreateSplitter(splitMethod: string := "recursive", chunkSize: Option<int> := None,
                            chunkOverlap: Option<int> := None): (r: Result<Splitter>)
      ensures r.Ok? <==>
        || splitMethod == Semantic
        || (splitMethod == Recursive && ResolvedChunkOverlap(chunkOverlap) <= ResolvedChunkSize(chunkSize))
      ensures splitMethod == Semantic ==> r == Ok(SemanticChunker(embeddings, GradientBreakpoint))
      ensures splitMethod == Recursive && r.Ok? ==>
        r.value == RecursiveCharacterTextSplitter(ResolvedChunkSize(chunkSize), ResolvedChunkOverlap(chunkOverlap))
      ensures splitMethod == Recursive && r.Err? ==>
        r.error == ValueError(LargerOverlapMessage(ResolvedChunkOverlap(chunkOverlap), ResolvedChunkSize(chunkSize)))
      ensures splitMethod != Semantic && splitMethod != Recursive ==>
        r == Err(ValueError(InvalidMethodMessage(splitMethod)))
    {
      if splitMethod == Semantic then
        Ok(SemanticChunker(embeddings, GradientBreakpoint))
      else if splitMethod == Recursive then
        var size := ResolvedChunkSize(chunkSize);
        var overlap := ResolvedChunkOverlap(chunkOverlap);
        if overlap > size then Err(ValueError(LargerOverlapMessage(overlap, size)))
        else Ok(RecursiveCharacterTextSplitter(size, overlap))
      else
        Err(ValueError(InvalidMethodMessage(splitMethod)))
    }
  }

  /** The semantic chunker ignores the size and overlap it is given. */
  lemma SemanticIgnoresSizes(factory: TextSplitterFactory, size: Option<int>, overlap: Option<int>)
    ensures factory.CreateSplitter(Semantic, size, overlap) == factory.CreateSplitter(Semantic)
  {
  }

  /** The recursive splitter uses a given non-zero size or overlap, and the setting's default
      for a missing one or for 0, which Python's `or` treats as missing; it is built exactly
      when the overlap so chosen does not exceed the size. */
  lemma RecursiveSizes(factory: TextSplitterFactory, size: Option<int>, overlap: Option<int>)
    ensures var r := factory.CreateSplitter(Recursive, size, overlap);
      var chunkSize := if size == None || size == Some(0) then factory.settings.defaultChunkSize else size.value;
      var chunkOverlap :=
        if overlap == None || overlap == Some(0) then factory.settings.defaultChunkOverlap else overlap.value;
      && (r.Ok? <==> chunkOverlap <= chunkSize)
      && (r.Ok? ==> r.value == RecursiveCharacterTextSplitter(chunkSize, chunkOverlap))
  {
  }

  /** A size or overlap of 0 builds the same splitter as leaving it out. */
  lemma ZeroMeansDefault(factory: TextSplitterFactory)
    ensures factory.CreateSplitter(Recursive, Some(0), Some(0)) == factory.CreateSplitter(Recursive, None, None)
  {
  }

  /** Without arguments the factory builds the recursive splitter with the configured sizes
      (when they are consistent), 800 and 50 out of the box. */
  lemma DefaultIsRecursive(factory: TextSplitterFactory)
    ensures factory.settings.defaultChunkOverlap <= factory.settings.defaultChunkSize ==>
      factory.CreateSplitter() == Ok(RecursiveCharacterTextSplitter(
        factory.settings.defaultChunkSize, factory.settings.defaultChunkOverlap))
    ensures factory.settings == Config.DefaultSettings ==>
      factory.CreateSplitter() == Ok(RecursiveCharacterTextSplitter(800, 50))
  {
  }

  /** Out of the box, a chunk size below the default overlap of 50 is refused: asking for
      size 30 raises the overlap error for 50 and 30, and the text shows both numbers. */
  lemma SmallChunkSizeRejected(factory: TextSplitterFactory)
    requires factory.settings == Config.DefaultSettings
    ensures factory.CreateSplitter(Recursive, Some(30)) == Err(ValueError(LargerOverlapMessage(50, 30)))
    ensures LargerOverlapMessage(50, 30)[28..30] == "50" && LargerOverlapMessage(50, 30)[49..51] == "30"
  {
  }

  /** Any other method string, "Semantic" or "" included, is refused with a ValueError whose
      message names it. */
  lemma UnknownMethodRejected(factory: TextSplitterFactory, splitMethod: string)
    requires splitMethod != Semantic && splitMethod != Recursive
    ensures factory.CreateSplitter(splitMethod).Err?
    ensures factory.CreateSplitter(splitMethod).error.message[..26] == "Invalid splitting method: "
  {
  }
}
