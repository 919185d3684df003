/** `DocumentIngestionService.ingest_document`: skip a title that is already stored; otherwise
    load the PDF, extract its pages, build the splitter, split, and store the chunks with a
    single write. The PDF loader and the splitter's `split_documents` are foreign code and are
    given to the service as functions; either may raise, and so may the splitter factory. */
module Ingestion {
  import opened Wrappers
  import opened Documents
  import opened VectorStore
  import opened TextExtractor
  import opened TextSplitter
  import opened Repositories

  const DefaultDocumentType: string := "documento_pdf"
  const DefaultSplittingMethod: string := "recursive"

  /** A call the service makes to a collaborator, with its arguments. */
  datatype Step =
    | CheckExists(filter: Metadata)
    | Load(base64Content: string)
    | Extract(pdfDocument: PdfDocument, title: string, documentType: string)
    | CreateSplitter(splitMethod: string, chunkSize: Option<int>, chunkOverlap: Option<int>)
    | Split(splitter: Splitter, documents: seq<Document>)
    | AddDocuments(chunks: seq<Document>)
  {
    /** The place of the call in the pipeline. */
    function Stage(): nat
    {
      match this
      case CheckExists(_) => 0
      case Load(_) => 1
      case Extract(_, _, _) => 2
      case CreateSplitter(_, _, _) => 3
      case Split(_, _) => 4
      case AddDocuments(_) => 5
    }
  }

  /** What one call of `ingest_document` does: its outcome, the calls it makes in order, and
      the chunks it writes to the store. */
  datatype IngestRun = IngestRun(result: Result<bool>, steps: seq<Step>, written: seq<Document>)

  /** The filter of the existence test, `{"titulo": title}`. */
  function TitleFilter(title: string): Metadata
  {
    map["titulo" := Str(title)]
  }

  /** The calls are made in pipeline order, each at most once: a prefix of
      check, load, extract, create splitter, split, add. */
  predicate InPipelineOrder(steps: seq<Step>)
  {
    forall i :: 0 <= i < |steps| ==> steps[i].Stage() == i
  }

  /** Some call is the write to the store. */
  predicate Writes(steps: seq<Step>)
  {
    exists i :: 0 <= i < |steps| && steps[i].AddDocuments?
  }

  class DocumentIngestionService {
    const vdbRepository: Repository
    const splitterFactory: TextSplitterFactory
    /** `PDFLoader.load_from_base64`. */
    const loadFromBase64: string -> Result<PdfDocument>
    /** `splitter.split_documents`. */
    const splitDocuments: (Splitter, seq<Document>) -> Result<seq<Document>>

    constructor(vdbRepository: Repository, splitterFactory: TextSplitterFactory,
                loadFromBase64: string -> Result<PdfDocument>,
                splitDocuments: (Splitter, seq<Document>) -> Result<seq<Document>>)
      ensures this.vdbRepository == vdbRepository && this.splitterFactory == splitterFactory
      ensures this.loadFromBase64 == loadFromBase64 && this.splitDocuments == splitDocuments
    {
      this.vdbRepository := vdbRepository;
      this.splitterFactory := splitterFactory;
      this.loadFromBase64 := loadFromBase64;
      this.splitDocuments := splitDocuments;
    }

    /** The run of `ingest_document` against a store holding `records`. */
    function Run(records: seq<Record>, base64Content: string, title: string, documentType: string,
                 splittingMethod: string, chunkSize: Option<int>, chunkOverlap: Option<int>): IngestRun
    {
      var check := [CheckExists(TitleFilter(title))];
      if AnyMatch(records, TitleFilter(title)) then IngestRun(Ok(false), check, [])
      else match loadFromBase64(base64Content)
        case Err(e) => IngestRun(Err(e), check + [Load(base64Content)], [])
        case Ok(pdf) =>
          var documents := Extracted(pdf.pages, title, documentType);
          var extracted := check + [Load(base64Content), Extract(pdf, title, documentType)];
          var create := CreateSplitter(splittingMethod, chunkSize, chunkOverlap);
          match splitterFactory.CreateSplitter(splittingMethod, chunkSize, chunkOverlap)
          case Err(e) => IngestRun(Err(e), extracted + [create], [])
          case Ok(splitter) =>
            match splitDocuments(splitter, documents)
            case Err(e) => IngestRun(Err(e), extracted + [create, Split(splitter, documents)], [])
            case Ok(chunks) =>
              IngestRun(Ok(true), extracted + [create, Split(splitter, documents), AddDocuments(chunks)], chunks)
    }

    /** `ingest_document`: the outcome and the calls are those of `Run` on the store as it was,
        and the store gains exactly the chunks `Run` writes. `steps` records the calls made. */
    method IngestDocument(base64Content: string, title: string, documentType: string := "documento_pdf",
                          splittingMethod: string := "recursive", chunkSize: Option<int> := None,
                          chunkOverlap: Option<int> := None)
      returns (r: Result<bool>, ghost steps: seq<Step>)
      requires vdbRepository.Vdb().Valid()
      modifies vdbRepository.Vdb()
      ensures vdbRepository.Vdb().Valid()
      ensures var run := Run(old(vdbRepository.Vdb().records), base64Content, title, documentType,
                             splittingMethod, chunkSize, chunkOverlap);
        && r == run.result
        && steps == run.steps
        && vdbRepository.Vdb().records == old(vdbRepository.Vdb().records) + Stamp(old(vdbRepository.Vdb().nextId), run.written)
        && vdbRepository.Vdb().nextId == old(vdbRepository.Vdb().nextId) + |run.written|
    {
      var filter := TitleFilter(title);
      steps := [CheckExists(filter)];
      var found := vdbRepository.CheckDocumentExists(filter);
      assert found.Ok?;
      if found.value {
        return Ok(false), steps;
      }
      var loaded := loadFromBase64(base64Content);
      steps := steps + [Load(base64Content)];
      if loaded.Err? {
        return Err(loaded.error), steps;
      }
      var pdfDocument := loaded.value;
      var documents := ExtractWithMetadata(pdfDocument, title, documentType);
      steps := steps + [Extract(pdfDocument, title, documentType)];
      var created := splitterFactory.CreateSplitter(splittingMethod, chunkSize, chunkOverlap);
      steps := steps + [CreateSplitter(splittingMethod, chunkSize, chunkOverlap)];
      if created.Err? {
        return Err(created.error), steps;
      }
      var splitter := created.value;
      var split := splitDocuments(splitter, documents);
      steps := steps + [Split(splitter, documents)];
      if split.Err? {
        return Err(split.error), steps;
      }
      var chunks := split.value;
      var _ := vdbRepository.AddDocuments(chunks);
      steps := steps + [AddDocuments(chunks)];
      return Ok(true), steps;
    }

    /** An already stored title ends the call after the existence test: the result is false,
        nothing is loaded, extracted, split or written. */
    lemma ExistingTitleIsNoOp(records: seq<Record>, base64Content: string, title: string, documentType: string,
                              splittingMethod: string, chunkSize: Option<int>, chunkOverlap: Option<int>)
      requires AnyMatch(records, TitleFilter(title))
      ensures Run(records, base64Content, title, documentType, splittingMethod, chunkSize, chunkOverlap)
        == IngestRun(Ok(false), [CheckExists(map["titulo" := Str(title)])], [])
    {
    }

    /** Every run starts with the one existence test on `{"titulo": title}`, makes its calls
        in pipeline order, and hands the factory the method, size and overlap it was given. */
    lemma {:induction false} CallsInOrder(records: seq<Record>, base64Content: string, title: string, documentType: string,
                        splittingMethod: string, chunkSize: Option<int>, chunkOverlap: Option<int>)
      ensures var run := Run(records, base64Content, title, documentType, splittingMethod, chunkSize, chunkOverlap);
        && |run.steps| >= 1
        && run.steps[0] == CheckExists(map["titulo" := Str(title)])
        && InPipelineOrder(run.steps)
        && (forall i :: 1 <= i < |run.steps| ==> !run.steps[i].CheckExists?)
        && (forall i :: 0 <= i < |run.steps| && run.steps[i].CreateSplitter? ==>
              run.steps[i] == CreateSplitter(splittingMethod, chunkSize, chunkOverlap))
    {
      var run := Run(records, base64Content, title, documentType, splittingMethod, chunkSize, chunkOverlap);
      assert forall i :: 0 <= i < |run.steps| ==> run.steps[i].Stage() == i;
    }

    /** The call succeeds with true exactly when the title is new and loading, building the
        splitter and splitting all succeed; the store then receives exactly the splitter's
        output, in one write. Any other outcome writes nothing. */
    lemma WritesExactlyTheSplit(records: seq<Record>, base64Content: string, title: string, documentType: string,
                                splittingMethod: string, chunkSize: Option<int>, chunkOverlap: Option<int>)
      ensures var run := Run(records, base64Content, title, documentType, splittingMethod, chunkSize, chunkOverlap);
        var loaded := loadFromBase64(base64Content);
        var created := splitterFactory.CreateSplitter(splittingMethod, chunkSize, chunkOverlap);
        && (run.result == Ok(true) <==>
              !AnyMatch(records, TitleFilter(title)) && loaded.Ok? && created.Ok?
              && splitDocuments(created.value, Extracted(loaded.value.pages, title, documentType)).Ok?)
        && (run.result == Ok(true) ==>
              && run.written == splitDocuments(created.value, Extracted(loaded.value.pages, title, documentType)).value
              && run.steps[|run.steps| - 1] == AddDocuments(run.written))
        && (run.result != Ok(true) ==> run.written == [] && !Writes(run.steps))
    {
    }

    /** A failure in loading, in the factory or in splitting is passed on as the exception it
        was, after the failing call, with nothing written. */
    lemma FailuresPropagate(records: seq<Record>, base64Content: string, title: string, documentType: string,
                            splittingMethod: string, chunkSize: Option<int>, chunkOverlap: Option<int>)
      requires !AnyMatch(records, TitleFilter(title))
      ensures var run := Run(records, base64Content, title, documentType, splittingMethod, chunkSize, chunkOverlap);
        && (loadFromBase64(base64Content).Err? ==>
              run.result == Err(loadFromBase64(base64Content).error) && |run.steps| == 2)
        && (loadFromBase64(base64Content).Ok?
            && splitterFactory.CreateSplitter(splittingMethod, chunkSize, chunkOverlap).Err? ==>
              run.result == Err(splitterFactory.CreateSplitter(splittingMethod, chunkSize, chunkOverlap).error)
              && |run.steps| == 4)
        && (loadFromBase64(base64Content).Ok?
            && splitterFactory.CreateSplitter(splittingMethod, chunkSize, chunkOverlap).Ok?
            && splitDocuments(splitterFactory.CreateSplitter(splittingMethod, chunkSize, chunkOverlap).value,
                              Extracted(loadFromBase64(base64Content).value.pages, title, documentType)).Err? ==>
              run.result == Err(splitDocuments(splitterFactory.CreateSplitter(splittingMethod, chunkSize, chunkOverlap).value,
                                               Extracted(loadFromBase64(base64Content).value.pages, title, documentType)).error)
              && |run.steps| == 5)
        && (run.result.Err? ==> run.written == [])
    {
    }

    /** Ingesting the same title twice: once the first call has stored a chunk carrying the
        title, the second call, whatever its other arguments, finds it and returns false
        without writing. */
    lemma {:induction false} SecondIngestIsNoOp(records: seq<Record>, nextId: nat, base64Content: string, title: string,
                                   documentType: string, splittingMethod: string, chunkSize: Option<int>,
                                   chunkOverlap: Option<int>, base64Content': string, documentType': string,
                                   splittingMethod': string, chunkSize': Option<int>, chunkOverlap': Option<int>, j: int)
      requires var run := Run(records, base64Content, title, documentType, splittingMethod, chunkSize, chunkOverlap);
        run.result == Ok(true) && 0 <= j < |run.written| && Matches(run.written[j].metadata, TitleFilter(title))
      ensures var run := Run(records, base64Content, title, documentType, splittingMethod, chunkSize, chunkOverlap);
        var again := Run(records + Stamp(nextId, run.written), base64Content', title, documentType',
                         splittingMethod', chunkSize', chunkOverlap');
        again.result == Ok(false) && again.written == []
    {
      var run := Run(records, base64Content, title, documentType, splittingMethod, chunkSize, chunkOverlap);
      StampedMatch(records, nextId, run.written, TitleFilter(title), j);
    }
  }

  /** Extracted pages carry the title they were ingested under, so a splitter that keeps each
      chunk's metadata from its page writes chunks the next existence test finds. */
  lemma ExtractedPagesCarryTitle(pages: seq<string>, title: string, documentType: string, i: int)
    requires 0 <= i < |pages|
    ensures Matches(Extracted(pages, title, documentType)[i].metadata, TitleFilter(title))
  {
    ExtractedMetadata(pages, title, documentType, i);
  }
}
