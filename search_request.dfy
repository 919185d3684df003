/** `DocumentSearchRequest` and `QuestionRequest`, the bodies of the search and ask endpoints:
    a required query or non-empty question, `k_results` in [1, 10] defaulting to 4, a
    strategy literal defaulting to "standard", and a metadata filter defaulting to {}. */
module SearchRequest {
  import opened Wrappers
  import opened Documents

  const DefaultKResults: int := 4
  const MinKResults: int := 1
  const MaxKResults: int := 10

  datatype Strategy = Standard | Rerank
  {
    /** The literal that names the strategy in requests and responses. */
    function Name(): string
    {
      match this
      case Standard => "standard"
      case Rerank => "rerank"
    }
  }

  const DefaultStrategy: Strategy := Standard

  datatype DocumentSearchRequest = DocumentSearchRequest(
    query: string,
    kResults: int,
    metadataFilter: Metadata)

  datatype QuestionRequest = QuestionRequest(
    question: string,
    strategy: Strategy,
    kResults: int,
    metadataFilter: Metadata)

  /** The strategy a literal names, if it is one of the two allowed. */
  function ParseStrategy(literal: string): (s: Option<Strategy>)
    ensures s.Some? <==> literal == "standard" || literal == "rerank"
    ensures s.Some? ==> s.value.Name() == literal
  {
    if literal == "standard" then Some(Standard)
    else if literal == "rerank" then Some(Rerank)
    else None
  }

  /** The errors pydantic reports for `k_results: int = Field(default=4, ge=1, le=10)`. */
  function KResultsErrors(kResults: Option<int>): (errors: seq<FieldError>)
    ensures errors == [] <==> kResults.None? || MinKResults <= kResults.value <= MaxKResults
    ensures forall i :: 0 <= i < |errors| ==> errors[i].loc == "k_results"
  {
    if kResults.None? then []
    else if kResults.value < MinKResults then
      [FieldError("k_results", "greater_than_equal", "Input should be greater than or equal to 1")]
    else if kResults.value > MaxKResults then
      [FieldError("k_results", "less_than_equal", "Input should be less than or equal to 10")]
    else []
  }

  function ResolvedKResults(kResults: Option<int>): int
  {
    if kResults.Some? then kResults.value else DefaultKResults
  }

  function ResolvedFilter(metadataFilter: Option<Metadata>): Metadata
  {
    if metadataFilter.Some? then metadataFilter.value else map[]
  }

  /** Building `DocumentSearchRequest` from the JSON body (`None` is an absent field). */
  function NewDocumentSearchRequest(
    query: Option<string>,
    kResults: Option<int>,
    metadataFilter: Option<Metadata>): (r: Validated<DocumentSearchRequest>)
    ensures r.Valid? <==> query.Some? && (kResults.None? || MinKResults <= kResults.value <= MaxKResults)
    ensures r.Valid? ==>
      && r.value.query == query.value
      && MinKResults <= r.value.kResults <= MaxKResults
      && (kResults.None? ==> r.value.kResults == DefaultKResults)
      && (kResults.Some? ==> r.value.kResults == kResults.value)
      && (metadataFilter.None? ==> r.value.metadataFilter == map[])
      && (metadataFilter.Some? ==> r.value.metadataFilter == metadataFilter.value)
    ensures r.Invalid? ==> (Reports(r.errors, "query") <==> query.None?)
    ensures r.Invalid? ==>
      (Reports(r.errors, "k_results") <==> kResults.Some? && !(MinKResults <= kResults.value <= MaxKResults))
  {
    var queryErrors := if query.None? then [FieldError("query", "missing", "Field required")] else [];
    var kErrors := KResultsErrors(kResults);
    var errors := queryErrors + kErrors;
    ReportsConcat(queryErrors, kErrors, "query");
    ReportsConcat(queryErrors, kErrors, "k_results");
    assert queryErrors != [] ==> queryErrors[0].loc == "query";
    assert kErrors != [] ==> kErrors[0].loc == "k_results";
    if errors == [] then
      Valid(DocumentSearchRequest(query.value, ResolvedKResults(kResults), ResolvedFilter(metadataFilter)))
    else
      Invalid(errors)
  }

  /** The errors for `question: str = Field(..., min_length=1)`. */
  function QuestionErrors(question: Option<string>): (errors: seq<FieldError>)
    ensures errors == [] <==> question.Some? && |question.value| >= 1
    ensures forall i :: 0 <= i < |errors| ==> errors[i].loc == "question"
  {
    if question.None? then [FieldError("question", "missing", "Field required")]
    else if |question.value| < 1 then
      [FieldError("question", "string_too_short", "String should have at least 1 character")]
    else []
  }

  /** The errors for `strategy: Literal["standard", "rerank"] = "standard"`. */
  function StrategyErrors(strategy: Option<string>): (errors: seq<FieldError>)
    ensures errors == [] <==> strategy.None? || ParseStrategy(strategy.value).Some?
    ensures forall i :: 0 <= i < |errors| ==> errors[i].loc == "strategy"
  {
    if strategy.None? || ParseStrategy(strategy.value).Some? then []
    else [FieldError("strategy", "literal_error", "Input should be 'standard' or 'rerank'")]
  }

  /** Building `QuestionRequest` from the JSON body (`None` is an absent field). */
  function NewQuestionRequest(
    question: Option<string>,
    strategy: Option<string>,
    kResults: Option<int>,
    metadataFilter: Option<Metadata>): (r: Validated<QuestionRequest>)
    ensures r.Valid? <==>
      && question.Some? && |question.value| >= 1
      && (strategy.None? || strategy.value == "standard" || strategy.value == "rerank")
      && (kResults.None? || MinKResults <= kResults.value <= MaxKResults)
    ensures r.Valid? ==>
      && r.value.question == question.value
      && |r.value.question| >= 1
      && (strategy.None? ==> r.value.strategy == DefaultStrategy)
      && (strategy.Some? ==> r.value.strategy.Name() == strategy.value)
      && MinKResults <= r.value.kResults <= MaxKResults
      && (kResults.None? ==> r.value.kResults == DefaultKResults)
      && (kResults.Some? ==> r.value.kResults == kResults.value)
      && (metadataFilter.None? ==> r.value.metadataFilter == map[])
      && (metadataFilter.Some? ==> r.value.metadataFilter == metadataFilter.value)
    ensures r.Invalid? ==>
      && (Reports(r.errors, "question") <==> question.None? || |question.value| < 1)
      && (Reports(r.errors, "strategy") <==> strategy.Some? && ParseStrategy(strategy.value).None?)
      && (Reports(r.errors, "k_results") <==> kResults.Some? && !(MinKResults <= kResults.value <= MaxKResults))
  {
    var qErrors := QuestionErrors(question);
    var sErrors := StrategyErrors(strategy);
    var kErrors := KResultsErrors(kResults);
    var errors := qErrors + sErrors + kErrors;
    ReportsConcat(qErrors, sErrors, "question");
    ReportsConcat(qErrors + sErrors, kErrors, "question");
    ReportsConcat(qErrors, sErrors, "strategy");
    ReportsConcat(qErrors + sErrors, kErrors, "strategy");
    ReportsConcat(qErrors, sErrors, "k_results");
    ReportsConcat(qErrors + sErrors, kErrors, "k_results");
    assert qErrors != [] ==> qErrors[0].loc == "question";
    assert sErrors != [] ==> sErrors[0].loc == "strategy";
    assert kErrors != [] ==> kErrors[0].loc == "k_results";
    if errors == [] then
      var s := if strategy.Some? then ParseStrategy(strategy.value).value else DefaultStrategy;
      Valid(QuestionRequest(question.value, s, ResolvedKResults(kResults), ResolvedFilter(metadataFilter)))
    else
      Invalid(errors)
  }
}
