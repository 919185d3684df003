/** `DocumentIngestRequest`, the body of the new ingestion endpoint: a required title, an
    optional document type and the required base64 content, checked by `validate_base64`. */
module DocumentRequest {
  import opened Wrappers
  import Base64

  const DefaultDocumentType: string := "documento-pdf"
  const InvalidBase64Message: string := "Invalid base64 encoding"

  datatype DocumentIngestRequest = DocumentIngestRequest(
    title: string,
    documentType: Option<string>,
    documentContent: string)

  /** `validate_base64`: the content comes back unchanged when strict decoding succeeds, and
      any decoding failure becomes `ValueError("Invalid base64 encoding")`. */
  function ValidateBase64(content: string): (r: Result<string>)
    ensures r.Ok? <==> Base64.WellFormed(content)
    ensures r.Ok? ==> r.value == content
    ensures r.Err? ==> r.error == ValueError(InvalidBase64Message)
  {
    Base64.DecodeAcceptsExactlyWellFormed(content);
    if Base64.Decode(content).Some? then Ok(content) else Err(ValueError(InvalidBase64Message))
  }

  function Missing(loc: string): FieldError
  {
    FieldError(loc, "missing", "Field required")
  }

  /** The errors pydantic reports for `document_content`: missing, or rejected by the validator. */
  function ContentErrors(content: Option<string>): (errors: seq<FieldError>)
    ensures forall i :: 0 <= i < |errors| ==> errors[i].loc == "document_content"
    ensures errors != [] <==> content.None? || !Base64.WellFormed(content.value)
  {
    if content.None? then [Missing("document_content")]
    else match ValidateBase64(content.value)
      case Ok(_) => []
      case Err(e) => [FieldError("document_content", "value_error", e.message)]
  }

  /** Building the model from the JSON body: `None` is an absent field; for `document_type`,
      `Some(None)` is an explicit null, which the `Optional[str]` field accepts. */
  function NewDocumentIngestRequest(
    title: Option<string>,
    documentType: Option<Option<string>>,
    documentContent: Option<string>): (r: Validated<DocumentIngestRequest>)
    ensures r.Valid? <==> title.Some? && documentContent.Some? && Base64.WellFormed(documentContent.value)
    ensures r.Valid? ==>
      && r.value.title == title.value
      && r.value.documentContent == documentContent.value
      && r.value.documentType == (if documentType.Some? then documentType.value else Some(DefaultDocumentType))
    ensures r.Invalid? ==>
      && (Reports(r.errors, "title") <==> title.None?)
      && (Reports(r.errors, "document_content") <==>
            documentContent.None? || !Base64.WellFormed(documentContent.value))
  {
    var titleErrors := if title.None? then [Missing("title")] else [];
    var contentErrors := ContentErrors(documentContent);
    var errors := titleErrors + contentErrors;
    ReportsConcat(titleErrors, contentErrors, "title");
    ReportsConcat(titleErrors, contentErrors, "document_content");
    assert titleErrors != [] ==> titleErrors[0].loc == "title";
    assert contentErrors != [] ==> contentErrors[0].loc == "document_content";
    if errors == [] then
      Valid(DocumentIngestRequest(
        title.value,
        if documentType.Some? then documentType.value else Some(DefaultDocumentType),
        documentContent.value))
    else
      Invalid(errors)
  }

  /** The standard encoding of any byte string is accepted unchanged, and the document type
      defaults to "documento-pdf". */
  lemma EncodedContentAccepted(title: string, data: seq<Base64.Byte>)
    ensures NewDocumentIngestRequest(Some(title), None, Some(Base64.Encode(data)))
      == Valid(DocumentIngestRequest(title, Some(DefaultDocumentType), Base64.Encode(data)))
  {
    Base64.EncodeWellFormed(data);
  }

  /** A body such as "not-valid-base64!!!" is refused with the validator's message. */
  lemma DashedContentRejected()
    ensures ValidateBase64("not-valid-base64!!!") == Err(ValueError(InvalidBase64Message))
  {
    Base64.RejectsForeignCharacter("not-valid-base64!!!", 3);
  }
}
