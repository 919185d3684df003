/** `PDFTextExtractor.extract_with_metadata`: one `Document` per page of an opened PDF, in page
    order, carrying the title, the document type and the zero-based page number. Opening the
    PDF and extracting each page's text is PyMuPDF's work; here a PDF is its page texts. */
module TextExtractor {
  import opened Documents

  /** An opened PDF, as the sequence of the texts `page.get_text("text")` returns. */
  datatype PdfDocument = PdfDocument(pages: seq<string>)
  {
    function PageCount(): nat
    {
      |pages|
    }
  }

  /** The metadata of page `pageNumber`; the key spelling is the extractor's own. */
  function PageMetadata(title: string, documentType: string, pageNumber: int): Metadata
  {
    map["titulo" := Str(title), "tipo_documento" := Str(documentType), "pagina" := Int(pageNumber)]
  }

  /** The records for the first `|pages|` pages, built the way the loop appends them. */
  function Extracted(pages: seq<string>, title: string, documentType: string): (documents: seq<Document>)
    ensures |documents| == |pages|
    decreases |pages|
  {
    if |pages| == 0 then []
    else
      var n := |pages| - 1;
      Extracted(pages[..n], title, documentType) + [Document(pages[n], PageMetadata(title, documentType, n))]
  }

  /** Record `i` holds page `i`'s text verbatim (empty pages included) and page number `i`. */
  lemma {:induction false} ExtractedRecords(pages: seq<string>, title: string, documentType: string)
    ensures forall i :: 0 <= i < |pages| ==>
      Extracted(pages, title, documentType)[i] == Document(pages[i], PageMetadata(title, documentType, i))
    decreases |pages|
  {
    if |pages| > 0 {
      var n := |pages| - 1;
      ExtractedRecords(pages[..n], title, documentType);
      forall i | 0 <= i < n
        ensures Extracted(pages, title, documentType)[i] == Document(pages[i], PageMetadata(title, documentType, i))
      {
        assert pages[..n][i] == pages[i];
      }
    }
  }

  /** Every record's metadata has exactly the keys `titulo`, `tipo_documento` and `pagina`,
      with the given title and type. */
  lemma ExtractedMetadata(pages: seq<string>, title: string, documentType: string, i: int)
    requires 0 <= i < |pages|
    ensures var d := Extracted(pages, title, documentType)[i];
      && d.metadata.Keys == {"titulo", "tipo_documento", "pagina"}
      && d.metadata["titulo"] == Str(title)
      && d.metadata["tipo_documento"] == Str(documentType)
  {
    ExtractedRecords(pages, title, documentType);
  }

  /** Page numbers are strictly increasing: 0, 1, ..., page_count - 1. */
  lemma ExtractedPagesIncrease(pages: seq<string>, title: string, documentType: string, i: int, j: int)
    requires 0 <= i < j < |pages|
    ensures var a := Extracted(pages, title, documentType)[i].metadata;
      var b := Extracted(pages, title, documentType)[j].metadata;
      && "pagina" in a && a["pagina"] == Int(i)
      && "pagina" in b && b["pagina"] == Int(j)
      && a["pagina"].i < b["pagina"].i
  {
    ExtractedRecords(pages, title, documentType);
  }

  /** `extract_with_metadata`: the loop over `range(pdf_document.page_count)`. */
  method ExtractWithMetadata(pdfDocument: PdfDocument, title: string, documentType: string)
    returns (documents: seq<Document>)
    ensures documents == Extracted(pdfDocument.pages, title, documentType)
    ensures |documents| == pdfDocument.PageCount()
    ensures forall i :: 0 <= i < |documents| ==>
      documents[i] == Document(pdfDocument.pages[i], PageMetadata(title, documentType, i))
  {
    var pages := pdfDocument.pages;
    documents := [];
    var pageNumber := 0;
    while pageNumber < pdfDocument.PageCount()
      invariant 0 <= pageNumber <= |pages|
      invariant documents == Extracted(pages[..pageNumber], title, documentType)
    {
      var pageText := pages[pageNumber];
      documents := documents + [Document(pageText, PageMetadata(title, documentType, pageNumber))];
      assert pages[..pageNumber + 1][..pageNumber] == pages[..pageNumber];
      pageNumber := pageNumber + 1;
    }
    assert pages[..pageNumber] == pages;
    ExtractedRecords(pages, title, documentType);
  }
}
