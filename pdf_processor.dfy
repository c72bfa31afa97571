/**
 * `ImprovedPDFProcessor`: the decision of whether a PDF is read as text or as page images,
 * and the fixed-priority document-type guess on its text. Rasterisation and text
 * extraction themselves are inputs here: each page arrives as its extracted text.
 */
module PdfProcessor {
  import opened Wrappers
  import opened Text

  const MaxPages: nat := 30

  /** Text longer than this (after stripping) on some page makes the PDF "mixed". */
  const MeaningfulPageText: nat := 50

  /** Text longer than this (after stripping) is handed on as text rather than images. */
  const TextHandOff: nat := 200

  /** `_detect_document_type`: four substring tests in a fixed order. */
  function DetectDocumentType(text: string): (r: Option<string>)
    ensures r == Some("건축물대장") <==> Contains(text, "건축물대장") || Contains(text, "표제부")
    ensures r == Some("등기부등본") <==>
      !(Contains(text, "건축물대장") || Contains(text, "표제부"))
      && (Contains(text, "등기사항전부증명서") || Contains(text, "갑구"))
    ensures r.None? <==>
      !Contains(text, "건축물대장") && !Contains(text, "표제부") && !Contains(text, "등기사항전부증명서")
      && !Contains(text, "갑구") && !Contains(text, "토지대장") && !Contains(text, "토지이용계획")
  {
    if Contains(text, "건축물대장") || Contains(text, "표제부") then Some("건축물대장")
    else if Contains(text, "등기사항전부증명서") || Contains(text, "갑구") then Some("등기부등본")
    else if Contains(text, "토지대장") then Some("토지대장")
    else if Contains(text, "토지이용계획") then Some("토지이용계획확인원")
    else None
  }

  datatype ExtractionMethod = Mixed | ImageOnly

  /** `PDFContent`, with the page images represented by their number. */
  datatype PdfContent = PdfContent(
    totalPages: nat,
    textContent: string,
    hasText: bool,
    imageCount: nat,
    hasImages: bool,
    extractionMethod: ExtractionMethod,
    documentType: Option<string>)

  predicate Meaningful(pageText: string)
  {
    |Strip(pageText)| > MeaningfulPageText
  }

  function Min(a: nat, b: nat): nat { if a < b then a else b }

  /**
   * The page loop of `_extract_with_pymupdf`: each page's text is collected and rendered to
   * one image, and the flag records whether some page passes `meaningful`.
   */
  method ReadPages(pages: seq<string>, total: nat, meaningful: string -> bool)
    returns (textParts: seq<string>, images: nat, hasMeaningful: bool)
    requires total <= |pages|
    ensures textParts == pages[..total] && images == total
    ensures hasMeaningful <==> exists i :: 0 <= i < total && meaningful(pages[i])
  {
    textParts := [];
    images := 0;
    hasMeaningful := false;
    for pageNum := 0 to total
      invariant textParts == pages[..pageNum] && images == pageNum
      invariant hasMeaningful <==> exists i :: 0 <= i < pageNum && meaningful(pages[i])
    {
      var text := pages[pageNum];
      textParts := textParts + [text];
      if meaningful(text) {
        hasMeaningful := true;
      }
      images := images + 1;
    }
  }

  /**
   * `_extract_with_pymupdf` over the texts the pages yield: the first `MaxPages` pages are
   * read, each contributes one image, and the texts are joined by newlines.
   */
  method Extract(pageTexts: seq<string>) returns (c: PdfContent)
    ensures c.totalPages == Min(|pageTexts|, MaxPages)
    ensures c.hasText <==> exists i :: 0 <= i < c.totalPages && Meaningful(pageTexts[i])
    ensures c.extractionMethod == Mixed <==> c.hasText
    ensures c.textContent == Join(pageTexts[..c.totalPages], "\n")
    ensures c.imageCount == c.totalPages && (c.hasImages <==> c.totalPages > 0)
    ensures c.documentType == DetectDocumentType(c.textContent)
  {
    var total := Min(|pageTexts|, MaxPages);
    var textParts, images, hasMeaningful := ReadPages(pageTexts, total, Meaningful);
    var full := Join(textParts, "\n");
    c := PdfContent(total, full, hasMeaningful, images, images > 0,
                    if hasMeaningful then Mixed else ImageOnly, DetectDocumentType(full));
  }

  /** What `extract_content_from_pdf` hands on. */
  datatype Extracted = AsText(text: string) | AsImages(count: nat) | Nothing

  /** `extract_content_from_pdf`: the text when it is meaningful and long, else the images. */
  function HandOff(c: PdfContent): (r: Extracted)
    ensures r.AsText? <==> c.hasText && |Strip(c.textContent)| > TextHandOff
    ensures r.AsText? ==> r.text == c.textContent
    ensures r.Nothing? <==> !r.AsText? && !c.hasImages
  {
    if c.hasText && |Strip(c.textContent)| > TextHandOff then AsText(c.textContent)
    else if c.hasImages then AsImages(c.imageCount)
    else Nothing
  }
}
