/**
 * The PDF viewer's page navigation: the chosen file, the page count reported by the PDF
 * library once the document loads, the current page and the last load error.
 */
module PdfViewer {
  import opened Wrappers

  /** The file picked in the file input (its contents are not modelled). */
  datatype PdfFile = PdfFile(name: string)

  /** One page back, never below page 1: `Math.max(1, page - 1)`. */
  function StepBack(page: int): (r: int)
    ensures r >= 1
    ensures !PrevDisabled(page) ==> r == page - 1
    ensures page >= 1 && PrevDisabled(page) ==> r == page
  {
    if page - 1 >= 1 then page - 1 else 1
  }

  /** One page forward, never past the last page: `Math.min(numPages, page + 1)`. */
  function StepForward(page: int, numPages: nat): (r: int)
    ensures r <= numPages
    ensures !NextDisabled(page, Some(numPages)) ==> r == page + 1
    ensures page <= numPages && NextDisabled(page, Some(numPages)) ==> r == page
  {
    if numPages <= page + 1 then numPages else page + 1
  }

  /** The "<" button is disabled on page 1 (and below). */
  predicate PrevDisabled(page: int) {
    page <= 1
  }

  /**
   * The ">" button is disabled from the last page on. Before the document has loaded the page
   * count is `null`, which JavaScript's `>=` compares as 0, so the button is disabled then too.
   */
  predicate NextDisabled(page: int, numPages: Option<nat>) {
    page >= (if numPages.Some? then numPages.value else 0)
  }

  /** From a page in range, both steps stay in range. */
  lemma StepsStayInBounds(page: int, numPages: nat)
    requires 1 <= page <= numPages
    ensures 1 <= StepBack(page) <= numPages
    ensures 1 <= StepForward(page, numPages) <= numPages
  {
  }

  /** Back then forward, or forward then back, returns to the page where the button was enabled. */
  lemma StepsAreInverse(page: int, numPages: nat)
    requires 1 <= page <= numPages
    ensures !PrevDisabled(page) ==> StepForward(StepBack(page), numPages) == page
    ensures !NextDisabled(page, Some(numPages)) ==> StepBack(StepForward(page, numPages)) == page
  {
  }

  /** On a page at or after 1, the ">" button can only be enabled once the page count is known. */
  lemma NextEnabledOnlyAfterLoad(page: int, numPages: Option<nat>)
    requires page >= 0
    ensures !NextDisabled(page, numPages) ==> numPages.Some? && page < numPages.value
  {
  }

  class Viewer {
    var pdfFile: Option<PdfFile>
    var numPages: Option<nat>
    var pageNumber: int
    var pdfError: Option<string>

    /** A page count is known and the current page lies within it. */
    predicate InBounds()
      reads this
    {
      numPages.Some? && 1 <= numPages.value && 1 <= pageNumber <= numPages.value
    }

    constructor ()
      ensures pdfFile == None && numPages == None && pageNumber == 1 && pdfError == None
    {
      pdfFile, numPages, pageNumber, pdfError := None, None, 1, None;
    }

    /**
     * A file is chosen (or the choice is cancelled, `None`): back to page 1. The page count and
     * any earlier load error are left as they were.
     */
    method HandleFileChange(file: Option<PdfFile>)
      modifies this`pdfFile, this`pageNumber
      ensures pdfFile == file && pageNumber == 1
    {
      pdfFile := file;
      pageNumber := 1;
    }

    /** The document loaded with `n` pages; the current page is not adjusted. */
    method OnDocumentLoadSuccess(n: nat)
      modifies this`numPages
      ensures numPages == Some(n)
    {
      numPages := Some(n);
    }

    /** The document failed to load; its message is recorded for display. */
    method OnDocumentLoadError(message: string)
      modifies this`pdfError
      ensures pdfError == Some(message)
    {
      pdfError := Some(message);
    }

    /** "<": one page back, a no-op exactly where the button is disabled (for pages from 1 on). */
    method GoToPreviousPage()
      modifies this`pageNumber
      ensures pageNumber == StepBack(old(pageNumber)) && pageNumber >= 1
      ensures old(pageNumber) >= 1 ==> (pageNumber == old(pageNumber) <==> PrevDisabled(old(pageNumber)))
      ensures old(InBounds()) ==> InBounds()
    {
      pageNumber := StepBack(pageNumber);
    }

    /** ">": one page forward, a no-op exactly where the button is disabled (for pages up to the count). */
    method GoToNextPage()
      requires numPages.Some?
      modifies this`pageNumber
      ensures pageNumber == StepForward(old(pageNumber), numPages.value) && pageNumber <= numPages.value
      ensures old(pageNumber) <= numPages.value ==>
        (pageNumber == old(pageNumber) <==> NextDisabled(old(pageNumber), numPages))
      ensures old(InBounds()) ==> InBounds()
    {
      pageNumber := StepForward(pageNumber, numPages.value);
    }
  }

  /**
   * Choosing a new file keeps the old page count until the new document loads, so ">" still
   * works against the old count meanwhile: a 5-page file, then a 2-page file, with ">" pressed
   * four times before the second loads, ends on "Page 5 of 2".
   */
  method StalePageCountAfterFileChange() returns (v: Viewer)
    ensures v.pageNumber == 5 && v.numPages == Some(2) && !v.InBounds()
  {
    v := new Viewer();
    v.HandleFileChange(Some(PdfFile("first.pdf")));
    v.OnDocumentLoadSuccess(5);
    v.HandleFileChange(Some(PdfFile("second.pdf")));
    v.GoToNextPage();
    v.GoToNextPage();
    v.GoToNextPage();
    v.GoToNextPage();
    v.OnDocumentLoadSuccess(2);
  }
}
