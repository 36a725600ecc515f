/// The document viewer's page navigation: the current page, the page count
/// the PDF loader reports, and the Previous and Next buttons.
module Viewer {

  function Max(a: int, b: int): int { if a < b then b else a }

  function Min(a: int, b: int): int { if a < b then a else b }

  class DocumentViewer {
    var numPages: int
    var pageNumber: int

    /** The shown page is one of the document's pages. */
    ghost predicate Valid()
      reads this
    {
      1 <= pageNumber <= numPages
    }

    predicate PreviousDisabled()
      reads this
    {
      pageNumber <= 1
    }

    predicate NextDisabled()
      reads this
    {
      pageNumber >= numPages
    }

    /** Both the page and the count start at 1. */
    constructor()
      ensures numPages == 1 && pageNumber == 1
      ensures Valid()
    {
      numPages := 1;
      pageNumber := 1;
    }

    /** The Previous button's `onClick`: one page back, but not below page 1.
        On a valid state an enabled click moves back exactly one page and a
        disabled one would change nothing. */
    method Previous()
      modifies this`pageNumber
      ensures pageNumber == Max(1, old(pageNumber) - 1)
      ensures old(Valid()) ==> Valid()
      ensures !old(PreviousDisabled()) ==> pageNumber == old(pageNumber) - 1
      ensures old(Valid()) && old(PreviousDisabled()) ==> pageNumber == old(pageNumber)
    {
      pageNumber := Max(1, pageNumber - 1);
    }

    /** The Next button's `onClick`: one page on, but not past the last page.
        On a valid state an enabled click moves on exactly one page and a
        disabled one would change nothing. */
    method Next()
      modifies this`pageNumber
      ensures pageNumber == Min(numPages, old(pageNumber) + 1)
      ensures old(Valid()) ==> Valid()
      ensures !old(NextDisabled()) ==> pageNumber == old(pageNumber) + 1
      ensures old(Valid()) && old(NextDisabled()) ==> pageNumber == old(pageNumber)
    {
      pageNumber := Min(numPages, pageNumber + 1);
    }

    /** `onLoadSuccess` as written: the new count replaces the old one and the
        page is kept, which stays valid only when the new document has at least
        as many pages as the page shown. */
    method OnLoadSuccess(n: int)
      modifies this`numPages
      ensures numPages == n && pageNumber == old(pageNumber)
      ensures old(Valid()) && n >= old(pageNumber) ==> Valid()
      ensures n < old(pageNumber) ==> !Valid()
    {
      numPages := n;
    }

    /** `onLoadSuccess` with the page clamped into the new document: every
        document with at least one page leaves the viewer valid, and a page
        that still exists is kept. */
    method OnLoadSuccessClamped(n: int)
      modifies this`numPages, this`pageNumber
      ensures numPages == n && pageNumber == Max(1, Min(old(pageNumber), n))
      ensures n >= 1 ==> Valid()
      ensures 1 <= old(pageNumber) <= n ==> pageNumber == old(pageNumber)
    {
      numPages := n;
      pageNumber := Max(1, Min(pageNumber, n));
    }
  }

  /** The viewer is not remounted when another file is selected, so its page
      survives the switch: page 3 of a five-page PDF, then a two-page PDF,
      shows "Page 3 of 2". */
  method ShorterDocumentOverrunsPage() returns (viewer: DocumentViewer)
    ensures viewer.pageNumber == 3 && viewer.numPages == 2 && !viewer.Valid()
  {
    viewer := new DocumentViewer();
    viewer.OnLoadSuccess(5);
    viewer.Next();
    viewer.Next();
    viewer.OnLoadSuccess(2);
  }

  /** With the clamped load the same steps show page 2 of 2. */
  method ShorterDocumentClampsPage() returns (viewer: DocumentViewer)
    ensures viewer.pageNumber == 2 && viewer.numPages == 2 && viewer.Valid()
  {
    viewer := new DocumentViewer();
    viewer.OnLoadSuccessClamped(5);
    viewer.Next();
    viewer.Next();
    viewer.OnLoadSuccessClamped(2);
  }
}
