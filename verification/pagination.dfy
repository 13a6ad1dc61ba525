/** The pagination controls (src/components/Pagination.tsx): a stateless component that
    renders a "previous" button, one button per page and a "next" button. */
module Pagination {

  /** The "previous" or "next" button: the page it requests and whether it is disabled. */
  datatype StepButton = StepButton(target: int, disabled: bool)

  /** A numbered page button: the page it requests and whether it is drawn as the current one. */
  datatype PageButton = PageButton(page: int, highlighted: bool)

  datatype Controls = Controls(previous: StepButton, pages: seq<PageButton>, next: StepButton)

  /** `Array.from({ length: totalPages }, (_, i) => i + 1)`. */
  function PageNumbers(totalPages: nat): seq<int>
  {
    seq(totalPages, i => i + 1)
  }

  /** What the component renders for the given props. */
  function Render(currentPage: int, totalPages: nat): Controls
  {
    var pages := PageNumbers(totalPages);
    Controls(
      StepButton(currentPage - 1, currentPage == 1),
      seq(|pages|, i requires 0 <= i < |pages| => PageButton(pages[i], currentPage == pages[i])),
      StepButton(currentPage + 1, currentPage == totalPages))
  }

  /** The page numbers are exactly 1, 2, ..., totalPages, in increasing order. */
  lemma PageNumbersExact(totalPages: nat)
    ensures |PageNumbers(totalPages)| == totalPages
    ensures forall k :: k in PageNumbers(totalPages) <==> 1 <= k <= totalPages
    ensures forall i, j :: 0 <= i < j < totalPages ==> PageNumbers(totalPages)[i] < PageNumbers(totalPages)[j]
  {
    forall k | 1 <= k <= totalPages ensures k in PageNumbers(totalPages) {
      assert PageNumbers(totalPages)[k - 1] == k;
    }
  }

  /** Exactly the button of the current page is highlighted, and there is one when the current page is in range. */
  lemma HighlightsOnlyCurrentPage(currentPage: int, totalPages: nat)
    ensures var c := Render(currentPage, totalPages);
      forall i :: 0 <= i < |c.pages| ==> (c.pages[i].highlighted <==> i == currentPage - 1)
    ensures var c := Render(currentPage, totalPages);
      (exists i :: 0 <= i < |c.pages| && c.pages[i].highlighted) <==> 1 <= currentPage <= totalPages
  {
    var c := Render(currentPage, totalPages);
    if 1 <= currentPage <= totalPages {
      assert c.pages[currentPage - 1].highlighted;
    }
  }

  /** From a page in range, every button that can be clicked requests a page in range. */
  lemma EnabledButtonsStayInRange(currentPage: int, totalPages: nat)
    requires 1 <= currentPage <= totalPages
    ensures var c := Render(currentPage, totalPages);
      && (!c.previous.disabled ==> 1 <= c.previous.target <= totalPages)
      && (!c.next.disabled ==> 1 <= c.next.target <= totalPages)
      && (forall i :: 0 <= i < |c.pages| ==> 1 <= c.pages[i].page <= totalPages)
  {
  }

  /** "Previous" is disabled exactly on page 1 and "next" exactly on the last page; from a page
      past the last one, "next" stays enabled and leads further away. */
  lemma StepButtonsAtBounds(currentPage: int, totalPages: nat)
    ensures var c := Render(currentPage, totalPages);
      && (c.previous.disabled <==> currentPage == 1)
      && (c.next.disabled <==> currentPage == totalPages)
      && c.previous.target == currentPage - 1
      && c.next.target == currentPage + 1
    ensures currentPage > totalPages ==>
      var c := Render(currentPage, totalPages); !c.next.disabled && c.next.target > totalPages
  {
  }
}
