/** The public catalog (src/pages/Catalog.tsx): the parts it is given, twelve per page,
    with a search that always returns to the first page. */
module Catalog {
  import opened Parts
  import TextFilter
  import Paging
  import Pagination

  const ItemsPerPage: nat := 12

  class CatalogPage {
    /** The `parts` prop. */
    var parts: seq<Part>
    var currentPage: int
    var filteredParts: seq<Part>

    predicate Valid()
      reads this
    {
      currentPage >= 1
    }

    constructor (parts: seq<Part>)
      ensures Valid()
      ensures this.parts == parts && filteredParts == parts && currentPage == 1
    {
      this.parts := parts;
      currentPage := 1;
      filteredParts := parts;
    }

    /** A new `parts` prop: `filteredParts` was seeded once by `useState` and does not follow it. */
    method SetParts(parts: seq<Part>)
      modifies this`parts
      ensures this.parts == parts
    {
      this.parts := parts;
    }

    function TotalPages(): (n: nat)
      reads this
      ensures |filteredParts| <= n * ItemsPerPage
      ensures n == 0 || (n - 1) * ItemsPerPage < |filteredParts|
    {
      Paging.TotalPages(|filteredParts|, ItemsPerPage)
    }

    /** The cards on screen: the current page of the filtered list, at most twelve. */
    function CurrentParts(): (r: seq<Part>)
      reads this
      requires Valid()
      ensures r == filteredParts[Paging.Min((currentPage - 1) * ItemsPerPage, |filteredParts|)..Paging.Min(currentPage * ItemsPerPage, |filteredParts|)]
      ensures |r| <= ItemsPerPage
      ensures forall k :: 0 <= k < |r| ==>
        (currentPage - 1) * ItemsPerPage + k < |filteredParts| && r[k] == filteredParts[(currentPage - 1) * ItemsPerPage + k]
      ensures currentPage <= TotalPages() <==> r != []
    {
      Paging.PageItemsSpec(filteredParts, currentPage, ItemsPerPage);
      if currentPage > TotalPages() then
        Paging.PageBeyondLastIsEmpty(filteredParts, currentPage, ItemsPerPage);
        Paging.PageItems(filteredParts, currentPage, ItemsPerPage)
      else
        Paging.PagesInRangeAreNonEmpty(filteredParts, currentPage, ItemsPerPage);
        Paging.PageItems(filteredParts, currentPage, ItemsPerPage)
    }

    /** The "no parts available" message: shown exactly when the filtered list is empty, and then
        no card is on screen. */
    function ShowsEmptyMessage(): (shown: bool)
      reads this
      requires Valid()
      ensures shown <==> filteredParts == []
      ensures shown ==> CurrentParts() == []
    {
      |filteredParts| == 0
    }

    /** The page controls appear only when the filtered list does not fit on one page. */
    predicate ShowsPagination()
      reads this
    {
      |filteredParts| > ItemsPerPage
    }

    function Controls(): (c: Pagination.Controls)
      reads this
      requires ShowsPagination()
      ensures |c.pages| == TotalPages() >= 2
    {
      Paging.OverflowMeansSeveralPages(|filteredParts|, ItemsPerPage);
      Pagination.Render(currentPage, TotalPages())
    }

    /** `handleSearch`: back to page 1, then the whole prop list for a blank term or the matches otherwise. */
    method HandleSearch(term: string)
      modifies this`currentPage, this`filteredParts
      ensures Valid()
      ensures currentPage == 1
      ensures filteredParts == TextFilter.Search(parts, term)
    {
      currentPage := 1;
      if TextFilter.IsBlank(term) {
        filteredParts := parts;
        return;
      }
      filteredParts := TextFilter.Matching(parts, term);
    }

    /** The "previous" button, when enabled, moves one page back. */
    method ClickPrevious()
      requires Valid() && ShowsPagination()
      modifies this`currentPage
      ensures Valid()
      ensures currentPage == if old(currentPage) == 1 then old(currentPage) else old(currentPage) - 1
    {
      var controls := Controls();
      if !controls.previous.disabled {
        currentPage := controls.previous.target;
      }
    }

    /** The "next" button, when enabled, moves one page on. */
    method ClickNext()
      requires Valid() && ShowsPagination()
      modifies this`currentPage
      ensures Valid()
      ensures currentPage == if old(currentPage) == old(TotalPages()) then old(currentPage) else old(currentPage) + 1
    {
      var controls := Controls();
      if !controls.next.disabled {
        currentPage := controls.next.target;
      }
    }

    /** A numbered button requests its own page. */
    method ClickPage(index: nat)
      requires Valid() && ShowsPagination() && index < TotalPages()
      modifies this`currentPage
      ensures Valid() && currentPage == index + 1
    {
      var controls := Controls();
      currentPage := controls.pages[index].page;
    }
  }

  /** After any search the catalog shows the first page, which holds the first (up to) twelve results. */
  lemma SearchShowsFirstResults(parts: seq<Part>, term: string)
    ensures var results := TextFilter.Search(parts, term);
      Paging.PageItems(results, 1, ItemsPerPage) == results[..Paging.Min(ItemsPerPage, |results|)]
  {
    Paging.PageItemsSpec(TextFilter.Search(parts, term), 1, ItemsPerPage);
  }
}
