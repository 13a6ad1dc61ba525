/** The management view (src/pages/Management.tsx): the staff's list of parts, three per
    page, with search, sale, edit and delete. Its component state is the fields of
    `ManagementPage`; the requests it sends to the inventory through the `onAddPart`,
    `onUpdatePart` and `onDeletePart` callbacks are returned as `Request` values. */
module Management {
  import opened Parts
  import TextFilter
  import Paging
  import Pagination
  import SellModal
  import Seqs
  import PartForm

  const ItemsPerPage: nat := 3
  const AddErrorMessage := "Erro ao adicionar peça. Por favor, tente novamente."

  /** A call the view makes on the inventory. */
  datatype Request = Add(draft: Draft) | Update(id: string, patch: Patch) | Delete(id: string)

  /** The list after a sale: `parts.map(part => part.id === id ? { ...part, quantity } : part)`. */
  function WithQuantity(parts: seq<Part>, id: string, quantity: int): seq<Part>
  {
    seq(|parts|, i requires 0 <= i < |parts| => if parts[i].id == id then parts[i].(quantity := quantity) else parts[i])
  }

  /** A sale rewrites the stock of the records carrying the sold id and nothing else. */
  lemma WithQuantitySpec(parts: seq<Part>, id: string, quantity: int)
    ensures |WithQuantity(parts, id, quantity)| == |parts|
    ensures forall i :: 0 <= i < |parts| && parts[i].id != id ==> WithQuantity(parts, id, quantity)[i] == parts[i]
    ensures forall i :: 0 <= i < |parts| && parts[i].id == id ==>
      WithQuantity(parts, id, quantity)[i].quantity == quantity &&
      WithQuantity(parts, id, quantity)[i] == parts[i].(quantity := quantity)
    ensures forall i :: 0 <= i < |parts| ==> WithQuantity(parts, id, quantity)[i].id == parts[i].id
  {
  }

  /** An amount the sale dialog accepts never drives the stock written for the sold part below zero. */
  lemma SaleLeavesStockNonNegative(parts: seq<Part>, selling: Part, input: string)
    requires SellModal.AcceptedInput(input)
    requires SellModal.Validate(input, selling.quantity).Success?
    ensures var q := SellModal.Validate(input, selling.quantity).value;
      forall i :: 0 <= i < |parts| && parts[i].id == selling.id ==>
        WithQuantity(parts, selling.id, selling.quantity - q)[i].quantity >= 0
  {
  }

  class ManagementPage {
    /** The `parts` prop. */
    var parts: seq<Part>
    var currentPage: int
    var isAddingPart: bool
    var editingPart: Option<Part>
    var error: Option<string>
    var sellingPart: Option<Part>
    var deletingPart: Option<Part>
    var filteredParts: seq<Part>

    /** The page controls never move below page 1. */
    predicate Valid()
      reads this
    {
      currentPage >= 1
    }

    constructor (parts: seq<Part>)
      ensures Valid()
      ensures this.parts == parts && filteredParts == parts && currentPage == 1
      ensures !isAddingPart && editingPart.None? && error.None? && sellingPart.None? && deletingPart.None?
    {
      this.parts := parts;
      currentPage := 1;
      isAddingPart := false;
      editingPart := None;
      error := None;
      sellingPart := None;
      deletingPart := None;
      filteredParts := parts;
    }

    /** A new `parts` prop: `filteredParts` was seeded once by `useState` and does not follow it. */
    method SetParts(parts: seq<Part>)
      modifies this`parts
      ensures this.parts == parts
    {
      this.parts := parts;
    }

    function TotalPages(): (n: nat)
      reads this
      ensures |filteredParts| <= n * ItemsPerPage
      ensures n == 0 || (n - 1) * ItemsPerPage < |filteredParts|
    {
      Paging.TotalPages(|filteredParts|, ItemsPerPage)
    }

    /** The parts on screen: the current page of the filtered list, never more than three. */
    function CurrentParts(): (r: seq<Part>)
      reads this
      requires Valid()
      ensures r == filteredParts[Paging.Min((currentPage - 1) * ItemsPerPage, |filteredParts|)..Paging.Min(currentPage * ItemsPerPage, |filteredParts|)]
      ensures |r| <= ItemsPerPage
      ensures forall k :: 0 <= k < |r| ==>
        (currentPage - 1) * ItemsPerPage + k < |filteredParts| && r[k] == filteredParts[(currentPage - 1) * ItemsPerPage + k]
      ensures currentPage > TotalPages() ==> r == []
      ensures currentPage <= TotalPages() ==> r != []
    {
      Paging.PageItemsSpec(filteredParts, currentPage, ItemsPerPage);
      if currentPage > TotalPages() then
        Paging.PageBeyondLastIsEmpty(filteredParts, currentPage, ItemsPerPage);
        Paging.PageItems(filteredParts, currentPage, ItemsPerPage)
      else
        Paging.PagesInRangeAreNonEmpty(filteredParts, currentPage, ItemsPerPage);
        Paging.PageItems(filteredParts, currentPage, ItemsPerPage)
    }

    /** The page controls appear only when the filtered list does not fit on one page. */
    predicate ShowsPagination()
      reads this
    {
      |filteredParts| > ItemsPerPage
    }

    function Controls(): (c: Pagination.Controls)
      reads this
      requires ShowsPagination()
      ensures |c.pages| == TotalPages() >= 2
    {
      Paging.OverflowMeansSeveralPages(|filteredParts|, ItemsPerPage);
      Pagination.Render(currentPage, TotalPages())
    }

    /** `handleSearch`: a blank term restores the whole prop list, any other keeps the matches;
        the current page is left where it was. */
    method HandleSearch(term: string)
      modifies this`filteredParts
      ensures filteredParts == TextFilter.Search(parts, term)
    {
      if TextFilter.IsBlank(term) {
        filteredParts := parts;
      } else {
        filteredParts := TextFilter.Matching(parts, term);
      }
    }

    /** `handleSearch` as the catalog writes it, returning to page 1: the current page then always
        shows the first results, and it is empty only when nothing matched. */
    method HandleSearchResettingPage(term: string)
      modifies this`currentPage, this`filteredParts
      ensures Valid() && currentPage == 1
      ensures filteredParts == TextFilter.Search(parts, term)
      ensures CurrentParts() == filteredParts[..Paging.Min(ItemsPerPage, |filteredParts|)]
      ensures CurrentParts() == [] <==> filteredParts == []
    {
      currentPage := 1;
      HandleSearch(term);
      Paging.PageItemsSpec(filteredParts, 1, ItemsPerPage);
    }

    /** The "previous" button, when enabled, moves one page back (`onPageChange(currentPage - 1)`). */
    method ClickPrevious()
      requires Valid() && ShowsPagination()
      modifies this`currentPage
      ensures Valid()
      ensures currentPage == if old(currentPage) == 1 then old(currentPage) else old(currentPage) - 1
    {
      var controls := Controls();
      if !controls.previous.disabled {
        currentPage := controls.previous.target;
      }
    }

    /** The "next" button, when enabled, moves one page on; it is enabled on every page but the last. */
    method ClickNext()
      requires Valid() && ShowsPagination()
      modifies this`currentPage
      ensures Valid()
      ensures currentPage == if old(currentPage) == old(TotalPages()) then old(currentPage) else old(currentPage) + 1
    {
      var controls := Controls();
      if !controls.next.disabled {
        currentPage := controls.next.target;
      }
    }

    /** A numbered button requests its own page. */
    method ClickPage(index: nat)
      requires Valid() && ShowsPagination() && index < TotalPages()
      modifies this`currentPage
      ensures Valid() && currentPage == index + 1
    {
      var controls := Controls();
      currentPage := controls.pages[index].page;
    }

    /** The "Adicionar Peça" button opens the add form. */
    method OpenAddForm()
      modifies this`isAddingPart
      ensures isAddingPart
    {
      isAddingPart := true;
    }

    /** The add form's close button hides it again. */
    method CloseAddForm()
      modifies this`isAddingPart
      ensures !isAddingPart
    {
      isAddingPart := false;
    }

    /** `handleAddPart`: the draft is sent; success closes the form and clears the error, failure sets it.
        The `catch` ends the failure there, so the promise the form awaits never rejects. */
    method HandleAddPart(draft: Draft, addFails: bool) returns (request: Request, rejects: bool)
      modifies this`isAddingPart, this`error
      ensures request == Add(draft)
      ensures !addFails ==> !isAddingPart && error.None?
      ensures addFails ==> isAddingPart == old(isAddingPart) && error == Some(AddErrorMessage)
      ensures !rejects
    {
      request := Add(draft);
      rejects := false;
      if addFails {
        error := Some(AddErrorMessage);
      } else {
        isAddingPart := false;
        error := None;
      }
    }

    /** `handleAddPart` with the failure passed on to the form after the message is set: the page
        changes as before, and the promise rejects exactly when the add failed. */
    method HandleAddPartRethrowing(draft: Draft, addFails: bool) returns (request: Request, rejects: bool)
      modifies this`isAddingPart, this`error
      ensures request == Add(draft)
      ensures !addFails ==> !isAddingPart && error.None?
      ensures addFails ==> isAddingPart == old(isAddingPart) && error == Some(AddErrorMessage)
      ensures rejects <==> addFails
    {
      request := Add(draft);
      rejects := addFails;
      if addFails {
        error := Some(AddErrorMessage);
      } else {
        isAddingPart := false;
        error := None;
      }
    }

    /** The sale button of a card opens the sale dialog for that part. */
    method SelectForSale(part: Part)
      modifies this`sellingPart
      ensures sellingPart == Some(part)
    {
      sellingPart := Some(part);
    }

    /** The edit button of a card opens the edit form for that part. */
    method SelectForEdit(part: Part)
      modifies this`editingPart
      ensures editingPart == Some(part)
    {
      editingPart := Some(part);
    }

    /** `handleDeleteClick`: the delete button of a card opens the confirmation for that part. */
    method HandleDeleteClick(part: Part)
      modifies this`deletingPart
      ensures deletingPart == Some(part)
    {
      deletingPart := Some(part);
    }

    /** `handleSell`: with a part being sold, the stock `old - sold` is sent as an update holding only
        `quantity`; once that promise resolves, the same stock is written into every filtered record
        with the part's id and the dialog closes, and if it rejects both stay as they were. Without a
        part being sold nothing happens. */
    method HandleSell(quantity: int, onUpdateRejects: bool) returns (request: Option<Request>)
      modifies this`filteredParts, this`sellingPart
      ensures old(sellingPart).None? ==>
        request.None? && filteredParts == old(filteredParts) && sellingPart == old(sellingPart)
      ensures old(sellingPart).Some? ==>
        var sold := old(sellingPart).value;
        && request == Some(Update(sold.id, QuantityPatch(sold.quantity - quantity)))
        && (onUpdateRejects ==> filteredParts == old(filteredParts) && sellingPart == old(sellingPart))
        && (!onUpdateRejects ==>
              filteredParts == WithQuantity(old(filteredParts), sold.id, sold.quantity - quantity) && sellingPart.None?)
    {
      if sellingPart.None? {
        return None;
      }
      var sold := sellingPart.value;
      var updatedQuantity := sold.quantity - quantity;
      request := Some(Update(sold.id, QuantityPatch(updatedQuantity)));
      if !onUpdateRejects {
        filteredParts := WithQuantity(filteredParts, sold.id, updatedQuantity);
        sellingPart := None;
      }
    }

    /** `handleEditPart`: with a part being edited, the submitted draft is sent as an update of that id
        and the form closes; otherwise nothing happens. */
    method HandleEditPart(draft: Draft) returns (request: Option<Request>)
      modifies this`editingPart
      ensures old(editingPart).None? ==> request.None? && editingPart.None?
      ensures old(editingPart).Some? ==>
        request == Some(Update(old(editingPart).value.id, DraftPatch(draft))) && editingPart.None?
    {
      if editingPart.None? {
        return None;
      }
      request := Some(Update(editingPart.value.id, DraftPatch(draft)));
      editingPart := None;
    }

    /** `handleDeleteConfirm`: with a part awaiting deletion, its id is sent for deletion and the
        confirmation closes; otherwise nothing is sent. */
    method HandleDeleteConfirm() returns (request: Option<Request>)
      modifies this`deletingPart
      ensures old(deletingPart).Some? ==> request == Some(Delete(old(deletingPart).value.id))
      ensures old(deletingPart).None? ==> request.None?
      ensures deletingPart.None?
    {
      if deletingPart.Some? {
        request := Some(Delete(deletingPart.value.id));
        deletingPart := None;
      } else {
        request := None;
      }
    }
  }

  /** The add dialog: the form hands its draft to `handleAddPart` and clears itself once that promise
      settles. Because `handleAddPart` swallows the failure, a refused add only sets the page's `error`
      state, which the page never renders, while the still-open form has lost everything that was
      typed. */
  method SubmitAddForm(page: ManagementPage, form: PartForm.Form, addFails: bool) returns (request: Request)
    modifies page`isAddingPart, page`error, form
    ensures request == Add(PartForm.Payload(old(form.formData)))
    ensures addFails ==>
      page.error == Some(AddErrorMessage) && page.isAddingPart == old(page.isAddingPart) &&
      form.formData == PartForm.EmptyForm && form.previewUrl == ""
    ensures !addFails ==>
      page.error.None? && !page.isAddingPart && form.formData == PartForm.EmptyForm && form.previewUrl == ""
  {
    var rejects;
    request, rejects := page.HandleAddPart(PartForm.Payload(form.formData), addFails);
    var _ := form.HandleSubmit(rejects);
  }

  /** The add dialog with a rethrowing `handleAddPart`: a refused add sets the `error` state and keeps
      what was typed, so it can be sent again; a successful one closes the dialog with a blank form. */
  method SubmitAddFormRethrowing(page: ManagementPage, form: PartForm.Form, addFails: bool) returns (request: Request)
    modifies page`isAddingPart, page`error, form
    ensures request == Add(PartForm.Payload(old(form.formData)))
    ensures addFails ==>
      page.error == Some(AddErrorMessage) && page.isAddingPart == old(page.isAddingPart) &&
      form.formData == old(form.formData) && form.previewUrl == old(form.previewUrl)
    ensures !addFails ==>
      page.error.None? && !page.isAddingPart && form.formData == PartForm.EmptyForm && form.previewUrl == ""
  {
    var rejects;
    request, rejects := page.HandleAddPartRethrowing(PartForm.Payload(form.formData), addFails);
    var _ := form.HandleSubmit(rejects);
  }

  /** A search from page 2 that leaves a single result: the list had two pages, the search keeps the
      page number, so the view shows page 2 of a one-item list, which is empty, and it shows no page
      controls to go back with. */
  lemma StrandedAfterSearch()
    ensures var parts := [OilFilter(), Belt("2"), Belt("3"), Belt("4")];
      var results := TextFilter.Search(parts, "filt");
      && Paging.TotalPages(|parts|, ItemsPerPage) == 2
      && results == [OilFilter()]
      && Paging.PageItems(results, 2, ItemsPerPage) == []
      && |results| <= ItemsPerPage
  {
    OnlyOilFilterMatches();
    Paging.PageBeyondLastIsEmpty([OilFilter()], 2, ItemsPerPage);
  }

  /** Of the oil filter and three belts, a search for "filt" keeps just the oil filter. */
  lemma OnlyOilFilterMatches()
    ensures TextFilter.Search([OilFilter(), Belt("2"), Belt("3"), Belt("4")], "filt") == [OilFilter()]
  {
    var belts := [Belt("2"), Belt("3"), Belt("4")];
    TextFilter.FiltIsPlainQuery();
    TextFilter.OilMatchesFilt(OilFilter());
    forall i | 0 <= i < |belts| ensures !TextFilter.Matches(belts[i], "filt") {
      TextFilter.BeltMissesFilt(belts[i]);
    }
    TextFilter.SearchKeepsOnlyHead(OilFilter(), belts, "filt");
    assert [OilFilter()] + belts == [OilFilter(), Belt("2"), Belt("3"), Belt("4")];
  }

  /** An oil filter in stock. */
  function OilFilter(): Part
  {
    Part("1", "Filtro de Óleo", "", 10, 2500, "", "", "")
  }

  /** A drive belt in stock, stored under the given id. */
  function Belt(id: string): Part
  {
    Part(id, "Correia", "", 5, 4000, "", "", "")
  }
}
