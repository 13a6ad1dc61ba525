/** The application shell (src/components/AppContent.tsx): it owns the list of parts, loads it from
    the parts store, applies the results of the store's add, update and delete calls to it, and
    hands the public home page only the parts in stock. Each store call is represented by its
    response, passed in as a parameter. */
module AppContent {
  import opened Parts
  import Seqs
  import Management

  const LoadErrorMessage := "Erro ao carregar peças. Tente novamente."
  const AddErrorMessage := "Erro ao adicionar peça. Tente novamente."

  /** `parts.map(p => p.id === id ? part : p)`: every record with the id becomes the store's copy. */
  function ReplaceById(parts: seq<Part>, id: string, part: Part): seq<Part>
  {
    seq(|parts|, i requires 0 <= i < |parts| => if parts[i].id == id then part else parts[i])
  }

  /** An update keeps the length and the order of the list, replaces the records carrying the id
      and leaves every other record as it was. */
  lemma ReplaceByIdSpec(parts: seq<Part>, id: string, part: Part)
    ensures |ReplaceById(parts, id, part)| == |parts|
    ensures forall i :: 0 <= i < |parts| ==>
      ReplaceById(parts, id, part)[i] == (if parts[i].id == id then part else parts[i])
    ensures !HasId(parts, id) ==> ReplaceById(parts, id, part) == parts
    ensures forall q :: q in ReplaceById(parts, id, part) ==> q in parts || q == part
  {
  }

  function IsInStock(): Part -> bool
  {
    (p: Part) => p.quantity > 0
  }

  /** `parts.filter(part => part.quantity > 0)`: what the public home page lists. */
  function InStock(parts: seq<Part>): seq<Part>
  {
    Seqs.Filter(IsInStock(), parts)
  }

  /** The home page shows exactly the parts with stock left, in the order of the full list. */
  lemma InStockSpec(parts: seq<Part>)
    ensures Seqs.IsSubsequence(InStock(parts), parts)
    ensures forall q :: q in InStock(parts) <==> q in parts && q.quantity > 0
    ensures (forall i :: 0 <= i < |parts| ==> parts[i].quantity > 0) ==> InStock(parts) == parts
    ensures forall q :: multiset(InStock(parts))[q] == if q.quantity > 0 then multiset(parts)[q] else 0
  {
    Seqs.FilterIsSubsequence(IsInStock(), parts);
    forall q ensures q in InStock(parts) <==> q in parts && q.quantity > 0 {
      Seqs.FilterMembers(IsInStock(), parts, q);
    }
    InStockCounts(parts);
    if forall i :: 0 <= i < |parts| ==> parts[i].quantity > 0 {
      Seqs.FilterKeepsAll(IsInStock(), parts);
    }
  }

  lemma InStockCounts(parts: seq<Part>)
    ensures forall q :: multiset(InStock(parts))[q] == if q.quantity > 0 then multiset(parts)[q] else 0
  {
    Seqs.FilterMultiset(IsInStock(), parts);
  }

  /** Selling a part's whole stock removes it from the home page. */
  lemma SoldOutLeavesHomePage(parts: seq<Part>, p: Part)
    requires p in parts
    ensures var after := ReplaceById(parts, p.id, ApplyPatch(p, QuantityPatch(0)));
      forall q :: q in InStock(after) ==> q.id != p.id
  {
    var after := ReplaceById(parts, p.id, ApplyPatch(p, QuantityPatch(0)));
    InStockSpec(after);
    SalePatchChangesOnlyQuantity(p, 0);
  }

  /** The management view's own rewrite of its list after a sale agrees with the record the shell
      stores once the parts store returns the patched part, as long as the list holds one record
      per id. */
  lemma SaleViewsAgree(parts: seq<Part>, p: Part, quantity: int)
    requires forall i :: 0 <= i < |parts| && parts[i].id == p.id ==> parts[i] == p
    ensures Management.WithQuantity(parts, p.id, quantity) == ReplaceById(parts, p.id, ApplyPatch(p, QuantityPatch(quantity)))
  {
    SalePatchChangesOnlyQuantity(p, quantity);
  }

  /** The shell's state: the list of parts, the loading spinner and the error line. */
  class Shell {
    var parts: seq<Part>
    var isLoading: bool
    var error: Option<string>

    constructor ()
      ensures parts == [] && isLoading && error.None?
    {
      parts := [];
      isLoading := true;
      error := None;
    }

    /** The list the public home page receives. */
    function HomeCatalogParts(): (r: seq<Part>)
      reads this
      ensures Seqs.IsSubsequence(r, parts)
      ensures forall q :: q in r <==> q in parts && q.quantity > 0
      ensures forall q :: multiset(r)[q] == if q.quantity > 0 then multiset(parts)[q] else 0
    {
      InStockSpec(parts);
      InStock(parts)
    }

    /** `loadParts`: a successful read replaces the list (an absent result counts as empty) and
        clears the error; a failed read keeps the list and sets the error; the spinner stops
        either way. */
    method LoadParts(response: Result<Option<seq<Part>>, StorageError>)
      modifies this
      ensures !isLoading
      ensures response.Success? ==>
        error.None? && parts == (if response.value.Some? then response.value.value else [])
      ensures response.Failure? ==> parts == old(parts) && error == Some(LoadErrorMessage)
    {
      isLoading := true;
      error := None;
      match response {
        case Success(data) =>
          parts := if data.Some? then data.value else [];
        case Failure(_) =>
          error := Some(LoadErrorMessage);
      }
      isLoading := false;
    }

    /** `addPart`: the store's saved record goes to the front of the list and is handed back; a
        failure sets the error, keeps the list and is passed on to the caller. */
    method AddPart(draft: Draft, response: Result<Part, StorageError>) returns (r: Result<Part, StorageError>)
      modifies this`parts, this`error
      ensures r == response
      ensures response.Success? ==> parts == [response.value] + old(parts) && error.None?
      ensures response.Failure? ==> parts == old(parts) && error == Some(AddErrorMessage)
    {
      error := None;
      match response {
        case Success(saved) =>
          parts := [saved] + parts;
        case Failure(_) =>
          error := Some(AddErrorMessage);
      }
      r := response;
    }

    /** `updatePart`: the store's updated record replaces every record with the id; a failure
        leaves the list alone and is not reported to the caller, whose promise always resolves. */
    method UpdatePart(id: string, patch: Patch, response: Result<Part, StorageError>) returns (rejects: bool)
      modifies this`parts
      ensures response.Success? ==> parts == ReplaceById(old(parts), id, response.value)
      ensures response.Failure? ==> parts == old(parts)
      ensures !rejects
    {
      rejects := false;
      if response.Success? {
        parts := ReplaceById(parts, id, response.value);
      }
    }

    /** `updatePart` with the failure passed on to the caller: the list changes as before, and the
        promise rejects exactly when the store refused the update. */
    method UpdatePartRethrowing(id: string, patch: Patch, response: Result<Part, StorageError>) returns (rejects: bool)
      modifies this`parts
      ensures response.Success? ==> parts == ReplaceById(old(parts), id, response.value)
      ensures response.Failure? ==> parts == old(parts)
      ensures rejects <==> response.Failure?
    {
      rejects := response.Failure?;
      if response.Success? {
        parts := ReplaceById(parts, id, response.value);
      }
    }

    /** `deletePart`: once the store confirms, every record with the id leaves the list; a failure
        leaves the list alone and is not reported to the caller. */
    method DeletePart(id: string, response: Result<(), StorageError>)
      modifies this`parts
      ensures response.Success? ==> parts == WithoutId(old(parts), id) && !HasId(parts, id)
      ensures response.Failure? ==> parts == old(parts)
    {
      if response.Success? {
        WithoutIdSpec(parts, id);
        parts := WithoutId(parts, id);
      }
    }
  }

  /** When the store refuses a sale, the management view's list still changes: with the sold part in
      it and a positive amount sold, the rewritten list differs from the list the shell keeps. */
  lemma FailedSaleViewsDisagree(parts: seq<Part>, p: Part, sold: int)
    requires p in parts && sold != 0
    ensures Management.WithQuantity(parts, p.id, p.quantity - sold) != parts
  {
    var i :| 0 <= i < |parts| && parts[i] == p;
    Management.WithQuantitySpec(parts, p.id, p.quantity - sold);
    assert Management.WithQuantity(parts, p.id, p.quantity - sold)[i].quantity != parts[i].quantity;
  }

  /** A confirmed sale as it runs: the management view's `handleSell` awaits the shell's `updatePart`,
      and only a rejected promise keeps its list and dialog. Since `updatePart` swallows the store's
      refusal, a refused sale leaves the shell's list unchanged while the view writes the lower stock
      and closes the dialog. */
  method SellThroughShell(shell: Shell, page: Management.ManagementPage, quantity: int, response: Result<Part, StorageError>)
    returns (request: Option<Management.Request>)
    modifies shell`parts, page`filteredParts, page`sellingPart
    ensures old(page.sellingPart).None? ==>
      request.None? && shell.parts == old(shell.parts) && page.filteredParts == old(page.filteredParts)
    ensures old(page.sellingPart).Some? ==>
      var sold := old(page.sellingPart).value;
      && request == Some(Management.Update(sold.id, QuantityPatch(sold.quantity - quantity)))
      && page.filteredParts == Management.WithQuantity(old(page.filteredParts), sold.id, sold.quantity - quantity)
      && page.sellingPart.None?
      && (response.Success? ==> shell.parts == ReplaceById(old(shell.parts), sold.id, response.value))
      && (response.Failure? ==> shell.parts == old(shell.parts))
      && (response.Failure? && sold in old(page.filteredParts) && quantity != 0 ==>
            page.filteredParts != old(page.filteredParts))
  {
    var rejects := false;
    if page.sellingPart.Some? {
      var sold := page.sellingPart.value;
      rejects := shell.UpdatePart(sold.id, QuantityPatch(sold.quantity - quantity), response);
      if sold in page.filteredParts && quantity != 0 {
        FailedSaleViewsDisagree(page.filteredParts, sold, quantity);
      }
    }
    request := page.HandleSell(quantity, rejects);
  }

  /** The same sale with a rethrowing `updatePart`: a refused sale changes neither list and leaves the
      dialog open; an accepted one updates both lists and closes the dialog. */
  method SellThroughShellRethrowing(shell: Shell, page: Management.ManagementPage, quantity: int, response: Result<Part, StorageError>)
    returns (request: Option<Management.Request>)
    modifies shell`parts, page`filteredParts, page`sellingPart
    ensures old(page.sellingPart).None? ==>
      request.None? && shell.parts == old(shell.parts) && page.filteredParts == old(page.filteredParts)
    ensures old(page.sellingPart).Some? ==>
      var sold := old(page.sellingPart).value;
      && request == Some(Management.Update(sold.id, QuantityPatch(sold.quantity - quantity)))
      && (response.Success? ==>
            && shell.parts == ReplaceById(old(shell.parts), sold.id, response.value)
            && page.filteredParts == Management.WithQuantity(old(page.filteredParts), sold.id, sold.quantity - quantity)
            && page.sellingPart.None?)
      && (response.Failure? ==>
            && shell.parts == old(shell.parts)
            && page.filteredParts == old(page.filteredParts)
            && page.sellingPart == old(page.sellingPart))
  {
    var rejects := false;
    if page.sellingPart.Some? {
      var sold := page.sellingPart.value;
      rejects := shell.UpdatePartRethrowing(sold.id, QuantityPatch(sold.quantity - quantity), response);
    }
    request := page.HandleSell(quantity, rejects);
  }
}
