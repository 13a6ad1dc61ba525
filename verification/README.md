# Auto-parts inventory: a verified model of its component logic

The application is a small React inventory for an auto-parts shop. Staff manage parts (add, edit,
sell, delete) on the management page. The public browses a catalog. Staff export a sales report as
CSV or XLSX. Almost all of it is UI bound to a hosted database. This project models, in Dafny, the
sequential logic that sits inside the components:

- **Text search** (`TextFilter`). A part matches when its lowered name or description contains the
  lowered query. A query that trims to nothing keeps every part. The same code is repeated in the
  management page, the catalog, the report page and the search box.
- **Search box** (`SearchBar`). It forwards every keystroke. It offers the first five matches as
  suggestions. Choosing a suggestion searches for that part's name.
- **Paging** (`Paging`, `Pagination`). The visible page is a `slice` of the filtered list, with
  JavaScript's clamping rules. The page count is `Math.ceil`. The controls are a "previous" button,
  one button per page and a "next" button.
- **Management page** (`Management`). It shows three parts per page. It has search, the sale
  dialog's result, editing and deletion. Its calls to the parts store are returned as `Request`
  values.
- **Sale dialog** (`SellModal`). The field accepts digits only. The submitted amount must be positive
  and at most the stock.
- **Catalog** (`Catalog`). It shows twelve parts per page, has a search that returns to page 1, and
  shows an empty-list message.
- **Report page** (`Report`):
  - selection toggled by id, and a length-based "select all";
  - the report grid: a header, one row per part and a total row;
  - the loop that marks the money columns of the sheet as numbers;
  - the file that is delivered.
- **Application shell** (`AppContent`). It owns the list of parts. It applies the parts store's
  load, add, update and delete results to that list. The home page gets only parts in stock.
- **Part form** (`PartForm`). It seeds the fields from the part being edited and builds the submitted
  draft. It resets after a successful submit. It checks a chosen image's size, type and encoded length.

Component state is a class whose fields the handlers update: `ManagementPage`, `CatalogPage`,
`ReportPage`, `SearchBox`, `Modal`, `Shell` and `Form`, plus `Sheet` for the worksheet the report
loop writes into. Each handler is a method whose `ensures` gives its new state in terms of pure
functions. Lemmas prove what those functions promise.

Conventions:
- Prices are whole cents and stocks are integers.
- `toLowerCase` is ASCII lowering.
- A prop that the parent may change is a field with a `SetParts` method. This makes visible that
  `filteredParts`, seeded once by `useState(parts)`, does not follow later changes of the prop.
- Responses of the parts store, the clock's date, the file reader's result and the XLSX library's
  conversions are parameters.

## Model

| member | source | states |
|---|---|---|
| Parts.QuantityPatch | src/pages/Management.tsx:73 | A sale's update carries the new stock and no other field |
| Parts.SalePatchChangesOnlyQuantity | src/pages/Management.tsx:72-73 | Applying a sale's update to a record changes its stock and nothing else |
| Parts.EditPatchKeepsIdentity | src/pages/Management.tsx:51-55 | An edit's update takes every editable field from the form's draft and keeps the id and timestamps |
| Parts.WithoutIdSpec | src/components/AppContent.tsx:71 | Filtering out an id leaves no record with that id. It keeps exactly the other records, in order and each as often as it occurred, and changes nothing when the id was absent |
| TextFilter.BlankIffAllWhitespace | src/pages/Management.tsx:90 | `!term.trim()` holds exactly when every character of the term is white space |
| TextFilter.IncludesIff | src/pages/Management.tsx:96-97 | `includes` holds exactly when the query occurs at some position of the text |
| TextFilter.MatchingSpec | src/pages/Management.tsx:95-98 | The filtered list is an order-preserving subsequence of `parts`. It holds exactly the parts whose lowered name or description contains the lowered term, each as often as it occurs in `parts` |
| TextFilter.SearchSpec | src/pages/Management.tsx:89-100 | A blank term restores the whole list. Any search result is an ordered subsequence of the parts, holding exactly the parts that match (all parts for a blank term), each as often as in the list |
| TextFilter.SearchIgnoresQueryCase | src/pages/Catalog.tsx:42-45 | Searching for a term and for its lowered form gives the same list |
| TextFilter.SearchKeepsOnlyHead | src/pages/Management.tsx:95-98 | When only the first part of a list matches a non-blank term, the search keeps that part alone |
| TextFilter.SearchExample | src/pages/Catalog.tsx:42-45 | "filt" finds "Filtro de Óleo" and not "Correia" |
| Paging.ClampIndex | src/pages/Management.tsx:35-38 | `slice` clamps its arguments into the list, and non-negative ones are capped at its length |
| Paging.TotalPages | src/pages/Management.tsx:34 | `Math.ceil(length / size)`: the least page count whose pages hold the whole list, and zero only for an empty list |
| Paging.PageItemsSpec | src/pages/Management.tsx:35-38 | From page 1 on, a page is the items from `(page-1)*size`, at most `size` of them, cut off by the end of the list |
| Paging.PageBeyondLastIsEmpty | src/pages/Management.tsx:35-38 | A page number past the page count shows nothing |
| Paging.PagesInRangeAreNonEmpty | src/pages/Catalog.tsx:17-22 | Every page from 1 to the page count shows at least one item |
| Paging.PagesUpToArePrefix | src/pages/Management.tsx:34-38 | Pages 1 to n laid end to end are the first `n*size` items |
| Paging.PagesReassemble | src/pages/Management.tsx:34-38 | Concatenating pages 1 to the page count gives back the filtered list |
| Paging.OverflowMeansSeveralPages | src/pages/Management.tsx:244 | When the controls are shown (more items than fit a page) there are at least two pages |
| Pagination.PageNumbersExact | src/components/Pagination.tsx:11 | The page buttons are 1, 2, ..., totalPages, increasing |
| Pagination.HighlightsOnlyCurrentPage | src/components/Pagination.tsx:31-36 | Exactly the current page's button is highlighted, and some button is when the page is in range |
| Pagination.EnabledButtonsStayInRange | src/components/Pagination.tsx:15-51 | From a page in range, every clickable button requests a page in range |
| Pagination.StepButtonsAtBounds | src/components/Pagination.tsx:16-51 | "Previous" requests `currentPage-1` and is disabled exactly on page 1. "Next" requests `currentPage+1` and is disabled exactly on the last page. Past the last page "next" stays enabled |
| SellModal.DecimalRoundTrip | src/components/SellModal.tsx:20 | `Number` of a number's decimal spelling is that number |
| SellModal.ZeroIffAllZeros | src/components/SellModal.tsx:20-22 | A digit string reads as 0 exactly when all its digits are '0' |
| SellModal.Validate | src/components/SellModal.tsx:20-30 | An accepted amount lies in `[1, stock]` |
| SellModal.ValidateSpec | src/components/SellModal.tsx:20-30 | The zero error holds exactly for all-zero or empty input. The stock error holds exactly for a positive amount above the stock. Success holds exactly for a positive amount within the stock, and confirms that amount |
| SellModal.SellingWholeStockIsAccepted | src/components/SellModal.tsx:26-30 | Typing the whole stock is accepted whenever there is stock |
| SellModal.Modal.constructor | src/components/SellModal.tsx:15-16 | The dialog opens with an empty field and no error |
| SellModal.Modal.HandleSubmit | src/components/SellModal.tsx:18-31 | A failed guard sets its message and confirms nothing. The zero guard is checked before the stock guard. Otherwise the amount, in `[1, stock]`, is confirmed |
| SellModal.Modal.HandleQuantityChange | src/components/SellModal.tsx:33-39 | Empty or all-digit text replaces the field and clears the error. Anything else changes neither, so the field always holds digits |
| Management.WithQuantitySpec | src/pages/Management.tsx:75-81 | After a sale the list keeps its length and ids. Records with the sold id get the new stock, and every other record is unchanged |
| Management.SaleLeavesStockNonNegative | src/pages/Management.tsx:68-81 | An amount the dialog accepts never writes a negative stock |
| Management.ManagementPage.constructor | src/pages/Management.tsx:25-31 | Initial state: page 1, no dialog open, no error, filtered list equal to the prop |
| Management.ManagementPage.SetParts | src/pages/Management.tsx:31 | A new prop changes only `parts`, not the filtered list |
| Management.ManagementPage.TotalPages | src/pages/Management.tsx:34 | The page count is the ceiling of length / 3 |
| Management.ManagementPage.CurrentParts | src/pages/Management.tsx:33-38 | Exactly the slice of the filtered list from `(page-1)*3` to `page*3`, both cut off at its end: at most 3 parts, empty past the last page, and non-empty on pages in range |
| Management.ManagementPage.Controls | src/pages/Management.tsx:244-249 | The controls, shown only above 3 parts, offer one button per page and at least two pages |
| Management.ManagementPage.HandleSearch | src/pages/Management.tsx:89-100 | The filtered list becomes the search result, and the page number is left alone |
| Management.ManagementPage.HandleSearchResettingPage | src/pages/Catalog.tsx:35-47 | Corrected search: back to page 1, which shows the first three results and is empty only when nothing matched |
| Management.ManagementPage.ClickPrevious | src/pages/Management.tsx:248 | The enabled "previous" button moves one page back and never below page 1 |
| Management.ManagementPage.ClickNext | src/pages/Management.tsx:248 | The enabled "next" button moves one page on, except from the last page |
| Management.ManagementPage.ClickPage | src/pages/Management.tsx:248 | Page button k moves to page k+1 (its label) |
| Management.ManagementPage.OpenAddForm | src/pages/Management.tsx:112 | The "Adicionar Peça" button opens the add form |
| Management.ManagementPage.CloseAddForm | src/pages/Management.tsx:139 | The add form's close button hides it |
| Management.ManagementPage.HandleAddPart | src/pages/Management.tsx:40-49 | The draft is sent. Success closes the form and clears the error, and failure sets the add error. The `catch` swallows the failure, so the returned promise never rejects |
| Management.ManagementPage.HandleAddPartRethrowing | src/pages/Management.tsx:40-49 | Corrected add: the page changes as before, and the promise rejects exactly when the add failed |
| Management.ManagementPage.SelectForSale | src/pages/Management.tsx:183 | The sale button opens the dialog for that part |
| Management.ManagementPage.SelectForEdit | src/pages/Management.tsx:194 | The edit button opens the form for that part |
| Management.ManagementPage.HandleDeleteClick | src/pages/Management.tsx:57-59 | The delete button asks to confirm for that part |
| Management.ManagementPage.HandleSell | src/pages/Management.tsx:68-87 | With a part on sale, an update holding only the stock `old - sold` is sent. If the awaited promise resolves, the filtered list gets that stock by id and the dialog closes. If it rejects, both are kept. Without a part on sale nothing changes |
| Management.ManagementPage.HandleEditPart | src/pages/Management.tsx:51-55 | With a part under edit, the draft is sent as an update of its id and the form closes. Otherwise nothing is sent |
| Management.ManagementPage.HandleDeleteConfirm | src/pages/Management.tsx:61-66 | A delete of the id is sent only when a part awaits deletion. Afterwards none does |
| Management.StrandedAfterSearch | src/pages/Management.tsx:89-100 | Four parts with distinct ids on page 2, then a search with one result: the page shown is empty and no page controls are offered |
| Management.SubmitAddForm | src/pages/Management.tsx:40-49 | The add form awaits `handleAddPart`, which never rejects. A refused add only sets the page's `error` state, which the page never renders, and keeps the dialog open, while the form's fields and preview have been reset to blank. A successful add closes the dialog and resets the fields and preview |
| Management.SubmitAddFormRethrowing | src/components/PartForm.tsx:35-48 | Corrected add dialog: a refused add sets the `error` state and keeps every typed field and the preview. A successful one closes the dialog and resets every field and the preview |
| Catalog.CatalogPage.constructor | src/pages/Catalog.tsx:14-15 | Initially page 1 and the filtered list equal to the prop |
| Catalog.CatalogPage.SetParts | src/pages/Catalog.tsx:15 | A new prop changes only `parts`, not the filtered list |
| Catalog.CatalogPage.TotalPages | src/pages/Catalog.tsx:18 | The page count is the ceiling of length / 12 |
| Catalog.CatalogPage.CurrentParts | src/pages/Catalog.tsx:17-22 | Exactly the slice of the filtered list from `(page-1)*12` to `page*12`, both cut off at its end: at most 12 parts, non-empty exactly on pages in range |
| Catalog.CatalogPage.ShowsEmptyMessage | src/pages/Catalog.tsx:147 | The empty message is shown exactly when the filtered list is empty, and then no card is |
| Catalog.CatalogPage.Controls | src/pages/Catalog.tsx:155 | The controls, shown only above 12 parts, offer at least two pages |
| Catalog.CatalogPage.HandleSearch | src/pages/Catalog.tsx:35-47 | Every search returns to page 1 and stores the search result |
| Catalog.CatalogPage.ClickPrevious | src/pages/Catalog.tsx:159 | The enabled "previous" button moves one page back and never below page 1 |
| Catalog.CatalogPage.ClickNext | src/pages/Catalog.tsx:159 | The enabled "next" button moves one page on, except from the last page |
| Catalog.CatalogPage.ClickPage | src/pages/Catalog.tsx:159 | Page button k moves to page k+1 |
| Catalog.SearchShowsFirstResults | src/pages/Catalog.tsx:35-47 | After any search the catalog shows the first (up to) twelve results |
| Report.ReduceIsSum | src/pages/Report.tsx:66 | The left fold of `reduce` equals the start value plus the sum of the line totals |
| Report.TotalValueIsSum | src/pages/Report.tsx:66 | `totalValue` is the sum of `price * quantity` over the selection |
| Report.SumConcat | src/pages/Report.tsx:66 | The sum over two joined selections is the sum of their sums |
| Report.TotalNonNegative | src/pages/Report.tsx:66 | With no negative price or stock the total is not negative |
| Report.ToggleSpec | src/pages/Report.tsx:38-47 | Toggling flips whether the id is selected and leaves other parts alone. An unselected part is appended. A selected id loses every entry, and the others stay in order, each as often as before |
| Report.ToggleTwiceRestores | src/pages/Report.tsx:38-47 | Toggling an unselected part twice restores the selection |
| Report.ToggleAddsLineTotal | src/pages/Report.tsx:38-47 | Selecting an unselected part raises the total by its line total |
| Report.SelectAllSpec | src/pages/Report.tsx:49-57 | Select-all yields nothing or the whole filtered list, nothing exactly when the lengths agree or the filtered list is empty. Only the lengths matter |
| Report.ReportDataShape | src/pages/Report.tsx:69-78 | The grid is a header, one `[name, quantity, price, price*quantity]` row per selected part in order, and `['', '', 'TOTAL:', total]`, four cells per row |
| Report.ReportExample | src/pages/Report.tsx:69-78 | 7 units at 25.00 give the row (Filtro, 7, 25.00, 175.00) and the total 175.00 |
| Report.MoneyFormattedSpec | src/pages/Report.tsx:93-96 | The formatting touches exactly columns C and D of rows 2 to the last row. It writes there the grid's value as a number with format `#,##0.00`, and leaves every other cell as it was |
| Report.FormattedCell | src/pages/Report.tsx:93-96 | After the loop a formatted cell holds the grid value of its row and column |
| Report.FormattedPartRow | src/pages/Report.tsx:71-96 | In the sheet, the row of each selected part holds its price and line total as money |
| Report.FormattedTotalRow | src/pages/Report.tsx:77-96 | In the sheet, the last row holds the grand total as money, and its "TOTAL:" label is also marked numeric |
| Report.Sheet.FormatMoneyColumns | src/pages/Report.tsx:93-96 | The loop over rows 2 to `data.length` leaves the sheet as the formatting specification says |
| Report.GenerateReportSpec | src/pages/Report.tsx:59-134 | An empty selection yields no file. Otherwise a CSV always comes out, named `relatorio_vendas_<date>.csv` and starting with U+FEFF. An XLSX named `.xlsx` with the sheet "Relatório de Vendas" comes out unless writing fails |
| Report.ReportPage.constructor | src/pages/Report.tsx:21-23 | Initially nothing is selected, the filtered list is the prop and the format choice is closed |
| Report.ReportPage.SetParts | src/pages/Report.tsx:22 | A new prop changes only `parts` |
| Report.ReportPage.HandleSearch | src/pages/Report.tsx:25-36 | The filtered list becomes the search result, and the selection is kept |
| Report.ReportPage.TogglePartSelection | src/pages/Report.tsx:38-47 | The selection is toggled by id |
| Report.ReportPage.HandleSelectAll | src/pages/Report.tsx:49-57 | The selection follows the length rule |
| Report.ReportPage.ClickGenerate | src/pages/Report.tsx:165-166 | The generate button opens the format choice only when something is selected |
| Report.ReportPage.HandleGenerateReport | src/pages/Report.tsx:59-137 | The delivered result is the report specification's, computed through the formatting loop. The format choice closes unless the selection was empty |
| SearchBar.Suggestions | src/components/SearchBar.tsx:34-44 | At most five suggestions |
| SearchBar.SuggestionsSpec | src/components/SearchBar.tsx:34-44 | Suggestions are empty for a blank term. Otherwise they are the first `min(5, matches)` of the search result, each a matching part of `parts` |
| SearchBar.SearchBox.constructor | src/components/SearchBar.tsx:12-14 | Initially an empty field and no suggestions |
| SearchBar.SearchBox.SetParts | src/components/SearchBar.tsx:11 | A new prop changes only `parts` |
| SearchBar.SearchBox.HandleSearch | src/components/SearchBar.tsx:29-45 | The exact term is stored and forwarded, and the suggestions are recomputed. The list opens exactly for a non-blank term, and is on screen exactly when some part matches |
| SearchBar.SearchBox.HandleSuggestionClick | src/components/SearchBar.tsx:47-51 | The part's name becomes the term and is forwarded, and the list closes |
| SearchBar.SearchBox.HandleClickOutside | src/components/SearchBar.tsx:19-23 | A press outside closes the list |
| SearchBar.ChosenSuggestionIsFound | src/components/SearchBar.tsx:47-51 | The part behind a chosen suggestion is among the results of searching for its name |
| AppContent.ReplaceByIdSpec | src/components/AppContent.tsx:62 | An update keeps length and order, replaces the records with the id, and leaves the others. It changes nothing when the id is absent |
| AppContent.InStockSpec | src/components/AppContent.tsx:110 | The home page gets exactly the parts with stock, in order and each as often as in the list, and all of them when all have stock |
| AppContent.SoldOutLeavesHomePage | src/components/AppContent.tsx:62-110 | After the store records a stock of 0, the part is off the home page |
| AppContent.SaleViewsAgree | src/components/AppContent.tsx:59-66 | The management page's own rewrite after a sale equals the shell's record once the store returns the patched part, given one record per id |
| AppContent.FailedSaleViewsDisagree | src/pages/Management.tsx:68-87 | With the sold part in the list and a non-zero amount, the page's rewritten list differs from the unchanged list the shell keeps after a refused update |
| AppContent.SellThroughShell | src/components/AppContent.tsx:59-66 | A sale as written: the page always writes the lower stock and closes the dialog. The shell's list changes only when the store accepts, so after a refused non-zero sale of a listed part the page's list has changed and the shell's has not |
| AppContent.SellThroughShellRethrowing | src/pages/Management.tsx:68-87 | Corrected sale: a refused update changes neither list and leaves the dialog open. An accepted one updates both lists |
| AppContent.Shell.constructor | src/components/AppContent.tsx:14-16 | Initially an empty list, loading, no error |
| AppContent.Shell.HomeCatalogParts | src/components/AppContent.tsx:110 | The home page's list is an ordered subsequence of the parts holding exactly those with stock, each as often as in the list |
| AppContent.Shell.LoadParts | src/components/AppContent.tsx:24-36 | A read replaces the list, with absent data read as empty, and clears the error. A failure keeps the list and sets the load error. Loading ends either way |
| AppContent.Shell.AddPart | src/components/AppContent.tsx:46-57 | The saved part is put in front and returned. A failure keeps the list, sets the add error and is passed on |
| AppContent.Shell.UpdatePart | src/components/AppContent.tsx:59-66 | Success replaces the records with the id by the store's copy. A failure leaves the list and is swallowed: the returned promise never rejects |
| AppContent.Shell.UpdatePartRethrowing | src/components/AppContent.tsx:59-66 | Corrected update: the list changes as before, and the promise rejects exactly when the store refused |
| AppContent.Shell.DeletePart | src/components/AppContent.tsx:68-75 | Success removes every record with the id. A failure leaves the list and is swallowed |
| PartForm.ShownNumber | src/components/PartForm.tsx:16-17 | The empty-string fallback shows 0 as an empty field, and the field still reads back as the number |
| PartForm.Payload | src/components/PartForm.tsx:26-32 | Name, description and image go through unchanged, and the number fields are converted with empty read as 0 |
| PartForm.SubmittedDraftIsWellFormed | src/components/PartForm.tsx:151-223 | A form the browser lets through (required fields, `min="0"`) sends non-empty text and non-negative numbers |
| PartForm.EditRoundTrip | src/components/PartForm.tsx:13-32 | Submitting an untouched edit form sends the part's own fields |
| PartForm.UntouchedEditChangesNothing | src/components/PartForm.tsx:13-32 | The update an untouched edit sends rewrites the part to itself |
| PartForm.SoldOutEditStartsBlank | src/components/PartForm.tsx:16 | Editing a sold-out part starts with an empty stock field, which the browser refuses to submit |
| PartForm.CheckImageSpec | src/components/PartForm.tsx:51-84 | An image is used exactly when a file is chosen, is at most 5 MB, has an `image/` type and encodes to at most 1024*1024 characters. Every refusal except "no file" alerts |
| PartForm.Form.constructor | src/components/PartForm.tsx:13-20 | The fields and preview are seeded from the part under edit, or empty |
| PartForm.Form.SetName | src/components/PartForm.tsx:145 | Typing a name changes that field only |
| PartForm.Form.SetDescription | src/components/PartForm.tsx:165 | Typing a description changes that field only |
| PartForm.Form.SetQuantity | src/components/PartForm.tsx:188 | Typing a stock changes that field only |
| PartForm.Form.SetPrice | src/components/PartForm.tsx:215 | Typing a price changes that field only |
| PartForm.Form.HandleSubmit | src/components/PartForm.tsx:23-49 | The converted fields are sent. When the awaited promise resolves every field and the preview are reset, and when it rejects they are kept |
| PartForm.Form.HandleImageChange | src/components/PartForm.tsx:51-84 | An accepted image becomes both the image field and the preview, and the other fields are unchanged. Any refusal changes nothing |

## Left out

- The parts store (`src/services/supabase.ts`, `firebase.ts`, `api.ts`) is not part of this model. Each call is a `Result` parameter. `ApplyPatch` assumes `.update(part)` writes exactly the present fields; database-side triggers (for example one stamping `updated_at`) are not modelled.
- XLSX internals are parameters: `aoa_to_sheet` (`toSheet`), `sheet_to_csv` with its `;` separator (`toCsv`), and whether `writeFile` throws (`writeFails`). The column widths (`!cols`) and `book_new`/`book_append_sheet` are not modelled beyond the sheet name.
- The browser's download mechanics (Blob, object URL, anchor click) are left out. The model delivers the file name and contents.
- Floating point: prices are whole cents, so `price * quantity` is exact. JavaScript's rounding for large values is not modelled. The price field's `step="0.01"` decimal entry is a `NumField` holding cents.
- `toLowerCase` is ASCII-only. Non-ASCII capitals (such as "Ó") are left as they are.
- Management.ManagementPage.HandleSell: the amount arrives as the dialog's confirmed number. Neither the dialog's `onClose` button nor the modal closing buttons elsewhere are modelled.
- Management.ManagementPage.HandleAddPart: `onAddPart` is the shell's `addPart`, which rethrows. `onUpdatePart` and `onDeletePart` never reject in this app, because the shell swallows their errors. The `onUpdateRejects` flag of `HandleSell` is therefore false in the app as written (`SellThroughShell`), and is true only in the corrected `SellThroughShellRethrowing`.
- The `error` fields of `ManagementPage` and `Shell` are kept as the source keeps its `error` states, but neither component renders them, so no member models a message on screen.
- PartForm.Form.HandleSubmit: neither caller's promise rejects. The add form's `onSubmit` is `handleAddPart`, which catches, and the edit form's is the synchronous `handleEditPart`. So the `onSubmitRejects` branch is reached only in the corrected `SubmitAddFormRethrowing`. The edit form's composition is not modelled, because `handleEditPart` closes and unmounts that form anyway.
- Async ordering is not modelled. Each handler is atomic. The shell's `updatePart`/`deletePart` use the `parts` captured at render time rather than the latest list. The file reader's `onloadend` spreads the `formData` captured when the file was chosen. Both read here as the current state.
- The date (`new Date().toISOString()`) is a parameter.
- The file reader's data URL is a parameter.
- `alert` and `console` output are reduced to the `Alert` messages of an image outcome. The report's empty-selection alert is the `EmptySelection` error, and the Excel alert is `ExportFailed`.
- The login page, routing and authentication, the sidebar, header, footer, delete and format dialogs, dark mode and all styling are left out. The catalog's WhatsApp request link is left out too.
- Report.ReportDataShape: the "Quantidade Vendida" column holds each part's current stock (`part.quantity`), as the code does. It is not a count of units sold, and the unused `SaleReport` record is not modelled.
- PartForm.SubmittedDraftIsWellFormed: browser validation of `required` and `min` is modelled as the `Submittable` predicate. The submit handler itself does not check it.

## Findings

| source | as written | input that shows it | evidently intended | confidence | as-written member | corrected member |
|---|---|---|---|---|---|---|
| src/pages/Management.tsx:89-100 | The search replaces the filtered list but keeps `currentPage`. The page past the new last page is empty, and with three or fewer results the page controls are hidden | Four parts, page 2, then a search that matches one part: an empty page and no controls to go back | Return to page 1 on every search, as the catalog does (src/pages/Catalog.tsx:36) | not executed; high | Management.StrandedAfterSearch | Management.ManagementPage.HandleSearchResettingPage |
| src/pages/Management.tsx:40-49 | `handleAddPart` catches the add failure, so the form's awaited `onSubmit` resolves and `handleSubmit` clears every field. The comment at src/components/PartForm.tsx:37 says to clear only after success | The store refuses an add: the dialog stays open with a blank form and no message on screen, because the page's `error` state (src/pages/Management.tsx:28) is never rendered, and everything typed is gone | Rethrow after setting the message, so the form keeps its fields for another try | not executed; medium | Management.SubmitAddForm | Management.SubmitAddFormRethrowing |
| src/components/AppContent.tsx:59-66 | `updatePart` swallows the store's error, so `handleSell`'s `catch` (src/pages/Management.tsx:84-86) never runs, and the page writes the lower stock whether or not the store accepted it | A part with stock 10 and a sale of 3 that the store refuses: the management page shows 7 while the shell's list keeps 10 | Rethrow, so a refused sale changes neither view and the dialog stays open | not executed; medium | AppContent.SellThroughShell | AppContent.SellThroughShellRethrowing |
