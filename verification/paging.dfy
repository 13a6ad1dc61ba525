/** The page arithmetic shared by the management view (3 parts per page) and the catalog
    (12 per page): the current page is `filteredParts.slice((page - 1) * size, page * size)`
    and the page count is `Math.ceil(filteredParts.length / size)`. */
module Paging {

  function Min(a: int, b: int): int
  {
    if a <= b then a else b
  }

  /** How `Array.prototype.slice` turns an argument into a position: negative values count from the end. */
  function ClampIndex(i: int, len: nat): (r: nat)
    ensures r <= len
    ensures 0 <= i ==> r == Min(i, len)
  {
    if i < 0 then (if len + i < 0 then 0 else len + i)
    else if i > len then len
    else i
  }

  /** `s.slice(start, end)`. */
  function Slice<T>(s: seq<T>, start: int, end: int): seq<T>
  {
    var a := ClampIndex(start, |s|);
    var b := ClampIndex(end, |s|);
    if a < b then s[a..b] else []
  }

  /** The items shown on page `page` (1-based) when `size` items fit on a page. */
  function PageItems<T>(items: seq<T>, page: int, size: nat): seq<T>
  {
    Slice(items, (page - 1) * size, page * size)
  }

  /** `Math.ceil(length / size)`. */
  function TotalPages(length: nat, size: nat): (n: nat)
    requires size > 0
    ensures length <= n * size
    ensures n == 0 || (n - 1) * size < length
    ensures n == 0 <==> length == 0
  {
    var n := (length + size - 1) / size;
    assert length + size - 1 == n * size + (length + size - 1) % size;
    assert (n - 1) * size == n * size - size;
    n
  }

  lemma MulMonotone(a: int, b: int, size: nat)
    requires a <= b
    ensures a * size <= b * size
  {
  }

  /** From page 1 on, a page is the run of items starting at `(page - 1) * size`, cut off by the end of the list. */
  lemma PageItemsSpec<T>(items: seq<T>, page: int, size: nat)
    requires page >= 1
    ensures (page - 1) * size >= 0
    ensures PageItems(items, page, size) == items[Min((page - 1) * size, |items|)..Min(page * size, |items|)]
    ensures |PageItems(items, page, size)| <= size
    ensures forall k :: 0 <= k < |PageItems(items, page, size)| ==>
      (page - 1) * size + k < |items| && PageItems(items, page, size)[k] == items[(page - 1) * size + k]
  {
    PageIsSlice(items, page, size);
  }

  /** The slice arguments of a page from 1 on are never negative, and the end is `size` past the start. */
  lemma PageIsSlice<T>(items: seq<T>, page: int, size: nat)
    requires page >= 1
    ensures 0 <= (page - 1) * size <= page * size
    ensures page * size == (page - 1) * size + size
    ensures PageItems(items, page, size) == items[Min((page - 1) * size, |items|)..Min(page * size, |items|)]
  {
    MulMonotone(0, page - 1, size);
    assert page * size == (page - 1) * size + size;
  }

  /** A page past the last one is empty: the situation the management view reaches when a search
      shortens the list without moving back to page 1. */
  lemma PageBeyondLastIsEmpty<T>(items: seq<T>, page: int, size: nat)
    requires size > 0 && page > TotalPages(|items|, size)
    ensures PageItems(items, page, size) == []
  {
    MulMonotone(TotalPages(|items|, size), page - 1, size);
    PageItemsSpec(items, page, size);
  }

  /** Every page from 1 to the last one holds at least one item. */
  lemma PagesInRangeAreNonEmpty<T>(items: seq<T>, page: int, size: nat)
    requires size > 0 && 1 <= page <= TotalPages(|items|, size)
    ensures PageItems(items, page, size) != []
  {
    MulMonotone(page - 1, TotalPages(|items|, size) - 1, size);
    PageItemsSpec(items, page, size);
    assert page * size == (page - 1) * size + size;
  }

  /** Pages 1 to `n` laid end to end. */
  function PagesUpTo<T>(items: seq<T>, size: nat, n: nat): seq<T>
  {
    if n == 0 then [] else PagesUpTo(items, size, n - 1) + PageItems(items, n, size)
  }

  /** Pages 1 to `n` together are the first `n * size` items. */
  lemma {:induction false} PagesUpToArePrefix<T>(items: seq<T>, size: nat, n: nat)
    ensures n * size >= 0
    ensures PagesUpTo(items, size, n) == items[..Min(n * size, |items|)]
  {
    MulMonotone(0, n, size);
    if n > 0 {
      PagesUpToArePrefix(items, size, n - 1);
      PageIsSlice(items, n, size);
      var a := Min((n - 1) * size, |items|);
      var b := Min(n * size, |items|);
      assert a <= b;
      assert items[..a] + items[a..b] == items[..b];
    }
  }

  /** Concatenating every page in order gives back the whole list. */
  lemma PagesReassemble<T>(items: seq<T>, size: nat)
    requires size > 0
    ensures PagesUpTo(items, size, TotalPages(|items|, size)) == items
  {
    PagesUpToArePrefix(items, size, TotalPages(|items|, size));
    assert items[..|items|] == items;
  }

  /** When the list does not fit on one page there are at least two pages, so the controls offer a real choice. */
  lemma OverflowMeansSeveralPages(length: nat, size: nat)
    requires size > 0 && length > size
    ensures TotalPages(length, size) >= 2
  {
  }
}
