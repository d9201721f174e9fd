/** The page bar under the user list: twenty users a page, a Prev and a Next
    button and one button per page. */
module Pagination {
  import opened Common

  const PAGE_SIZE := 20

  /** A button: the page it loads, and whether it is disabled or highlighted. */
  datatype Button = Button(target: int, disabled: bool, highlighted: bool)

  datatype PageBar = PageBar(prev: Button, pages: seq<Button>, next: Button)

  /** `Math.ceil(total / 20)` for a positive total. */
  function TotalPages(total: int): (n: nat)
    requires total > 0
    ensures (n - 1) * PAGE_SIZE < total <= n * PAGE_SIZE
    ensures n >= 1
  {
    (total + PAGE_SIZE - 1) / PAGE_SIZE
  }

  /** `Pagination`: nothing for a total of zero or less; otherwise Prev
      (loads page - 1, disabled on page 1), the pages 1 to the page count in
      order (each loads itself, the current one highlighted) and Next (loads
      page + 1, disabled on the last page). */
  function Render(total: int, page: int): (r: Option<PageBar>)
    ensures r.None? <==> total <= 0
    ensures r.Some? ==>
      var n := TotalPages(total);
      && r.value.prev == Button(page - 1, page == 1, false)
      && r.value.next == Button(page + 1, page == n, false)
      && |r.value.pages| == n
      && forall i :: 0 <= i < n ==> r.value.pages[i] == Button(i + 1, false, i + 1 == page)
  {
    if total <= 0 then None
    else
      var n := TotalPages(total);
      Some(PageBar(Button(page - 1, page == 1, false),
                   seq(n, i requires 0 <= i < n => Button(i + 1, false, i + 1 == page)),
                   Button(page + 1, page == n, false)))
  }

  /** The page buttons run from 1 up, one per page, and exactly one is
      highlighted when the current page is in range, none otherwise. */
  lemma PagesWellFormed(total: int, page: int)
    requires total > 0
    ensures var bar := Render(total, page).value;
      var n := TotalPages(total);
      && (forall i, j :: 0 <= i < j < |bar.pages| ==> bar.pages[i].target < bar.pages[j].target)
      && bar.pages[0].target == 1 && bar.pages[n - 1].target == n
      && (1 <= page <= n ==> bar.pages[page - 1].highlighted)
      && (forall i, j :: 0 <= i < j < |bar.pages| ==> !(bar.pages[i].highlighted && bar.pages[j].highlighted))
      && (!(1 <= page <= n) ==> forall i :: 0 <= i < |bar.pages| ==> !bar.pages[i].highlighted)
  {
  }

  /** On the only page of a short list both Prev and Next are disabled. */
  lemma SinglePageDisablesBoth(total: int)
    requires 0 < total <= PAGE_SIZE
    ensures Render(total, 1).value.prev.disabled && Render(total, 1).value.next.disabled
  {
  }
}
