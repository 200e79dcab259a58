/**
 * The pagination arithmetic shared by the dealer and submission tables:
 * a fixed page size, the page count, the clamped page, the slice bounds
 * of the visible rows and the footer label.
 */
module Pagination {

  /** Rows per table page (`PAGE_SIZE`). */
  const PageSize: nat := 4

  function Max(a: int, b: int): int { if a >= b then a else b }

  function Min(a: int, b: int): int { if a <= b then a else b }

  /** JavaScript's `Math.ceil` on a real number. */
  function Ceil(x: real): int { -((-x).Floor) }

  /**
   * `Math.max(1, Math.ceil(totalItems / PAGE_SIZE))`: the least page count
   * that holds every item, and at least one page even for an empty list.
   */
  function TotalPages(totalItems: nat): (r: nat)
    ensures r >= 1
    ensures totalItems <= r * PageSize
    ensures (r - 1) * PageSize < Max(totalItems, 1)
  {
    Max(1, (totalItems + PageSize - 1) / PageSize)
  }

  /**
   * `Math.min(Math.max(p, 1), totalPages)`: both the displayed page
   * (`safePage`, from the stored page) and the page `goToPage(p)` stores.
   */
  function ClampPage(p: int, totalItems: nat): (r: int)
    ensures 1 <= r <= TotalPages(totalItems)
    ensures 1 <= p <= TotalPages(totalItems) ==> r == p
    ensures p < 1 ==> r == 1
    ensures p > TotalPages(totalItems) ==> r == TotalPages(totalItems)
  {
    Min(Max(p, 1), TotalPages(totalItems))
  }

  /** `startIndex`: index of the first row shown for the stored page. */
  function StartIndex(page: int, totalItems: nat): (r: nat)
    ensures r <= totalItems
    ensures totalItems > 0 ==> r < totalItems
    ensures r % PageSize == 0
    ensures r / PageSize + 1 == ClampPage(page, totalItems)
  {
    (ClampPage(page, totalItems) - 1) * PageSize
  }

  /** `endIndex`: one past the last row shown for the stored page. */
  function EndIndex(page: int, totalItems: nat): (r: nat)
    ensures StartIndex(page, totalItems) <= r <= totalItems
    ensures r - StartIndex(page, totalItems) <= PageSize
    ensures totalItems > 0 ==> StartIndex(page, totalItems) < r
    ensures r < totalItems ==> r - StartIndex(page, totalItems) == PageSize
  {
    Min(StartIndex(page, totalItems) + PageSize, totalItems)
  }

  /** `pageItems`: the rows of `items` the table shows for the stored page. */
  function PageItems<T>(items: seq<T>, page: int): (r: seq<T>)
    ensures 0 < |r| <= PageSize || items == r == []
    ensures StartIndex(page, |items|) + |r| <= |items|
    ensures |r| == EndIndex(page, |items|) - StartIndex(page, |items|)
    ensures forall k :: 0 <= k < |r| ==> r[k] == items[StartIndex(page, |items|) + k]
  {
    items[StartIndex(page, |items|)..EndIndex(page, |items|)]
  }

  /** The Previous button is disabled exactly on the first page. */
  predicate PrevDisabled(page: int, totalItems: nat)
    ensures PrevDisabled(page, totalItems) <==> page <= 1 || TotalPages(totalItems) == 1
  {
    ClampPage(page, totalItems) == 1
  }

  /** The Next button is disabled exactly on the last page. */
  predicate NextDisabled(page: int, totalItems: nat)
    ensures NextDisabled(page, totalItems) <==> page >= TotalPages(totalItems) || TotalPages(totalItems) == 1
  {
    ClampPage(page, totalItems) == TotalPages(totalItems)
  }

  /** The page count is the real-number ceiling that `Math.ceil` computes. */
  lemma TotalPagesIsCeiling(totalItems: nat)
    ensures TotalPages(totalItems) == Max(1, Ceil(totalItems as real / PageSize as real))
  {
  }

  /** Row `i` of the list is shown on page `i / 4 + 1`, at position `i % 4`. */
  lemma ItemOnPage<T>(items: seq<T>, i: nat)
    requires i < |items|
    ensures i % PageSize < |PageItems(items, i / PageSize + 1)|
    ensures PageItems(items, i / PageSize + 1)[i % PageSize] == items[i]
  {
  }

  /** Pages 1 to `k`, concatenated in order. */
  ghost function Pages<T>(items: seq<T>, k: nat): seq<T>
  {
    if k == 0 then [] else Pages(items, k - 1) + PageItems(items, k)
  }

  lemma {:induction false} PagesPrefix<T>(items: seq<T>, k: nat)
    requires k <= TotalPages(|items|)
    ensures Min(k * PageSize, |items|) >= 0
    ensures Pages(items, k) == items[..Min(k * PageSize, |items|)]
  {
    if k > 0 {
      PagesPrefix(items, k - 1);
      var n := |items|;
      assert StartIndex(k, n) == (k - 1) * PageSize;
      assert Min((k - 1) * PageSize, n) == (k - 1) * PageSize;
      assert EndIndex(k, n) == Min(k * PageSize, n);
      assert items[..StartIndex(k, n)] + items[StartIndex(k, n)..EndIndex(k, n)] == items[..EndIndex(k, n)];
    }
  }

  /**
   * The pages partition the list: read in order from the first to the
   * last, they give back every item exactly once and in the list's order.
   */
  lemma PagesPartition<T>(items: seq<T>)
    ensures Pages(items, TotalPages(|items|)) == items
  {
    PagesPrefix(items, TotalPages(|items|));
    assert items[..|items|] == items;
  }

  /**
   * An enabled Previous or Next button moves exactly one page; a disabled
   * one would leave the page where it is.
   */
  lemma PrevNextStep(page: int, totalItems: nat)
    ensures var s := ClampPage(page, totalItems);
            ClampPage(s - 1, totalItems) == if PrevDisabled(page, totalItems) then s else s - 1
    ensures var s := ClampPage(page, totalItems);
            ClampPage(s + 1, totalItems) == if NextDisabled(page, totalItems) then s else s + 1
  {
  }

  /**
   * Deleting the only row of the last page (so the list shrinks from
   * `4k + 1` to `4k` rows) leaves the stored page one beyond the new last
   * page; the table then shows the previous page, which is full.
   */
  lemma ShrinkOffLastPage(n: nat)
    requires n > 1 && n % PageSize == 1
    ensures TotalPages(n - 1) == TotalPages(n) - 1
    ensures ClampPage(TotalPages(n), n - 1) == TotalPages(n) - 1
    ensures EndIndex(TotalPages(n), n - 1) - StartIndex(TotalPages(n), n - 1) == PageSize
  {
  }

  /** The table footer's text. */
  datatype Footer =
    | NoEntries
    | Showing(first: nat, last: nat, total: nat)

  /** Decimal digits of a natural number, as the page prints it. */
  function NatToString(n: nat): (r: string)
    ensures |r| >= 1
    ensures forall k :: 0 <= k < |r| ==> '0' <= r[k] <= '9'
    ensures r[0] == '0' ==> n == 0
  {
    var d := ['0', '1', '2', '3', '4', '5', '6', '7', '8', '9'][n % 10];
    if n < 10 then [d] else NatToString(n / 10) + [d]
  }

  /** The number a string of decimal digits denotes. */
  function DigitsValue(s: string): nat
    requires forall k :: 0 <= k < |s| ==> '0' <= s[k] <= '9'
  {
    if s == [] then 0
    else DigitsValue(s[..|s| - 1]) * 10 + (s[|s| - 1] as int - '0' as int)
  }

  /** Reading the printed digits back gives the number that was printed. */
  lemma {:induction false} NatToStringValue(n: nat)
    ensures DigitsValue(NatToString(n)) == n
  {
    var s := NatToString(n);
    var d := ['0', '1', '2', '3', '4', '5', '6', '7', '8', '9'][n % 10];
    assert d as int - '0' as int == n % 10;
    if n >= 10 {
      NatToStringValue(n / 10);
      assert s[..|s| - 1] == NatToString(n / 10);
    }
  }

  /**
   * The footer text: a sentence "Showing … entries" whose numbers are the
   * footer's, each printed in decimal.
   */
  function Render(f: Footer): (r: string)
    ensures |r| >= 17 && r[..8] == "Showing " && r[|r| - 8..] == " entries"
    ensures f.NoEntries? ==> r[8..|r| - 8] == "0"
    ensures f.Showing? ==>
              r[8..|r| - 8] == NatToString(f.first) + " to " + NatToString(f.last) + " of " + NatToString(f.total)
  {
    var m := match f
      case NoEntries => "0"
      case Showing(a, b, t) => NatToString(a) + " to " + NatToString(b) + " of " + NatToString(t);
    var r := "Showing " + m + " entries";
    assert r[..8] == "Showing " && r[|r| - 8..] == " entries" && r[8..|r| - 8] == m;
    r
  }
}
