/** The transaction list's pager (frontend/src/components/List.tsx): page count, the items
    on a page, the "trio" of page buttons around the current page, the right ellipsis, the
    two extra buttons for the last pages, and the page changes the buttons make. */
module Pagination {

  /** Items per page. */
  const PageSize: int := 5

  /** The list's initial total and page. */
  const InitialTotal: int := 42
  const InitialPage: int := 1

  /** Math.ceil(n / d) for a positive divisor. Dafny's `/` floors for d > 0. */
  function CeilDiv(n: int, d: int): (q: int)
    requires d > 0
    ensures d * (q - 1) < n <= d * q
  {
    if n % d == 0 then n / d else n / d + 1
  }

  /** Math.max(1, Math.ceil(total / pageSize)). */
  function PageCount(total: int): (pc: int)
    ensures pc >= 1
    ensures total > 0 ==> PageSize * (pc - 1) < total <= PageSize * pc
    ensures total <= 0 ==> pc == 1
  {
    var q := CeilDiv(total, PageSize);
    if q < 1 then 1 else q
  }

  /** The effect that pulls a page beyond the last one back to the last page. */
  function Clamp(page: int, pageCount: int): (p: int)
    ensures p <= pageCount
    ensures page <= pageCount ==> p == page
    ensures page > pageCount ==> p == pageCount
  {
    if page > pageCount then pageCount else page
  }

  /** Number of items shown on a page: what is left after the earlier pages, at most a page. */
  function ItemCount(total: int, page: int): (n: int)
    ensures 0 <= n <= PageSize
  {
    var start := (page - 1) * PageSize;
    var remaining := if total - start < 0 then 0 else total - start;
    if PageSize < remaining then PageSize else remaining
  }

  /** The item placeholders rendered on a page: 0, 1, ..., count - 1. */
  function Items(total: int, page: int): (items: seq<int>)
    ensures |items| == ItemCount(total, page)
    ensures forall i :: 0 <= i < |items| ==> items[i] == i
  {
    seq(ItemCount(total, page), i => i)
  }

  /** Items on pages 1..k together. */
  function ItemsThrough(total: int, k: nat): int {
    if k == 0 then 0 else ItemsThrough(total, k - 1) + ItemCount(total, k)
  }

  /** The first k pages hold min(total, k * pageSize) items. */
  lemma {:induction false} ItemsThroughPages(total: int, k: nat)
    requires total >= 0
    ensures ItemsThrough(total, k) == if total < PageSize * k then total else PageSize * k
  {
    if k > 0 {
      ItemsThroughPages(total, k - 1);
    }
  }

  /** Every item is on exactly one page: the pages 1..pageCount hold the whole total, and
      the pages after the last hold nothing. */
  lemma PagesHoldEveryItem(total: int, page: int)
    requires total >= 0
    ensures ItemsThrough(total, PageCount(total)) == total
    ensures page > PageCount(total) ==> ItemCount(total, page) == 0
    ensures 1 <= page <= PageCount(total) && total > 0 ==> ItemCount(total, page) >= 1
  {
    ItemsThroughPages(total, PageCount(total));
  }

  /** The consecutive pages lo..hi. */
  function Range(lo: int, hi: int): (r: seq<int>)
    ensures |r| == if hi < lo then 0 else hi - lo + 1
    ensures forall i :: 0 <= i < |r| ==> r[i] == lo + i
    decreases hi - lo
  {
    if hi < lo then [] else [lo] + Range(lo + 1, hi)
  }

  /** The numbered buttons around the current page. */
  function Trio(page: int, pageCount: int): (t: seq<int>)
    requires pageCount >= 1
    ensures |t| == if pageCount <= 5 then pageCount else 3
    ensures t != [] && t[0] >= 1 && t[|t| - 1] <= pageCount
    ensures forall i :: 0 < i < |t| ==> t[i] == t[i - 1] + 1
  {
    if pageCount <= 5 then Range(1, pageCount)
    else if page <= 2 then [1, 2, 3]
    else if page >= pageCount - 1 then [1, 2, 3]
    else [page - 1, page, page + 1]
  }

  function Last(s: seq<int>): int
    requires s != []
  {
    s[|s| - 1]
  }

  /** The "..." after the trio. */
  predicate ShowRightEllipsis(page: int, pageCount: int)
    requires pageCount >= 1
  {
    pageCount > 5 && Last(Trio(page, pageCount)) < pageCount - 2
  }

  /** Every numbered button, in the order rendered: the trio, then pageCount - 1 and
      pageCount unless the trio already has them. */
  function Buttons(page: int, pageCount: int): (b: seq<int>)
    requires pageCount >= 1
    ensures Trio(page, pageCount) <= b
  {
    var t := Trio(page, pageCount);
    var second := if pageCount >= 2 && pageCount - 1 !in t then [pageCount - 1] else [];
    var last := if pageCount >= 1 && pageCount !in t then [pageCount] else [];
    t + second + last
  }

  lemma {:induction false} TrioStep(t: seq<int>, i: nat)
    requires i < |t|
    requires forall k :: 0 < k < |t| ==> t[k] == t[k - 1] + 1
    ensures t[i] == t[0] + i
  {
    if i > 0 {
      TrioStep(t, i - 1);
    }
  }

  /** The trio is a run of consecutive pages. */
  lemma TrioIsRun(page: int, pageCount: int)
    requires pageCount >= 1
    ensures var t := Trio(page, pageCount);
      forall i :: 0 <= i < |t| ==> t[i] == t[0] + i
  {
    var t := Trio(page, pageCount);
    forall i | 0 <= i < |t| ensures t[i] == t[0] + i {
      TrioStep(t, i);
    }
  }

  /** What follows the trio: nothing when it already reaches the last page, the last page
      when it reaches the one before, both last pages otherwise. */
  lemma ButtonsAfterTrio(page: int, pageCount: int)
    requires pageCount >= 1
    ensures var t := Trio(page, pageCount); var b := Buttons(page, pageCount);
      && (Last(t) == pageCount ==> b == t)
      && (Last(t) == pageCount - 1 ==> b == t + [pageCount])
      && (Last(t) < pageCount - 1 ==> b == t + [pageCount - 1, pageCount])
  {
    var t := Trio(page, pageCount);
    TrioIsRun(page, pageCount);
    if Last(t) == pageCount {
      assert t[|t| - 1] == pageCount;
      assert pageCount - 1 in t || pageCount == 1 by {
        if |t| >= 2 { assert t[|t| - 2] == pageCount - 1; }
      }
    } else {
      assert pageCount !in t;
      if Last(t) == pageCount - 1 {
        assert t[|t| - 1] == pageCount - 1;
      } else {
        assert pageCount - 1 !in t;
      }
    }
  }

  /** The buttons are distinct pages in increasing order, all within 1..pageCount, at most
      five of them, and the last page always has one. */
  lemma ButtonsInOrder(page: int, pageCount: int)
    requires pageCount >= 1
    ensures var b := Buttons(page, pageCount);
      && (forall i :: 0 <= i < |b| ==> 1 <= b[i] <= pageCount)
      && (forall i, j :: 0 <= i < j < |b| ==> b[i] < b[j])
      && b[|b| - 1] == pageCount
      && |b| <= 5
  {
    TrioIsRun(page, pageCount);
    ButtonsAfterTrio(page, pageCount);
  }

  /** The current page always has a button, so the highlighted page is visible. */
  lemma CurrentPageHasButton(page: int, pageCount: int)
    requires 1 <= page <= pageCount
    ensures page in Buttons(page, pageCount)
  {
    var t := Trio(page, pageCount);
    var b := Buttons(page, pageCount);
    if pageCount <= 5 {
      assert t[page - 1] == page;
    } else if page <= 2 {
      assert t[page - 1] == page;
    } else if page >= pageCount - 1 {
      assert t == [1, 2, 3];
      if page == pageCount {
        assert b[|b| - 1] == page;
      } else {
        assert b[3] == page;
      }
    } else {
      assert t[1] == page;
    }
  }

  /** The ellipsis is shown exactly when the button after the trio does not follow the
      trio's last page, so some pages are skipped there. */
  lemma EllipsisMarksGap(page: int, pageCount: int)
    requires pageCount >= 1
    ensures var t := Trio(page, pageCount); var b := Buttons(page, pageCount);
      ShowRightEllipsis(page, pageCount) <==> |t| < |b| && b[|t|] > Last(t) + 1
  {
    var t := Trio(page, pageCount);
    var b := Buttons(page, pageCount);
    if pageCount > 5 {
      TrioIsRun(page, pageCount);
      if Last(t) < pageCount - 1 {
        assert pageCount - 1 !in t;
        assert b[|t|] == pageCount - 1;
      } else {
        assert pageCount - 1 in t;
        assert pageCount !in t;
        assert b[|t|] == pageCount;
      }
    } else {
      SmallPagerButtons(page, pageCount);
    }
  }

  /** With at most five pages the trio already holds every page, so no button is added. */
  lemma SmallPagerButtons(page: int, pageCount: int)
    requires 1 <= pageCount <= 5
    ensures Buttons(page, pageCount) == Trio(page, pageCount)
  {
    var t := Trio(page, pageCount);
    assert t[pageCount - 1] == pageCount;
    if pageCount >= 2 {
      assert t[pageCount - 2] == pageCount - 1;
    }
  }

  /** As written, the last two pages show the trio 1, 2, 3 rather than the pages around
      them; the extra buttons are what keep them visible. */
  lemma LastPagesShowFirstTrio()
    ensures Buttons(8, 9) == [1, 2, 3, 8, 9]
    ensures Buttons(9, 9) == [1, 2, 3, 8, 9]
    ensures Buttons(5, 9) == [4, 5, 6, 8, 9]
    ensures ShowRightEllipsis(9, 9) && !ShowRightEllipsis(7, 9)
  {
    assert Trio(7, 9) == [6, 7, 8];
  }

  /** The "previous" and "next" buttons. */
  function Prev(page: int): (p: int)
    ensures p >= 1
    ensures page > 1 ==> p == page - 1
  {
    if page - 1 > 1 then page - 1 else 1
  }

  function Next(page: int, pageCount: int): (p: int)
    ensures p <= pageCount
    ensures page < pageCount ==> p == page + 1
  {
    if pageCount < page + 1 then pageCount else page + 1
  }

  /** The pager's state and what can change it. */
  datatype Pager = Pager(total: int, page: int)

  datatype PagerEvent =
    | PrevClicked
    | NextClicked
    | PageClicked(n: int)
    | TotalChanged(newTotal: int)

  ghost predicate Valid(p: Pager) {
    1 <= p.page <= PageCount(p.total)
  }

  /** One event, followed by the clamping effect when the page count shrank. */
  function Step(p: Pager, e: PagerEvent): (q: Pager)
    ensures e.TotalChanged? ==> q.total == e.newTotal
    ensures !e.TotalChanged? ==> q.total == p.total
  {
    match e
    case PrevClicked => p.(page := Prev(p.page))
    case NextClicked => p.(page := Next(p.page, PageCount(p.total)))
    case PageClicked(n) => p.(page := n)
    case TotalChanged(t) => Pager(t, Clamp(p.page, PageCount(t)))
  }

  /** The page stays within 1..pageCount under every button the pager renders and every
      change of the total, starting from the initial state. */
  lemma StepKeepsPageInRange(p: Pager, e: PagerEvent)
    requires Valid(p)
    requires e.PageClicked? ==> e.n in Buttons(p.page, PageCount(p.total))
    ensures Valid(Step(p, e))
  {
  }

  lemma InitialPagerValid()
    ensures Valid(Pager(InitialTotal, InitialPage))
    ensures PageCount(InitialTotal) == 9
  {
  }
}
