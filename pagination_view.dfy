/** The `Pagination` component: the item range it reports and the page-size callback. */
module PaginationView {
  import opened Wrappers
  import opened JsValues
  import opened Numeric
  import opened PaginationUtils

  /** `startItem`: the 1-based position of the first item of the current page. */
  function StartItem(p: PaginationInfo): int
  {
    (p.currentPage - 1) * p.pageSize + 1
  }

  /** `endItem`: the last item of the current page, cut at the total. */
  function EndItem(p: PaginationInfo): (e: int)
    ensures e <= p.totalItems && e <= p.currentPage * p.pageSize
    ensures e == p.currentPage * p.pageSize || e == p.totalItems
  {
    Min(p.currentPage * p.pageSize, p.totalItems)
  }

  /**
   * On a page that holds items, the range is a non-empty stretch of at most
   * one page inside `1..totalItems`, and on the last page it ends at the total.
   */
  lemma ItemRangeBounds(p: PaginationInfo)
    requires p.currentPage >= 1 && p.pageSize > 0
    requires (p.currentPage - 1) * p.pageSize < p.totalItems
    ensures 1 <= StartItem(p) <= EndItem(p) <= p.totalItems
    ensures EndItem(p) - StartItem(p) + 1 <= p.pageSize
    ensures p.totalItems <= p.currentPage * p.pageSize ==> EndItem(p) == p.totalItems
  {
    assert p.currentPage * p.pageSize == (p.currentPage - 1) * p.pageSize + p.pageSize;
    MulPositiveSign(p.currentPage - 1, p.pageSize);
  }

  /** The item-count text: `` `${start}-${end} / 전체 ${total}개` ``, or the no-data text when there are no items. */
  function RangeText(p: PaginationInfo): (text: string)
    ensures p.totalItems <= 0 ==> text == "데이터가 없습니다"
    ensures p.totalItems > 0 ==>
      text == IntToString(StartItem(p)) + "-" + IntToString(EndItem(p)) + " / 전체 " + IntToString(p.totalItems) + "개"
  {
    if p.totalItems > 0 then
      IntToString(StartItem(p)) + "-" + IntToString(EndItem(p)) + " / 전체 " + IntToString(p.totalItems) + "개"
    else "데이터가 없습니다"
  }

  predicate AllDigits(s: string)
  {
    forall i :: 0 <= i < |s| ==> IsDigit(s[i])
  }

  /** The length of the run of digits that `s` starts with. */
  function LeadingDigits(s: string): nat
  {
    if s == [] || !IsDigit(s[0]) then 0 else 1 + LeadingDigits(s[1..])
  }

  /** Digits followed by a non-digit: the leading run is exactly the digits. */
  lemma {:induction false} LeadingDigitsOfRun(a: string, x: string)
    requires AllDigits(a)
    requires |x| > 0 && !IsDigit(x[0])
    ensures LeadingDigits(a + x) == |a|
  {
    if a == [] {
      assert a + x == x;
    } else {
      assert (a + x)[0] == a[0];
      assert (a + x)[1..] == a[1..] + x;
      LeadingDigitsOfRun(a[1..], x);
    }
  }

  /** A run of digits followed by a non-digit ends at the same place in two equal strings. */
  lemma DigitRunSplit(a: string, x: string, b: string, y: string)
    requires AllDigits(a) && AllDigits(b)
    requires |x| > 0 && !IsDigit(x[0]) && |y| > 0 && !IsDigit(y[0])
    requires a + x == b + y
    ensures a == b && x == y
  {
    LeadingDigitsOfRun(a, x);
    LeadingDigitsOfRun(b, y);
    assert a == (a + x)[..|a|] && b == (b + y)[..|b|];
    assert x == (a + x)[|a|..] && y == (b + y)[|b|..];
  }

  /** Three digit runs in the item-count template can be read back from the text. */
  lemma RangeWordsSplit(s1: string, e1: string, t1: string, s2: string, e2: string, t2: string)
    requires AllDigits(s1) && AllDigits(e1) && AllDigits(t1)
    requires AllDigits(s2) && AllDigits(e2) && AllDigits(t2)
    requires s1 + "-" + e1 + " / 전체 " + t1 + "개" == s2 + "-" + e2 + " / 전체 " + t2 + "개"
    ensures s1 == s2 && e1 == e2 && t1 == t2
  {
    var mid := " / 전체 ";
    var rest1, rest2 := mid + (t1 + "개"), mid + (t2 + "개");
    var x1, x2 := "-" + (e1 + rest1), "-" + (e2 + rest2);
    assert s1 + x1 == s1 + "-" + e1 + mid + t1 + "개";
    assert s2 + x2 == s2 + "-" + e2 + mid + t2 + "개";
    DigitRunSplit(s1, x1, s2, x2);
    assert e1 + rest1 == x1[1..] && e2 + rest2 == x2[1..];
    DigitRunSplit(e1, rest1, e2, rest2);
    assert t1 + "개" == rest1[|mid|..] && t2 + "개" == rest2[|mid|..];
    DigitRunSplit(t1, "개", t2, "개");
  }

  /**
   * The item-count text loses nothing: on pages that hold items, equal texts
   * report the same first item, the same last item and the same total.
   */
  lemma RangeTextDeterminesRange(p: PaginationInfo, q: PaginationInfo)
    requires p.currentPage >= 1 && p.pageSize > 0 && (p.currentPage - 1) * p.pageSize < p.totalItems
    requires q.currentPage >= 1 && q.pageSize > 0 && (q.currentPage - 1) * q.pageSize < q.totalItems
    requires RangeText(p) == RangeText(q)
    ensures StartItem(p) == StartItem(q) && EndItem(p) == EndItem(q) && p.totalItems == q.totalItems
  {
    ItemRangeBounds(p);
    ItemRangeBounds(q);
    var s1, e1, t1 := NatToString(StartItem(p)), NatToString(EndItem(p)), NatToString(p.totalItems);
    var s2, e2, t2 := NatToString(StartItem(q)), NatToString(EndItem(q)), NatToString(q.totalItems);
    RangeWordsSplit(s1, e1, t1, s2, e2, t2);
    NatToStringInjective(StartItem(p), StartItem(q));
    NatToStringInjective(EndItem(p), EndItem(q));
    NatToStringInjective(p.totalItems, q.totalItems);
  }

  /** The second page of ten, out of 25 items, reads "11-20 / 전체 25개". */
  lemma RangeTextExample()
    ensures RangeText(PaginationInfo(2, 3, 25, true, true, 10)) == "11-20 / 전체 25개"
  {
    var p := PaginationInfo(2, 3, 25, true, true, 10);
    assert StartItem(p) == 11 && EndItem(p) == 20;
    assert IntToString(11) == "11" by {
      assert NatToString(1) == "1";
    }
    assert IntToString(20) == "20" by {
      assert NatToString(2) == "2";
    }
    assert IntToString(25) == "25" by {
      assert NatToString(2) == "2";
    }
  }

  /** `handlePageSizeChange`: the chosen size reaches `onPageSizeChange` only when that prop is given. */
  function ForwardPageSize(size: int, hasOnPageSizeChange: bool): (forwarded: Option<int>)
    ensures forwarded.Some? <==> hasOnPageSizeChange
    ensures forwarded.Some? ==> forwarded.value == size
  {
    if hasOnPageSizeChange then Some(size) else None
  }
}
