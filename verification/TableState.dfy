/**
 Page arithmetic of the paginated operator tables (src/nbdmux/_table_state.py).

 A raw query parameter reaches this module as the outcome of Python's `int()`:
 `None` when the parameter is missing or `int()` raises ValueError.
 */
module TableState {
  import opened Wrappers

  const PER_PAGE_CHOICES: set<int> := {10, 25, 50, 100}
  const DEFAULT_PER_PAGE := 10
  const NUMBERED_WINDOW := 2

  datatype PageState = PageState(page: int, perPage: int, total: int, offset: int, limit: int) {
    function LastPage(): int
      requires perPage > 0
    {
      if total <= 0 then 1 else (total + perPage - 1) / perPage
    }

    function FirstRow(): int { if total <= 0 then 0 else offset + 1 }

    function LastRow(): int { if total <= 0 then 0 else Min(offset + perPage, total) }

    predicate HasNext()
      requires perPage > 0
    {
      page < LastPage()
    }

    function NumberedPages(): seq<int>
      requires perPage > 0
    {
      var lo := Max(1, page - NUMBERED_WINDOW);
      var hi := Min(LastPage(), page + NUMBERED_WINDOW);
      seq(Max(0, hi + 1 - lo), i => lo + i)
    }
  }

  function ParsePagination(rawPage: Option<int>, rawPerPage: Option<int>, total: int): PageState {
    var perCandidate := if rawPerPage.Some? then rawPerPage.value else DEFAULT_PER_PAGE;
    var perPage := if perCandidate in PER_PAGE_CHOICES then perCandidate else DEFAULT_PER_PAGE;
    var rows := if total < 0 then 0 else total;
    var lastPage := if rows > 0 then Max(1, (rows + perPage - 1) / perPage) else 1;
    var candidate := if rawPage.Some? then rawPage.value else 1;
    var page := Max(1, Min(lastPage, candidate));
    PageState(page, perPage, rows, (page - 1) * perPage, perPage)
  }

  /** `n` is the number of pages of size `per` that `total` rows need: the
      ceiling of the quotient, and one page when there is nothing to show. */
  predicate IsPageCount(n: int, per: int, total: int) {
    1 <= n && (n - 1) * per < Max(total, 1) <= n * per
  }

  lemma CeilingDivision(total: int, per: int)
    requires total > 0 && per > 0
    ensures IsPageCount((total + per - 1) / per, per, total)
  {
    var q, r := (total + per - 1) / per, (total + per - 1) % per;
    assert total + per - 1 == per * q + r;
    assert q * per == per * q && (q - 1) * per == per * q - per;
  }

  /** Whatever the query string holds, the page state is inside the table, and
      the page bound it reports is the one the page was clamped with. */
  lemma PaginationIsClamped(rawPage: Option<int>, rawPerPage: Option<int>, total: int)
    ensures var s := ParsePagination(rawPage, rawPerPage, total);
            && s.perPage in PER_PAGE_CHOICES && s.limit == s.perPage
            && (rawPerPage.Some? && rawPerPage.value in PER_PAGE_CHOICES ==> s.perPage == rawPerPage.value)
            && s.total == Max(total, 0)
            && IsPageCount(s.LastPage(), s.perPage, s.total)
            && 1 <= s.page <= s.LastPage()
            && (rawPage.Some? && 1 <= rawPage.value <= s.LastPage() ==> s.page == rawPage.value)
            && (rawPage.Some? && rawPage.value > s.LastPage() ==> s.page == s.LastPage())
            && 0 <= s.offset == (s.page - 1) * s.perPage < Max(s.total, 1)
  {
    var s := ParsePagination(rawPage, rawPerPage, total);
    if s.total > 0 {
      CeilingDivision(s.total, s.perPage);
    }
    PageOffsetMonotone(s.page, s.LastPage(), s.perPage);
  }

  predicate PageSize(per: int) { per == 10 || per == 25 || per == 50 || per == 100 }

  /** What is shown when the query string asks for nothing, or for nothing that
      there is: page 1, ten rows, and no row numbers for an empty table. */
  lemma PaginationDefaults(rawPage: Option<int>, rawPerPage: Option<int>, total: int)
    ensures var s := ParsePagination(rawPage, rawPerPage, total);
            && s.perPage == (if rawPerPage.Some? && PageSize(rawPerPage.value) then rawPerPage.value else 10)
            && (rawPage.None? || rawPage.value < 1 ==> s.page == 1)
            && (total <= 0 ==> s.FirstRow() == 0 && s.LastRow() == 0)
            && (s.HasNext() <==> s.page != s.LastPage())
  {
    PaginationIsClamped(rawPage, rawPerPage, total);
  }

  lemma PageOffsetMonotone(page: int, lastPage: int, per: int)
    requires 1 <= page <= lastPage && per > 0
    ensures 0 <= (page - 1) * per <= (lastPage - 1) * per
  {
  }

  /** The numbered links are the consecutive run of pages at distance at most
      two from the current one, cut to the table. */
  lemma NumberedPagesWindow(rawPage: Option<int>, rawPerPage: Option<int>, total: int)
    ensures var s := ParsePagination(rawPage, rawPerPage, total);
            var nums := s.NumberedPages();
            && 1 <= |nums| <= 5
            && s.page in nums
            && (forall i :: 0 <= i < |nums| ==> nums[i] == nums[0] + i)
            && forall p: int :: p in nums <==> 1 <= p <= s.LastPage() && s.page - 2 <= p <= s.page + 2
  {
    PaginationIsClamped(rawPage, rawPerPage, total);
    var s := ParsePagination(rawPage, rawPerPage, total);
    var nums := s.NumberedPages();
    var lo := Max(1, s.page - NUMBERED_WINDOW);
    forall p: int | 1 <= p <= s.LastPage() && s.page - 2 <= p <= s.page + 2
      ensures p in nums
    {
      assert nums[p - lo] == p;
    }
  }

  lemma HomePage(per: int, row: int, p: int)
    requires per > 0 && 1 <= row
    ensures (p - 1) * per < row <= p * per <==> p == (row - 1) / per + 1
  {
    var home := (row - 1) / per + 1;
    assert row - 1 == per * (home - 1) + (row - 1) % per;
    if p < home {
      ProductMonotone(p, home - 1, per);
    } else if p > home {
      ProductMonotone(home, p - 1, per);
    }
  }

  lemma PrintedInterval(per: int, total: int, p: int)
    requires per in PER_PAGE_CHOICES && total > 0
    requires 1 <= p <= ParsePagination(Some(p), Some(per), total).LastPage()
    ensures var s := ParsePagination(Some(p), Some(per), total);
            s.FirstRow() == (p - 1) * per + 1 && s.LastRow() == Min(p * per, total)
  {
    PaginationIsClamped(Some(p), Some(per), total);
  }

  /** Page `p` exists and prints an interval that holds row number `row`. */
  predicate OnPage(per: int, total: int, p: int, row: int)
    requires per in PER_PAGE_CHOICES
  {
    var s := ParsePagination(Some(p), Some(per), total);
    1 <= p <= s.LastPage() && s.FirstRow() <= row <= s.LastRow()
  }

  lemma OnlyHomePage(per: int, total: int, p: int, row: int)
    requires per in PER_PAGE_CHOICES && 1 <= row <= total
    ensures OnPage(per, total, p, row) ==> p == (row - 1) / per + 1
  {
    if OnPage(per, total, p, row) {
      PrintedInterval(per, total, p);
      HomePage(per, row, p);
    }
  }

  lemma HomePageExists(per: int, total: int, row: int)
    requires per in PER_PAGE_CHOICES && 1 <= row <= total
    ensures OnPage(per, total, (row - 1) / per + 1, row)
  {
    var home := (row - 1) / per + 1;
    HomePage(per, row, home);
    PaginationIsClamped(Some(home), Some(per), total);
    var last := ParsePagination(Some(home), Some(per), total).LastPage();
    if home > last {
      ProductMonotone(last, home - 1, per);
    }
    PrintedInterval(per, total, home);
  }

  /** The printed intervals `first_row..last_row` of pages 1 to `last_page`
      partition 1..total: every row number is on exactly one page. */
  lemma RowIntervalsPartition(per: int, total: int, row: int)
    requires per in PER_PAGE_CHOICES && 1 <= row <= total
    ensures forall p: int :: OnPage(per, total, p, row) <==> p == (row - 1) / per + 1
  {
    HomePageExists(per, total, row);
    forall p: int
      ensures OnPage(per, total, p, row) ==> p == (row - 1) / per + 1
    {
      OnlyHomePage(per, total, p, row);
    }
  }

  lemma ProductMonotone(a: int, b: int, per: int)
    requires a <= b && per > 0
    ensures a * per <= b * per
  {
  }
}
