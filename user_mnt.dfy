/**
 * The demo user-management page: 87 generated rows, the page slice it hands to the table,
 * and its page and page-size state.
 */
module UserMnt {
  import opened Js
  import DataTable

  datatype UserRow = UserRow(id: int, name: string, email: string, role: string)

  const RowCount := 87

  function RoleOf(i: nat): (r: string)
    ensures i % 3 == 0 ==> r == "Admin"
    ensures i % 3 == 1 ==> r == "Editor"
    ensures i % 3 == 2 ==> r == "Viewer"
  {
    if i % 3 == 0 then "Admin" else if i % 3 == 1 then "Editor" else "Viewer"
  }

  /** The row generated for index `i`. */
  function DemoRow(i: nat): UserRow {
    UserRow(i + 1, "User " + NatToString(i + 1), "user" + NatToString(i + 1) + "@example.com", RoleOf(i))
  }

  /** `Array.from({ length: 87 }).map(...)` */
  function AllRows(): (rows: seq<UserRow>)
    ensures |rows| == RowCount
    ensures forall i :: 0 <= i < |rows| ==> rows[i] == DemoRow(i)
  {
    seq(RowCount, i requires 0 <= i < RowCount => DemoRow(i))
  }

  /** Equal decimal renderings mean equal numbers. */
  lemma NatToStringInjective(a: nat, b: nat)
    requires NatToString(a) == NatToString(b)
    ensures a == b
  {
    DecimalRoundTrip(a);
    DecimalRoundTrip(b);
  }

  /** Ids, names and emails are all distinct across the generated rows. */
  lemma RowsDistinct(i: nat, j: nat)
    requires i < RowCount && j < RowCount && i != j
    ensures AllRows()[i].id != AllRows()[j].id
    ensures AllRows()[i].name != AllRows()[j].name
    ensures AllRows()[i].email != AllRows()[j].email
  {
    var si, sj := NatToString(i + 1), NatToString(j + 1);
    assert si != sj by {
      if si == sj {
        NatToStringInjective(i + 1, j + 1);
      }
    }
    assert ("User " + si)[5..] == si && ("User " + sj)[5..] == sj;
    var ei, ej := "user" + si + "@example.com", "user" + sj + "@example.com";
    if |si| == |sj| {
      assert ei[4..4 + |si|] == si && ej[4..4 + |sj|] == sj;
    } else {
      assert |ei| != |ej|;
    }
  }

  // ---------------------------------------------------------------------------
  // `Array.prototype.slice`

  /** A `slice` bound against a length `len`: a negative bound counts back from the end,
      and the result is cut to `0 .. len`. */
  function Clip(k: int, len: nat): (r: nat)
    ensures r <= len
    ensures 0 <= k <= len ==> r == k
    ensures k > len ==> r == len
    ensures 0 <= len + k && k < 0 ==> r == len + k
    ensures len + k < 0 ==> r == 0
  {
    if k < 0 then (if len + k < 0 then 0 else len + k) else if k > len then len else k
  }

  /** `s.slice(start, end)`: negative bounds count from the end, bounds are clipped to the
      sequence, and a reversed range is empty. */
  function JsSlice<T>(s: seq<T>, start: int, end: int): (r: seq<T>)
    ensures |r| <= |s|
    ensures 0 <= start <= end ==> |r| <= end - start
    ensures |r| == if Clip(start, |s|) <= Clip(end, |s|) then Clip(end, |s|) - Clip(start, |s|) else 0
    ensures forall i :: 0 <= i < |r| ==> Clip(start, |s|) + i < |s| && r[i] == s[Clip(start, |s|) + i]
  {
    var from, to := Clip(start, |s|), Clip(end, |s|);
    if from >= to then [] else s[from..to]
  }

  /** Within bounds, `slice` is the plain subsequence. */
  lemma SliceInRange<T>(s: seq<T>, start: int, end: int)
    requires 0 <= start <= end <= |s|
    ensures JsSlice(s, start, end) == s[start..end]
  {
  }

  /** `s.slice(-k)` keeps the last `k` elements, or all of them when `k` exceeds the length. */
  lemma SliceFromEnd<T>(s: seq<T>, k: nat)
    requires k > 0
    ensures JsSlice(s, -(k as int), |s|) == s[if k <= |s| then |s| - k else 0..]
  {
  }

  function Min(a: int, b: int): int { if a <= b then a else b }

  /** `allRows.slice(start, start + pageSize)` with `start = (page - 1) * pageSize`. */
  function PageRows(page: int, pageSize: int): seq<UserRow> {
    var start := (page - 1) * pageSize;
    JsSlice(AllRows(), start, start + pageSize)
  }

  /** On a page from 1 up, the shown rows are the rows from `start` to `start + pageSize`,
      cut at the last row; a page never holds more than `pageSize` rows. */
  lemma PageWindow(page: int, pageSize: nat)
    requires page >= 1
    ensures var start := (page - 1) * pageSize;
            PageRows(page, pageSize) == AllRows()[Min(start, RowCount)..Min(start + pageSize, RowCount)]
    ensures |PageRows(page, pageSize)| <= pageSize
  {
    var start := (page - 1) * pageSize;
    assert start >= 0 by { MulNonNegative(page - 1, pageSize); }
  }

  lemma MulNonNegative(a: nat, b: nat)
    ensures a * b >= 0
  {
  }

  /** Pages 1 to `n`, one after the other. */
  function FirstPages(n: nat, pageSize: int): seq<UserRow> {
    if n == 0 then [] else FirstPages(n - 1, pageSize) + PageRows(n, pageSize)
  }

  lemma {:induction false} FirstPagesArePrefix(n: nat, pageSize: nat)
    ensures FirstPages(n, pageSize) == AllRows()[..Min(n * pageSize, RowCount)]
  {
    if n > 0 {
      FirstPagesArePrefix(n - 1, pageSize);
      PageWindow(n, pageSize);
      assert (n - 1) * pageSize + pageSize == n * pageSize;
      assert (n - 1) * pageSize >= 0 by { MulNonNegative(n - 1, pageSize); }
    }
  }

  /** Paging through every page the table offers shows each generated row once, in order. */
  lemma AllPagesShowAllRows(pageSize: nat)
    requires pageSize >= 1
    ensures FirstPages(DataTable.TotalPages(RowCount, pageSize), pageSize) == AllRows()
  {
    var n := DataTable.TotalPages(RowCount, pageSize);
    FirstPagesArePrefix(n, pageSize);
    assert DataTable.Max(1, pageSize) == pageSize;
    assert RowCount <= n * pageSize;
    assert AllRows()[..RowCount] == AllRows();
  }

  /** The page's own state cells. */
  class UserMntPage {
    var page: int
    var pageSize: int

    constructor ()
      ensures page == 1 && pageSize == 10
      ensures Data() == AllRows()[..10]
    {
      page := 1;
      pageSize := 10;
      PageWindow(1, 10);
    }

    /** The rows handed to the table. */
    function Data(): seq<UserRow>
      reads this
    {
      PageRows(page, pageSize)
    }

    /** `total = allRows.length`, whatever the page. */
    function Total(): (n: int)
      ensures n == |AllRows()| == 87
    {
      |AllRows()|
    }

    method OnPageChange(p: int)
      modifies this
      ensures page == p && pageSize == old(pageSize)
    {
      page := p;
    }

    /** `setPageSize(size)` then `setPage(1)`: the table shows the first `size` rows. */
    method OnPageSizeChange(size: int)
      modifies this
      ensures page == 1 && pageSize == size
      ensures size >= 0 ==> Data() == AllRows()[..Min(size, RowCount)]
    {
      pageSize := size;
      page := 1;
      if size >= 0 {
        PageWindow(1, size);
      }
    }
  }
}
