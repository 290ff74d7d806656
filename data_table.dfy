/**
 * The generic `DataTable` component: page arithmetic, the guarded Prev/Next buttons,
 * the choice of body rows and cells, and the page-size selector.
 */
module DataTable {
  import opened Wrappers
  import opened Js

  function Max(a: int, b: int): int { if a >= b then a else b }

  /** `Math.ceil(a / d)` for a positive divisor. */
  function CeilDiv(a: int, d: int): (q: int)
    requires d >= 1
    ensures d * (q - 1) < a <= d * q
  {
    var k := (-a) / d;
    assert -a == d * k + (-a) % d;
    -k
  }

  /** `Math.max(1, Math.ceil(total / Math.max(1, pageSize)))`: enough pages for every row,
      never an empty trailing page, and never fewer than one page. */
  function TotalPages(total: int, pageSize: int): (n: int)
    ensures n >= 1
    ensures total <= Max(1, pageSize) * n
    ensures n == 1 || Max(1, pageSize) * (n - 1) < total
  {
    Max(1, CeilDiv(total, Max(1, pageSize)))
  }

  predicate CanPrev(page: int) { page > 1 }

  predicate CanNext(page: int, pageSize: int, total: int) { page < TotalPages(total, pageSize) }

  /** The page the Prev button asks the parent for, if it asks at all. */
  function PrevRequest(page: int): (r: Option<int>)
    ensures r.Some? <==> CanPrev(page)
    ensures r.Some? ==> r.value == page - 1 && r.value >= 1
  {
    if CanPrev(page) then Some(page - 1) else None
  }

  /** The page the Next button asks the parent for, if it asks at all. */
  function NextRequest(page: int, pageSize: int, total: int): (r: Option<int>)
    ensures r.Some? <==> CanNext(page, pageSize, total)
    ensures r.Some? ==> r.value == page + 1 && r.value <= TotalPages(total, pageSize)
  {
    if CanNext(page, pageSize, total) then Some(page + 1) else None
  }

  datatype Click = Prev | Next

  /** The page after a parent that stores every requested page sees these clicks. */
  function AfterClicks(page: int, pageSize: int, total: int, clicks: seq<Click>): int
    decreases |clicks|
  {
    if clicks == [] then page
    else
      var req := if clicks[0] == Prev then PrevRequest(page) else NextRequest(page, pageSize, total);
      AfterClicks(req.GetOr(page), pageSize, total, clicks[1..])
  }

  /** Starting on a page in range, the buttons never lead out of `1..totalPages`. */
  lemma {:induction false} ClicksStayInRange(page: int, pageSize: int, total: int, clicks: seq<Click>)
    requires 1 <= page <= TotalPages(total, pageSize)
    ensures 1 <= AfterClicks(page, pageSize, total, clicks) <= TotalPages(total, pageSize)
    decreases |clicks|
  {
    if clicks != [] {
      var req := if clicks[0] == Prev then PrevRequest(page) else NextRequest(page, pageSize, total);
      ClicksStayInRange(req.GetOr(page), pageSize, total, clicks[1..]);
    }
  }

  // ---------------------------------------------------------------------------
  // Body rows and cells

  /** A record as the table sees it (`Record<string, unknown>`). */
  type Row = map<string, Value>

  /** A column; `N` stands for whatever a custom `render` produces. */
  datatype Column<N> = Column(key: string, header: string, render: Option<Row -> N>)

  datatype Cell<N> = Rendered(node: N) | Text(text: string)

  datatype BodyRow<N> = Placeholder(message: string, colSpan: nat) | DataRow(cells: seq<Cell<N>>)

  function Lookup(row: Row, key: string): Value {
    if key in row then row[key] else Undefined
  }

  /** One cell: the column's renderer if it has one, else `String(row[key] ?? '')`. */
  function CellOf<N>(col: Column<N>, row: Row): (c: Cell<N>)
    ensures col.render.Some? ==> c == Rendered(col.render.value(row))
    ensures col.render.None? && col.key !in row ==> c == Text("")
    ensures col.render.None? ==> c == Text(DisplayString(Lookup(row, col.key)))
  {
    match col.render
    case Some(f) => Rendered(f(row))
    case None => Text(DisplayString(Lookup(row, col.key)))
  }

  function Cells<N>(columns: seq<Column<N>>, row: Row): (cs: seq<Cell<N>>)
    ensures |cs| == |columns|
    ensures forall j :: 0 <= j < |columns| ==> cs[j] == CellOf(columns[j], row)
  {
    seq(|columns|, j requires 0 <= j < |columns| => CellOf(columns[j], row))
  }

  /** The table body: a single placeholder while loading or when there is no data, else one
      row per record, in order, with one cell per column. */
  function Body<N>(data: seq<Row>, columns: seq<Column<N>>, loading: bool): (rows: seq<BodyRow<N>>)
    ensures loading ==> rows == [Placeholder("Loading...", |columns|)]
    ensures !loading && data == [] ==> rows == [Placeholder("No data", |columns|)]
    ensures !loading && data != [] ==>
              |rows| == |data|
              && forall i :: 0 <= i < |data| ==> rows[i].DataRow? && rows[i].cells == Cells(columns, data[i])
  {
    if loading then [Placeholder("Loading...", |columns|)]
    else if data == [] then [Placeholder("No data", |columns|)]
    else seq(|data|, i requires 0 <= i < |data| => DataRow(Cells(columns, data[i])))
  }

  // ---------------------------------------------------------------------------
  // The page-size selector

  const PageSizeOptions: seq<nat> := [10, 20, 50, 100]

  /** The `value` attribute of the option for `size`. */
  function OptionValue(size: nat): string {
    NatToString(size)
  }

  /** What `onPageSizeChange(Number(e.target.value))` reports for a selected value. */
  function SelectedPageSize(value: string): Option<nat> {
    DecimalValue(value)
  }

  /** Choosing any option reports exactly that option's size. */
  lemma SelectorReportsChosenSize(i: nat)
    requires i < |PageSizeOptions|
    ensures SelectedPageSize(OptionValue(PageSizeOptions[i])) == Some(PageSizeOptions[i])
  {
    DecimalRoundTrip(PageSizeOptions[i]);
  }
}
