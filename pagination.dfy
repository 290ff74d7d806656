/**
 * The `usePagination` hook: two state cells, `page` and `pageSize`, overwritten by
 * `setPage`, `setPageSize` and `resetPagination`, and the exposed state in which
 * the page size is capped by `maxPageSize`.
 */
module Pagination {

  datatype Config = Config(defaultPage: int, defaultPageSize: int, maxPageSize: int)

  /** The values the hook falls back to when its config leaves them out. */
  const DefaultConfig := Config(1, 10, 100)

  /** The two state cells as stored (the page size not yet capped). */
  datatype Cells = Cells(page: int, pageSize: int)

  /** What the hook exposes to the page. */
  datatype PaginationState = PaginationState(page: int, pageSize: int)

  function Max(a: int, b: int): int { if a >= b then a else b }

  function Min(a: int, b: int): int { if a <= b then a else b }

  /** `Math.max(1, n)`: the page a `setPage(n)` stores. */
  function ClampPage(n: int): (r: int)
    ensures r >= 1 && r >= n
    ensures n >= 1 ==> r == n
    ensures n < 1 ==> r == 1
  {
    Max(1, n)
  }

  /** `Math.min(Math.max(1, n), maxPageSize)`: the size a `setPageSize(n)` stores. */
  function ClampPageSize(n: int, maxPageSize: int): (r: int)
    ensures r <= maxPageSize
    ensures maxPageSize >= 1 ==> r >= 1
    ensures 1 <= n <= maxPageSize ==> r == n
    ensures n < 1 && maxPageSize >= 1 ==> r == 1
    ensures n > maxPageSize ==> r == maxPageSize
    ensures maxPageSize < 1 ==> r == maxPageSize
  {
    Min(Max(1, n), maxPageSize)
  }

  function Initial(cfg: Config): (c: Cells)
    ensures c.page == cfg.defaultPage && c.pageSize == cfg.defaultPageSize
  {
    Cells(cfg.defaultPage, cfg.defaultPageSize)
  }

  /** The exposed state: the page as stored, the size capped by `maxPageSize`. */
  function Exposed(c: Cells, cfg: Config): (s: PaginationState)
    ensures s.page == c.page
    ensures s.pageSize <= cfg.maxPageSize && s.pageSize <= c.pageSize
    ensures s.pageSize == c.pageSize || s.pageSize == cfg.maxPageSize
  {
    PaginationState(c.page, Min(c.pageSize, cfg.maxPageSize))
  }

  function PageChanged(c: Cells, n: int): (r: Cells)
    ensures r.page >= 1 && r.pageSize == c.pageSize
  {
    Cells(ClampPage(n), c.pageSize)
  }

  function PageSizeChanged(c: Cells, n: int, cfg: Config): (r: Cells)
    ensures r.page == 1 && r.pageSize <= cfg.maxPageSize
  {
    Cells(1, ClampPageSize(n, cfg.maxPageSize))
  }

  function Reset(cfg: Config): Cells {
    Initial(cfg)
  }

  /** The handlers the hook returns, as events. */
  datatype Event = SetPageTo(page: int) | SetPageSizeTo(size: int) | ResetPagination

  function Step(c: Cells, e: Event, cfg: Config): Cells {
    match e
    case SetPageTo(n) => PageChanged(c, n)
    case SetPageSizeTo(n) => PageSizeChanged(c, n, cfg)
    case ResetPagination => Reset(cfg)
  }

  function Run(c: Cells, es: seq<Event>, cfg: Config): Cells
    decreases |es|
  {
    if es == [] then c else Run(Step(c, es[0], cfg), es[1..], cfg)
  }

  /** With a sane configuration the stored page and the exposed page size stay at least 1
      after any sequence of handler calls. */
  lemma {:induction false} RunKeepsPageAndSizePositive(c: Cells, es: seq<Event>, cfg: Config)
    requires cfg.defaultPage >= 1 && cfg.defaultPageSize >= 1 && cfg.maxPageSize >= 1
    requires c.page >= 1 && c.pageSize >= 1
    ensures Run(c, es, cfg).page >= 1
    ensures 1 <= Exposed(Run(c, es, cfg), cfg).pageSize <= cfg.maxPageSize
    decreases |es|
  {
    if es != [] {
      RunKeepsPageAndSizePositive(Step(c, es[0], cfg), es[1..], cfg);
    }
  }

  /** Any `setPage` or `setPageSize` leaves the page at 1 or more, whatever came before;
      only the initial state and a reset can hold a page below 1 (when `defaultPage` is). */
  lemma {:induction false} PagePositiveAfterHandler(c: Cells, es: seq<Event>, cfg: Config)
    requires es != [] && !es[|es| - 1].ResetPagination?
    ensures Run(c, es, cfg).page >= 1
    decreases |es|
  {
    if |es| > 1 {
      PagePositiveAfterHandler(Step(c, es[0], cfg), es[1..], cfg);
    }
  }

  /** The hook instance: its two state cells and the configuration it closed over. */
  class PaginationHook {
    const config: Config
    var page: int
    var pageSize: int

    function Snapshot(): Cells
      reads this
    {
      Cells(page, pageSize)
    }

    /** `paginationState` as returned by the hook. */
    function State(): (s: PaginationState)
      reads this
      ensures s == Exposed(Snapshot(), config)
    {
      PaginationState(page, Min(pageSize, config.maxPageSize))
    }

    constructor (cfg: Config)
      ensures config == cfg && Snapshot() == Initial(cfg)
    {
      config := cfg;
      page := cfg.defaultPage;
      pageSize := cfg.defaultPageSize;
    }

    /** `handlePageChange` */
    method SetPage(newPage: int)
      modifies this
      ensures Snapshot() == PageChanged(old(Snapshot()), newPage)
      ensures page >= 1 && pageSize == old(pageSize)
    {
      page := Max(1, newPage);
    }

    /** `handlePageSizeChange`: stores the clamped size and goes back to page 1. */
    method SetPageSize(newPageSize: int)
      modifies this
      ensures Snapshot() == PageSizeChanged(old(Snapshot()), newPageSize, config)
      ensures page == 1 && pageSize == ClampPageSize(newPageSize, config.maxPageSize)
    {
      var validPageSize := Min(Max(1, newPageSize), config.maxPageSize);
      pageSize := validPageSize;
      page := 1;
    }

    /** `resetPagination` */
    method ResetPagination()
      modifies this
      ensures Snapshot() == Reset(config)
      ensures page == config.defaultPage && pageSize == config.defaultPageSize
    {
      page := config.defaultPage;
      pageSize := config.defaultPageSize;
    }
  }
}
