/**
 * The `useTableParams` hook: one pagination hook and one filter hook side by side, and a
 * `reset` that resets the first and clears the second.
 */
module TableParams {
  import Pagination
  import FilterParams

  datatype Config = Config(pagination: Pagination.Config, filters: FilterParams.Config)

  /** Both halves of the state, as values. */
  datatype State = State(pages: Pagination.Cells, filters: FilterParams.State)

  /** `reset()`: pagination back to its defaults, filters cleared to the initial filters. */
  function ResetBoth(s: State, cfg: Config): (r: State)
    ensures r.pages == Pagination.Initial(cfg.pagination)
    ensures r.filters.filters == r.filters.debounced == cfg.filters.initialFilters
    ensures r.filters.armed == s.filters.armed
  {
    State(Pagination.Reset(cfg.pagination),
          FilterParams.Clear(s.filters, cfg.filters.initialFilters))
  }

  /** Resetting twice is resetting once. */
  lemma ResetIdempotent(s: State, cfg: Config)
    ensures ResetBoth(ResetBoth(s, cfg), cfg) == ResetBoth(s, cfg)
  {
  }

  /** The events of either half; each half's handlers leave the other half alone. */
  datatype Event = PageEvent(p: Pagination.Event) | FilterEvent(f: FilterParams.Event) | ResetAll

  function Step(s: State, e: Event, cfg: Config): (r: State)
    ensures e.PageEvent? ==> r.filters == s.filters
    ensures e.FilterEvent? ==> r.pages == s.pages
  {
    match e
    case PageEvent(p) => State(Pagination.Step(s.pages, p, cfg.pagination), s.filters)
    case FilterEvent(f) => State(s.pages, FilterParams.Step(s.filters, f, cfg.filters))
    case ResetAll => ResetBoth(s, cfg)
  }

  /** The hook instance: it owns the two hooks it composes. */
  class TableParamsHook {
    const pagination: Pagination.PaginationHook
    const filters: FilterParams.FilterHook

    function Snapshot(): State
      reads this, pagination, filters
    {
      State(pagination.Snapshot(), filters.Snapshot())
    }

    constructor (cfg: Config)
      ensures fresh(pagination) && fresh(filters)
      ensures pagination.config == cfg.pagination && filters.config == cfg.filters
      ensures Snapshot() == State(Pagination.Initial(cfg.pagination), FilterParams.Init(cfg.filters))
    {
      pagination := new Pagination.PaginationHook(cfg.pagination);
      filters := new FilterParams.FilterHook(cfg.filters);
    }

    /** `reset`: `resetPagination()` then `clearFilters()`. */
    method Reset()
      modifies pagination, filters
      ensures Snapshot() == ResetBoth(old(Snapshot()), Config(pagination.config, filters.config))
    {
      pagination.ResetPagination();
      filters.ClearFilters();
    }
  }
}
