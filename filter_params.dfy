/**
 * The `useFilterParams` hook: the live `filters` object, the `debouncedFilters` object the
 * queries read, and one debounce timer. Real time is replaced by an explicit slot holding the
 * partial update the armed timer will merge, and a `TimerFires` event.
 */
module FilterParams {
  import opened Wrappers
  import opened Js

  /** A filter object: keys to JavaScript values (a key may be present with `undefined`). */
  type Filters = map<string, Value>

  datatype Config = Config(initialFilters: Filters, debounceMs: int)

  /** The values the hook falls back to when its config leaves them out. */
  const DefaultConfig := Config(map[], 300)

  /** `{ ...prev, ...partial }` */
  function Merge(prev: Filters, partial: Filters): (r: Filters)
    ensures r.Keys == prev.Keys + partial.Keys
    ensures forall k :: k in partial ==> r[k] == partial[k]
    ensures forall k :: k in prev && k !in partial ==> r[k] == prev[k]
  {
    prev + partial
  }

  /** A copy without key `k` (`delete copy[k]`). */
  function Without(m: Filters, k: string): (r: Filters)
    ensures r.Keys == m.Keys - {k}
    ensures forall j :: j in r ==> r[j] == m[j]
  {
    m - {k}
  }

  /** A value the hook counts as an active filter: not `undefined`, `null` or `''`.
      Unlike truthiness, `false` and `0` are active. */
  predicate IsActive(v: Value) {
    v != Undefined && v != Null && v != Str("")
  }

  function ActiveKeys(m: Filters): (ks: set<string>)
    ensures ks <= m.Keys
    ensures forall k :: k in ks <==> k in m && IsActive(m[k])
  {
    set k | k in m && IsActive(m[k])
  }

  /** `activeFiltersCount` */
  function ActiveFiltersCount(m: Filters): (n: nat)
    ensures n <= |m|
    ensures n == |ActiveKeys(m)|
  {
    var ks := ActiveKeys(m);
    SubsetCardinality(ks, m.Keys);
    |ks|
  }

  lemma SubsetCardinality(a: set<string>, b: set<string>)
    requires a <= b
    ensures |a| <= |b|
  {
    assert b == a + (b - a);
  }

  /** `hasActiveFilters`: some key holds an active value. */
  predicate HasActiveFilters(m: Filters) {
    exists k :: k in m && IsActive(m[k])
  }

  lemma HasActiveIffCountPositive(m: Filters)
    ensures HasActiveFilters(m) <==> ActiveFiltersCount(m) > 0
  {
    if HasActiveFilters(m) {
      var k :| k in m && IsActive(m[k]);
      assert k in ActiveKeys(m);
    } else {
      assert ActiveKeys(m) == {};
    }
  }

  // ---------------------------------------------------------------------------
  // The hook's state and the transitions its handlers and its timer make

  datatype State = State(filters: Filters, debounced: Filters, armed: Option<Filters>)

  function Init(cfg: Config): State {
    State(cfg.initialFilters, cfg.initialFilters, None)
  }

  /** `updateFilters(p)`: merge now into `filters`; cancel the armed timer and arm one that
      will merge this `p` (and only this one) into `debouncedFilters`. */
  function Update(s: State, p: Filters): (r: State)
    ensures r.filters == Merge(s.filters, p) && r.debounced == s.debounced
    ensures r.armed == Some(p)
  {
    State(Merge(s.filters, p), s.debounced, Some(p))
  }

  /** `setFilter(k, v)` is `updateFilters({[k]: v})`. */
  function WithFilter(s: State, k: string, v: Value): (r: State)
    ensures r == Update(s, map[k := v])
    ensures k in r.filters && r.filters[k] == v
  {
    Update(s, map[k := v])
  }

  /** `removeFilter(k)`: both objects become the live filters without `k`; the timer stays armed. */
  function Remove(s: State, k: string): (r: State)
    ensures r.filters == r.debounced == Without(s.filters, k)
    ensures r.armed == s.armed
  {
    var m := Without(s.filters, k);
    State(m, m, s.armed)
  }

  /** `clearFilters()`: both objects become the initial filters; the timer stays armed. */
  function Clear(s: State, initial: Filters): (r: State)
    ensures r.filters == r.debounced == initial
    ensures r.armed == s.armed
  {
    State(initial, initial, s.armed)
  }

  /** The armed timer runs its callback; with no timer armed nothing happens. */
  function Fire(s: State): (r: State)
    ensures r.filters == s.filters && r.armed == None
    ensures s.armed.Some? ==> r.debounced == Merge(s.debounced, s.armed.value)
    ensures s.armed.None? ==> r == s
  {
    match s.armed
    case None => s
    case Some(p) => State(s.filters, Merge(s.debounced, p), None)
  }

  datatype Event =
    | UpdateFilters(partial: Filters)
    | SetFilterTo(key: string, value: Value)
    | RemoveFilter(key: string)
    | ClearFilters
    | TimerFires

  function Step(s: State, e: Event, cfg: Config): State {
    match e
    case UpdateFilters(p) => Update(s, p)
    case SetFilterTo(k, v) => WithFilter(s, k, v)
    case RemoveFilter(k) => Remove(s, k)
    case ClearFilters => Clear(s, cfg.initialFilters)
    case TimerFires => Fire(s)
  }

  function Run(s: State, es: seq<Event>, cfg: Config): State
    decreases |es|
  {
    if es == [] then s else Run(Step(s, es[0], cfg), es[1..], cfg)
  }

  function MergeAll(m: Filters, ps: seq<Filters>): Filters
    decreases |ps|
  {
    if ps == [] then m else MergeAll(Merge(m, ps[0]), ps[1..])
  }

  function Updates(ps: seq<Filters>): (es: seq<Event>)
    ensures |es| == |ps|
    ensures forall i :: 0 <= i < |ps| ==> es[i] == UpdateFilters(ps[i])
  {
    seq(|ps|, i requires 0 <= i < |ps| => UpdateFilters(ps[i]))
  }

  /** A burst of `updateFilters` calls: the live filters take every partial in order, the
      debounced filters are untouched, and only the last partial stays armed. */
  lemma {:induction false} BurstOfUpdates(s: State, ps: seq<Filters>, cfg: Config)
    requires ps != []
    ensures Run(s, Updates(ps), cfg)
         == State(MergeAll(s.filters, ps), s.debounced, Some(ps[|ps| - 1]))
    decreases |ps|
  {
    var es := Updates(ps);
    assert es[1..] == Updates(ps[1..]);
    if |ps| > 1 {
      BurstOfUpdates(Update(s, ps[0]), ps[1..], cfg);
    }
  }

  /** When the timer fires after a burst, only the last partial reaches `debouncedFilters`. */
  lemma OnlyLastPartialIsDebounced(s: State, ps: seq<Filters>, cfg: Config)
    requires ps != []
    ensures Fire(Run(s, Updates(ps), cfg)).debounced == Merge(s.debounced, ps[|ps| - 1])
  {
    BurstOfUpdates(s, ps, cfg);
  }

  /** Neither `clearFilters` nor `removeFilter` cancels the timer: a partial armed before them
      is merged back into `debouncedFilters` when it fires. */
  lemma StaleUpdateSurvivesClear(s: State, p: Filters, cfg: Config)
    ensures Fire(Clear(Update(s, p), cfg.initialFilters)).debounced == Merge(cfg.initialFilters, p)
    ensures Fire(Clear(Update(s, p), cfg.initialFilters)).filters == cfg.initialFilters
  {
  }

  lemma StaleUpdateSurvivesRemove(s: State, p: Filters, k: string)
    requires k in p
    ensures var r := Fire(Remove(Update(s, p), k));
            k !in r.filters && k in r.debounced && r.debounced[k] == p[k]
  {
  }

  /** The hook instance. */
  class FilterHook {
    const config: Config
    var filters: Filters
    var debouncedFilters: Filters
    /** The partial captured by the pending timeout, if one is armed. */
    var armed: Option<Filters>

    function Snapshot(): State
      reads this
    {
      State(filters, debouncedFilters, armed)
    }

    constructor (cfg: Config)
      ensures config == cfg && Snapshot() == Init(cfg)
    {
      config := cfg;
      filters := cfg.initialFilters;
      debouncedFilters := cfg.initialFilters;
      armed := None;
    }

    method UpdateFilters(partial: Filters)
      modifies this
      ensures Snapshot() == Update(old(Snapshot()), partial)
    {
      filters := filters + partial;
      armed := Some(partial);
    }

    method SetFilter(key: string, value: Value)
      modifies this
      ensures Snapshot() == WithFilter(old(Snapshot()), key, value)
    {
      UpdateFilters(map[key := value]);
    }

    method RemoveFilter(key: string)
      modifies this
      ensures Snapshot() == Remove(old(Snapshot()), key)
    {
      var newFilters := filters - {key};
      filters := newFilters;
      debouncedFilters := newFilters;
    }

    method ClearFilters()
      modifies this
      ensures Snapshot() == Clear(old(Snapshot()), config.initialFilters)
    {
      filters := config.initialFilters;
      debouncedFilters := config.initialFilters;
    }

    /** The debounce timeout elapses. */
    method TimerFires()
      modifies this
      ensures Snapshot() == Fire(old(Snapshot()))
    {
      if armed.Some? {
        debouncedFilters := debouncedFilters + armed.value;
        armed := None;
      }
    }
  }
}
