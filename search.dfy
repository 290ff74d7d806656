/**
 * The `useSearch` hook: the live `searchTerm`, the `debouncedSearchTerm` the queries read,
 * and one debounce timer, modelled as a slot holding the term the armed timer will publish.
 */
module Search {
  import opened Wrappers

  datatype Config = Config(debounceMs: int, minLength: int)

  /** The values the hook falls back to when its config leaves them out. */
  const DefaultConfig := Config(300, 2)

  datatype State = State(term: string, debounced: string, armed: Option<string>)

  /** Both terms start empty and no timer is armed. */
  const Initial := State("", "", None)

  /** `isValidSearch`: read from the debounced term, never from the live one. */
  predicate IsValidSearch(s: State, cfg: Config)
    ensures cfg.minLength <= 0 ==> IsValidSearch(s, cfg)
    ensures IsValidSearch(s, cfg) && cfg.minLength > 0 ==> s.debounced != ""
  {
    |s.debounced| >= cfg.minLength
  }

  /** `hasSearchTerm`: read from the live term. */
  predicate HasSearchTerm(s: State)
    ensures HasSearchTerm(s) <==> s.term != ""
  {
    |s.term| > 0
  }

  /** `setSearchTerm(t)`: the live term changes at once; the armed timer is replaced by one
      that will publish `t`. */
  function Update(s: State, t: string): (r: State)
    ensures r.term == t && r.debounced == s.debounced && r.armed == Some(t)
    ensures HasSearchTerm(r) <==> t != ""
  {
    State(t, s.debounced, Some(t))
  }

  /** `clearSearch()`: both terms become empty; the armed timer is not cancelled. */
  function Clear(s: State): (r: State)
    ensures r.term == "" && r.debounced == "" && r.armed == s.armed
    ensures !HasSearchTerm(r)
  {
    State("", "", s.armed)
  }

  /** The armed timer publishes its term; with none armed nothing happens. */
  function Fire(s: State): (r: State)
    ensures r.term == s.term && r.armed == None
    ensures s.armed.Some? ==> r.debounced == s.armed.value
    ensures s.armed.None? ==> r == s
  {
    match s.armed
    case None => s
    case Some(t) => State(s.term, t, None)
  }

  datatype Event = SetSearchTerm(term: string) | ClearSearch | TimerFires

  function Step(s: State, e: Event): State {
    match e
    case SetSearchTerm(t) => Update(s, t)
    case ClearSearch => Clear(s)
    case TimerFires => Fire(s)
  }

  function Run(s: State, es: seq<Event>): State
    decreases |es|
  {
    if es == [] then s else Run(Step(s, es[0]), es[1..])
  }

  function Typing(ts: seq<string>): (es: seq<Event>)
    ensures |es| == |ts|
    ensures forall i :: 0 <= i < |ts| ==> es[i] == SetSearchTerm(ts[i])
  {
    seq(|ts|, i requires 0 <= i < |ts| => SetSearchTerm(ts[i]))
  }

  /** A burst of keystrokes: the live term is the last one typed, the debounced term has
      not moved, and the timer is armed with the last term. */
  lemma {:induction false} BurstOfTyping(s: State, ts: seq<string>)
    requires ts != []
    ensures Run(s, Typing(ts)) == State(ts[|ts| - 1], s.debounced, Some(ts[|ts| - 1]))
    decreases |ts|
  {
    var es := Typing(ts);
    assert es[1..] == Typing(ts[1..]);
    if |ts| > 1 {
      BurstOfTyping(Update(s, ts[0]), ts[1..]);
    }
  }

  /** When the timer fires after a burst, the debounced term is the latest one typed and the
      two terms agree. */
  lemma LatestTermIsDebounced(s: State, ts: seq<string>)
    requires ts != []
    ensures Fire(Run(s, Typing(ts))).debounced == ts[|ts| - 1]
    ensures Fire(Run(s, Typing(ts))).term == ts[|ts| - 1]
  {
    BurstOfTyping(s, ts);
  }


  /** Typing alone never changes `isValidSearch`; once the timer publishes the term it is
      valid exactly when the term has `minLength` characters, and clearing makes it valid only
      when `minLength` is not positive. */
  lemma ValidSearchFollowsDebounce(s: State, t: string, cfg: Config)
    ensures IsValidSearch(Update(s, t), cfg) == IsValidSearch(s, cfg)
    ensures IsValidSearch(Fire(Update(s, t)), cfg) <==> |t| >= cfg.minLength
    ensures IsValidSearch(Clear(s), cfg) <==> cfg.minLength <= 0
  {
  }
  /** `clearSearch` does not cancel the timer: typing then clearing within the debounce window
      leaves an empty input while the debounced term comes back as what was typed. */
  lemma StaleTermSurvivesClear(s: State, t: string)
    ensures Fire(Clear(Update(s, t))).term == ""
    ensures Fire(Clear(Update(s, t))).debounced == t
  {
  }

  /** The hook instance. */
  class SearchHook {
    const config: Config
    var searchTerm: string
    var debouncedSearchTerm: string
    /** The term captured by the pending timeout, if one is armed. */
    var armed: Option<string>

    function Snapshot(): State
      reads this
    {
      State(searchTerm, debouncedSearchTerm, armed)
    }

    constructor (cfg: Config)
      ensures config == cfg && Snapshot() == Initial
    {
      config := cfg;
      searchTerm := "";
      debouncedSearchTerm := "";
      armed := None;
    }

    /** `updateSearch`, exposed as `setSearchTerm` */
    method SetSearchTerm(term: string)
      modifies this
      ensures Snapshot() == Update(old(Snapshot()), term)
    {
      searchTerm := term;
      armed := Some(term);
    }

    method ClearSearch()
      modifies this
      ensures Snapshot() == Clear(old(Snapshot()))
    {
      searchTerm := "";
      debouncedSearchTerm := "";
    }

    method TimerFires()
      modifies this
      ensures Snapshot() == Fire(old(Snapshot()))
    {
      if armed.Some? {
        debouncedSearchTerm := armed.value;
        armed := None;
      }
    }
  }
}
