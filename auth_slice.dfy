/**
 * The `auth` slice of the Redux store: whether a session is open and whose it is, with the
 * two reducers `setSession` and `clearSession`.
 */
module AuthSlice {
  import opened Wrappers

  datatype UserProfile = UserProfile(id: int, email: string, name: Option<string>, roles: Option<seq<string>>)

  datatype AuthState = AuthState(isAuthenticated: bool, user: Option<UserProfile>)

  const InitialState := AuthState(false, None)

  /** The slice's invariant: a session is open exactly when a user is recorded. */
  predicate Consistent(s: AuthState) {
    s.isAuthenticated <==> s.user.Some?
  }

  datatype Action = SetSession(user: UserProfile) | ClearSession

  /** The reducer. Whatever the previous state, the new one is consistent. */
  function Reduce(s: AuthState, a: Action): (r: AuthState)
    ensures Consistent(r)
    ensures a.SetSession? ==> r.isAuthenticated && r.user == Some(a.user)
    ensures a.ClearSession? ==> r == InitialState
  {
    match a
    case SetSession(u) => AuthState(true, Some(u))
    case ClearSession => AuthState(false, None)
  }

  function ReduceAll(s: AuthState, actions: seq<Action>): AuthState
    decreases |actions|
  {
    if actions == [] then s else ReduceAll(Reduce(s, actions[0]), actions[1..])
  }

  /** Every state reachable from a consistent state is consistent. */
  lemma {:induction false} ReachableConsistent(s: AuthState, actions: seq<Action>)
    requires Consistent(s)
    ensures Consistent(ReduceAll(s, actions))
    decreases |actions|
  {
    if actions != [] {
      ReachableConsistent(Reduce(s, actions[0]), actions[1..]);
    }
  }

  /** Neither reducer reads the old state: after any non-empty history, the state is what
      the last action alone makes of the initial state. */
  lemma {:induction false} LastActionDecides(s: AuthState, actions: seq<Action>)
    requires actions != []
    ensures ReduceAll(s, actions) == Reduce(InitialState, actions[|actions| - 1])
    decreases |actions|
  {
    if |actions| > 1 {
      LastActionDecides(Reduce(s, actions[0]), actions[1..]);
    }
  }

  lemma ClearIdempotent(s: AuthState)
    ensures Reduce(Reduce(s, ClearSession), ClearSession) == Reduce(s, ClearSession)
  {
  }

  lemma SetOverwrites(s: AuthState, u: UserProfile, v: UserProfile)
    ensures Reduce(Reduce(s, SetSession(u)), SetSession(v)) == Reduce(s, SetSession(v))
  {
  }

  /** The store's `auth` branch; the reducers assign its two fields in place. */
  class Store {
    var isAuthenticated: bool
    var user: Option<UserProfile>

    function State(): AuthState
      reads this
    {
      AuthState(isAuthenticated, user)
    }

    constructor ()
      ensures State() == InitialState
    {
      isAuthenticated := false;
      user := None;
    }

    method SetSession(u: UserProfile)
      modifies this
      ensures State() == Reduce(old(State()), Action.SetSession(u))
    {
      isAuthenticated := true;
      user := Some(u);
    }

    method ClearSession()
      modifies this
      ensures State() == Reduce(old(State()), Action.ClearSession)
    {
      isAuthenticated := false;
      user := None;
    }

    method Dispatch(a: Action)
      modifies this
      ensures State() == Reduce(old(State()), a)
      ensures Consistent(State())
    {
      match a
      case SetSession(u) => SetSession(u);
      case ClearSession => ClearSession();
    }
  }
}
