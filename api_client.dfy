/**
 * The shared HTTP client's two interceptors. The request interceptor adds the bearer header;
 * the response interceptor turns a 401 into one refresh call, parks the 401s that arrive
 * meanwhile, and on the refresh's outcome releases or drops them.
 *
 * HTTP and promises are not modelled: a request is its config, and the interceptor reacts
 * to three discrete events (an error arrives, the refresh succeeds, the refresh fails).
 */
module ApiClient {
  import opened Wrappers
  import opened Js
  import AuthSlice

  type Headers = map<string, string>

  const AuthorizationHeader := "Authorization"

  /** A request config: an identity for the request, its headers, and `_retry`. */
  datatype RequestConfig = RequestConfig(id: nat, headers: Option<Headers>, retry: bool)

  /** The request interceptor: with a non-empty token, `Authorization: Bearer <token>` is set
      (creating the headers object if missing) and nothing else changes; otherwise the config
      goes out untouched. */
  function Authorize(token: Option<string>, c: RequestConfig): (r: RequestConfig)
    ensures r.id == c.id && r.retry == c.retry
    ensures TruthyString(token) ==>
              r.headers.Some? && AuthorizationHeader in r.headers.value
              && r.headers.value[AuthorizationHeader] == "Bearer " + token.value
              && r.headers.value.Keys == c.headers.GetOr(map[]).Keys + {AuthorizationHeader}
              && forall k :: k in c.headers.GetOr(map[]) && k != AuthorizationHeader ==>
                               r.headers.value[k] == c.headers.value[k]
    ensures !TruthyString(token) ==> r == c
  {
    if TruthyString(token) then
      c.(headers := Some(c.headers.GetOr(map[])[AuthorizationHeader := "Bearer " + token.value]))
    else c
  }

  /** A failed response: its status, if a response came back, and the request's config. */
  datatype HttpError = HttpError(status: Option<int>, config: RequestConfig)

  /** The body of `/auth/refresh` as far as the interceptor reads it. */
  datatype RefreshResponse = RefreshResponse(accessToken: Option<string>, user: Option<AuthSlice.UserProfile>)

  /** The module-level variables, the store's auth branch, and the config of the request whose
      401 started the refresh in flight (held by that call's pending promise). */
  datatype ClientState = ClientState(
    token: Option<string>,
    refreshing: bool,
    pending: seq<RequestConfig>,
    origin: Option<RequestConfig>,
    session: AuthSlice.AuthState)

  /** The interceptor's invariant. */
  predicate Valid(s: ClientState) {
    && (s.refreshing <==> s.origin.Some?)
    && (!s.refreshing ==> s.pending == [])
    && (s.origin.Some? ==> s.origin.value.retry)
    && (forall i :: 0 <= i < |s.pending| ==> !s.pending[i].retry)
    && AuthSlice.Consistent(s.session)
  }

  const Initial := ClientState(None, false, [], None, AuthSlice.InitialState)

  /** A 401 on a request not yet retried is handled; anything else is rejected unchanged. */
  predicate Handles(e: HttpError) {
    e.status == Some(401) && !e.config.retry
  }

  datatype ErrorOutcome =
    | Rejected(error: HttpError)          // `Promise.reject(error)`
    | Queued                              // parked in `pending` behind the refresh in flight
    | RefreshIssued                       // this 401 started the one refresh call

  function ErrorTransition(s: ClientState, e: HttpError): (r: (ClientState, ErrorOutcome))
    ensures !Handles(e) ==> r == (s, Rejected(e))
    ensures Handles(e) && s.refreshing ==> r == (s.(pending := s.pending + [e.config]), Queued)
    ensures Handles(e) && !s.refreshing ==>
              r == (s.(refreshing := true, origin := Some(e.config.(retry := true))), RefreshIssued)
    ensures Valid(s) ==> Valid(r.0)
  {
    if !Handles(e) then (s, Rejected(e))
    else if s.refreshing then (s.(pending := s.pending + [e.config]), Queued)
    else (s.(refreshing := true, origin := Some(e.config.(retry := true))), RefreshIssued)
  }

  /** Every config the client sends again is marked `_retry`. */
  function MarkRetried(cs: seq<RequestConfig>): (r: seq<RequestConfig>)
    ensures |r| == |cs|
    ensures forall i :: 0 <= i < |cs| ==> r[i] == cs[i].(retry := true)
  {
    seq(|cs|, i requires 0 <= i < |cs| => cs[i].(retry := true))
  }

  datatype RefreshOutcome =
    | Recovered(released: seq<RequestConfig>, retried: RequestConfig)
    | Failed(stranded: seq<RequestConfig>)
    | NoRefreshInFlight

  /** The refresh call resolves: new token, the user synced if the response has one, every
      parked request released in arrival order and marked `_retry`, the original retried. */
  function SuccessTransition(s: ClientState, resp: RefreshResponse): (r: (ClientState, RefreshOutcome))
    ensures s.origin.None? ==> r == (s, NoRefreshInFlight)
    ensures s.origin.Some? ==>
              && r.0 == ClientState(resp.accessToken, false, [], None,
                                    if resp.user.Some? then AuthSlice.Reduce(s.session, AuthSlice.SetSession(resp.user.value))
                                    else s.session)
              && r.1 == Recovered(MarkRetried(s.pending), s.origin.value)
    ensures Valid(s) ==> Valid(r.0)
  {
    match s.origin
    case None => (s, NoRefreshInFlight)
    case Some(o) =>
      var session := if resp.user.Some? then AuthSlice.Reduce(s.session, AuthSlice.SetSession(resp.user.value)) else s.session;
      (ClientState(resp.accessToken, false, [], None, session), Recovered(MarkRetried(s.pending), o))
  }

  /** The refresh call rejects: token and session cleared, the parked requests dropped without
      being released (they never settle), the error rethrown to the original caller. */
  function FailureTransition(s: ClientState): (r: (ClientState, RefreshOutcome))
    ensures s.origin.None? ==> r == (s, NoRefreshInFlight)
    ensures s.origin.Some? ==>
              r == (ClientState(None, false, [], None, AuthSlice.InitialState), Failed(s.pending))
    ensures Valid(s) ==> Valid(r.0)
  {
    match s.origin
    case None => (s, NoRefreshInFlight)
    case Some(_) => (ClientState(None, false, [], None, AuthSlice.Reduce(s.session, AuthSlice.ClearSession)), Failed(s.pending))
  }

  datatype Event = ErrorArrives(e: HttpError) | RefreshSucceeds(resp: RefreshResponse) | RefreshFails

  function Step(s: ClientState, ev: Event): ClientState {
    match ev
    case ErrorArrives(e) => ErrorTransition(s, e).0
    case RefreshSucceeds(resp) => SuccessTransition(s, resp).0
    case RefreshFails => FailureTransition(s).0
  }

  function Run(s: ClientState, evs: seq<Event>): ClientState
    decreases |evs|
  {
    if evs == [] then s else Run(Step(s, evs[0]), evs[1..])
  }

  lemma {:induction false} RunKeepsValid(s: ClientState, evs: seq<Event>)
    requires Valid(s)
    ensures Valid(Run(s, evs))
    decreases |evs|
  {
    if evs != [] {
      RunKeepsValid(Step(s, evs[0]), evs[1..]);
    }
  }

  function Unauthorized(cs: seq<RequestConfig>): (es: seq<Event>)
    ensures |es| == |cs|
    ensures forall i :: 0 <= i < |cs| ==> es[i] == ErrorArrives(HttpError(Some(401), cs[i]))
  {
    seq(|cs|, i requires 0 <= i < |cs| => ErrorArrives(HttpError(Some(401), cs[i])))
  }

  /** While a refresh is in flight, fresh 401s join the end of the queue in arrival order and
      no second refresh starts. */
  lemma {:induction false} QueueIsFifo(s: ClientState, cs: seq<RequestConfig>)
    requires s.refreshing
    requires forall i :: 0 <= i < |cs| ==> !cs[i].retry
    ensures Run(s, Unauthorized(cs)) == s.(pending := s.pending + cs)
    decreases |cs|
  {
    if cs != [] {
      var es := Unauthorized(cs);
      assert es[1..] == Unauthorized(cs[1..]);
      var s' := s.(pending := s.pending + [cs[0]]);
      QueueIsFifo(s', cs[1..]);
      assert s'.pending + cs[1..] == s.pending + cs;
    }
  }

  /** A 401 started a refresh only when none was in flight. */
  lemma OneRefreshAtATime(s: ClientState, e: HttpError)
    requires s.refreshing
    ensures ErrorTransition(s, e).1 != RefreshIssued
  {
  }

  /** Every request the client sends again is marked `_retry`, so a second 401 on it is
      rejected: no request is retried twice. */
  lemma RetriedAtMostOnce(s: ClientState, resp: RefreshResponse, st: Option<int>, s2: ClientState)
    requires Valid(s) && s.refreshing
    ensures var out := SuccessTransition(s, resp).1;
            out.Recovered?
            && (forall c :: c in out.released ==> ErrorTransition(s2, HttpError(st, c)).1.Rejected?)
            && ErrorTransition(s2, HttpError(st, out.retried)).1.Rejected?
  {
  }

  /** The module `client.ts`: its variables, and the store it dispatches to. */
  class Client {
    var accessToken: Option<string>
    var refreshing: bool
    var pending: seq<RequestConfig>
    var origin: Option<RequestConfig>
    const store: AuthSlice.Store

    function Snapshot(): ClientState
      reads this, store
    {
      ClientState(accessToken, refreshing, pending, origin, store.State())
    }

    constructor ()
      ensures fresh(store)
      ensures Snapshot() == Initial
    {
      accessToken := None;
      refreshing := false;
      pending := [];
      origin := None;
      store := new AuthSlice.Store();
    }

    /** `setAccessToken(t)` */
    method SetAccessToken(t: Option<string>)
      modifies this
      ensures Snapshot() == old(Snapshot()).(token := t)
    {
      accessToken := t;
    }

    /** The request interceptor. */
    method OnRequest(c: RequestConfig) returns (r: RequestConfig)
      ensures r == Authorize(accessToken, c)
    {
      r := c;
      if TruthyString(accessToken) {
        var h := if r.headers.Some? then r.headers.value else map[];
        r := r.(headers := Some(h[AuthorizationHeader := "Bearer " + accessToken.value]));
      }
    }

    /** The response interceptor's error branch, up to the point where it awaits. */
    method OnError(e: HttpError) returns (out: ErrorOutcome)
      modifies this
      ensures (Snapshot(), out) == ErrorTransition(old(Snapshot()), e)
    {
      if e.status == Some(401) && !e.config.retry {
        if refreshing {
          pending := pending + [e.config];
          return Queued;
        }
        refreshing := true;
        origin := Some(e.config.(retry := true));
        return RefreshIssued;
      }
      return Rejected(e);
    }

    /** The refresh call resolved. */
    method OnRefreshSuccess(resp: RefreshResponse) returns (out: RefreshOutcome)
      modifies this, store
      ensures (Snapshot(), out) == SuccessTransition(old(Snapshot()), resp)
    {
      if origin.None? {
        return NoRefreshInFlight;
      }
      accessToken := resp.accessToken;
      if resp.user.Some? {
        store.SetSession(resp.user.value);
      }
      var released := MarkRetried(pending);
      pending := [];
      out := Recovered(released, origin.value);
      refreshing := false;
      origin := None;
    }

    /** The refresh call rejected. */
    method OnRefreshFailure() returns (out: RefreshOutcome)
      modifies this, store
      ensures (Snapshot(), out) == FailureTransition(old(Snapshot()))
    {
      if origin.None? {
        return NoRefreshInFlight;
      }
      accessToken := None;
      store.ClearSession();
      out := Failed(pending);
      pending := [];
      refreshing := false;
      origin := None;
    }
  }
}
