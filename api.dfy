/**
 * src/services/api.js: the shared HTTP client. A request interceptor attaches the stored
 * bearer token; a response interceptor answers the first 401 of a request by posting the
 * stored refresh token once, saving the new token and replaying the request, and logs the
 * browser out when the refresh fails.
 *
 * The backend and the refresh endpoint are oracles (total functions from what is sent to
 * the reply); one request is in flight at a time.
 */
module Api {
  import opened Wrappers
  import opened BrowserState

  /** The request config as the interceptors see it: the path, the `Authorization` header and `_retry`. */
  datatype Request = Request(path: string, authorization: Option<string>, retried: bool)

  /** An HTTP response. */
  datatype Reply = Reply(status: int, body: string)

  /** axios resolves exactly the 2xx statuses and rejects the rest with `error.response` set. */
  predicate Succeeded(reply: Reply) {
    200 <= reply.status < 300
  }

  /** What the refresh endpoint answers: a new token, or a rejection. */
  datatype RefreshReply = NewToken(token: string) | RefreshRejected(reason: string)

  /**
   * Why a refresh failed: there was no stored session to read the refresh token from
   * (reading `.refreshToken` of `null` throws), or the refresh endpoint rejected.
   */
  datatype RefreshError = MissingSession | RefreshRefused(reason: string)

  /** The rejection a caller sees. */
  datatype Failure = HttpFailure(request: Request, reply: Reply) | RefreshFailure(error: RefreshError)

  datatype Outcome = Resolved(reply: Reply) | Rejected(failure: Failure)

  /** The state the interceptors read and write: the stored session, `api.defaults.headers`, the location. */
  datatype GatewayState = GatewayState(
    stored: Option<Session>,
    defaultAuthorization: Option<string>,
    location: string)

  /**
   * One exchange: how it ends, the state after it, every request sent to the backend
   * (after the request interceptor) and every refresh token posted.
   */
  datatype Exchange = Exchange(
    outcome: Outcome,
    state: GatewayState,
    sent: seq<Request>,
    refreshPosts: seq<string>)

  /** The request interceptor: a stored session with a non-empty token sets the bearer header. */
  function Attach(config: Request, stored: Option<Session>): (r: Request)
    ensures r.path == config.path && r.retried == config.retried
    ensures stored.Some? && stored.value.token != "" ==> r.authorization == Some("Bearer " + stored.value.token)
    ensures stored.None? || stored.value.token == "" ==> r.authorization == config.authorization
  {
    if stored.Some? && stored.value.token != "" then
      config.(authorization := Some("Bearer " + stored.value.token))
    else config
  }

  /** A new call through the instance starts from the default headers and is not yet retried. */
  function NewRequest(path: string, st: GatewayState): (r: Request)
    ensures r.path == path && r.authorization == st.defaultAuthorization && !r.retried
  {
    Request(path, st.defaultAuthorization, false)
  }

  /** The state after a failed refresh: 'user' removed from storage and the browser sent to the login page. */
  function LoggedOut(st: GatewayState): (r: GatewayState)
    ensures r.stored.None? && r.location == LoginPath
    ensures r.defaultAuthorization == st.defaultAuthorization
  {
    st.(stored := None, location := LoginPath)
  }

  /**
   * The whole life of one request through both interceptors. At most one refresh is
   * posted and at most two requests are sent; a resolved outcome is the backend's 2xx
   * reply to the last request sent; the session only ever keeps its refresh token and
   * user while its token is replaced, or is removed together with a redirect to the
   * login page.
   */
  function Dispatch(config: Request, st: GatewayState, backend: Request -> Reply, refresh: string -> RefreshReply): (x: Exchange)
    decreases if config.retried then 0 else 1
    ensures 1 <= |x.sent| <= 2 && |x.refreshPosts| <= 1
    ensures x.sent[0] == Attach(config, st.stored)
    ensures |x.sent| == 2 ==> |x.refreshPosts| == 1 && x.sent[1].retried
    ensures config.retried ==> |x.sent| == 1 && x.refreshPosts == [] && x.state == st
    ensures x.outcome.Resolved? ==> Succeeded(x.outcome.reply) && x.outcome.reply == backend(x.sent[|x.sent| - 1])
    ensures x.state.stored.Some? ==>
              st.stored.Some? && x.state.stored.value == st.stored.value.(token := x.state.stored.value.token)
    ensures x.refreshPosts != [] ==> st.stored.Some? && x.refreshPosts == [st.stored.value.refreshToken]
    ensures x.state.location == st.location || (x.state.location == LoginPath && x.state.stored.None?)
  {
    var sent := Attach(config, st.stored);
    var reply := backend(sent);
    if Succeeded(reply) then
      Exchange(Resolved(reply), st, [sent], [])
    else if reply.status == 401 && !sent.retried then
      var marked := sent.(retried := true);
      match st.stored
      case None =>
        Exchange(Rejected(RefreshFailure(MissingSession)), LoggedOut(st), [sent], [])
      case Some(s) =>
        match refresh(s.refreshToken)
        case RefreshRejected(reason) =>
          Exchange(Rejected(RefreshFailure(RefreshRefused(reason))), LoggedOut(st), [sent], [s.refreshToken])
        case NewToken(t) =>
          var renewed := st.(stored := Some(s.(token := t)), defaultAuthorization := Some("Bearer " + t));
          var replay := Dispatch(marked, renewed, backend, refresh);
          Exchange(replay.outcome, replay.state, [sent] + replay.sent, [s.refreshToken] + replay.refreshPosts)
    else
      Exchange(Rejected(HttpFailure(sent, reply)), st, [sent], [])
  }

  /** A 2xx reply passes through unchanged and nothing else happens. */
  lemma SuccessPassesThrough(config: Request, st: GatewayState, backend: Request -> Reply, refresh: string -> RefreshReply)
    requires Succeeded(backend(Attach(config, st.stored)))
    ensures Dispatch(config, st, backend, refresh)
         == Exchange(Resolved(backend(Attach(config, st.stored))), st, [Attach(config, st.stored)], [])
  {
  }

  /** An error other than a first 401 is rejected as it came, and the session is untouched. */
  lemma OtherErrorsRejectedUnchanged(config: Request, st: GatewayState, backend: Request -> Reply, refresh: string -> RefreshReply)
    requires !Succeeded(backend(Attach(config, st.stored)))
    requires backend(Attach(config, st.stored)).status != 401 || config.retried
    ensures Dispatch(config, st, backend, refresh)
         == Exchange(Rejected(HttpFailure(Attach(config, st.stored), backend(Attach(config, st.stored)))),
                     st, [Attach(config, st.stored)], [])
  {
  }

  /**
   * A first 401 with a stored session posts its refresh token once; on a new token the
   * session keeps its refresh token and user with only the token replaced, the default
   * header carries the new token, and the request is replayed marked as retried with the
   * new bearer header. The replay's answer is final: a second 401 is rejected without
   * another refresh.
   */
  lemma RefreshAndReplay(config: Request, st: GatewayState, backend: Request -> Reply, refresh: string -> RefreshReply, t: string)
    requires !config.retried && st.stored.Some? && t != ""
    requires backend(Attach(config, st.stored)).status == 401
    requires refresh(st.stored.value.refreshToken) == NewToken(t)
    ensures var x := Dispatch(config, st, backend, refresh);
            var replayed := Request(config.path, Some("Bearer " + t), true);
            && x.refreshPosts == [st.stored.value.refreshToken]
            && x.sent == [Attach(config, st.stored), replayed]
            && x.state.stored == Some(st.stored.value.(token := t))
            && x.state.defaultAuthorization == Some("Bearer " + t)
            && x.state.location == st.location
            && (Succeeded(backend(replayed)) ==> x.outcome == Resolved(backend(replayed)))
            && (!Succeeded(backend(replayed)) ==> x.outcome == Rejected(HttpFailure(replayed, backend(replayed))))
  {
    var s := st.stored.value;
    var marked := Attach(config, st.stored).(retried := true);
    var renewed := st.(stored := Some(s.(token := t)), defaultAuthorization := Some("Bearer " + t));
    assert Attach(marked, renewed.stored) == Request(config.path, Some("Bearer " + t), true);
  }

  /**
   * A failed refresh removes the stored session, redirects to the login page and rejects
   * with the refresh error, not with the original 401.
   */
  lemma FailedRefreshLogsOut(config: Request, st: GatewayState, backend: Request -> Reply, refresh: string -> RefreshReply)
    requires !config.retried
    requires backend(Attach(config, st.stored)).status == 401
    requires st.stored.None? || refresh(st.stored.value.refreshToken).RefreshRejected?
    ensures var x := Dispatch(config, st, backend, refresh);
            && x.state == LoggedOut(st)
            && x.outcome.Rejected? && x.outcome.failure.RefreshFailure?
            && |x.sent| == 1
  {
  }

  /**
   * The default header outlives the session: after a refresh to token t and a logout, a
   * new request still carries `Bearer t`, because logging out only removes 'user'.
   */
  lemma DefaultHeaderOutlivesLogout(config: Request, st: GatewayState, backend: Request -> Reply, refresh: string -> RefreshReply, t: string, path: string)
    requires !config.retried && st.stored.Some? && t != ""
    requires backend(Attach(config, st.stored)).status == 401
    requires refresh(st.stored.value.refreshToken) == NewToken(t)
    ensures var after := Dispatch(config, st, backend, refresh).state.(stored := None);
            Attach(NewRequest(path, after), after.stored).authorization == Some("Bearer " + t)
  {
    RefreshAndReplay(config, st, backend, refresh, t);
  }

  /**
   * The client instance: `api.defaults.headers` is a field, and the browser whose
   * storage and location the interceptors read and write.
   */
  class Gateway {
    const browser: Browser
    var defaultAuthorization: Option<string>

    constructor(browser: Browser)
      ensures this.browser == browser && defaultAuthorization == None
    {
      this.browser := browser;
      defaultAuthorization := None;
    }

    function State(): GatewayState
      reads this, browser
    {
      GatewayState(browser.user, defaultAuthorization, browser.location)
    }

    /** Both interceptors around one request config, as `Dispatch` specifies. */
    method Send(config: Request, backend: Request -> Reply, refresh: string -> RefreshReply) returns (outcome: Outcome)
      modifies this, browser
      decreases if config.retried then 0 else 1
      ensures var x := Dispatch(config, old(State()), backend, refresh);
              outcome == x.outcome && State() == x.state
      ensures browser.userRole == old(browser.userRole)
    {
      var sent := Attach(config, browser.user);
      var reply := backend(sent);
      if Succeeded(reply) {
        return Resolved(reply);
      }
      if reply.status == 401 && !sent.retried {
        var marked := sent.(retried := true);
        if browser.user.None? {
          browser.location := LoginPath;
          return Rejected(RefreshFailure(MissingSession));
        }
        var s := browser.user.value;
        var answer := refresh(s.refreshToken);
        match answer {
          case RefreshRejected(reason) =>
            browser.user := None;
            browser.location := LoginPath;
            outcome := Rejected(RefreshFailure(RefreshRefused(reason)));
          case NewToken(t) =>
            browser.user := Some(s.(token := t));
            defaultAuthorization := Some("Bearer " + t);
            outcome := Send(marked, backend, refresh);
        }
        return;
      }
      outcome := Rejected(HttpFailure(sent, reply));
    }

    /** `api.get(path)` and the like: a fresh config from the defaults, through both interceptors. */
    method Call(path: string, backend: Request -> Reply, refresh: string -> RefreshReply) returns (outcome: Outcome)
      modifies this, browser
      ensures var x := Dispatch(NewRequest(path, old(State())), old(State()), backend, refresh);
              outcome == x.outcome && State() == x.state
      ensures browser.userRole == old(browser.userRole)
    {
      var config := NewRequest(path, State());
      outcome := Send(config, backend, refresh);
    }
  }
}
