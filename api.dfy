/**
 * The client's API module (client/lib/api.ts): the in-memory access token, the
 * refresh token kept in the browser's localStorage, the request interceptor that
 * attaches the bearer credential, and the response interceptor that answers a 401
 * with one refresh and one retry.
 *
 * Network replies are inputs of the operations. Sending a request is an output
 * (`Resend`); the browser redirect is a cell that records the target.
 */
module Api {
  import opened Common

  type Headers = map<string, string>

  const AuthorizationHeader := "Authorization"
  const BearerScheme := "Bearer "
  const Unauthorized := 401
  const LoginPage := "/login"

  /** The token a bearer credential carries, as a server reads it back. */
  function BearerToken(credential: string): Option<string> {
    if |credential| >= |BearerScheme| && credential[..|BearerScheme|] == BearerScheme then
      Some(credential[|BearerScheme|..])
    else
      None
  }

  /** `Bearer ${token}`. */
  function Bearer(token: string): (credential: string)
    ensures BearerToken(credential) == Some(token)
  {
    var credential := BearerScheme + token;
    assert credential[..|BearerScheme|] == BearerScheme;
    assert credential[|BearerScheme|..] == token;
    credential
  }

  /** The parts of an axios request config that the interceptors touch. */
  datatype RequestConfig = RequestConfig(headers: Headers, retry: bool)

  /** The session cells api.ts reads and writes: the module's `accessToken`,
      localStorage's `refreshToken` and the page the browser was sent to, if any. */
  datatype Session = Session(accessToken: Option<string>, storedRefreshToken: Option<string>, redirect: Option<string>)

  // ---------------------------------------------------------------------------
  // Request interceptor
  // ---------------------------------------------------------------------------

  /** The request interceptor: a truthy access token becomes the Authorization header;
      otherwise the config is returned as it came. */
  function WithBearer(config: RequestConfig, accessToken: Option<string>): (r: RequestConfig)
    ensures r.retry == config.retry
    ensures forall h :: h in config.headers && h != AuthorizationHeader ==>
      h in r.headers && r.headers[h] == config.headers[h]
    ensures r.headers.Keys <= config.headers.Keys + {AuthorizationHeader}
    ensures Truthy(accessToken) ==>
      AuthorizationHeader in r.headers && BearerToken(r.headers[AuthorizationHeader]) == Some(accessToken.value)
    ensures !Truthy(accessToken) ==> r == config
  {
    if Truthy(accessToken) then
      config.(headers := config.headers[AuthorizationHeader := Bearer(accessToken.value)])
    else
      config
  }

  // ---------------------------------------------------------------------------
  // Module-level session functions
  // ---------------------------------------------------------------------------

  /** `logout()`: forgets the access token and removes the stored refresh token. */
  function Cleared(s: Session): (r: Session)
    ensures r.accessToken.None? && r.storedRefreshToken.None?
    ensures r.redirect == s.redirect
  {
    s.(accessToken := None, storedRefreshToken := None)
  }

  /** What `await api.post(...)` did: it resolved, or the promise rejected. */
  datatype CallResult = Resolved | Rejected

  /** `logoutUser()`: the server call first; the local logout only once it resolved, and
      the call's outcome is passed on. */
  function LogoutUserStep(s: Session, server: CallResult): (r: Session)
    ensures server.Resolved? ==> r.accessToken.None? && r.storedRefreshToken.None?
    ensures server.Rejected? ==> r == s
    ensures r.redirect == s.redirect
  {
    match server
    case Resolved => Cleared(s)
    case Rejected => s
  }

  // ---------------------------------------------------------------------------
  // Response interceptor
  // ---------------------------------------------------------------------------

  /** The reply to `POST /auth/refresh`: its `accessToken` and `refreshToken`, or a throw
      (axios throws on every non-2xx status and on network failure). */
  datatype RefreshReply = RefreshResolved(accessToken: string, refreshToken: string) | RefreshThrew

  /** The interceptor's answer: reject with the original error, or re-send the request. */
  datatype Verdict = RejectOriginal | Resend

  /** What the response interceptor did: the new session, the request config after it,
      its answer, and whether it called the refresh endpoint. */
  datatype Handled = Handled(session: Session, request: RequestConfig, verdict: Verdict, refreshCalled: bool)

  /** The response interceptor acts on this error. */
  predicate FirstUnauthorized(status: Option<int>, request: RequestConfig) {
    status == Some(Unauthorized) && !request.retry
  }

  /** The response interceptor, for an error whose response has `status` (None when the
      error carries no response) on request `request`. */
  function HandleResponseError(s: Session, request: RequestConfig, status: Option<int>, reply: RefreshReply): (r: Handled)
    // The retry flag is raised by the first 401 and never lowered.
    ensures r.request.retry == (request.retry || status == Some(Unauthorized))
    // Only a first 401 with a stored refresh token calls the refresh endpoint.
    ensures r.refreshCalled <==> FirstUnauthorized(status, request) && Truthy(s.storedRefreshToken)
    // Any other error is rejected and nothing changes.
    ensures !FirstUnauthorized(status, request) ==> r == Handled(s, request, RejectOriginal, false)
    // No stored refresh token: the session is unchanged and the error is rejected.
    ensures !Truthy(s.storedRefreshToken) ==> r.session == s && r.verdict.RejectOriginal?
    // The request is re-sent exactly when the refresh succeeded.
    ensures r.verdict.Resend? <==> r.refreshCalled && reply.RefreshResolved?
    // A refresh that succeeded replaces both tokens and re-sends with the new bearer.
    ensures r.verdict.Resend? ==>
      && r.session == s.(accessToken := Some(reply.accessToken), storedRefreshToken := Some(reply.refreshToken))
      && r.request.headers == request.headers[AuthorizationHeader := Bearer(reply.accessToken)]
    // A refresh that threw logs out, sends the browser to the login page and rejects.
    ensures r.refreshCalled && reply.RefreshThrew? ==>
      && r.session == Cleared(s).(redirect := Some(LoginPage))
      && r.verdict.RejectOriginal?
    // Headers change only on a re-send.
    ensures r.verdict.RejectOriginal? ==> r.request.headers == request.headers
  {
    if FirstUnauthorized(status, request) then
      var marked := request.(retry := true);
      if Truthy(s.storedRefreshToken) then
        match reply
        case RefreshResolved(newAccessToken, newRefreshToken) =>
          var session := s.(accessToken := Some(newAccessToken), storedRefreshToken := Some(newRefreshToken));
          var resent := marked.(headers := marked.headers[AuthorizationHeader := Bearer(newAccessToken)]);
          Handled(session, resent, Resend, true)
        case RefreshThrew =>
          Handled(Cleared(s).(redirect := Some(LoginPage)), marked, RejectOriginal, true)
      else
        Handled(s, marked, RejectOriginal, false)
    else
      Handled(s, request, RejectOriginal, false)
  }

  /** No retry loop: whatever error the re-sent request meets, the interceptor rejects
      it, calls no refresh and changes nothing. */
  lemma ResentRequestIsNotRetried(s: Session, request: RequestConfig, status: Option<int>, reply: RefreshReply,
                                  status': Option<int>, reply': RefreshReply)
    requires HandleResponseError(s, request, status, reply).verdict.Resend?
    ensures var first := HandleResponseError(s, request, status, reply);
      HandleResponseError(first.session, first.request, status', reply') ==
        Handled(first.session, first.request, RejectOriginal, false)
  {
  }

  /** The re-sent request goes through the request interceptor again and still carries
      the new access token as its bearer credential. */
  lemma ResentRequestCarriesNewBearer(s: Session, request: RequestConfig, status: Option<int>, reply: RefreshReply)
    requires HandleResponseError(s, request, status, reply).verdict.Resend?
    ensures var first := HandleResponseError(s, request, status, reply);
      var sent := WithBearer(first.request, first.session.accessToken);
      AuthorizationHeader in sent.headers &&
      BearerToken(sent.headers[AuthorizationHeader]) == Some(reply.accessToken)
  {
  }

  // ---------------------------------------------------------------------------
  // The module's state and the request object, updated in place
  // ---------------------------------------------------------------------------

  /** An axios request config object, which the interceptors mutate. */
  class Request {
    var headers: Headers
    var retry: bool

    constructor (headers: Headers)
      ensures Config() == RequestConfig(headers, false)
    {
      this.headers := headers;
      this.retry := false;
    }

    function Config(): RequestConfig
      reads this
    {
      RequestConfig(headers, retry)
    }
  }

  /** api.ts's module state, with the localStorage entry and the browser location it writes. */
  class ApiClient {
    var accessToken: Option<string>
    var storedRefreshToken: Option<string>
    var redirect: Option<string>

    /** At load the access token is null; localStorage keeps what an earlier session stored. */
    constructor (storedRefreshToken: Option<string>)
      ensures State() == Session(None, storedRefreshToken, None)
    {
      this.accessToken := None;
      this.storedRefreshToken := storedRefreshToken;
      this.redirect := None;
    }

    function State(): Session
      reads this
    {
      Session(accessToken, storedRefreshToken, redirect)
    }

    /** `setAccessToken(token)`. */
    method SetAccessToken(token: Option<string>)
      modifies this
      ensures State() == old(State()).(accessToken := token)
    {
      accessToken := token;
    }

    /** `getAccessToken()`. */
    method GetAccessToken() returns (token: Option<string>)
      ensures token == accessToken
    {
      token := accessToken;
    }

    /** `logout()`. */
    method Logout()
      modifies this
      ensures State() == Cleared(old(State()))
    {
      accessToken := None;
      storedRefreshToken := None;
    }

    /** `setAccessToken(t)` then `getAccessToken()` yields `t`, and nothing else changed. */
    method SetThenGet(token: Option<string>) returns (read: Option<string>)
      modifies this
      ensures read == token
      ensures State() == old(State()).(accessToken := token)
    {
      SetAccessToken(token);
      read := GetAccessToken();
    }

    /** The request interceptor, applied to a request object in place. */
    method AttachBearer(request: Request)
      modifies request
      ensures request.Config() == WithBearer(old(request.Config()), accessToken)
    {
      if Truthy(accessToken) {
        request.headers := request.headers[AuthorizationHeader := Bearer(accessToken.value)];
      }
    }

    /** The response interceptor's error handler, for the failed `request` and the reply the
        refresh call would get. Returns its answer and whether it called the refresh endpoint. */
    method OnResponseError(request: Request, status: Option<int>, reply: RefreshReply)
      returns (verdict: Verdict, refreshCalled: bool)
      modifies this, request
      ensures var h := HandleResponseError(old(State()), old(request.Config()), status, reply);
        State() == h.session && request.Config() == h.request &&
        verdict == h.verdict && refreshCalled == h.refreshCalled
    {
      verdict, refreshCalled := RejectOriginal, false;
      if status == Some(Unauthorized) && !request.retry {
        request.retry := true;
        var refreshToken := storedRefreshToken;
        if Truthy(refreshToken) {
          refreshCalled := true;
          match reply
          case RefreshResolved(newAccessToken, newRefreshToken) =>
            SetAccessToken(Some(newAccessToken));
            storedRefreshToken := Some(newRefreshToken);
            request.headers := request.headers[AuthorizationHeader := Bearer(newAccessToken)];
            verdict := Resend;
          case RefreshThrew =>
            Logout();
            redirect := Some(LoginPage);
        }
      }
    }

    /** `logoutUser()`, given the outcome of `POST /auth/logout`; returns that outcome. */
    method LogoutUser(server: CallResult) returns (outcome: CallResult)
      modifies this
      ensures State() == LogoutUserStep(old(State()), server)
      ensures outcome == server
    {
      if server.Resolved? {
        Logout();
      }
      outcome := server;
    }
  }
}
