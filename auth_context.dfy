/**
 * The client's session provider (client/lib/auth-context.tsx): the `user` and
 * `isLoading` state cells, startup initialisation (refresh, then profile), login,
 * logout and the derived `isAuthenticated`. It shares the access token and the
 * stored refresh token with the API module.
 */
module AuthContext {
  import opened Common
  import opened Api

  datatype User = User(id: string, email: string)

  /** A `fetch` round trip: an ok response with its parsed JSON body, a response that
      is not ok, or a throw (network failure, or a body that is not JSON). */
  datatype Fetch<T> = Ok(body: T) | NotOk | Throws

  /** The JSON body of a successful `POST /auth/refresh`. */
  datatype TokenBody = TokenBody(accessToken: string, refreshToken: string)

  /** The whole client session state: the API module's cells plus the provider's cells. */
  datatype ProviderState = ProviderState(session: Session, user: Option<User>, isLoading: bool)

  /** `!!user || !!getAccessToken()`. */
  predicate IsAuthenticated(s: ProviderState) {
    s.user.Some? || Truthy(s.session.accessToken)
  }

  /** `initializeAuth()`, given the replies to the refresh call and, when that one is ok,
      to the profile call (sent with the new access token). */
  function InitializeStep(s: ProviderState, refresh: Fetch<TokenBody>, profile: Fetch<User>): (r: ProviderState)
    // Every path ends by clearing isLoading; the redirect cell is never touched.
    ensures !r.isLoading
    ensures r.session.redirect == s.session.redirect
    // Without a stored refresh token, only isLoading changes.
    ensures !Truthy(s.session.storedRefreshToken) ==> r == s.(isLoading := false)
    // The access token changes only through an ok refresh, which sets it to the reply's.
    ensures r.session.accessToken != s.session.accessToken ==>
      refresh.Ok? && r.session.accessToken == Some(refresh.body.accessToken)
    ensures Truthy(s.session.storedRefreshToken) && refresh.Ok? ==>
      r.session.accessToken == Some(refresh.body.accessToken)
    // The user is set only from an ok profile reply after an ok refresh.
    ensures r.user != s.user ==>
      Truthy(s.session.storedRefreshToken) && refresh.Ok? && profile.Ok? && r.user == Some(profile.body)
    ensures Truthy(s.session.storedRefreshToken) && refresh.Ok? && profile.Ok? ==> r.user == Some(profile.body)
    // An ok refresh stores the reply's refresh token, unless the profile call throws.
    ensures Truthy(s.session.storedRefreshToken) && refresh.Ok? && !profile.Throws? ==>
      r.session.storedRefreshToken == Some(refresh.body.refreshToken)
    // A refresh that is not ok, or any throw, removes the stored refresh token.
    ensures Truthy(s.session.storedRefreshToken) && (!refresh.Ok? || profile.Throws?) ==>
      r.session.storedRefreshToken.None?
  {
    var after :=
      if Truthy(s.session.storedRefreshToken) then
        match refresh
        case Ok(data) =>
          var session := s.session.(accessToken := Some(data.accessToken), storedRefreshToken := Some(data.refreshToken));
          (match profile
           case Ok(userData) => s.(session := session, user := Some(userData))
           case NotOk => s.(session := session)
           case Throws => s.(session := session.(storedRefreshToken := None)))
        case NotOk => s.(session := s.session.(storedRefreshToken := None))
        case Throws => s.(session := s.session.(storedRefreshToken := None))
      else
        s;
    after.(isLoading := false)
  }

  /** `login(accessToken, refreshToken, userData)`. */
  function LoginStep(s: ProviderState, accessToken: string, refreshToken: string, userData: User): (r: ProviderState)
    ensures r.session.accessToken == Some(accessToken)
    ensures r.session.storedRefreshToken == Some(refreshToken)
    ensures r.user == Some(userData)
    ensures r.isLoading == s.isLoading && r.session.redirect == s.session.redirect
    ensures IsAuthenticated(r)
  {
    s.(session := s.session.(accessToken := Some(accessToken), storedRefreshToken := Some(refreshToken)),
       user := Some(userData))
  }

  /** `logout()`: the API module's logout, then `setUser(null)`. */
  function LogoutStep(s: ProviderState): (r: ProviderState)
    ensures r.session.accessToken.None? && r.session.storedRefreshToken.None? && r.user.None?
    ensures r.isLoading == s.isLoading && r.session.redirect == s.session.redirect
    ensures !IsAuthenticated(r)
  {
    s.(session := Cleared(s.session), user := None)
  }

  /** A failed startup refresh leaves the client anonymous unless it was already
      authenticated in memory; it never authenticates. */
  lemma FailedInitializationAuthenticatesNobody(s: ProviderState, refresh: Fetch<TokenBody>, profile: Fetch<User>)
    requires !refresh.Ok?
    ensures IsAuthenticated(InitializeStep(s, refresh, profile)) == IsAuthenticated(s)
  {
  }

  /** `AuthProvider`: its state cells, and the API module whose cells it shares. */
  class AuthProvider {
    const api: ApiClient
    var user: Option<User>
    var isLoading: bool

    /** `useState(null)` and `useState(true)`. */
    constructor (api: ApiClient)
      ensures this.api == api && user.None? && isLoading
    {
      this.api := api;
      this.user := None;
      this.isLoading := true;
    }

    function State(): ProviderState
      reads this, api
    {
      ProviderState(api.State(), user, isLoading)
    }

    method InitializeAuth(refresh: Fetch<TokenBody>, profile: Fetch<User>)
      modifies this, api
      ensures State() == InitializeStep(old(State()), refresh, profile)
    {
      var refreshToken := api.storedRefreshToken;   // localStorage.getItem
      if Truthy(refreshToken) {
        match refresh
        case Ok(data) =>
          api.SetAccessToken(Some(data.accessToken));
          api.storedRefreshToken := Some(data.refreshToken);   // localStorage.setItem
          match profile {
            case Ok(userData) =>
              user := Some(userData);
            case NotOk =>
            case Throws =>
              api.storedRefreshToken := None;   // localStorage.removeItem
          }
        case NotOk =>
          api.storedRefreshToken := None;
        case Throws =>
          api.storedRefreshToken := None;
      }
      isLoading := false;
    }

    method Login(accessToken: string, refreshToken: string, userData: User)
      modifies this, api
      ensures State() == LoginStep(old(State()), accessToken, refreshToken, userData)
    {
      api.SetAccessToken(Some(accessToken));
      api.storedRefreshToken := Some(refreshToken);
      user := Some(userData);
    }

    method Logout()
      modifies this, api
      ensures State() == LogoutStep(old(State()))
    {
      api.Logout();
      user := None;
    }

    /** The `isAuthenticated` value of the context. */
    method GetIsAuthenticated() returns (authenticated: bool)
      ensures authenticated == IsAuthenticated(State())
    {
      var token := api.GetAccessToken();
      authenticated := user.Some? || Truthy(token);
    }
  }
}
