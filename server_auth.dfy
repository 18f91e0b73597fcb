/**
 * The server's refresh-token protocol (server/src/auth/auth.service.ts).
 *
 * Each user record holds at most one refresh token. `login` issues a token pair
 * and stores the refresh token; `refreshTokens` accepts a presented token only when
 * it verifies and equals the stored one, and then rotates it; `logout` clears it.
 *
 * JWT signing and verification, the bcrypt compare and the clock are abstract:
 * they are fields of `Env` and parameters of the operations.
 */
module ServerAuth {
  import opened Common

  type UserId = string
  type Token = string
  /** Seconds since the epoch, the resolution of a JWT's `iat` claim. */
  type Time = nat

  /** The payload `{ email, sub }` signed into both tokens. */
  datatype Claims = Claims(email: string, sub: UserId)

  /** `jwtService.sign(payload)` uses the JWT module's access secret and lifetime;
      the refresh token is signed with options naming its own secret and lifetime. */
  datatype SignOptions = ModuleDefaults | WithSecret(secret: string, expiresIn: string)

  /** The JWT service. Signing is a deterministic function of payload, options and issue
      time. Verification checks a token against a secret at a time and yields its payload,
      or fails (bad signature, expired, malformed), which the source sees as a throw. */
  datatype Jwt = Jwt(
    sign: (Claims, SignOptions, Time) -> Token,
    verify: (Token, string, Time) -> Option<Claims>)

  /** The service's collaborators: the JWT service, the `JWT_REFRESH_SECRET` setting and
      bcrypt's `compare(password, hash)`. */
  datatype Env = Env(jwt: Jwt, refreshSecretSetting: Option<string>, compare: (string, string) -> bool)

  /** A user record as the user service stores it; `password` holds the bcrypt hash. */
  datatype UserRecord = UserRecord(email: string, passwordHash: string, refreshToken: Option<Token>)

  /** The user service's records, keyed by user id. */
  type Store = map<UserId, UserRecord>

  const FallbackRefreshSecret := "fallback-refresh-secret"
  const RefreshExpiresIn := "7d"
  const LoggedOutMessage := "Logged out successfully"

  /** `configService.get('JWT_REFRESH_SECRET') || 'fallback-refresh-secret'`. */
  function RefreshSecret(setting: Option<string>): (secret: string)
    ensures secret != ""
    ensures Truthy(setting) ==> secret == setting.value
    ensures !Truthy(setting) ==> secret == FallbackRefreshSecret
  {
    if Truthy(setting) then setting.value else FallbackRefreshSecret
  }

  /** The options every refresh token is signed with. */
  function RefreshOptions(env: Env): SignOptions {
    WithSecret(RefreshSecret(env.refreshSecretSetting), RefreshExpiresIn)
  }

  /** No two records share an email, so `findByEmail` names at most one record. */
  ghost predicate UniqueEmails(store: Store) {
    forall a, b :: a in store && b in store && store[a].email == store[b].email ==> a == b
  }

  // ---------------------------------------------------------------------------
  // validateUser
  // ---------------------------------------------------------------------------

  /** A user record with its password hash removed, as `validateUser` returns it. */
  datatype SafeUser = SafeUser(id: UserId, email: string, refreshToken: Option<Token>)

  function WithoutPassword(id: UserId, u: UserRecord): SafeUser {
    SafeUser(id, u.email, u.refreshToken)
  }

  /** The password matches the stored hash of the record `id` that has this email. */
  ghost predicate CredentialsMatch(env: Env, store: Store, email: string, password: string, id: UserId) {
    id in store && store[id].email == email && env.compare(password, store[id].passwordHash)
  }

  // ---------------------------------------------------------------------------
  // Writes to the store
  // ---------------------------------------------------------------------------

  /** One `userService.updateRefreshToken(id, token)` call. */
  datatype TokenWrite = TokenWrite(id: UserId, token: Option<Token>)

  /** Performs a write, if any. Only the named record's refresh token changes; a write to
      an unknown id changes nothing. */
  function Commit(store: Store, w: Option<TokenWrite>): (s: Store)
    ensures s.Keys == store.Keys
    ensures forall id :: id in store ==>
      s[id].email == store[id].email && s[id].passwordHash == store[id].passwordHash
    ensures forall id :: id in store ==>
      s[id].refreshToken == if w.Some? && w.value.id == id then w.value.token else store[id].refreshToken
  {
    match w
    case None => store
    case Some(TokenWrite(id, t)) =>
      if id in store then store[id := store[id].(refreshToken := t)] else store
  }

  /** What one operation does: the store write it performs, if any, and what it returns. */
  datatype Step<T> = Step(write: Option<TokenWrite>, result: T)

  // ---------------------------------------------------------------------------
  // login
  // ---------------------------------------------------------------------------

  /** The fields of its argument that `login` reads. */
  datatype LoginUser = LoginUser(id: UserId, email: string)

  datatype LoginResponse = LoginResponse(accessToken: Token, refreshToken: Token, user: LoginUser)

  /** `login(user)`: signs `{ email, sub: id }` twice and stores the refresh token. */
  function LoginStep(env: Env, user: LoginUser, now: Time): (r: Step<LoginResponse>)
    ensures r.result.user.id == user.id && r.result.user.email == user.email
    ensures r.write == Some(TokenWrite(user.id, Some(r.result.refreshToken)))
    ensures r.result.accessToken == env.jwt.sign(Claims(user.email, user.id), ModuleDefaults, now)
    ensures r.result.refreshToken == env.jwt.sign(Claims(user.email, user.id), RefreshOptions(env), now)
  {
    var payload := Claims(user.email, user.id);
    var accessToken := env.jwt.sign(payload, ModuleDefaults, now);
    var refreshToken := env.jwt.sign(payload, RefreshOptions(env), now);
    Step(Some(TokenWrite(user.id, Some(refreshToken))),
         LoginResponse(accessToken, refreshToken, LoginUser(user.id, user.email)))
  }

  /** After `login`, the record holds the token just returned and no other record changed. */
  lemma LoginStoresIssuedToken(env: Env, store: Store, user: LoginUser, now: Time)
    requires user.id in store
    ensures var login := LoginStep(env, user, now);
      var after := Commit(store, login.write);
      && after[user.id].refreshToken == Some(login.result.refreshToken)
      && after.Keys == store.Keys
      && forall id :: id in store && id != user.id ==> after[id] == store[id]
  {
    var login := LoginStep(env, user, now);
    var after := Commit(store, login.write);
    forall id | id in store && id != user.id
      ensures after[id] == store[id]
    {
      assert after[id].refreshToken == store[id].refreshToken;
    }
  }

  // ---------------------------------------------------------------------------
  // refreshTokens
  // ---------------------------------------------------------------------------

  datatype TokenPair = TokenPair(accessToken: Token, refreshToken: Token)

  /** Every failure of `refreshTokens` is the same `ForbiddenException('Access Denied')`. */
  datatype RefreshOutcome = Granted(pair: TokenPair) | AccessDenied

  /** The subject a token names, when it verifies under the refresh secret at `now`. */
  function Subject(env: Env, t: Token, now: Time): Option<UserId> {
    match env.jwt.verify(t, RefreshSecret(env.refreshSecretSetting), now)
    case Some(claims) => Some(claims.sub)
    case None => None
  }

  /** The presented token verifies, its subject has a record, and it is the token stored there. */
  ghost predicate Admits(env: Env, store: Store, t: Token, now: Time) {
    var subject := Subject(env, t, now);
    subject.Some? && subject.value in store && store[subject.value].refreshToken == Some(t)
  }

  /** `refreshTokens(presented)`. */
  function RefreshStep(env: Env, store: Store, presented: Token, now: Time): (r: Step<RefreshOutcome>)
    ensures r.result.Granted? <==> Admits(env, store, presented, now)
    ensures r.result.AccessDenied? ==> r.write.None?
    ensures r.result.Granted? ==>
      var id := Subject(env, presented, now).value;
      var payload := Claims(store[id].email, id);
      && r.result.pair.accessToken == env.jwt.sign(payload, ModuleDefaults, now)
      && r.result.pair.refreshToken == env.jwt.sign(payload, RefreshOptions(env), now)
      && r.write == Some(TokenWrite(id, Some(r.result.pair.refreshToken)))
  {
    match env.jwt.verify(presented, RefreshSecret(env.refreshSecretSetting), now)
    case None => Step(None, AccessDenied)
    case Some(payload) =>
      if payload.sub !in store || store[payload.sub].refreshToken != Some(presented) then
        Step(None, AccessDenied)
      else
        var user := store[payload.sub];
        var newPayload := Claims(user.email, payload.sub);
        var newAccessToken := env.jwt.sign(newPayload, ModuleDefaults, now);
        var newRefreshToken := env.jwt.sign(newPayload, RefreshOptions(env), now);
        Step(Some(TokenWrite(payload.sub, Some(newRefreshToken))),
             Granted(TokenPair(newAccessToken, newRefreshToken)))
  }

  /** Rotation: a granted refresh leaves the subject holding exactly the new refresh token it returned. */
  lemma RefreshRotates(env: Env, store: Store, presented: Token, now: Time)
    requires RefreshStep(env, store, presented, now).result.Granted?
    ensures var r := RefreshStep(env, store, presented, now);
      var id := Subject(env, presented, now).value;
      && id in store
      && Commit(store, r.write)[id].refreshToken == Some(r.result.pair.refreshToken)
      && forall other :: other in store && other != id ==> Commit(store, r.write)[other] == store[other]
  {
    var r := RefreshStep(env, store, presented, now);
    var id := Subject(env, presented, now).value;
    forall other | other in store && other != id
      ensures Commit(store, r.write)[other] == store[other]
    {
      assert Commit(store, r.write)[other].refreshToken == store[other].refreshToken;
    }
  }

  // ---------------------------------------------------------------------------
  // logout
  // ---------------------------------------------------------------------------

  /** `logout(userId)`: clears the stored refresh token. */
  function LogoutStep(id: UserId): (r: Step<string>)
    ensures r.write == Some(TokenWrite(id, None))
    ensures r.result == LoggedOutMessage
  {
    Step(Some(TokenWrite(id, None)), LoggedOutMessage)
  }

  // ---------------------------------------------------------------------------
  // Replay and the generator-freshness assumption
  // ---------------------------------------------------------------------------

  /** The generator-freshness assumption, for one issued token: it is held by no record.
      The JWT signer does not guarantee it (see SameSecondRotationKeepsToken). */
  ghost predicate FreshlyIssued(store: Store, t: Token) {
    forall id :: id in store ==> store[id].refreshToken != Some(t)
  }

  /** No refresh token is held by two records. */
  ghost predicate DistinctHolders(store: Store) {
    forall a, b ::
      (a in store && b in store && store[a].refreshToken.Some? &&
       store[a].refreshToken == store[b].refreshToken) ==> a == b
  }

  /** A write of a freshly issued token (or of null) keeps tokens distinct across records. */
  lemma FreshWriteKeepsDistinct(store: Store, w: TokenWrite)
    requires DistinctHolders(store)
    requires w.token.Some? ==> FreshlyIssued(store, w.token.value)
    ensures DistinctHolders(Commit(store, Some(w)))
  {
    var after := Commit(store, Some(w));
    forall a, b | a in after && b in after && after[a].refreshToken.Some? &&
      after[a].refreshToken == after[b].refreshToken
      ensures a == b
    {
      if a != w.id && b != w.id {
        assert store[a].refreshToken == store[b].refreshToken;
      }
    }
  }

  /** A granted refresh with `t` that stores a fresh token retires `t`: afterwards no
      record holds it. */
  lemma RotationRetiresToken(env: Env, store: Store, t: Token, now: Time)
    requires DistinctHolders(store)
    requires RefreshStep(env, store, t, now).result.Granted?
    requires FreshlyIssued(store, RefreshStep(env, store, t, now).result.pair.refreshToken)
    ensures FreshlyIssued(Commit(store, RefreshStep(env, store, t, now).write), t)
  {
    var r := RefreshStep(env, store, t, now);
    var id := Subject(env, t, now).value;
    var after := Commit(store, r.write);
    assert store[id].refreshToken == Some(t);
    forall holder | holder in after
      ensures after[holder].refreshToken != Some(t)
    {
      if holder == id {
        assert after[holder].refreshToken == Some(r.result.pair.refreshToken);
      } else {
        assert after[holder].refreshToken == store[holder].refreshToken;
      }
    }
  }

  /** Replay: once a refresh with `t` has been granted and has stored a fresh token,
      presenting `t` again is denied, at any later time. */
  lemma Replay(env: Env, store: Store, t: Token, first: Time, second: Time)
    requires DistinctHolders(store)
    requires RefreshStep(env, store, t, first).result.Granted?
    requires FreshlyIssued(store, RefreshStep(env, store, t, first).result.pair.refreshToken)
    ensures var after := Commit(store, RefreshStep(env, store, t, first).write);
      RefreshStep(env, after, t, second).result.AccessDenied?
  {
    RotationRetiresToken(env, store, t, first);
  }

  /** Signing is deterministic: a refresh in the same second as the login, for a record
      whose email is unchanged, issues the very token it was handed. Rotation then
      replaces the stored token by itself, and the same token is granted again. */
  lemma SameSecondRotationKeepsToken(env: Env, store: Store, user: LoginUser, now: Time)
    requires user.id in store && store[user.id].email == user.email
    requires Subject(env, LoginStep(env, user, now).result.refreshToken, now) == Some(user.id)
    ensures var login := LoginStep(env, user, now);
      var afterLogin := Commit(store, login.write);
      var rotated := RefreshStep(env, afterLogin, login.result.refreshToken, now);
      && rotated.result.Granted?
      && rotated.result.pair.refreshToken == login.result.refreshToken
      && RefreshStep(env, Commit(afterLogin, rotated.write), login.result.refreshToken, now).result.Granted?
  {
    var login := LoginStep(env, user, now);
    var afterLogin := Commit(store, login.write);
    assert afterLogin[user.id].email == user.email;
    var rotated := RefreshStep(env, afterLogin, login.result.refreshToken, now);
    assert rotated.result.Granted?;
    var afterRotation := Commit(afterLogin, rotated.write);
    assert afterRotation[user.id].refreshToken == Some(login.result.refreshToken);
  }

  /** A refresh right after login, with a token that verifies to that user, is granted. */
  lemma LoginThenRefresh(env: Env, store: Store, user: LoginUser, loginTime: Time, refreshTime: Time)
    requires user.id in store
    requires Subject(env, LoginStep(env, user, loginTime).result.refreshToken, refreshTime) == Some(user.id)
    ensures var login := LoginStep(env, user, loginTime);
      RefreshStep(env, Commit(store, login.write), login.result.refreshToken, refreshTime).result.Granted?
  {
    var login := LoginStep(env, user, loginTime);
    assert Commit(store, login.write)[user.id].refreshToken == Some(login.result.refreshToken);
  }

  // ---------------------------------------------------------------------------
  // Sequences of calls: the single-active-token invariant
  // ---------------------------------------------------------------------------

  datatype Call =
    | LoginCall(user: LoginUser, now: Time)
    | RefreshCall(token: Token, now: Time)
    | LogoutCall(id: UserId)

  predicate LogsIn(c: Call, id: UserId) {
    c.LoginCall? && c.user.id == id
  }

  /** The store write a call makes when it runs against `store`. */
  function WriteOf(env: Env, store: Store, c: Call): Option<TokenWrite> {
    match c
    case LoginCall(user, now) => LoginStep(env, user, now).write
    case RefreshCall(t, now) => RefreshStep(env, store, t, now).write
    case LogoutCall(id) => LogoutStep(id).write
  }

  /** The store after running the calls in order. */
  function Run(env: Env, store: Store, calls: seq<Call>): (s: Store)
    ensures s.Keys == store.Keys
    decreases |calls|
  {
    if calls == [] then store
    else
      var before := Run(env, store, calls[..|calls| - 1]);
      Commit(before, WriteOf(env, before, calls[|calls| - 1]))
  }

  /** The store writes the calls make, in order. */
  function Writes(env: Env, store: Store, calls: seq<Call>): seq<TokenWrite>
    decreases |calls|
  {
    if calls == [] then []
    else
      var before := Run(env, store, calls[..|calls| - 1]);
      var w := WriteOf(env, before, calls[|calls| - 1]);
      Writes(env, store, calls[..|calls| - 1]) + (if w.Some? then [w.value] else [])
  }

  /** The value most recently written for `id`, if any write named it. */
  function LastWrite(ws: seq<TokenWrite>, id: UserId): Option<Option<Token>>
    decreases |ws|
  {
    if ws == [] then None
    else if ws[|ws| - 1].id == id then Some(ws[|ws| - 1].token)
    else LastWrite(ws[..|ws| - 1], id)
  }

  lemma LastWriteOfAppend(ws: seq<TokenWrite>, w: TokenWrite, id: UserId)
    ensures LastWrite(ws + [w], id) == if w.id == id then Some(w.token) else LastWrite(ws, id)
  {
    assert (ws + [w])[..|ws|] == ws;
  }

  /** Every record holds the value most recently written for it, or its initial token if
      no call wrote it. */
  lemma {:induction false} RunStoresLastWrite(env: Env, store: Store, calls: seq<Call>, id: UserId)
    requires id in store
    ensures Run(env, store, calls)[id].refreshToken ==
      match LastWrite(Writes(env, store, calls), id)
      case Some(t) => t
      case None => store[id].refreshToken
    decreases |calls|
  {
    if calls != [] {
      var prefix := calls[..|calls| - 1];
      RunStoresLastWrite(env, store, prefix, id);
      var before := Run(env, store, prefix);
      var w := WriteOf(env, before, calls[|calls| - 1]);
      if w.Some? {
        LastWriteOfAppend(Writes(env, store, prefix), w.value, id);
      } else {
        assert Writes(env, store, calls) == Writes(env, store, prefix);
      }
    }
  }

  /** The single-active-token invariant: after any sequence of calls, the only token a
      refresh can accept for a user is the one most recently written for that user by
      `login` or `refreshTokens` (or the initial one, if nothing was written), and none
      when the most recent write was a `logout`. */
  lemma OnlyLatestAccepted(env: Env, store: Store, calls: seq<Call>, t: Token, now: Time)
    requires RefreshStep(env, Run(env, store, calls), t, now).result.Granted?
    ensures var id := Subject(env, t, now);
      var last := LastWrite(Writes(env, store, calls), id.value);
      && id.Some? && id.value in store
      && (last == Some(Some(t)) || (last == None && store[id.value].refreshToken == Some(t)))
  {
    var id := Subject(env, t, now).value;
    RunStoresLastWrite(env, store, calls, id);
  }

  /** A value LastWrite reports was written by one of the writes. */
  lemma {:induction false} LastWriteIsWritten(ws: seq<TokenWrite>, id: UserId)
    requires LastWrite(ws, id).Some?
    ensures exists w :: w in ws && w.id == id && w.token == LastWrite(ws, id).value
    decreases |ws|
  {
    var w := ws[|ws| - 1];
    if w.id != id {
      var prefix := ws[..|ws| - 1];
      LastWriteIsWritten(prefix, id);
      var v :| v in prefix && v.id == id && v.token == LastWrite(prefix, id).value;
      assert v in ws;
    } else {
      assert w in ws;
    }
  }

  /** Replay across later calls: after a granted refresh with `t` that stored a fresh token,
      `t` stays denied through any sequence of calls, as long as none of them writes `t`
      back (which, with fresh tokens, none does). */
  lemma ReplayAfterCalls(env: Env, store: Store, t: Token, first: Time, calls: seq<Call>, second: Time)
    requires DistinctHolders(store)
    requires RefreshStep(env, store, t, first).result.Granted?
    requires FreshlyIssued(store, RefreshStep(env, store, t, first).result.pair.refreshToken)
    requires var after := Commit(store, RefreshStep(env, store, t, first).write);
      forall w :: w in Writes(env, after, calls) ==> w.token != Some(t)
    ensures var after := Commit(store, RefreshStep(env, store, t, first).write);
      RefreshStep(env, Run(env, after, calls), t, second).result.AccessDenied?
  {
    var after := Commit(store, RefreshStep(env, store, t, first).write);
    RotationRetiresToken(env, store, t, first);
    var subject := Subject(env, t, second);
    if subject.Some? && subject.value in after {
      RunStoresLastWrite(env, after, calls, subject.value);
      var ws := Writes(env, after, calls);
      if LastWrite(ws, subject.value).Some? {
        LastWriteIsWritten(ws, subject.value);
      }
    }
  }

  /** Once a record holds no token, it keeps holding none until a `login` for that user. */
  lemma {:induction false} LockedUntilLogin(env: Env, store: Store, calls: seq<Call>, id: UserId)
    requires id in store && store[id].refreshToken == None
    requires forall i :: 0 <= i < |calls| ==> !LogsIn(calls[i], id)
    ensures Run(env, store, calls)[id].refreshToken == None
    decreases |calls|
  {
    if calls != [] {
      var prefix := calls[..|calls| - 1];
      assert forall i :: 0 <= i < |prefix| ==> prefix[i] == calls[i];
      LockedUntilLogin(env, store, prefix, id);
      assert !LogsIn(calls[|calls| - 1], id);
    }
  }

  /** After `logout(id)`, every refresh whose token names `id` is denied, whatever calls
      follow, until the next `login` for `id`. */
  lemma LogoutLocks(env: Env, store: Store, id: UserId, calls: seq<Call>, t: Token, now: Time)
    requires id in store
    requires forall i :: 0 <= i < |calls| ==> !LogsIn(calls[i], id)
    requires Subject(env, t, now) == Some(id)
    ensures RefreshStep(env, Run(env, Commit(store, LogoutStep(id).write), calls), t, now).result.AccessDenied?
  {
    LockedUntilLogin(env, Commit(store, LogoutStep(id).write), calls, id);
  }

  // ---------------------------------------------------------------------------
  // The service object
  // ---------------------------------------------------------------------------

  /** `AuthService`: its methods update the user records in place. */
  class AuthService {
    var users: Store
    const env: Env

    ghost predicate Valid()
      reads this
    {
      UniqueEmails(users)
    }

    constructor (env: Env, users: Store)
      requires UniqueEmails(users)
      ensures Valid()
      ensures this.env == env && this.users == users
    {
      this.env := env;
      this.users := users;
    }

    /** `userService.updateRefreshToken(id, token)`. */
    method UpdateRefreshToken(id: UserId, token: Option<Token>)
      requires Valid()
      modifies this
      ensures Valid()
      ensures users == Commit(old(users), Some(TokenWrite(id, token)))
    {
      if id in users {
        users := users[id := users[id].(refreshToken := token)];
      }
    }

    /** `validateUser(email, password)`: null unless some record has the email and the
        password matches its hash; then that record without its hash. */
    method ValidateUser(email: string, password: string) returns (r: Option<SafeUser>)
      requires Valid()
      ensures r.Some? <==> exists id :: CredentialsMatch(env, users, email, password, id)
      ensures r.Some? ==> CredentialsMatch(env, users, email, password, r.value.id)
      ensures r.Some? ==> r.value == WithoutPassword(r.value.id, users[r.value.id])
    {
      if id :| id in users && users[id].email == email {
        if env.compare(password, users[id].passwordHash) {
          assert CredentialsMatch(env, users, email, password, id);
          r := Some(WithoutPassword(id, users[id]));
        } else {
          // emails are unique, so no other record can match
          assert forall other :: CredentialsMatch(env, users, email, password, other) ==> other == id;
          r := None;
        }
      } else {
        assert forall other :: !CredentialsMatch(env, users, email, password, other);
        r := None;
      }
    }

    method Login(user: LoginUser, now: Time) returns (r: LoginResponse)
      requires Valid()
      modifies this
      ensures Valid()
      ensures var step := LoginStep(env, user, now);
        users == Commit(old(users), step.write) && r == step.result
    {
      var payload := Claims(user.email, user.id);
      var accessToken := env.jwt.sign(payload, ModuleDefaults, now);
      var refreshToken := env.jwt.sign(payload, RefreshOptions(env), now);
      UpdateRefreshToken(user.id, Some(refreshToken));
      r := LoginResponse(accessToken, refreshToken, LoginUser(user.id, user.email));
    }

    method RefreshTokens(presented: Token, now: Time) returns (r: RefreshOutcome)
      requires Valid()
      modifies this
      ensures Valid()
      ensures var step := RefreshStep(env, old(users), presented, now);
        users == Commit(old(users), step.write) && r == step.result
    {
      var payload := env.jwt.verify(presented, RefreshSecret(env.refreshSecretSetting), now);
      if payload.None? {
        // verify throws; the catch turns it into the same denial
        return AccessDenied;
      }
      var id := payload.value.sub;
      if id !in users || users[id].refreshToken != Some(presented) {
        return AccessDenied;
      }
      var user := users[id];
      var newPayload := Claims(user.email, id);
      var newAccessToken := env.jwt.sign(newPayload, ModuleDefaults, now);
      var newRefreshToken := env.jwt.sign(newPayload, RefreshOptions(env), now);
      UpdateRefreshToken(id, Some(newRefreshToken));
      r := Granted(TokenPair(newAccessToken, newRefreshToken));
    }

    method Logout(id: UserId) returns (message: string)
      requires Valid()
      modifies this
      ensures Valid()
      ensures var step := LogoutStep(id);
        users == Commit(old(users), step.write) && message == step.result
    {
      UpdateRefreshToken(id, None);
      message := LoggedOutMessage;
    }
  }
}
