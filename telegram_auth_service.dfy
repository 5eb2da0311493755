/**
 * The correlation-session store of the Telegram login handshake. The website asks for a
 * session token, the bot later completes the session with the user's contact details, and
 * the backend then finds or creates the user, mints a JWT and pushes it to the browser
 * through the gateway. `nowMs` is `Date.now()` at the call.
 */
module TelegramAuthService {
  import opened Wrappers
  import opened Users
  import opened AuthService
  import opened WebsocketGateway

  /** Sessions live two minutes. */
  const SessionLifetimeMs: int := 2 * 60 * 1000
  const InvalidSession := "Invalid or expired session token"
  const AuthenticationFailed := "Authentication failed"

  datatype TelegramSession = TelegramSession(
    expiresAt: int,
    isUsed: bool,
    isExpired: bool,
    telegramId: Option<string>,
    name: Option<string>,
    phone: Option<string>,
    username: Option<string>,
    photo: Option<string>)

  /** The contact details the bot sends to complete a session. */
  datatype UserData = UserData(name: string, phone: string, telegramId: string, username: string, photo: string)

  /** The session table, by token (the token column is unique). */
  type Sessions = map<string, TelegramSession>

  /** The row `createSession` inserts. */
  function NewSession(nowMs: int): (s: TelegramSession)
    ensures !s.isUsed && !s.isExpired && s.expiresAt == nowMs + 120000
    ensures s.telegramId.None? && s.name.None? && s.phone.None? && s.username.None? && s.photo.None?
  {
    TelegramSession(nowMs + SessionLifetimeMs, false, false, None, None, None, None, None)
  }

  /** The expiry test of `validateSession`: flagged, or its deadline strictly passed. */
  predicate Lapsed(s: TelegramSession, nowMs: int) {
    s.isExpired || s.expiresAt < nowMs
  }

  /** What `validateSession` returns: only an unexpired, unused session. */
  function Validated(store: Sessions, token: string, nowMs: int): (r: Option<TelegramSession>)
    ensures r.Some? <==>
      token in store && !store[token].isExpired && nowMs <= store[token].expiresAt && !store[token].isUsed
    ensures r.Some? ==> r.value == store[token]
  {
    if token !in store then None
    else if Lapsed(store[token], nowMs) then None
    else if store[token].isUsed then None
    else Some(store[token])
  }

  /** The store after `validateSession`: a lapsed session gets `isExpired`, used or not. */
  function AfterValidate(store: Sessions, token: string, nowMs: int): (r: Sessions)
    ensures r.Keys == store.Keys
    ensures forall t :: t in store && t != token ==> r[t] == store[t]
    ensures token in store && Lapsed(store[token], nowMs) ==> r[token] == store[token].(isExpired := true)
    ensures token in store && !Lapsed(store[token], nowMs) ==> r[token] == store[token]
  {
    if token in store && Lapsed(store[token], nowMs) then store[token := store[token].(isExpired := true)]
    else store
  }

  /** The update completion makes before it looks for the user. */
  function Consumed(s: TelegramSession, d: UserData): (r: TelegramSession)
    ensures r.isUsed && r.expiresAt == s.expiresAt && r.isExpired == s.isExpired
    ensures r.telegramId == Some(d.telegramId) && r.name == Some(d.name) && r.phone == Some(d.phone)
    ensures r.username == Some(d.username) && r.photo == Some(d.photo)
  {
    s.(name := Some(d.name), phone := Some(d.phone), telegramId := Some(d.telegramId),
       username := Some(d.username), photo := Some(d.photo), isUsed := true)
  }

  /** `cleanupExpiredSessions`: one bulk update of the rows past their deadline and not yet flagged. */
  function Swept(store: Sessions, nowMs: int): (r: Sessions)
    ensures r.Keys == store.Keys
    ensures forall t :: t in store && store[t].expiresAt < nowMs && !store[t].isExpired ==>
      r[t] == store[t].(isExpired := true)
    ensures forall t :: t in store && !(store[t].expiresAt < nowMs && !store[t].isExpired) ==>
      r[t] == store[t]
  {
    map t | t in store ::
      if store[t].expiresAt < nowMs && !store[t].isExpired then store[t].(isExpired := true) else store[t]
  }

  /** The message pushed for a thrown error: its own, or a fallback when it has none. */
  function FailureMessage(e: HttpError): string {
    if e.message != "" then e.message else AuthenticationFailed
  }

  /** The row an existing user becomes: only name, username and photo are overwritten. */
  function Refreshed(u: User, d: UserData): (r: User)
    ensures r == u.(name := d.name, telegram_username := Some(d.username), photo := Some(d.photo))
    ensures r.id == u.id && r.telegram_id == u.telegram_id && r.phone_number == u.phone_number
  {
    u.(name := d.name, telegram_username := Some(d.username), photo := Some(d.photo))
  }

  /** The request `completeAuthentication` passes to `socialLogin` for a new Telegram user. */
  function TelegramDto(d: UserData): CreateAuthDto {
    CreateAuthDto(d.name, None, Some(d.username), Some(d.photo), "telegram", d.telegramId, Some(d.telegramId))
  }

  /** Where a database failure strikes during completion, with the message it raises. */
  datatype Fault =
    | SessionUpdateFailed(message: string)  // the update that marks the session used
    | LookupFailed(message: string)         // the lookup of the user by Telegram id
    | UserWriteFailed(message: string)      // the save of a refreshed user, or a query inside `socialLogin`

  /** The failure, if any, that strikes the user write. */
  function WriteFault(fault: Option<Fault>): (r: Option<string>)
    ensures r.Some? <==> fault.Some? && fault.value.UserWriteFailed?
  {
    if fault.Some? && fault.value.UserWriteFailed? then Some(fault.value.message) else None
  }

  /**
   * The user step of completion, from the user table `before` to the table `after` with the
   * outcome `r`. A user holding the Telegram id is refreshed and saved in place. Otherwise
   * `socialLogin` returns the user holding the ('telegram', id) account unchanged, or inserts
   * exactly the user it builds; its catch block turns any failure, including a write failure
   * inside it, into a BadRequest. A failed step leaves the table as it was.
   */
  predicate Resolved(before: map<string, User>, after: map<string, User>, data: UserData, newUserId: string,
                     writeFault: Option<string>, r: Result<User>)
  {
    var dto := TelegramDto(data);
    (r.Err? ==> after == before) &&
    if exists id :: id in before && before[id].telegram_id == Some(data.telegramId) then
      if writeFault.Some? then r == Err(QueryFailed(writeFault.value))
      else forall id :: id in before && before[id].telegram_id == Some(data.telegramId) ==>
        r == Ok(Refreshed(before[id], data)) && after == before[id := r.value]
    else if writeFault.Some? then r == Err(Rethrown(QueryFailed(writeFault.value)))
    else if exists id :: id in before && PairMatches(before[id], dto) then
      r.Ok? && r.value.id in before && before[r.value.id] == r.value && PairMatches(r.value, dto) && after == before
    else if data.telegramId == "" then
      // `telegram_id: '' || null` is null, which the NOT NULL column refuses
      r == Err(BadRequest(TelegramIdNotNull))
    else
      r == Ok(SocialUser(newUserId, dto)) && after == before[newUserId := SocialUser(newUserId, dto)]
  }

  /** The user step adds at most the new user's row and removes none. */
  lemma ResolvedAddsAtMostNewUser(before: map<string, User>, after: map<string, User>, data: UserData,
                                  newUserId: string, writeFault: Option<string>, r: Result<User>)
    requires Resolved(before, after, data, newUserId, writeFault, r)
    ensures before.Keys <= after.Keys <= before.Keys + {newUserId}
  {
    if r.Ok? && exists id :: id in before && before[id].telegram_id == Some(data.telegramId) {
      var id :| id in before && before[id].telegram_id == Some(data.telegramId);
      assert after == before[id := r.value];
    }
  }

  // ---------------------------------------------------------------- properties of the store

  /** A fresh session validates until its deadline, inclusive. */
  lemma {:induction false} NewSessionValidUntilDeadline(store: Sessions, token: string, createdMs: int, nowMs: int)
    requires createdMs <= nowMs <= createdMs + SessionLifetimeMs
    ensures Validated(store[token := NewSession(createdMs)], token, nowMs) == Some(NewSession(createdMs))
  {
  }

  /** A consumed session never validates again, at any time: a second completion always fails. */
  lemma {:induction false} ConsumedNeverValidates(store: Sessions, token: string, d: UserData, nowMs: int)
    requires token in store
    ensures Validated(store[token := Consumed(store[token], d)], token, nowMs).None?
  {
  }

  /** Once validation has flagged a session as expired, it never validates again, whatever the clock says. */
  lemma ExpiryIsSticky(store: Sessions, token: string, nowMs: int, laterMs: int)
    requires token in store && Lapsed(store[token], nowMs)
    ensures Validated(AfterValidate(store, token, nowMs), token, laterMs).None?
  {
  }

  /** Validating twice at the same moment changes the store no more than once. */
  lemma AfterValidateIdempotent(store: Sessions, token: string, nowMs: int)
    ensures AfterValidate(AfterValidate(store, token, nowMs), token, nowMs) == AfterValidate(store, token, nowMs)
  {
  }

  /** The sweep is idempotent. */
  lemma SweptIdempotent(store: Sessions, nowMs: int)
    ensures Swept(Swept(store, nowMs), nowMs) == Swept(store, nowMs)
  {
  }

  /** The sweep never changes what validation answers at the same moment or later. */
  lemma SweptAgreesWithValidation(store: Sessions, token: string, nowMs: int, laterMs: int)
    requires nowMs <= laterMs
    ensures Validated(Swept(store, nowMs), token, laterMs) == Validated(store, token, laterMs)
  {
  }

  // ---------------------------------------------------------------- the service

  class TelegramAuthService {
    var sessions: Sessions
    const auth: AuthService
    const gateway: Gateway

    ghost predicate Valid()
      reads this, auth.users, gateway
    {
      auth.users.Valid() && gateway.Valid()
    }

    constructor (auth: AuthService, gateway: Gateway)
      ensures this.auth == auth && this.gateway == gateway && sessions == map[]
    {
      this.auth := auth;
      this.gateway := gateway;
      sessions := map[];
    }

    /** `createSession`: `token` stands for the fresh UUID v4, so it is in no row yet. */
    method CreateSession(token: string, nowMs: int) returns (r: string)
      requires token !in sessions
      modifies this
      ensures r == token
      ensures sessions == old(sessions)[token := NewSession(nowMs)]
    {
      sessions := sessions[token := NewSession(nowMs)];
      return token;
    }

    /** `validateSession`. */
    method ValidateSession(token: string, nowMs: int) returns (r: Option<TelegramSession>)
      modifies this
      ensures r == Validated(old(sessions), token, nowMs)
      ensures sessions == AfterValidate(old(sessions), token, nowMs)
    {
      if token !in sessions {
        return None;
      }
      var session := sessions[token];
      if session.isExpired || session.expiresAt < nowMs {
        sessions := sessions[token := session.(isExpired := true)];
        return None;
      }
      if session.isUsed {
        return None;
      }
      return Some(session);
    }

    /**
     * `completeAuthentication`. `newUserId` stands for the id the database would give a new
     * user; `fault`, when present, is a database failure and where it strikes.
     */
    method CompleteAuthentication(token: string, data: UserData, nowMs: int, newUserId: string, fault: Option<Fault>)
      returns (r: Result<string>)
      requires Valid() && newUserId !in auth.users.rows
      modifies this, auth.users, gateway
      ensures Valid()
      // an invalid token: an error pushed (at most once), Unauthorized thrown, only the expiry flag may change
      ensures Validated(old(sessions), token, nowMs).None? ==>
        r == Err(Unauthorized(InvalidSession)) &&
        sessions == AfterValidate(old(sessions), token, nowMs) &&
        auth.users.rows == old(auth.users.rows) &&
        gateway.sessions == Send(old(gateway.sessions), token, AuthFailure(InvalidSession)).sessions &&
        gateway.emitted == old(gateway.emitted) + Send(old(gateway.sessions), token, AuthFailure(InvalidSession)).sent
      // a valid token: the failed session update consumes nothing and surfaces as it is
      ensures Validated(old(sessions), token, nowMs).Some? && fault.Some? && fault.value.SessionUpdateFailed? ==>
        r == Err(QueryFailed(fault.value.message)) && sessions == old(sessions) && auth.users.rows == old(auth.users.rows)
      // otherwise the session is consumed whatever happens next
      ensures Validated(old(sessions), token, nowMs).Some? && !(fault.Some? && fault.value.SessionUpdateFailed?) ==>
        sessions == old(sessions)[token := Consumed(old(sessions)[token], data)]
      ensures Validated(old(sessions), token, nowMs).Some? && fault.Some? && fault.value.LookupFailed? ==>
        r == Err(QueryFailed(fault.value.message)) && auth.users.rows == old(auth.users.rows)
      // the user step, then the JWT of the user it yields
      ensures Validated(old(sessions), token, nowMs).Some? && (fault.None? || fault.value.UserWriteFailed?) ==>
        exists u :: Resolved(old(auth.users.rows), auth.users.rows, data, newUserId, WriteFault(fault), u) &&
          r == (if u.Ok? then Ok(auth.GenerateJwt(u.value)) else Err(u.error))
      // on success the pushed JWT is the returned one; on failure the error is pushed
      ensures r.Ok? ==>
        gateway.sessions == Send(old(gateway.sessions), token, AuthSuccess(r.value)).sessions &&
        gateway.emitted == old(gateway.emitted) + Send(old(gateway.sessions), token, AuthSuccess(r.value)).sent
      ensures r.Err? && Validated(old(sessions), token, nowMs).Some? ==>
        gateway.sessions == Send(old(gateway.sessions), token, AuthFailure(FailureMessage(r.error))).sessions &&
        gateway.emitted == old(gateway.emitted) + Send(old(gateway.sessions), token, AuthFailure(FailureMessage(r.error))).sent
    {
      var session := ValidateSession(token, nowMs);
      if session.None? {
        gateway.SendAuthError(token, InvalidSession);
        var e := Unauthorized(InvalidSession);
        SendOnce(old(gateway.sessions), token, AuthFailure(InvalidSession), AuthFailure(FailureMessage(e)));
        gateway.SendAuthError(token, FailureMessage(e));
        return Err(e);
      }
      if fault.Some? && fault.value.SessionUpdateFailed? {
        var e := QueryFailed(fault.value.message);
        gateway.SendAuthError(token, FailureMessage(e));
        return Err(e);
      }
      sessions := sessions[token := Consumed(sessions[token], data)];
      if fault.Some? && fault.value.LookupFailed? {
        var e := QueryFailed(fault.value.message);
        gateway.SendAuthError(token, FailureMessage(e));
        return Err(e);
      }
      var user := ResolveUser(data, newUserId, WriteFault(fault));
      assert Resolved(old(auth.users.rows), auth.users.rows, data, newUserId, WriteFault(fault), user);
      if user.Err? {
        gateway.SendAuthError(token, FailureMessage(user.error));
        return Err(user.error);
      }
      var jwt := auth.GenerateJwt(user.value);
      gateway.SendAuthResult(token, jwt);
      return Ok(jwt);
    }

    /**
     * The user step of `completeAuthentication`: refresh the user holding this Telegram id, or
     * hand over to `socialLogin` when there is none. `writeFault` is a database failure of the
     * refresh save or of a query inside `socialLogin`.
     */
    method ResolveUser(data: UserData, newUserId: string, writeFault: Option<string>) returns (r: Result<User>)
      requires auth.users.Valid() && newUserId !in auth.users.rows
      modifies auth.users
      ensures auth.users.Valid()
      ensures Resolved(old(auth.users.rows), auth.users.rows, data, newUserId, writeFault, r)
    {
      var found := auth.users.ByTelegramId(data.telegramId);
      if found.None? {
        if writeFault.Some? {
          // socialLogin's catch block rethrows the failure as a BadRequest
          return Err(Rethrown(QueryFailed(writeFault.value)));
        }
        var dto := TelegramDto(data);
        assert !Clashes(auth.users.rows, SocialUser(newUserId, dto));
        var result := auth.SocialLogin(dto, newUserId);
        if result.Err? {
          return Err(result.error);
        }
        return Ok(result.value.user);
      }
      var user := Refreshed(found.value, data);
      if writeFault.Some? {
        return Err(QueryFailed(writeFault.value));
      }
      ResaveNoClash(auth.users.rows, user);
      var saved := auth.users.Save(user);
      return Ok(user);
    }

    /** `cleanupExpiredSessions`. */
    method CleanupExpiredSessions(nowMs: int)
      modifies this
      ensures sessions == Swept(old(sessions), nowMs)
    {
      sessions := map t | t in sessions ::
        if sessions[t].expiresAt < nowMs && !sessions[t].isExpired then sessions[t].(isExpired := true) else sessions[t];
    }
  }
}
