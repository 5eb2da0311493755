/**
 * The identity store behind every login: find-or-create by social account, the JWT
 * payload builder, lookups by id and phone, and the Telegram-widget login.
 */
module AuthService {
  import opened Wrappers
  import opened JsMap
  import opened Crypto
  import opened Users

  const EmailTaken := "User with this email already exists"
  const SocialLoginFailed := "Failed to process social login"
  const UserNotFound := "User not found"

  /** The fields of `CreateAuthDto` that `socialLogin` reads. */
  datatype CreateAuthDto = CreateAuthDto(
    name: string,
    email: Option<string>,
    telegram_username: Option<string>,
    photo: Option<string>,
    social_network_account_type: string,
    social_network_id: string,
    telegram_id: Option<string>)

  /** `{ ...user, access_token }`. */
  datatype LoginResult = LoginResult(user: User, access_token: string)

  /** The user `socialLogin` creates: empty optional fields are stored as null. */
  function SocialUser(id: string, data: CreateAuthDto): (u: User)
    ensures u.id == id && u.name == data.name && u.is_active && u.role == "user"
    ensures u.email.Some? <==> Truthy(data.email)
    ensures u.telegram_username.Some? <==> Truthy(data.telegram_username)
    ensures u.photo.Some? <==> Truthy(data.photo)
    ensures u.telegram_id.Some? <==> Truthy(data.telegram_id)
    ensures u.email.Some? ==> u.email == data.email
    ensures u.telegram_id.Some? ==> u.telegram_id == data.telegram_id
    ensures u.social_network_account_type == Some(data.social_network_account_type)
    ensures u.social_network_id == Some(data.social_network_id)
    ensures u.phone_number.None?
  {
    NewUser(id, data.name).(
      email := OrNull(data.email),
      telegram_username := OrNull(data.telegram_username),
      photo := OrNull(data.photo),
      social_network_id := Some(data.social_network_id),
      social_network_account_type := Some(data.social_network_account_type),
      telegram_id := OrNull(data.telegram_id))
  }

  /** The user matches the social account named in the request. */
  predicate PairMatches(u: User, data: CreateAuthDto) {
    u.social_network_account_type == Some(data.social_network_account_type) &&
    u.social_network_id == Some(data.social_network_id)
  }

  /** The catch block: rethrow as BadRequest with the original message, or a fallback. */
  function Rethrown(e: HttpError): (r: HttpError)
    ensures r.BadRequest?
    ensures e.message != "" ==> r.message == e.message
    ensures e.message == "" ==> r.message == SocialLoginFailed
  {
    BadRequest(if e.message != "" then e.message else SocialLoginFailed)
  }

  /** The claims `generateJwt` signs. */
  function Payload(u: User): JwtPayload {
    JwtPayload(Some(u.id), Some(u.role))
  }

  /** The claims `generateJwtTelegram` signs: the query's own `id` and `role`. */
  function TelegramPayload(query: JsObject): JwtPayload {
    JwtPayload(Get(query, "id"), Get(query, "role"))
  }

  /** The user `generateJwtTelegram` creates from the login-widget query. */
  function TelegramUser(id: string, query: JsObject): (u: User)
    ensures u.id == id && u.is_active && u.role == "user"
    ensures u.telegram_id == Get(query, "id")
    ensures u.social_network_account_type == Some("telegram") && u.social_network_id.None?
  {
    NewUser(id, Get(query, "first_name").GetOr("")).(
      telegram_id := Get(query, "id"),
      telegram_username := Get(query, "username"),
      photo := Get(query, "photo_url"),
      social_network_account_type := Some("telegram"))
  }

  /**
   * `findOne({ where: { telegram_id: id } })` with the query's `id`; when the query has no
   * `id`, the condition is dropped and any row matches.
   */
  predicate TelegramIdMatches(u: User, id: Option<string>) {
    id.None? || u.telegram_id == id
  }

  /** `jwtService.sign` with a verifier that inverts it: the token verifies to `Payload(u)`. */
  lemma GenerateJwtRoundTrip(sign: JwtPayload -> string, verify: string -> VerifyOutcome, u: User)
    requires Inverts(sign, verify)
    ensures verify(sign(Payload(u))) == Verified(JwtPayload(Some(u.id), Some(u.role)))
  {
  }

  /**
   * The Telegram token names the Telegram id, not the row: when no row has the Telegram id
   * as its primary key, looking up the token's `sub` by id (as the profile endpoint does)
   * finds nothing, even right after the row was created.
   */
  lemma TelegramSubjectIsNotRowId(rows: map<string, User>, newId: string, query: JsObject, telegramId: string)
    requires Get(query, "id") == Some(telegramId)
    requires telegramId !in rows && telegramId != newId
    ensures TelegramPayload(query).sub == Some(telegramId)
    ensures TelegramPayload(query).sub.value !in rows[newId := TelegramUser(newId, query)]
  {
  }

  class AuthService {
    const users: UserRepository
    /** `jwtService.sign(payload, { secret, expiresIn })` with the configured key and lifetime. */
    const sign: JwtPayload -> string

    constructor (users: UserRepository, sign: JwtPayload -> string)
      ensures this.users == users && this.sign == sign
    {
      this.users := users;
      this.sign := sign;
    }

    /** `generateJwt`: sign exactly `{ sub: user.id, role: user.role }`. */
    function GenerateJwt(u: User): string {
      sign(Payload(u))
    }

    /** `findUserById`. */
    function FindUserById(id: string): (r: Result<User>)
      reads users
      ensures r.Ok? <==> id in users.rows
      ensures r.Ok? ==> r.value == users.rows[id]
      ensures r.Err? ==> r.error == BadRequest(UserNotFound)
    {
      match users.ById(id)
      case Some(u) => Ok(u)
      case None => Err(BadRequest(UserNotFound))
    }

    /** `findUserByPhone`. */
    function FindUserByPhone(phone: string): (r: Result<User>)
      requires users.Valid()
      reads users
      ensures r.Ok? <==> exists id :: id in users.rows && users.rows[id].phone_number == Some(phone)
      ensures r.Ok? ==> r.value.id in users.rows && users.rows[r.value.id] == r.value && r.value.phone_number == Some(phone)
      ensures r.Err? ==> r.error == BadRequest(UserNotFound)
    {
      match users.ByPhone(phone)
      case Some(u) => Ok(u)
      case None => Err(BadRequest(UserNotFound))
    }

    /**
     * `socialLogin`: return the user holding this social account, or create one, unless
     * its email is taken or the database refuses the insert (no `telegram_id`, or a unique
     * column clashes); every failure is a BadRequest.
     * `newId` stands for the id the database generates.
     */
    method SocialLogin(data: CreateAuthDto, newId: string) returns (r: Result<LoginResult>)
      requires users.Valid() && newId !in users.rows
      modifies users
      ensures users.Valid()
      ensures r.Err? ==> r.error.BadRequest? && users.rows == old(users.rows)
      ensures r.Ok? ==> r.value.user.id in users.rows && users.rows[r.value.user.id] == r.value.user
      ensures r.Ok? ==> PairMatches(r.value.user, data) && r.value.access_token == GenerateJwt(r.value.user)
      ensures (exists id :: id in old(users.rows) && PairMatches(old(users.rows)[id], data)) ==>
        r.Ok? && users.rows == old(users.rows)
      ensures (forall id :: id in old(users.rows) ==> !PairMatches(old(users.rows)[id], data)) ==>
        if Truthy(data.email) && exists id :: id in old(users.rows) && old(users.rows)[id].email == data.email then
          r == Err(BadRequest(EmailTaken))
        else if !Truthy(data.telegram_id) then
          r == Err(BadRequest(TelegramIdNotNull))
        else if Clashes(old(users.rows), SocialUser(newId, data)) then
          r == Err(BadRequest(DuplicateKey))
        else
          r == Ok(LoginResult(SocialUser(newId, data), GenerateJwt(SocialUser(newId, data)))) &&
          users.rows == old(users.rows)[newId := SocialUser(newId, data)]
    {
      if exists id :: id in users.rows && PairMatches(users.rows[id], data) {
        var id :| id in users.rows && PairMatches(users.rows[id], data);
        var u := users.rows[id];
        assert u.id == id;
        return Ok(LoginResult(u, GenerateJwt(u)));
      }
      if Truthy(data.email) && exists id :: id in users.rows && users.rows[id].email == data.email {
        return Err(Rethrown(BadRequest(EmailTaken)));
      }
      var u := SocialUser(newId, data);
      var saved := users.Save(u);
      if saved.Err? {
        return Err(Rethrown(saved.error));
      }
      return Ok(LoginResult(u, GenerateJwt(u)));
    }

    /** Logging in twice with the same social account creates at most one user. */
    method SocialLoginTwice(data: CreateAuthDto, id1: string, id2: string) returns (r1: Result<LoginResult>, r2: Result<LoginResult>)
      requires users.Valid() && id1 !in users.rows && id2 !in users.rows && id1 != id2
      modifies users
      ensures users.Valid()
      ensures users.rows.Keys <= old(users.rows.Keys) + {id1}
      ensures r1.Ok? ==> r2.Ok? && PairMatches(r2.value.user, data)
    {
      r1 := SocialLogin(data, id1);
      ghost var afterFirst := users.rows;
      r2 := SocialLogin(data, id2);
      if r1.Ok? {
        assert r1.value.user.id in afterFirst && PairMatches(afterFirst[r1.value.user.id], data);
      } else {
        assert afterFirst == old(users.rows);
      }
    }

    /**
     * `generateJwtTelegram` as written: create a user when none has the query's Telegram id,
     * then sign the query's `id` and `role`.
     */
    method GenerateJwtTelegram(query: JsObject, newId: string) returns (r: Result<string>)
      requires users.Valid() && newId !in users.rows
      modifies users
      ensures users.Valid()
      ensures (exists id :: id in old(users.rows) && TelegramIdMatches(old(users.rows)[id], Get(query, "id"))) ==>
        r == Ok(sign(TelegramPayload(query))) && users.rows == old(users.rows)
      // no match: the new row is refused when the query has no `id`, since `telegram_id` is NOT NULL
      ensures (forall id :: id in old(users.rows) ==> !TelegramIdMatches(old(users.rows)[id], Get(query, "id"))) ==>
        if Get(query, "id").None? then
          r == Err(QueryFailed(TelegramIdNotNull)) && users.rows == old(users.rows)
        else
          r == Ok(sign(TelegramPayload(query))) && users.rows == old(users.rows)[newId := TelegramUser(newId, query)]
    {
      if !exists id :: id in users.rows && TelegramIdMatches(users.rows[id], Get(query, "id")) {
        var saved := users.Save(TelegramUser(newId, query));
        if saved.Err? {
          return Err(saved.error);
        }
      }
      return Ok(sign(TelegramPayload(query)));
    }

    /**
     * `generateJwtTelegram` signing the row it found or created, so the token's `sub` is a
     * user id the profile lookup finds.
     */
    method GenerateRowJwtTelegram(query: JsObject, newId: string) returns (r: Result<string>, user: User)
      requires users.Valid() && newId !in users.rows
      modifies users
      ensures users.Valid()
      ensures r.Ok? ==> r == Ok(GenerateJwt(user)) && FindUserById(Payload(user).sub.value) == Ok(user)
      ensures r.Ok? ==> TelegramIdMatches(user, Get(query, "id"))
      ensures (exists id :: id in old(users.rows) && TelegramIdMatches(old(users.rows)[id], Get(query, "id"))) ==>
        r.Ok? && users.rows == old(users.rows)
      ensures (forall id :: id in old(users.rows) ==> !TelegramIdMatches(old(users.rows)[id], Get(query, "id"))) ==>
        if Get(query, "id").None? then
          r == Err(QueryFailed(TelegramIdNotNull)) && users.rows == old(users.rows)
        else
          r.Ok? && users.rows == old(users.rows)[newId := TelegramUser(newId, query)] && user == TelegramUser(newId, query)
    {
      if exists id :: id in users.rows && TelegramIdMatches(users.rows[id], Get(query, "id")) {
        var id :| id in users.rows && TelegramIdMatches(users.rows[id], Get(query, "id"));
        user := users.rows[id];
      } else {
        user := TelegramUser(newId, query);
        var saved := users.Save(user);
        if saved.Err? {
          return Err(saved.error), user;
        }
      }
      return Ok(GenerateJwt(user)), user;
    }
  }
}
