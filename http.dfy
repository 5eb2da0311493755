/**
 * The part of an incoming HTTP request the guards read and write: the query object, the
 * `authorization` header, and `request.user`, which a guard fills in on success.
 */
module Http {
  import opened Wrappers
  import opened JsMap
  import opened Crypto

  /** What `request.user` holds. */
  datatype Principal =
    | NoUser
    | TelegramUser(query: JsObject)
    | TokenUser(payload: JwtPayload)

  class Request {
    var query: Option<JsObject>
    var authorization: Option<string>
    var user: Principal

    constructor (query: Option<JsObject>, authorization: Option<string>)
      ensures this.query == query && this.authorization == authorization
      ensures user == NoUser
    {
      this.query := query;
      this.authorization := authorization;
      user := NoUser;
    }
  }
}
