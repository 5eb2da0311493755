/**
 * How the bot's completion POST meets the application-wide bearer-token guard and the completion
 * handler. The bot posts the contact without an Authorization header, and the guard runs on every
 * route that is not marked public. Behind the guard, the controller answers `{ status: 'success',
 * jwt }` when `completeAuthentication` resolves and rethrows its error otherwise, which becomes an
 * error status. The HTTP client rejects its promise on every error status, and the bot's contact
 * handler sees that as a throw.
 */
module BotCompletion {
  import opened Wrappers
  import opened JsStrings
  import opened JsMap
  import opened Crypto
  import opened JwtAuthGuard
  import opened TelegramBot
  import TelegramAuthService

  /** The status the controller answers with when completion resolves. */
  const SuccessStatus := "success"

  /** The body the controller hands to `completeAuthentication`: the request without its token. */
  function DataOf(req: CompletionRequest): TelegramAuthService.UserData {
    TelegramAuthService.UserData(req.name, req.phone, req.telegramId, req.username, req.photo)
  }

  /**
   * What the bot observes for its header-less POST, given what the completion handler returns
   * once admitted. The bot either sees the success status or a throw; no answer carries any
   * other status, so its "Authentication failed" reply is never sent.
   */
  function PostOutcome(routePublic: bool, verify: string -> VerifyOutcome, handled: Result<string>): (r: BackendOutcome)
    ensures r.Responded? ==> r.status == Some(SuccessStatus)
    ensures r.Threw? <==> Decide(routePublic, None, verify).Err? || handled.Err?
  {
    if Decide(routePublic, None, verify).Err? || handled.Err? then Threw else Responded(Some(SuccessStatus))
  }

  /**
   * As written, the completion route is not public: the guard refuses the bot's POST with
   * 'Token not found' before the completion handler runs, whatever the handler would return.
   */
  lemma CompletionRouteRefusesBot(verify: string -> VerifyOutcome, handled: Result<string>)
    ensures Decide(false, None, verify) == Err(Unauthorized(TokenNotFound))
    ensures PostOutcome(false, verify, handled) == Threw
  {
  }

  /**
   * With the route marked public, the guard admits the POST, and the bot sees the success status
   * exactly when completion resolves; a failed completion still reaches the bot as a throw.
   */
  lemma PublicCompletionRouteServesBot(verify: string -> VerifyOutcome, handled: Result<string>)
    ensures Decide(true, None, verify) == Ok(None)
    ensures PostOutcome(true, verify, handled) == if handled.Ok? then Responded(Some(SuccessStatus)) else Threw
  {
  }

  /**
   * A shared contact from a sender with a stored token, posted through the guard to the completion
   * handler. `handled` is what `completeAuthentication` returned, or None when the guard refused the
   * POST before it ran. The bot forgets its token and reports success only when completion
   * resolved; a refused POST or a failed completion (an unknown, expired or used session, or a
   * database error) makes it report the crash and keep the token.
   */
  method ContactThroughGuard(bot: TelegramBot, svc: TelegramAuthService.TelegramAuthService,
                             routePublic: bool, verify: string -> VerifyOutcome,
                             from: Option<Sender>, contact: Contact, photo: PhotoLookup,
                             nowMs: int, newUserId: string, fault: Option<TelegramAuthService.Fault>)
    returns (handled: Option<Result<string>>)
    requires bot.Valid() && svc.Valid() && newUserId !in svc.auth.users.rows
    requires Truthy(StoredToken(bot.userSessions, from))
    modifies bot, svc, svc.auth.users, svc.gateway
    ensures bot.Valid() && svc.Valid()
    ensures bot.posts == old(bot.posts) + [RequestOf(StoredToken(old(bot.userSessions), from).value, contact, from, photo)]
    // behind the non-public route the handler never runs, and nothing on the backend changes
    ensures handled.None? <==> !routePublic
    ensures !routePublic ==>
      svc.sessions == old(svc.sessions) && svc.auth.users.rows == old(svc.auth.users.rows)
    // a session that does not validate fails completion, and the bot keeps its token
    ensures routePublic && TelegramAuthService.Validated(old(svc.sessions), StoredToken(old(bot.userSessions), from).value, nowMs).None? ==>
      handled == Some(Err(Unauthorized(TelegramAuthService.InvalidSession)))
    ensures handled.Some? && handled.value.Ok? ==>
      TelegramAuthService.Validated(old(svc.sessions), StoredToken(old(bot.userSessions), from).value, nowMs).Some?
    // the bot's side: forget and report success exactly when completion resolved
    ensures handled.Some? && handled.value.Ok? ==>
      bot.userSessions == Delete(old(bot.userSessions), from.value.id) && bot.replies == old(bot.replies) + [Succeeded]
    ensures !(handled.Some? && handled.value.Ok?) ==>
      bot.userSessions == old(bot.userSessions) && bot.replies == old(bot.replies) + [Crashed]
  {
    var token := StoredToken(bot.userSessions, from).value;
    var req := RequestOf(token, contact, from, photo);
    var outcome: BackendOutcome;
    if Decide(routePublic, None, verify).Err? {
      handled := None;
      outcome := Threw;
    } else {
      var r := svc.CompleteAuthentication(req.sessionToken, DataOf(req), nowMs, newUserId, fault);
      handled := Some(r);
      outcome := PostOutcome(routePublic, verify, r);
    }
    bot.OnContact(from, Some(contact), photo, outcome);
  }
}
