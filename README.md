# birbir backend core in Dafny

This project models the core of the birbir marketplace backend (a NestJS service). At its centre is the **Telegram login handshake**:

1. The website asks the backend for a correlation session and receives a token.
2. The browser joins a websocket room keyed by that token.
3. The user opens the Telegram bot with `/start <token>` and shares their contact.
4. The bot posts the contact details, with the token, to the backend's completion route.
5. The completion handler consumes the session, finds or creates the user, mints a JWT and pushes it to the browser over the websocket.

As written, step 4 never reaches step 5: the bearer-token guard runs on every route not marked public, the completion route is not marked, and the bot's POST carries no Authorization header. The guard refuses it, and the bot reports a failure and keeps its token (see Findings). The completion handler is modelled on its own and, behind a public route, composed with the bot, which then reports success exactly when completion resolves.

Around the handshake sit:

- the provenance checks on Telegram login-widget data (a sorted `key=value` check string and an HMAC-SHA-256 compare);
- the identity store (`socialLogin`, the JWT payload, lookups);
- the bearer-token guard;
- an in-memory security log and fixed-window rate limiter;
- the product service (pagination arithmetic, image ordering and the main-image flag, engagement counters, promotions);
- the upload checks of the product controller;
- the user service (activation, roles, counters, the professional-seller application, bans).

How the model is built:

- **Stateful parts are classes that update their fields.** This covers the session store, the gateway's token → socket map, the bot's user → token map, the security service, the product and user services and the user repository. Each method's `ensures` ties the new state to a pure function of the old state. Lemmas then prove the properties about those functions.
- **Repositories** are `map`s from id to row.
- **JavaScript `Map`s** are insertion-ordered entry lists with distinct keys. These are needed because `handleDisconnect` removes the *first* match in iteration order.
- **Parameters stand in for outside effects.** Clocks (`nowMs`), fresh UUIDs, the results of file storage, the Telegram API and the backend POST are all parameters.
- **SHA-256, HMAC and JWT signing** are uninterpreted function parameters, so every property holds for any implementation of them.
- **Outgoing messages are recorded.** Websocket emissions, bot replies and bot posts are appended to `seq` fields.

The model follows the code as written wherever it departs from a cleaner protocol:

- A session is marked used before the user is resolved, so a completion that fails after that update still burns it.
- `create` of the user service never inserts a user: its request has no `telegram_id`, a NOT NULL column (see Findings).
- An invalid token triggers `sendAuthError` twice; the gateway's delete-after-send lets at most one through.
- The bot keeps its token when the backend call throws.
- Every product operation that starts with `findOne` counts a view, even when it then fails.
- A second upload batch adds a second main image (`Products.UploadAddsOneMain`).
- The `update` role guard tests the *target* user's current role, not the caller's.

One disagreement between the documented intent and the code is modelled as the code has it. `rejectProfessionalApplication` assigns a reviewer id and a rejection reason, and `banUser` assigns a ban reason. All three go to properties for which the `User` entity declares no column. The response carries them, but the stored row does not (`UserService.ReviewNotStored`).

## Model

| member | source | states |
|---|---|---|
| TelegramAuthService.NewSession | src/api/auth/telegram-auth.service.ts:27-36 | a new session is unused and unexpired, carries no user data, and expires 120000 ms after creation |
| TelegramAuthService.TelegramAuthService.CreateSession | src/api/auth/telegram-auth.service.ts:27-40 | inserts a fresh session under the given fresh token, returns that token, and leaves every other session as it was |
| TelegramAuthService.Validated | src/api/auth/telegram-auth.service.ts:48-69 | a session is returned if and only if the token is known, the session is not flagged expired, its deadline has not passed and it is unused; it is the stored row |
| TelegramAuthService.AfterValidate | src/api/auth/telegram-auth.service.ts:53-61 | validation changes only a lapsed session, and only its expiry flag; an unknown token or a live session changes nothing |
| TelegramAuthService.TelegramAuthService.ValidateSession | src/api/auth/telegram-auth.service.ts:48-69 | returns `Validated` of the old store and leaves the store as `AfterValidate` |
| TelegramAuthService.Consumed | src/api/auth/telegram-auth.service.ts:97-104 | consumption sets `isUsed` and the five user fields and keeps deadline and expiry flag |
| TelegramAuthService.Refreshed | src/api/auth/telegram-auth.service.ts:127-132 | an existing user gets new name, username and photo and keeps its id, Telegram id and phone |
| TelegramAuthService.Swept | src/api/auth/telegram-auth.service.ts:154-161 | the sweep flags exactly the rows past their deadline and not yet flagged, changes no other field, and keeps every row |
| TelegramAuthService.TelegramAuthService.CleanupExpiredSessions | src/api/auth/telegram-auth.service.ts:154-161 | the new store is `Swept` of the old one |
| TelegramAuthService.TelegramAuthService.CompleteAuthentication | src/api/auth/telegram-auth.service.ts:77-149 | an invalid token gives Unauthorized with at most one error pushed and no session or user changed beyond the expiry flag; a valid one is consumed unless the session update itself fails, which leaves it unconsumed; a failed user lookup fails with the session consumed and no user changed; otherwise the user step ends as `Resolved` states (refreshed in place, found unchanged or created as exactly `SocialUser`, or refused with the table unchanged) and the JWT of its user is returned and pushed; every failure pushes its message |
| TelegramAuthService.TelegramAuthService.ResolveUser | src/api/auth/telegram-auth.service.ts:106-133 | the user holding the Telegram id is refreshed and saved with no other row changed, or a failed save returns its error; with none, a failure inside `socialLogin` becomes a BadRequest, a stored holder of the ('telegram', id) account is returned with the table unchanged, an empty Telegram id is refused by the NOT NULL column, and otherwise exactly `SocialUser(newUserId, dto)` is inserted and returned |
| TelegramAuthService.ResolvedAddsAtMostNewUser | src/api/auth/telegram-auth.service.ts:106-133 | whatever branch the user step takes, it removes no row and adds at most the new user's |
| TelegramAuthService.NewSessionValidUntilDeadline | src/api/auth/telegram-auth.service.ts:27-68 | a created session validates at every moment up to its deadline, inclusive |
| TelegramAuthService.ConsumedNeverValidates | src/api/auth/telegram-auth.service.ts:96-104 | once consumed, a session never validates again at any time, so a second completion with the same token fails |
| TelegramAuthService.ExpiryIsSticky | src/api/auth/telegram-auth.service.ts:57-61 | a session flagged expired by validation never validates again, whatever the clock says later |
| TelegramAuthService.AfterValidateIdempotent | src/api/auth/telegram-auth.service.ts:57-61 | validating twice at the same moment changes the store no more than validating once |
| TelegramAuthService.SweptIdempotent | src/api/auth/telegram-auth.service.ts:154-161 | the sweep is idempotent |
| TelegramAuthService.SweptAgreesWithValidation | src/api/auth/telegram-auth.service.ts:154-161 | a sweep never changes what validation answers at the same moment or later |
| WebsocketGateway.Send | src/api/auth/telegram-websocket.gateway.ts:55-78 | a send for a registered token emits one message to its socket and removes just that mapping; for an unregistered token it emits nothing and changes nothing |
| WebsocketGateway.FirstWithValue | src/api/auth/telegram-websocket.gateway.ts:34-39 | finds the first entry in iteration order whose socket id matches, or reports that none does |
| WebsocketGateway.SendOnce | src/api/auth/telegram-websocket.gateway.ts:58-59 | a second send for the same token finds no socket, emits nothing and changes nothing |
| WebsocketGateway.AtMostOneDelivery | src/api/auth/telegram-websocket.gateway.ts:55-78 | two successive sends for one token put at most one `auth_result` on the wire |
| WebsocketGateway.SendOthersUnchanged | src/api/auth/telegram-websocket.gateway.ts:56-59 | a send leaves the mapping of every other token as it was |
| WebsocketGateway.JoinThenSend | src/api/auth/telegram-websocket.gateway.ts:43-63 | a send after a join reaches exactly the joined socket and unregisters the token |
| WebsocketGateway.JoinMapsToken | src/api/auth/telegram-websocket.gateway.ts:43-48 | a join maps the token to the client, replacing any earlier socket, and leaves every other token as it was |
| WebsocketGateway.DisconnectRemovesFirst | src/api/auth/telegram-websocket.gateway.ts:30-40 | a disconnect removes at most one entry, the first naming the socket; everything before and after it stays in order |
| WebsocketGateway.Gateway.HandleJoinSession | src/api/auth/telegram-websocket.gateway.ts:43-48 | the token is now mapped to the client and `session_joined` is emitted to it |
| WebsocketGateway.Gateway.HandleDisconnect | src/api/auth/telegram-websocket.gateway.ts:30-40 | the loop with its early break leaves the map as `Disconnect` of the old one and emits nothing |
| WebsocketGateway.Gateway.SendAuthResult | src/api/auth/telegram-websocket.gateway.ts:55-63 | the registry and emitted log change as `Send` with a success message carrying the JWT |
| WebsocketGateway.Gateway.SendAuthError | src/api/auth/telegram-websocket.gateway.ts:70-78 | the registry and emitted log change as `Send` with an error message |
| TelegramBot.StartToken | src/api/auth/telegram-bot.service.ts:32-33 | a token found is non-empty and contains no space |
| TelegramBot.StartAloneHasNoToken | src/api/auth/telegram-bot.service.ts:32-40 | the command alone yields no token |
| TelegramBot.StartTokenIsSecondField | src/api/auth/telegram-bot.service.ts:32-33 | the token is the second space-separated field, whatever follows it after a further space |
| TelegramBot.DisplayName | src/api/auth/telegram-bot.service.ts:100-102 | the name is the first name, followed by a space and the last name only when the last name is non-empty |
| TelegramBot.TelegramIdOf | src/api/auth/telegram-bot.service.ts:104-108 | the Telegram id reads back as the contact's user id when that is non-zero, else as the sender's id, else it is empty |
| TelegramBot.PhotoOf | src/api/auth/telegram-bot.service.ts:79-95 | the photo is the looked-up link, and empty when there is no photo or the lookup fails |
| TelegramBot.TelegramBot.OnStart | src/api/auth/telegram-bot.service.ts:30-55 | without a token the welcome is sent and nothing else changes; with one, a sender with an id gets the token stored (overwriting) and the contact prompt |
| TelegramBot.TelegramBot.OnContact | src/api/auth/telegram-bot.service.ts:58-139 | no stored token or no contact: a prompt, no post; otherwise one post with the assembled request; the mapping is deleted only when the backend answered, and the success reply is sent if and only if its status is `success`; a thrown call keeps the mapping |
| TelegramBot.TelegramBot.OnMessage | src/api/auth/telegram-bot.service.ts:142-157 | replies with one of two prompts depending on whether a token is stored, and changes nothing else |
| TelegramBot.StartThenContactFindsToken | src/api/auth/telegram-bot.service.ts:42-63 | a token stored by `/start` is found again for the same sender |
| TelegramBot.AnsweredContactForgetsToken | src/api/auth/telegram-bot.service.ts:121-124 | after the backend answered, the sender has no token left |
| TelegramVerification.WithoutHash | src/common/service/telegram-verification.service.ts:13 | exactly the properties other than `hash` remain |
| TelegramVerification.VerifyAuthData | src/common/service/telegram-verification.service.ts:12-35 | true if and only if `hash` is present and equals the hex HMAC, keyed by SHA-256 of the bot token, of the check string |
| TelegramVerification.VerifyWithTimeCheck | src/common/service/telegram-verification.service.ts:43-59 | false without a truthy `auth_date`; for a readable date, true if and only if the age is at most `maxAge` and the hash verifies; an unreadable date goes straight to the hash check; true implies `VerifyAuthData` |
| TelegramVerification.VerifyWithStrictTimeCheck | src/common/service/telegram-verification.service.ts:37-47 | true if and only if the date is present and readable, not older than `maxAge`, and the hash verifies |
| TelegramVerification.HashExcluded | src/common/service/telegram-verification.service.ts:13-19 | setting or replacing `hash` never changes the check string |
| TelegramVerification.CheckStringOrderIndependent | src/common/service/telegram-verification.service.ts:16-19 | two objects holding the same properties give the same check string, whatever their insertion order |
| TelegramVerification.SignedDataVerifies | src/common/service/telegram-verification.service.ts:12-35 | data carrying the HMAC of its own other fields verifies |
| TelegramVerification.UnreadableAuthDateNeverExpires | src/common/service/telegram-verification.service.ts:50-55 | correctly signed data with `auth_date` "never" passes the time check at every moment, while the strict check rejects it |
| TelegramVerification.StrictAgreesOnReadableDates | src/common/service/telegram-verification.service.ts:43-59 | the strict check and the check as written agree whenever the date is absent or readable |
| JsStrings.SortStringsSameElements | src/common/service/telegram-verification.service.ts:16-17 | the key sort depends only on which keys there are, not on their arrival order |
| JsStrings.SortStringsSorted | src/common/service/telegram-verification.service.ts:16-17 | sorting distinct keys gives a strictly ascending list of the same keys |
| JsStrings.ParseIntSkipsWhitespace | src/common/service/telegram-verification.service.ts:50 | `parseInt` skips any leading ECMAScript white space or line terminator: prefixing one never changes what is read |
| JsStrings.ParseIntSkipsNoBreakSpace | src/common/service/telegram-verification.service.ts:50 | an example: a date preceded by a no-break space, `"\u00A042"`, is read as 42 |
| TelegramGuard.DropHash | src/common/guard/telegram.guard.ts:25-26 | exactly the keys other than `hash` remain |
| TelegramGuard.GuardMatchesService | src/common/guard/telegram.guard.ts:25-29 | the guard's check string equals the verification service's for the same data |
| TelegramGuard.Check | src/common/guard/telegram.guard.ts:12-42 | a missing query or hash gives 'Missing Telegram login data'; a mismatch gives 'Invalid Telegram hash'; otherwise the query itself is accepted, exactly when the verification service accepts it |
| TelegramGuard.GuardIgnoresAge | src/common/guard/telegram.guard.ts:12-42 | correctly signed data older than a day passes the guard, while the service's time check rejects it |
| TelegramGuard.CanActivate | src/common/guard/telegram.guard.ts:12-42 | returns true and stores the whole query as `request.user` exactly when `Check` accepts; otherwise it throws `Check`'s error and leaves the user as it was |
| AuthService.SocialUser | src/api/auth/auth.service.ts:42-51 | a created user is active with role `user`; empty email, username, photo and Telegram id are stored as null; it holds the requested social account |
| AuthService.Rethrown | src/api/auth/auth.service.ts:60-64 | every failure becomes BadRequest with the original message, or the fallback when that is empty |
| AuthService.TelegramUser | src/api/auth/auth.service.ts:104-112 | the user created from the widget query is active and holds the query's id as its Telegram id |
| AuthService.GenerateJwtRoundTrip | src/api/auth/auth.service.ts:67-75 | with a verifier that inverts the signer, the token verifies to exactly `{sub: user.id, role: user.role}` |
| AuthService.TelegramSubjectIsNotRowId | src/api/auth/auth.service.ts:115-121 | the widget token's `sub` is the Telegram id, which no row has as its id even right after the row is created |
| AuthService.AuthService.FindUserById | src/api/auth/auth.service.ts:77-83 | the row with that id exactly when there is one, else BadRequest 'User not found' |
| AuthService.AuthService.FindUserByPhone | src/api/auth/auth.service.ts:85-91 | a stored row with that phone exactly when there is one, else BadRequest 'User not found' |
| AuthService.AuthService.SocialLogin | src/api/auth/auth.service.ts:21-65 | a user holding the social account is returned and nothing is created; otherwise a taken email, a missing `telegram_id` (NOT NULL) or a unique-column clash, in that order, gives BadRequest with no row added; otherwise exactly the new user is inserted; the token is for the returned user |
| AuthService.AuthService.SocialLoginTwice | src/api/auth/auth.service.ts:23-54 | two logins with the same social account add at most one row, and a successful first makes the second succeed for the same account |
| AuthService.AuthService.GenerateJwtTelegram | src/api/auth/auth.service.ts:98-122 | a user is created only when no row matches the query's Telegram id (any row when the id is absent); with no match and no `id` the insert is refused by the NOT NULL column and its error thrown with nothing stored; otherwise the token signs the query's own `id` and `role` |
| AuthService.AuthService.GenerateRowJwtTelegram | src/api/auth/auth.service.ts:98-122 | the same find-or-create and the same refusal, then signing the found or created row, so on success the token's `sub` finds that row by id |
| Wrappers.OrNull | src/api/auth/auth.service.ts:44-49 | `x \|\| null`: present exactly when the value is a non-empty string, and then unchanged |
| Users.UserRepository.Save | src/core/entity/user.entity.ts:123-124 | a null `telegram_id` (NOT NULL, no default) fails with the not-null error first; then a non-null phone or Telegram id already held by another row fails with the duplicate-key error; a failed save changes nothing; among the modelled constraints, the save succeeds exactly when neither applies, and then writes the row's columns under its id |
| Users.SaveKeepsUnique | src/core/entity/user.entity.ts:11-12 | an accepted save keeps the unique columns unique |
| Users.UserRepository.ByTelegramId | src/api/auth/telegram-auth.service.ts:107-109 | finds the one stored row with that Telegram id exactly when there is one |
| Users.UserRepository.ByPhone | src/api/user/user.service.ts:24-26 | finds the one stored row with that phone number exactly when there is one |
| JwtAuthGuard.BearerToken | src/common/guard/jwt-auth.guard.ts:36-40 | a token found is non-empty and has no space |
| JwtAuthGuard.BearerTokenShape | src/common/guard/jwt-auth.guard.ts:36-40 | an accepted header is `Bearer`, one space, the token, then nothing or a space and anything |
| JwtAuthGuard.BearerTokenOfShape | src/common/guard/jwt-auth.guard.ts:36-40 | conversely every header of that shape yields its token |
| JwtAuthGuard.ErrorMessage | src/common/guard/jwt-auth.guard.ts:48-55 | TokenExpiredError maps to 'Token expired', JsonWebTokenError to 'Invalid token', every other name to 'Unauthorized' |
| JwtAuthGuard.Decide | src/common/guard/jwt-auth.guard.ts:19-56 | public handlers pass without reading headers; a missing header gives 'Token not found', a malformed one 'Invalid authorization header'; a verified token admits its payload; every failure is Unauthorized |
| JwtAuthGuard.CanActivate | src/common/guard/jwt-auth.guard.ts:19-56 | never returns false; it returns true exactly when `Decide` admits and then stores the payload as `request.user`, otherwise it throws `Decide`'s error |
| SecurityService.Appended | src/common/service/security.service.ts:16-27 | the log after an event ends with it and holds the newest `min(n+1, 1000)` events in order |
| SecurityService.ResetTime | src/common/service/security.service.ts:62-64 | the reset time is a multiple of the window strictly after now and at most one window later |
| SecurityService.Check | src/common/service/security.service.ts:61-79 | a missing or lapsed bucket restarts at count 1 and allows; a full live bucket refuses unchanged; otherwise the count rises by one and the call is allowed |
| SecurityService.Remaining | src/common/service/security.service.ts:91-94 | `max(0, 10 - count)` |
| SecurityService.RemainingPredictsCheck | src/common/service/security.service.ts:73-92 | for a key limited to 10, a live bucket reports requests remaining exactly when the next check would allow |
| SecurityService.AllowedWithinBudget | src/common/service/security.service.ts:61-79 | within one window the allowed calls never exceed what the bucket had left at its start |
| SecurityService.AtMostMaxPerWindow | src/common/service/security.service.ts:61-79 | within one window at most `maxRequests` calls for a key are allowed |
| SecurityService.LoggedEventCounted | src/common/service/security.service.ts:22-50 | below capacity, logging an event raises any filtered count by one exactly when the event passes the filter |
| SecurityService.FailureJustLoggedCounts | src/common/service/security.service.ts:41-50 | a login failure just logged counts among that user's failed attempts |
| SecurityService.SecurityService.LogSecurityEvent | src/common/service/security.service.ts:16-35 | the log becomes `Appended` with the event stamped now; the rate-limit store is untouched |
| SecurityService.SecurityService.GetSecurityLogs | src/common/service/security.service.ts:37-39 | for `limit >= 1` the newest `min(limit, n)` events in order; a limit of 0 returns everything |
| JsArrays.SliceLast | src/common/service/security.service.ts:37-39 | `slice(-limit)` keeps the last `min(limit, n)` elements |
| SecurityService.SecurityService.GetFailedLoginAttempts | src/common/service/security.service.ts:41-50 | counts exactly that user's `login_failure` events stamped strictly after now minus the window (a direct rendering of the filter; `LoggedEventCounted` and `FailureJustLoggedCounts` are its properties) |
| SecurityService.SecurityService.GetSuspiciousActivities | src/common/service/security.service.ts:52-56 | only suspicious-activity events from the log, the newest `limit` of them in order |
| SecurityService.SecurityService.CheckRateLimit | src/common/service/security.service.ts:61-79 | the answer and the key's new bucket are `Check` of its old bucket; no other key changes |
| SecurityService.SecurityService.GetRateLimitInfo | src/common/service/security.service.ts:81-95 | none for a missing key; a lapsed bucket is deleted and none returned; otherwise `Remaining` and the reset time, below 10 and in the future |
| Arith.CeilDiv | src/api/product/product.service.ts:40 | the fewest blocks of `limit` rows covering `total` |
| Products.Paginate | src/api/product/product.service.ts:28-53 | page and limit default to 1 and 10; `totalPages` is the ceiling of total over limit; `hasNext` if and only if page < totalPages; `hasPrev` if and only if page > 1; at most `limit` rows |
| Products.PagesUpToPrefix | src/api/product/product.service.ts:33-38 | pages 1..n together are the first `n * limit` rows |
| Products.PagesCoverRows | src/api/product/product.service.ts:32-40 | walking pages 1..totalPages lists every row exactly once, in order |
| Products.RowOnOnePage | src/api/product/product.service.ts:33-40 | row j lies on page `j / limit + 1`, which exists, and on no other page |
| Products.PromotionOptionFor | src/api/product/product.service.ts:488-525 | an option exists for exactly maxi, premium and urgent |
| Products.PromotionTable | src/api/product/product.service.ts:493-524 | every option grants direct contacts; urgent is cheapest and the only one without the large photo; premium is dearest |
| Products.CancelUndoesPromotion | src/api/product/product.service.ts:546-580 | cancelling a promotion restores a never-promoted product exactly |
| Products.PromotionTakesRequestedDuration | src/api/product/product.service.ts:544-556 | the stored duration is the requested one, and the price is the option's |
| Products.NewProductNeverPromoted | src/api/product/product.service.ts:55-70 | a new product is unpromoted with non-negative counters |
| Products.Engaged | src/api/product/product.service.ts:426-485 | engagement keeps counters non-negative and leaves views and the active flag alone |
| Products.RemovalUndoesAdd | src/api/product/product.service.ts:426-473 | removing a favorite or like right after adding it restores the product |
| Products.RemovalAtZero | src/api/product/product.service.ts:433-473 | a removal at count zero changes nothing |
| Products.FirstFailed | src/api/product/product.service.ts:85-91 | the first failed upload, with all earlier uploads succeeded |
| Products.AddedContents | src/api/product/product.service.ts:85-100 | the uploads add exactly the new images at their positions, main only at 0, and change no other image |
| Products.AddedIds | src/api/product/product.service.ts:92-99 | new images are stored under their own ids |
| Products.UploadAddsOneMain | src/api/product/product.service.ts:92-97 | a batch adds exactly one main image, its first, and every image already main stays so |
| Products.ClearedMain | src/api/product/product.service.ts:111-115 | the product's images all lose the main flag and no other image changes |
| Products.SetMainLeavesOneMain | src/api/product/product.service.ts:111-127 | after success exactly the chosen image is main; after NotFound none is |
| Products.LowestOfSet | src/api/product/product.service.ts:147-150 | every non-empty set of images has one first in `order_index` order |
| Products.LowestExists | src/api/product/product.service.ts:145-156 | a product with images has one lowest in `order_index` |
| Products.FirstUnknown | src/api/product/product.service.ts:167-174 | the first listed id that is not an image of the product, with all earlier ones images of it |
| Products.FirstUnknownAt | src/api/product/product.service.ts:167-174 | that first unknown position is the one the loop stops at |
| Products.WithoutImagesOf | src/api/product/product.service.ts:231-240 | exactly the images of other products remain, unchanged |
| Products.Positioned | src/api/product/product.service.ts:176-177 | a saved position keeps id, owner and file, gets `order_index` i and is main if and only if i = 0 |
| Products.Listed | src/api/product/product.service.ts:165-181 | the returned list holds each listed image at its position |
| Products.Reordered | src/api/product/product.service.ts:167-179 | a reorder keeps the set of images |
| Products.ReorderedKeeps | src/api/product/product.service.ts:176-177 | a reorder keeps every image's id, product and file, so only its position and main flag can change |
| Products.ReorderedSaveStep | src/api/product/product.service.ts:168-178 | the lookup at step i still sees whether the id is an image of the product, as earlier saves never change ownership, and the save writes position i onto the stored image it names |
| Products.ReorderedAdvance | src/api/product/product.service.ts:167-179 | a found position moves the table and the returned list on by one step |
| Products.ReorderedIds | src/api/product/product.service.ts:167-179 | images stay stored under their own ids |
| Products.ReorderedPositions | src/api/product/product.service.ts:167-179 | with distinct ids, position i ends at `order_index` i and is main exactly at 0 |
| Products.ReorderedUnlisted | src/api/product/product.service.ts:167-179 | unlisted images are unchanged |
| Products.ReorderAllLeavesOneMain | src/api/product/product.service.ts:167-179 | reordering all of a product's images leaves exactly the first listed one main |
| ProductService.SaveUploads | src/api/product/product.service.ts:83-102 | the loop leaves the table and result of `Uploaded`: the i-th stored file becomes an image at position i, and the first failed upload stops it with the earlier images kept |
| ProductService.SavePositions | src/api/product/product.service.ts:165-181 | the loop leaves the table and result of `Repositioned`: the first unknown id gives NotFound after the earlier positions were saved; otherwise all are saved and listed |
| ProductService.RepositionedAtUnknown | src/api/product/product.service.ts:172-174 | stopping at the first unknown id is the specified outcome |
| ProductService.RepositionedAll | src/api/product/product.service.ts:167-181 | running to the end is the specified outcome when every id is known |
| ProductService.ProductService.Create | src/api/product/product.service.ts:55-70 | inserts a new unpromoted product with zero counters owned by the user, active unless the request's `is_active` is false (src/api/product/dto/create-product.dto.ts:94-97); `findOne` sees it exactly when it is active |
| ProductService.ProductService.FindOne | src/api/product/product.service.ts:200-216 | an active product is returned with one more view, stored too; anything else is NotFound with nothing changed |
| ProductService.ProductService.UploadProductImages | src/api/product/product.service.ts:73-103 | NotFound for an invisible product; otherwise a view is counted; more than 6 files is BadRequest with the images unchanged; otherwise `Uploaded` |
| ProductService.ProductService.SetMainImage | src/api/product/product.service.ts:105-128 | after the view, every image of the product loses the flag before the lookup; a missing image is NotFound with all left non-main; otherwise the chosen image alone is set main |
| ProductService.ProductService.DeleteProductImage | src/api/product/product.service.ts:130-157 | a missing image is NotFound; otherwise it is removed; if it was main, the remaining image of the product lowest in `order_index` becomes main and nothing else changes |
| ProductService.ProductService.ReorderImages | src/api/product/product.service.ts:159-182 | NotFound for an invisible product; otherwise a view is counted and the images change as `Repositioned` |
| ProductService.ProductService.Remove | src/api/product/product.service.ts:228-244 | deletes the product's images and deactivates it, so it is no longer visible to `findOne` |
| ProductService.ProductService.Engage | src/api/product/product.service.ts:426-485 | after the view, the product's counters change as `Engaged` |
| ProductService.ProductService.GetProductStats | src/api/product/product.service.ts:442-458 | the counters, with this view already counted |
| ProductService.ProductService.CreatePromotion | src/api/product/product.service.ts:527-560 | an unknown type is BadRequest after the view; otherwise the option's price and features and the requested duration are stored |
| ProductService.ProductService.CancelPromotion | src/api/product/product.service.ts:562-583 | an unpromoted product is BadRequest after the view; otherwise every promotion column is reset |
| ProductController.CreateOwner | src/api/product/product.controller.ts:56-70 | ok exactly when `req.user.sub` is a non-empty string, which then becomes the owner; else BadRequest 'User not authenticated' |
| ProductController.FirstBadFile | src/api/product/product.controller.ts:313-323 | the first file of a disallowed type or over 10 MB, with all earlier files acceptable |
| ProductController.UploadCheck | src/api/product/product.controller.ts:293-326 | an absent or empty list is refused; more than 6 with the existing images is refused; then the first bad file's error (type before size); the files are forwarded if and only if every check passes |
| ProductController.ForwardedWithinServiceLimit | src/api/product/product.controller.ts:303-325 | a forwarded batch holds 1 to 6 files |
| ProductController.OversizedFileRejected | src/api/product/product.controller.ts:313-323 | an allowed type over 10 MB is refused for its size even beside an acceptable file |
| UserService.CreatedUser | src/api/user/user.service.ts:32-36 | role is the given one when non-empty, else `user`; `is_active` defaults to true; the phone is stored |
| UserService.Updated | src/api/user/user.service.ts:89 | only the given name and role change; id, Telegram id and phone stay |
| UserService.Unsubscribed | src/api/user/user.service.ts:180-186 | the subscriber count never drops below zero |
| BotCompletion.PostOutcome | src/api/auth/telegram-auth.controller.ts:98-114 | the bot sees a throw exactly when the guard refuses its header-less POST or completion fails (the controller rethrows, and the HTTP client at src/api/auth/telegram-bot.service.ts:114-119 rejects every error status); any answer it does see carries `success` |
| BotCompletion.CompletionRouteRefusesBot | src/api/auth/telegram-auth.controller.ts:57 | with the completion route not public, the guard answers 'Token not found' and the bot's POST throws, whatever completion would have returned |
| BotCompletion.PublicCompletionRouteServesBot | src/api/auth/telegram-auth.controller.ts:21 | with the route marked public, like the session route, the guard admits the POST; the bot then sees the success status exactly when completion resolves, and a throw when it fails |
| BotCompletion.ContactThroughGuard | src/api/auth/telegram-bot.service.ts:58-139 | a shared contact with a stored token is posted once; behind a non-public route the handler never runs and the backend is unchanged; behind a public one, completion runs on the posted data, and a session that does not validate fails with Unauthorized; the bot forgets its token and replies with success exactly when completion resolved, and otherwise replies with the crash message and keeps the token |
| UserService.SubscriberCountRoundTrip | src/api/user/user.service.ts:173-186 | unsubscribing right after subscribing restores the user; at zero it changes nothing |
| UserService.SubmitError | src/api/user/user.service.ts:214-222 | a submission is allowed if and only if there is no application status and the user is not yet a professional |
| UserService.ReviewError | src/api/user/user.service.ts:307-315 | a review is allowed if and only if the status is pending |
| UserService.ApplicationSteps | src/api/user/user.service.ts:214-348 | every successful submit, approve or reject moves the status along null → pending → approved/rejected |
| UserService.VerdictIsFinal | src/api/user/user.service.ts:214-348 | after a verdict, or a submission, resubmission is refused, and after a verdict a review is refused too |
| UserService.VerdictAndSellerFlag | src/api/user/user.service.ts:317-348 | approval makes a professional seller; rejection leaves the flag as it was |
| UserService.ReviewNotStored | src/api/user/user.service.ts:344-350 | the rejection reason, the reviewer id and the ban reason appear on the returned object but never in the stored row |
| UserService.UnbanUndoesBan | src/api/user/user.service.ts:406-441 | unbanning an active user after a ban restores the stored row |
| UserService.UserService.FindOne | src/api/user/user.service.ts:49-60 | active users only, else NotFound 'User not found' |
| UserService.UserService.Create | src/api/user/user.service.ts:23-39 | a taken phone number is a Conflict; otherwise the save of the built user is refused for its null `telegram_id`; the table never changes |
| UserService.CreatedUserRefused | src/api/user/user.service.ts:32-38 | the user `create` builds has no `telegram_id`, so the database refuses it whatever the table holds |
| UserService.CreatedUserAcceptedIfNullable | src/core/entity/user.entity.ts:11-12 | with `telegram_id` nullable like `phone_number`, the built user is accepted whenever its phone is free, and inserting it keeps the unique columns unique |
| UserService.UserService.Update | src/api/user/user.service.ts:81-91 | a role in the request is refused unless the target user is an admin; otherwise the fields are assigned and saved |
| UserService.UserService.Remove | src/api/user/user.service.ts:93-97 | an active user is deactivated and no longer found |
| UserService.UserService.Activate | src/api/user/user.service.ts:99-107 | finds inactive users too and makes them active, hence findable |
| UserService.UserService.Deactivate | src/api/user/user.service.ts:109-113 | an active user is deactivated and returned |
| UserService.UserService.ChangeRole | src/api/user/user.service.ts:115-123 | a role other than `user` or `admin` is refused before the lookup; otherwise the role is set |
| UserService.UserService.AddRating | src/api/user/user.service.ts:158-170 | a rating outside 1..5 is refused before the lookup; otherwise one more rating is counted |
| UserService.UserService.AddSubscriber | src/api/user/user.service.ts:173-177 | one more subscriber |
| UserService.UserService.RemoveSubscriber | src/api/user/user.service.ts:180-186 | one fewer subscriber, never below zero |
| UserService.UserService.SubmitApplication | src/api/user/user.service.ts:208-231 | refused with the first failing check's message; otherwise the application is stored as pending |
| UserService.UserService.ApproveApplication | src/api/user/user.service.ts:301-324 | only a pending application; it becomes approved and the user a professional seller |
| UserService.UserService.RejectApplication | src/api/user/user.service.ts:327-351 | only a pending application; it becomes rejected |
| UserService.UserService.BanUser | src/api/user/user.service.ts:406-428 | the stored status becomes suspended |
| UserService.UserService.UnbanUser | src/api/user/user.service.ts:431-441 | the stored status becomes active |

## Left out

- SHA-256, HMAC-SHA-256 and JWT signing and verification are not implemented; they are function parameters.
- The Telegram API, the bot launch, socket.io transport, the HTTP POST and logging are replaced by recorded replies, posts and emissions. The photo lookup and the backend answer are parameters.
- Concurrency: completions are sequential. An interleaving of two completions between validation and consumption is not modelled.
- Clocks, UUID generation and database-generated ids are parameters with freshness preconditions. The `Math.random` listing id of `create` is a parameter too.
- Date arithmetic: the promotion end date is a parameter, and the ban expiry date is never stored by the code, so the duration is ignored.
- The floating-point `average_rating` updated by `addRating` is not modelled; only `ratings_count` is.
- `details` of a security event and the console output are not modelled.
- TypeORM query-builder reads (`findAll`, `search`, the `findBy*` queries, similar products, promoted lists) are not modelled; only the pagination arithmetic over a given row list is.
- `getProductImagesCount`, `checkProductPublishable` and the other service calls of the controller that the shown service does not define: the upload check takes the image count as a parameter, and the controller's `checkProductPublishable`, which only wraps the service's issues list as `{ publishable: issues.length === 0, issues }`, is not modelled.
- `getProductEngagement` (same counters as `getProductStats`), `update` of a product, `findOneWithDetails` and the user queries and reports outside the listed operations are not modelled.
- Users.UserRepository.Save: of the User entity's column constraints only NOT NULL on `telegram_id` and the unique `telegram_id` and `phone_number` are enforced. The lengths of `name` varchar(100), `telegram_username` varchar(50) and `telegram_id` varchar(36) (src/core/entity/user.entity.ts:8, 104, 123) and the `role` enum (line 21) are not, so the model accepts rows the database refuses, such as a Telegram display name over 100 characters. `name` is always a string in the model, and every other non-nullable column has a default.
- Only the name and role fields of a user update, and the name, phone, role and active flag of a created user, are modelled; other DTO fields are passed to `Object.assign` unchanged in the code.
- ProductService.SaveUploads, ProductService.SavePositions: the per-image saves run over a local copy of the image table, which the service method then writes back. The end state is the same; no other operation can observe the intermediate tables in a sequential model.
- SecurityService.SecurityService.CheckRateLimit: requires a positive window; a window of zero seconds makes the code divide by zero (NaN), which is not modelled.
- Products.Paginate: requires page and limit of at least 1; the request validation of the pagination query is not part of this model.
- TelegramAuthService.TelegramAuthService.CompleteAuthentication: a database failure is modelled by the `fault` parameter (the session update, the user lookup, or the user write including the queries inside `socialLogin`), not by the store itself; one fault per completion.
- ProductService.ProductService.Remove: the final `save(product)` cascades over `product.images` (product.entity.ts:228), which `findOne` loaded before the image rows were removed; whether TypeORM re-inserts those rows is not modelled, and the model ends with them deleted.
- Which routes are public is an input of the guard, not read from the controllers' decorators; the bot's POST is composed with the guard only in `BotCompletion`, and the throttler guard is not modelled. Error responses are not given their status codes; the bot only distinguishes a rejected POST from an answer.
- JsStrings.StrLt: the default `sort()` compares UTF-16 code units and the model compares code points; the order of two keys differs only when a character above U+FFFF meets one in U+E000..U+FFFF.

## Findings

| source | as written | input that shows it | evidently intended | confidence | as-written member | corrected member |
|---|---|---|---|---|---|---|
| src/api/auth/auth.service.ts:115-121 | `generateJwtTelegram` signs the Telegram id of the widget query as `sub`; the profile endpoint later looks `sub` up as a user's primary key (src/api/auth/auth.controller.ts:100) | a widget login with `id=42` for a new user: the row gets a fresh UUID, the token says `sub: "42"`, and `findUserById("42")` finds nothing | sign the id of the row found or created, as `generateJwt` does | not executed | AuthService.TelegramSubjectIsNotRowId | AuthService.AuthService.GenerateRowJwtTelegram |
| src/common/service/telegram-verification.service.ts:50-55 | `parseInt` of an unreadable `auth_date` is NaN, and `currentDate - NaN > maxAge` is false, so the age check is skipped | correctly signed data with `auth_date=never` passes the time check at any moment | data whose age cannot be read is rejected, as the documented "valid and not expired" promises | not executed | TelegramVerification.UnreadableAuthDateNeverExpires | TelegramVerification.VerifyWithStrictTimeCheck |
| src/core/entity/user.entity.ts:123-124 | `telegram_id` is NOT NULL with no default (the schema follows the entities, src/api/app.module.ts:30), yet `create` saves a `CreateUserDto`, which has no such field, and `socialLogin` writes `telegram_id \|\| null` for every provider | `create({ name: "Ali", phone_number: "+998901234567" })` with the phone free: the insert is refused; likewise a Google login without `telegram_id` | `telegram_id` nullable like `phone_number`, so users without Telegram can be created | not executed | UserService.CreatedUserRefused | UserService.CreatedUserAcceptedIfNullable |
| src/api/auth/telegram-auth.controller.ts:57 | `POST auth/telegram/complete` has no `@Public()`, the bearer-token guard is installed for every route (src/api/app.module.ts:46-49), and the bot posts without an Authorization header (src/api/auth/telegram-bot.service.ts:114-119) | any shared contact after `/start <token>`: the guard refuses the POST with 'Token not found', the bot replies with the crash message, and the session is never completed | the completion route marked public like `GET auth/telegram/session`, so the bot's POST reaches `completeAuthentication` | not executed | BotCompletion.CompletionRouteRefusesBot | BotCompletion.PublicCompletionRouteServesBot |
