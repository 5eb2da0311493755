/**
 * The bot side of the handshake. `/start <token>` remembers the login token for the
 * Telegram user; a shared contact is then posted, with the user's details, to the backend's
 * completion endpoint. Replies and posts are recorded in order instead of being sent.
 */
module TelegramBot {
  import opened Wrappers
  import opened JsStrings
  import opened JsMap

  const Welcome := "Welcome! Please initiate login from the website to use this bot."
  const AskContact := "Please share your contact information to continue:"
  const LoginFirst := "Please initiate login from the website first."
  const NoContact := "Contact information not received. Please try again."
  const Succeeded := "Authentication successful! You can now close this chat and return to the website."
  const Failed := "Authentication failed. Please try again."
  const Crashed := "An error occurred during authentication. Please try again."
  const UseButton := "Please share your contact information using the button below."

  /** `ctx.from`: the sender's numeric id and optional username. */
  datatype Sender = Sender(id: int, username: Option<string>)

  /** `ctx.message.contact`. */
  datatype Contact = Contact(first_name: string, last_name: Option<string>, phone_number: string, user_id: Option<int>)

  /** The outcome of `getUserProfilePhotos` followed by `getFileLink`. */
  datatype PhotoLookup = PhotoLink(url: string) | NoPhoto | LookupFailed

  /** The outcome of the POST to the completion endpoint: `response.data.status`, or a throw. */
  datatype BackendOutcome = Responded(status: Option<string>) | Threw

  /** The body posted to the completion endpoint. */
  datatype CompletionRequest = CompletionRequest(
    sessionToken: string, name: string, phone: string, telegramId: string, username: string, photo: string)

  /** `ctx.from?.id` is truthy: a sender with a non-zero id. */
  predicate HasId(from: Option<Sender>) {
    from.Some? && from.value.id != 0
  }

  /** `(ctx.message?.text || '').split(' ')[1]`, when truthy. */
  function StartToken(text: Option<string>): (r: Option<string>)
    ensures r.Some? ==> r.value != "" && ' ' !in r.value
  {
    var parts := Split(text.GetOr(""), ' ');
    if |parts| < 2 || parts[1] == "" then None else Some(parts[1])
  }

  /** The command alone carries no token. */
  lemma StartAloneHasNoToken(command: string)
    requires ' ' !in command
    ensures StartToken(Some(command)) == None
  {
    SplitWhole(command, ' ');
  }

  /** The token is the second space-separated field; anything after a further space is ignored. */
  lemma StartTokenIsSecondField(command: string, t: string, rest: string)
    requires ' ' !in command && t != "" && ' ' !in t
    requires rest == "" || rest[0] == ' '
    ensures StartToken(Some(command + " " + t + rest)) == Some(t)
  {
    var tail := if rest == "" then t else t + [' '] + rest[1..];
    assert command + " " + t + rest == command + [' '] + tail;
    SplitPiece(command, ' ', tail);
    if rest == "" {
      SplitWhole(t, ' ');
    } else {
      SplitPiece(t, ' ', rest[1..]);
    }
    assert Split(tail, ' ')[0] == t;
  }

  /** `first_name`, then a space and `last_name` only when `last_name` is truthy. */
  function DisplayName(c: Contact): (r: string)
    ensures Truthy(c.last_name) ==> r == c.first_name + " " + c.last_name.value
    ensures !Truthy(c.last_name) ==> r == c.first_name
  {
    c.first_name + (if Truthy(c.last_name) then " " + c.last_name.value else "")
  }

  /** `contact.user_id`, else `ctx.from.id`, as text; `''` when neither is truthy. */
  function TelegramIdOf(c: Contact, from: Option<Sender>): (r: string)
    ensures c.user_id.Some? && c.user_id.value != 0 ==> ParseInt(r) == Some(c.user_id.value)
    ensures !(c.user_id.Some? && c.user_id.value != 0) && HasId(from) ==> ParseInt(r) == Some(from.value.id)
    ensures !(c.user_id.Some? && c.user_id.value != 0) && !HasId(from) ==> r == ""
  {
    if c.user_id.Some? && c.user_id.value != 0 then
      ParseIntToString(c.user_id.value);
      IntToString(c.user_id.value)
    else if HasId(from) then
      ParseIntToString(from.value.id);
      IntToString(from.value.id)
    else ""
  }

  /** `ctx.from?.username || ''`. */
  function UsernameOf(from: Option<Sender>): string {
    if from.Some? && Truthy(from.value.username) then from.value.username.value else ""
  }

  /** The photo URL: the first profile photo's link, or `''` when there is none or the lookup fails. */
  function PhotoOf(from: Option<Sender>, lookup: PhotoLookup): (r: string)
    ensures lookup.PhotoLink? && from.Some? ==> r == lookup.url
    ensures !lookup.PhotoLink? || from.None? ==> r == ""
  {
    if from.Some? && lookup.PhotoLink? then lookup.url else ""
  }

  /** The body of the completion request. */
  function RequestOf(token: string, c: Contact, from: Option<Sender>, lookup: PhotoLookup): CompletionRequest {
    CompletionRequest(token, DisplayName(c), c.phone_number, TelegramIdOf(c, from), UsernameOf(from), PhotoOf(from, lookup))
  }

  /** The token remembered for the sender, if `ctx.from?.id` is truthy. */
  function StoredToken(m: seq<Entry<int, string>>, from: Option<Sender>): Option<string> {
    if HasId(from) then Get(m, from.value.id) else None
  }

  class TelegramBot {
    /** `userSessions`: Telegram user id -> login token. */
    var userSessions: seq<Entry<int, string>>
    var replies: seq<string>
    var posts: seq<CompletionRequest>

    ghost predicate Valid()
      reads this
    {
      DistinctKeys(userSessions)
    }

    constructor ()
      ensures Valid() && userSessions == [] && replies == [] && posts == []
    {
      userSessions := [];
      replies := [];
      posts := [];
    }

    /** The `/start` handler. */
    method OnStart(text: Option<string>, from: Option<Sender>)
      requires Valid()
      modifies this
      ensures Valid() && posts == old(posts)
      ensures StartToken(text).None? ==> userSessions == old(userSessions) && replies == old(replies) + [Welcome]
      ensures StartToken(text).Some? ==> replies == old(replies) + [AskContact]
      ensures StartToken(text).Some? && HasId(from) ==>
        userSessions == Set(old(userSessions), from.value.id, StartToken(text).value)
      ensures StartToken(text).Some? && !HasId(from) ==> userSessions == old(userSessions)
    {
      var token := StartToken(text);
      if token.None? {
        replies := replies + [Welcome];
        return;
      }
      if HasId(from) {
        SetDistinct(userSessions, from.value.id, token.value);
        userSessions := Set(userSessions, from.value.id, token.value);
      }
      replies := replies + [AskContact];
    }

    /**
     * The contact handler. The mapping is deleted only once the backend has answered; when
     * the call throws, the mapping stays.
     */
    method OnContact(from: Option<Sender>, contact: Option<Contact>, photo: PhotoLookup, backend: BackendOutcome)
      requires Valid()
      modifies this
      ensures Valid()
      ensures !Truthy(StoredToken(old(userSessions), from)) ==>
        userSessions == old(userSessions) && posts == old(posts) && replies == old(replies) + [LoginFirst]
      ensures Truthy(StoredToken(old(userSessions), from)) && contact.None? ==>
        userSessions == old(userSessions) && posts == old(posts) && replies == old(replies) + [NoContact]
      ensures Truthy(StoredToken(old(userSessions), from)) && contact.Some? ==>
        posts == old(posts) + [RequestOf(StoredToken(old(userSessions), from).value, contact.value, from, photo)]
      ensures Truthy(StoredToken(old(userSessions), from)) && contact.Some? && backend.Threw? ==>
        userSessions == old(userSessions) && replies == old(replies) + [Crashed]
      ensures Truthy(StoredToken(old(userSessions), from)) && contact.Some? && backend.Responded? ==>
        userSessions == Delete(old(userSessions), from.value.id) &&
        replies == old(replies) + [if backend.status == Some("success") then Succeeded else Failed]
    {
      var token := StoredToken(userSessions, from);
      if !Truthy(token) {
        replies := replies + [LoginFirst];
        return;
      }
      if contact.None? {
        replies := replies + [NoContact];
        return;
      }
      posts := posts + [RequestOf(token.value, contact.value, from, photo)];
      match backend
      case Threw =>
        replies := replies + [Crashed];
      case Responded(status) =>
        DeleteDistinct(userSessions, from.value.id);
        userSessions := Delete(userSessions, from.value.id);
        replies := replies + [if status == Some("success") then Succeeded else Failed];
    }

    /** Any other message: a prompt, depending only on whether a token is remembered. */
    method OnMessage(from: Option<Sender>)
      requires Valid()
      modifies this
      ensures Valid() && userSessions == old(userSessions) && posts == old(posts)
      ensures replies == old(replies) + [if Truthy(StoredToken(old(userSessions), from)) then UseButton else LoginFirst]
    {
      var token := StoredToken(userSessions, from);
      if !Truthy(token) {
        replies := replies + [LoginFirst];
        return;
      }
      replies := replies + [UseButton];
    }
  }

  /** A token remembered by `/start` is found again for the same sender until it is consumed. */
  lemma StartThenContactFindsToken(m: seq<Entry<int, string>>, from: Option<Sender>, text: Option<string>)
    requires HasId(from) && StartToken(text).Some?
    ensures StoredToken(Set(m, from.value.id, StartToken(text).value), from) == StartToken(text)
    ensures Truthy(StoredToken(Set(m, from.value.id, StartToken(text).value), from))
  {
    GetSetSame(m, from.value.id, StartToken(text).value);
  }

  /** After the backend answers, the sender has no token left, so a repeated contact gets the prompt. */
  lemma AnsweredContactForgetsToken(m: seq<Entry<int, string>>, from: Option<Sender>)
    requires DistinctKeys(m) && HasId(from)
    ensures StoredToken(Delete(m, from.value.id), from).None?
  {
    GetDeleteSame(m, from.value.id);
  }
}
