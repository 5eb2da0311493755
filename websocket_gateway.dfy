/**
 * The push registry of the login handshake: a socket.io gateway keeping a `Map` from
 * correlation token to socket id. A browser joins with its token; the backend later pushes
 * one `auth_result` to that socket and forgets the mapping.
 */
module WebsocketGateway {
  import opened Wrappers
  import opened JsMap

  /** The payloads the gateway emits: `session_joined {success: true}` and the two `auth_result`s. */
  datatype Message =
    | SessionJoined
    | AuthSuccess(jwt: string)
    | AuthFailure(error: string)

  /** One emission, addressed to a socket. */
  datatype Emit = Emit(socketId: string, message: Message)

  /** The registry after a send, and what the send put on the wire. */
  datatype Outcome = Outcome(sessions: seq<Entry<string, string>>, sent: seq<Emit>)

  /** `sendAuthResult` / `sendAuthError`: emit to the registered socket, if any, then forget it. */
  function Send(m: seq<Entry<string, string>>, token: string, msg: Message): (r: Outcome)
    ensures |r.sent| <= 1
    ensures !Truthy(Get(m, token)) ==> r == Outcome(m, [])
    ensures Truthy(Get(m, token)) ==> r == Outcome(Delete(m, token), [Emit(Get(m, token).value, msg)])
  {
    var socketId := Get(m, token);
    if Truthy(socketId) then Outcome(Delete(m, token), [Emit(socketId.value, msg)])
    else Outcome(m, [])
  }

  /** The index of the first entry, in iteration order, whose socket id is `socketId`. */
  function FirstWithValue(m: seq<Entry<string, string>>, socketId: string): (r: Option<nat>)
    ensures r.Some? ==> r.value < |m| && m[r.value].value == socketId
    ensures r.Some? ==> forall j :: 0 <= j < r.value ==> m[j].value != socketId
    ensures r.None? ==> forall j :: 0 <= j < |m| ==> m[j].value != socketId
  {
    if |m| == 0 then None
    else if m[0].value == socketId then Some(0)
    else match FirstWithValue(m[1..], socketId)
      case None => None
      case Some(i) => Some(i + 1)
  }

  /** `handleDisconnect`: delete the token of the first entry naming the socket, then stop. */
  function Disconnect(m: seq<Entry<string, string>>, socketId: string): seq<Entry<string, string>> {
    match FirstWithValue(m, socketId)
    case None => m
    case Some(i) => Delete(m, m[i].key)
  }

  // ---------------------------------------------------------------- properties

  /** A second send for the same token finds no socket: it emits nothing and changes nothing. */
  lemma SendOnce(m: seq<Entry<string, string>>, token: string, first: Message, second: Message)
    requires DistinctKeys(m)
    ensures Send(Send(m, token, first).sessions, token, second) == Outcome(Send(m, token, first).sessions, [])
  {
    if Truthy(Get(m, token)) {
      GetDeleteSame(m, token);
    }
  }

  /** Two successive sends for one token deliver at most one message between them. */
  lemma AtMostOneDelivery(m: seq<Entry<string, string>>, token: string, first: Message, second: Message)
    requires DistinctKeys(m)
    ensures |Send(m, token, first).sent + Send(Send(m, token, first).sessions, token, second).sent| <= 1
  {
    SendOnce(m, token, first, second);
  }

  /** A send touches no other token's mapping. */
  lemma SendOthersUnchanged(m: seq<Entry<string, string>>, token: string, msg: Message, other: string)
    requires other != token
    ensures Get(Send(m, token, msg).sessions, other) == Get(m, other)
  {
    if Truthy(Get(m, token)) {
      GetDeleteOther(m, token, other);
    }
  }

  /** A send after a join reaches the joined socket, and the token is then unregistered. */
  lemma JoinThenSend(m: seq<Entry<string, string>>, token: string, clientId: string, msg: Message)
    requires DistinctKeys(m) && clientId != ""
    ensures Send(Set(m, token, clientId), token, msg).sent == [Emit(clientId, msg)]
    ensures Get(Send(Set(m, token, clientId), token, msg).sessions, token) == None
  {
    GetSetSame(m, token, clientId);
    SetDistinct(m, token, clientId);
    GetDeleteSame(Set(m, token, clientId), token);
  }

  /** A join maps the token to the client and leaves every other token as it was. */
  lemma JoinMapsToken(m: seq<Entry<string, string>>, token: string, clientId: string, other: string)
    requires other != token
    ensures Get(Set(m, token, clientId), token) == Some(clientId)
    ensures Get(Set(m, token, clientId), other) == Get(m, other)
  {
    GetSetSame(m, token, clientId);
    GetSetOther(m, token, clientId, other);
  }

  /**
   * A disconnect removes at most one entry, the first whose socket id matches; the entries
   * before and after it stay, in order. Later entries naming the same socket survive.
   */
  lemma DisconnectRemovesFirst(m: seq<Entry<string, string>>, socketId: string)
    requires DistinctKeys(m)
    ensures FirstWithValue(m, socketId).None? ==> Disconnect(m, socketId) == m
    ensures FirstWithValue(m, socketId).Some? ==>
      var i := FirstWithValue(m, socketId).value;
      Disconnect(m, socketId) == m[..i] + m[i + 1..]
    ensures DistinctKeys(Disconnect(m, socketId))
  {
    match FirstWithValue(m, socketId)
    case None =>
    case Some(i) =>
      assert IndexOf(m, m[i].key) == Some(i);
      DeleteDistinct(m, m[i].key);
  }

  // ---------------------------------------------------------------- the gateway

  class Gateway {
    /** `sessions`: token -> socket id, in insertion order. */
    var sessions: seq<Entry<string, string>>
    /** Everything emitted so far, oldest first. */
    var emitted: seq<Emit>

    ghost predicate Valid()
      reads this
    {
      DistinctKeys(sessions)
    }

    constructor ()
      ensures Valid() && sessions == [] && emitted == []
    {
      sessions := [];
      emitted := [];
    }

    /** `handleJoinSession`: register the socket for the token and acknowledge. */
    method HandleJoinSession(clientId: string, token: string)
      requires Valid()
      modifies this
      ensures Valid()
      ensures sessions == Set(old(sessions), token, clientId)
      ensures emitted == old(emitted) + [Emit(clientId, SessionJoined)]
    {
      SetDistinct(sessions, token, clientId);
      sessions := Set(sessions, token, clientId);
      emitted := emitted + [Emit(clientId, SessionJoined)];
    }

    /** `handleDisconnect`: walk the entries in order and delete the first naming the socket. */
    method HandleDisconnect(clientId: string)
      requires Valid()
      modifies this
      ensures Valid()
      ensures sessions == Disconnect(old(sessions), clientId)
      ensures emitted == old(emitted)
    {
      DisconnectRemovesFirst(sessions, clientId);
      var i := 0;
      while i < |sessions|
        invariant 0 <= i <= |sessions|
        invariant sessions == old(sessions)
        invariant forall j :: 0 <= j < i ==> sessions[j].value != clientId
      {
        if sessions[i].value == clientId {
          assert FirstWithValue(sessions, clientId) == Some(i);
          sessions := Delete(sessions, sessions[i].key);
          return;
        }
        i := i + 1;
      }
    }

    /** `sendAuthResult`: push `{status: 'success', jwt}` once. */
    method SendAuthResult(token: string, jwt: string)
      requires Valid()
      modifies this
      ensures Valid()
      ensures sessions == Send(old(sessions), token, AuthSuccess(jwt)).sessions
      ensures emitted == old(emitted) + Send(old(sessions), token, AuthSuccess(jwt)).sent
    {
      Deliver(token, AuthSuccess(jwt));
    }

    /** `sendAuthError`: push `{status: 'error', error}` once. */
    method SendAuthError(token: string, error: string)
      requires Valid()
      modifies this
      ensures Valid()
      ensures sessions == Send(old(sessions), token, AuthFailure(error)).sessions
      ensures emitted == old(emitted) + Send(old(sessions), token, AuthFailure(error)).sent
    {
      Deliver(token, AuthFailure(error));
    }

    /** The body both sends share. */
    method Deliver(token: string, msg: Message)
      requires Valid()
      modifies this
      ensures Valid()
      ensures sessions == Send(old(sessions), token, msg).sessions
      ensures emitted == old(emitted) + Send(old(sessions), token, msg).sent
    {
      var socketId := Get(sessions, token);
      if Truthy(socketId) {
        emitted := emitted + [Emit(socketId.value, msg)];
        DeleteDistinct(sessions, token);
        sessions := Delete(sessions, token);
      }
    }
  }
}
