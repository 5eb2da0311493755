/**
 * The guard in front of the Telegram login-widget callback: it rebuilds the data-check
 * string from the query, compares the HMAC with `query.hash`, and on success stores the
 * whole query as `request.user`.
 */
module TelegramGuard {
  import opened Wrappers
  import opened JsStrings
  import opened JsMap
  import opened Crypto
  import opened TelegramVerification
  import opened Http

  const MissingData := "Missing Telegram login data"
  const InvalidHash := "Invalid Telegram hash"

  /** `keys.filter((key) => key !== 'hash')`. */
  function DropHash(keys: seq<string>): (r: seq<string>)
    ensures forall k :: k in r <==> k in keys && k != "hash"
  {
    if |keys| == 0 then []
    else (if keys[0] == "hash" then [] else [keys[0]]) + DropHash(keys[1..])
  }

  /** The guard's check string: filter, sort, `key=value`, join by `\n`, reading the query itself. */
  function GuardCheckString(query: JsObject): string {
    Join(Pairs(SortStrings(DropHash(Keys(query))), query), "\n")
  }

  lemma {:induction false} DropHashKeys(o: JsObject)
    ensures DropHash(Keys(o)) == Keys(WithoutHash(o))
  {
    if |o| > 0 {
      DropHashKeys(o[1..]);
      assert Keys(o)[1..] == Keys(o[1..]);
      var head: JsObject := if o[0].key == "hash" then [] else [o[0]];
      assert WithoutHash(o) == head + WithoutHash(o[1..]);
      assert Keys(head + WithoutHash(o[1..])) == Keys(head) + Keys(WithoutHash(o[1..]));
    }
  }

  lemma {:induction false} GetWithoutHash(o: JsObject, k: string)
    requires k != "hash"
    ensures Get(WithoutHash(o), k) == Get(o, k)
  {
    if |o| > 0 {
      GetWithoutHash(o[1..], k);
      var rest := WithoutHash(o[1..]);
      if o[0].key == "hash" {
        assert WithoutHash(o) == rest;
        assert Get(o, k) == Get(o[1..], k);
      } else {
        assert WithoutHash(o) == [o[0]] + rest;
        assert ([o[0]] + rest)[1..] == rest;
      }
    }
  }

  /** The guard and the verification service build the same check string from the same data. */
  lemma GuardMatchesService(query: JsObject)
    ensures GuardCheckString(query) == DataCheckString(query)
  {
    DropHashKeys(query);
    var ks := SortStrings(Keys(WithoutHash(query)));
    forall i | 0 <= i < |ks| ensures Get(query, ks[i]) == Get(WithoutHash(query), ks[i]) {
      assert ks[i] in multiset(ks);
      assert ks[i] in Keys(WithoutHash(query));
      var j :| 0 <= j < |WithoutHash(query)| && WithoutHash(query)[j].key == ks[i];
      assert WithoutHash(query)[j] in WithoutHash(query);
      GetWithoutHash(query, ks[i]);
    }
    assert Pairs(ks, query) == Pairs(ks, WithoutHash(query));
  }

  /**
   * The guard's decision on a query: the query it would store as `request.user`, or the
   * Unauthorized error it throws. It accepts exactly the data the verification service accepts.
   */
  function Check(query: Option<JsObject>, botToken: string, h: Hasher): (r: Result<JsObject>)
    ensures r == Err(Unauthorized(MissingData)) <==> query.None? || !Truthy(Get(query.value, "hash"))
    ensures r == Err(Unauthorized(InvalidHash)) <==>
      query.Some? && Truthy(Get(query.value, "hash")) && !VerifyAuthData(query.value, botToken, h)
    ensures r.Ok? <==> query.Some? && Truthy(Get(query.value, "hash")) && VerifyAuthData(query.value, botToken, h)
    ensures r.Ok? ==> r.value == query.value
  {
    if query.None? || !Truthy(Get(query.value, "hash")) then Err(Unauthorized(MissingData))
    else
      var hmac := h.hmacSha256Hex(h.sha256(botToken), GuardCheckString(query.value));
      GuardMatchesService(query.value);
      if Get(query.value, "hash") != Some(hmac) then Err(Unauthorized(InvalidHash))
      else Ok(query.value)
  }

  /**
   * The guard never reads `auth_date`: correctly signed data a day and more old passes it,
   * although the service's time check with the default bound rejects the same data.
   */
  lemma GuardIgnoresAge(query: JsObject, botToken: string, h: Hasher, nowMs: int, d: int)
    requires Get(query, "hash") == Some(ExpectedHash(query, botToken, h)) && ExpectedHash(query, botToken, h) != ""
    requires Truthy(Get(query, "auth_date")) && ParseInt(Get(query, "auth_date").value) == Some(d)
    requires nowMs / 1000 - d > DefaultMaxAge
    ensures Check(Some(query), botToken, h) == Ok(query)
    ensures !VerifyWithTimeCheck(query, botToken, h, nowMs, DefaultMaxAge)
  {
  }

  /** `canActivate`: throws (an `Err`) or stores the query as the user and returns true. */
  method CanActivate(req: Request, botToken: string, h: Hasher) returns (r: Result<bool>)
    modifies req
    ensures Check(old(req.query), botToken, h).Ok? ==>
      r == Ok(true) && req.user == TelegramUser(old(req.query).value)
    ensures Check(old(req.query), botToken, h).Err? ==>
      r == Err(Check(old(req.query), botToken, h).error) && req.user == old(req.user)
    ensures req.query == old(req.query) && req.authorization == old(req.authorization)
  {
    var query := req.query;
    if query.None? || !Truthy(Get(query.value, "hash")) {
      return Err(Unauthorized(MissingData));
    }
    var hmac := h.hmacSha256Hex(h.sha256(botToken), GuardCheckString(query.value));
    if Get(query.value, "hash") != Some(hmac) {
      return Err(Unauthorized(InvalidHash));
    }
    req.user := TelegramUser(query.value);
    return Ok(true);
  }
}
