/**
 * Checking Telegram login data: a data-check string over the fields other than `hash`,
 * an HMAC-SHA-256 keyed with the SHA-256 of the bot token (RFC 2104 section 2 over
 * FIPS 180-4), compared with the supplied `hash`, plus an optional freshness bound on
 * `auth_date`.
 */
module TelegramVerification {
  import opened Wrappers
  import opened JsStrings
  import opened JsMap
  import opened Crypto

  /** Default age bound of the time check, in seconds (24 hours). */
  const DefaultMaxAge: int := 86400

  /** `Object.keys(o)`: the property names in insertion order. */
  function Keys(o: JsObject): (r: seq<string>)
    ensures |r| == |o|
    ensures forall i :: 0 <= i < |o| ==> r[i] == o[i].key
  {
    if |o| == 0 then [] else [o[0].key] + Keys(o[1..])
  }

  /** `const { hash, ...rest } = data`: every property but `hash`, in the same order. */
  function WithoutHash(o: JsObject): (r: JsObject)
    ensures forall e :: e in r <==> e in o && e.key != "hash"
  {
    if |o| == 0 then []
    else (if o[0].key == "hash" then [] else [o[0]]) + WithoutHash(o[1..])
  }

  /** A property read inside a template literal: an absent property prints as `undefined`. */
  function Text(v: Option<string>): string {
    match v
    case Some(s) => s
    case None => "undefined"
  }

  /** The lines `key=value` for the given keys, read from `o`. */
  function Pairs(keys: seq<string>, o: JsObject): (r: seq<string>)
    ensures |r| == |keys|
  {
    seq(|keys|, i requires 0 <= i < |keys| => keys[i] + "=" + Text(Get(o, keys[i])))
  }

  /** The data-check string: the `key=value` lines of the non-hash keys, sorted, joined by `\n`. */
  function DataCheckString(data: JsObject): string {
    var rest := WithoutHash(data);
    Join(Pairs(SortStrings(Keys(rest)), rest), "\n")
  }

  /** The hex HMAC the data should carry as its `hash`. */
  function ExpectedHash(data: JsObject, botToken: string, h: Hasher): string {
    h.hmacSha256Hex(h.sha256(botToken), DataCheckString(data))
  }

  /** `verifyTelegramAuthData`: strict equality of the computed HMAC with `data.hash`. */
  function VerifyAuthData(data: JsObject, botToken: string, h: Hasher): (r: bool)
    ensures r <==> Get(data, "hash") == Some(ExpectedHash(data, botToken, h))
  {
    match Get(data, "hash")
    case None => false
    case Some(hash) => ExpectedHash(data, botToken, h) == hash
  }

  /**
   * `verifyTelegramAuthDataWithTimeCheck` as written: `nowMs` is `Date.now()`. An `auth_date`
   * that `parseInt` cannot read is NaN, which makes the age comparison false, so such data
   * goes straight on to the hash check.
   */
  function VerifyWithTimeCheck(data: JsObject, botToken: string, h: Hasher, nowMs: int, maxAge: int): (r: bool)
    ensures r ==> VerifyAuthData(data, botToken, h)
    ensures !Truthy(Get(data, "auth_date")) ==> !r
    ensures Truthy(Get(data, "auth_date")) && ParseInt(Get(data, "auth_date").value).Some? ==>
      (r <==> nowMs / 1000 - ParseInt(Get(data, "auth_date").value).value <= maxAge && VerifyAuthData(data, botToken, h))
    ensures Truthy(Get(data, "auth_date")) && ParseInt(Get(data, "auth_date").value).None? ==>
      r == VerifyAuthData(data, botToken, h)
  {
    var authDate := Get(data, "auth_date");
    if !Truthy(authDate) then false
    else match ParseInt(authDate.value)
      case Some(d) =>
        if nowMs / 1000 - d > maxAge then false else VerifyAuthData(data, botToken, h)
      case None => VerifyAuthData(data, botToken, h)
  }

  /** The time check with an unreadable `auth_date` rejected, as its documentation promises. */
  function VerifyWithStrictTimeCheck(data: JsObject, botToken: string, h: Hasher, nowMs: int, maxAge: int): (r: bool)
    ensures r ==> VerifyAuthData(data, botToken, h)
    ensures r <==> (Truthy(Get(data, "auth_date")) && ParseInt(Get(data, "auth_date").value).Some? &&
                    nowMs / 1000 - ParseInt(Get(data, "auth_date").value).value <= maxAge &&
                    VerifyAuthData(data, botToken, h))
  {
    var authDate := Get(data, "auth_date");
    if !Truthy(authDate) then false
    else match ParseInt(authDate.value)
      case Some(d) =>
        if nowMs / 1000 - d > maxAge then false else VerifyAuthData(data, botToken, h)
      case None => false
  }

  // ---------------------------------------------------------------- the check string

  lemma {:induction false} WithoutHashAppend(a: JsObject, b: JsObject)
    ensures WithoutHash(a + b) == WithoutHash(a) + WithoutHash(b)
  {
    if |a| > 0 {
      assert (a + b)[1..] == a[1..] + b;
      WithoutHashAppend(a[1..], b);
    } else {
      assert a + b == b;
    }
  }

  lemma WithoutHashSingle(e: Entry<string, string>)
    ensures WithoutHash([e]) == if e.key == "hash" then [] else [e]
  {
    assert [e][1..] == [];
  }

  /** The value of `hash` never enters the check string: replacing or adding it changes nothing. */
  lemma HashExcluded(data: JsObject, v: string)
    ensures DataCheckString(Set(data, "hash", v)) == DataCheckString(data)
  {
    match IndexOf(data, "hash")
    case None =>
      WithoutHashAppend(data, [Entry("hash", v)]);
      WithoutHashSingle(Entry("hash", v));
      assert WithoutHash(Set(data, "hash", v)) == WithoutHash(data);
    case Some(i) =>
      var e := Entry("hash", v);
      assert data == data[..i] + [data[i]] + data[i + 1..];
      assert data[i := e] == data[..i] + [e] + data[i + 1..];
      WithoutHashAppend(data[..i] + [data[i]], data[i + 1..]);
      WithoutHashAppend(data[..i], [data[i]]);
      WithoutHashAppend(data[..i] + [e], data[i + 1..]);
      WithoutHashAppend(data[..i], [e]);
      WithoutHashSingle(data[i]);
      WithoutHashSingle(e);
      assert WithoutHash(Set(data, "hash", v)) == WithoutHash(data);
  }

  lemma KeysDistinct(o: JsObject)
    requires DistinctKeys(o)
    ensures Distinct(Keys(o))
  {
  }

  lemma WithoutHashDistinct(o: JsObject)
    requires DistinctKeys(o)
    ensures DistinctKeys(WithoutHash(o))
    decreases |o|
  {
    if |o| > 0 {
      WithoutHashDistinct(o[1..]);
      assert o == [o[0]] + o[1..];
      forall e | e in WithoutHash(o[1..]) ensures e.key != o[0].key {
        var j :| 0 <= j < |o[1..]| && o[1..][j] == e;
        assert o[j + 1] == e;
      }
    }
  }

  lemma KeysSameElements(a: JsObject, b: JsObject)
    requires forall e :: e in a <==> e in b
    ensures forall k :: k in Keys(a) <==> k in Keys(b)
  {
    forall k ensures k in Keys(a) ==> k in Keys(b) {
      if k in Keys(a) {
        var i :| 0 <= i < |a| && Keys(a)[i] == k;
        assert a[i] in b;
        var j :| 0 <= j < |b| && b[j] == a[i];
        assert Keys(b)[j] == k;
      }
    }
    forall k ensures k in Keys(b) ==> k in Keys(a) {
      if k in Keys(b) {
        var i :| 0 <= i < |b| && Keys(b)[i] == k;
        assert b[i] in a;
        var j :| 0 <= j < |a| && a[j] == b[i];
        assert Keys(a)[j] == k;
      }
    }
  }

  /**
   * The check string depends only on which properties the data holds, not on the order in
   * which they were inserted.
   */
  lemma CheckStringOrderIndependent(a: JsObject, b: JsObject)
    requires DistinctKeys(a) && DistinctKeys(b)
    requires forall e :: e in a <==> e in b
    ensures DataCheckString(a) == DataCheckString(b)
  {
    var ra, rb := WithoutHash(a), WithoutHash(b);
    WithoutHashDistinct(a);
    WithoutHashDistinct(b);
    KeysDistinct(ra);
    KeysDistinct(rb);
    KeysSameElements(ra, rb);
    SortStringsSameElements(Keys(ra), Keys(rb));
    var ks := SortStrings(Keys(ra));
    forall i | 0 <= i < |ks| ensures Get(ra, ks[i]) == Get(rb, ks[i]) {
      GetSameEntries(ra, rb, ks[i]);
    }
    assert Pairs(ks, ra) == Pairs(ks, rb);
  }

  /** Data carrying the HMAC of its own other fields is accepted: signing then verifying succeeds. */
  lemma SignedDataVerifies(data: JsObject, botToken: string, h: Hasher)
    ensures VerifyAuthData(Set(data, "hash", ExpectedHash(data, botToken, h)), botToken, h)
  {
    var signed := Set(data, "hash", ExpectedHash(data, botToken, h));
    HashExcluded(data, ExpectedHash(data, botToken, h));
    GetSetSame(data, "hash", ExpectedHash(data, botToken, h));
    assert ExpectedHash(signed, botToken, h) == ExpectedHash(data, botToken, h);
  }

  // ---------------------------------------------------------------- the time check

  /**
   * Correctly signed data whose `auth_date` is `"never"` passes the time check as written at
   * every moment, however large `nowMs`, yet the strict check rejects it.
   */
  lemma UnreadableAuthDateNeverExpires(data: JsObject, botToken: string, h: Hasher, nowMs: int)
    requires Get(data, "auth_date") == Some("never")
    requires Get(data, "hash") == Some(ExpectedHash(data, botToken, h))
    ensures VerifyWithTimeCheck(data, botToken, h, nowMs, DefaultMaxAge)
    ensures !VerifyWithStrictTimeCheck(data, botToken, h, nowMs, DefaultMaxAge)
  {
    assert TrimStart("never") == "never";
    assert DigitPrefix("never") == "";
  }

  /** The strict check agrees with the check as written on every readable `auth_date`. */
  lemma StrictAgreesOnReadableDates(data: JsObject, botToken: string, h: Hasher, nowMs: int, maxAge: int)
    requires Truthy(Get(data, "auth_date")) ==> ParseInt(Get(data, "auth_date").value).Some?
    ensures VerifyWithStrictTimeCheck(data, botToken, h, nowMs, maxAge) == VerifyWithTimeCheck(data, botToken, h, nowMs, maxAge)
  {
  }
}
