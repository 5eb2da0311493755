/**
 * The in-memory security service: a log holding the newest 1000 security events, queries
 * over it, and a fixed-window rate limiter keyed by string. `nowMs` is `Date.now()`.
 */
module SecurityService {
  import opened Wrappers
  import opened JsArrays
  import opened Arith

  const MaxLogSize := 1000
  /** The request budget `getRateLimitInfo` assumes for every key. */
  const AssumedMaxRequests := 10

  datatype EventType =
    | LoginAttempt | LoginSuccess | LoginFailure | TokenRefresh | SuspiciousActivity | RateLimitExceeded

  /** A logged event; `timestamp` is in milliseconds. */
  datatype SecurityEvent = SecurityEvent(
    eventType: EventType, userId: Option<string>, ip: Option<string>, userAgent: Option<string>, timestamp: int)

  /** A rate-limit bucket: requests counted so far and the end of its window. */
  datatype RateEntry = RateEntry(count: int, resetTime: int)

  datatype RateLimitInfo = RateLimitInfo(remaining: int, resetTime: int)

  /** The log after one more event: appended, then cut to the newest 1000. */
  function Appended(logs: seq<SecurityEvent>, e: SecurityEvent): (r: seq<SecurityEvent>)
    ensures |r| == if |logs| + 1 > MaxLogSize then MaxLogSize else |logs| + 1
    ensures r == (logs + [e])[|logs| + 1 - |r|..]
    ensures r[|r| - 1] == e
  {
    var pushed := logs + [e];
    if |pushed| > MaxLogSize then SliceFrom(pushed, -MaxLogSize) else pushed
  }

  predicate IsFailedLoginOf(e: SecurityEvent, userId: string, sinceMs: int) {
    e.eventType == LoginFailure && e.userId == Some(userId) && e.timestamp > sinceMs
  }

  predicate IsSuspicious(e: SecurityEvent) {
    e.eventType == SuspiciousActivity
  }

  /** `Math.floor(now / windowMs) * windowMs + windowMs`. */
  function ResetTime(nowMs: int, windowMs: int): (r: int)
    requires windowMs > 0
    ensures r % windowMs == 0
    ensures nowMs < r <= nowMs + windowMs
  {
    var q := nowMs / windowMs;
    assert nowMs == q * windowMs + nowMs % windowMs;
    assert q * windowMs + windowMs == (q + 1) * windowMs;
    FloorOf((q + 1) * windowMs, windowMs, q + 1, 0);
    q * windowMs + windowMs
  }

  /** One `checkRateLimit` on the key's bucket: the answer and the bucket afterwards. */
  function Check(e: Option<RateEntry>, maxRequests: int, windowMs: int, nowMs: int): (r: (bool, RateEntry))
    requires windowMs > 0
    ensures e.None? || e.value.resetTime <= nowMs ==> r == (true, RateEntry(1, ResetTime(nowMs, windowMs)))
    ensures e.Some? && e.value.resetTime > nowMs && e.value.count >= maxRequests ==> r == (false, e.value)
    ensures e.Some? && e.value.resetTime > nowMs && e.value.count < maxRequests ==>
      r == (true, e.value.(count := e.value.count + 1))
  {
    if e.None? || e.value.resetTime <= nowMs then (true, RateEntry(1, ResetTime(nowMs, windowMs)))
    else if e.value.count >= maxRequests then (false, e.value)
    else (true, e.value.(count := e.value.count + 1))
  }

  /** The number of calls among `times` (in that order) that `checkRateLimit` allows. */
  function Allowed(e: Option<RateEntry>, maxRequests: int, windowMs: int, times: seq<int>): nat
    requires windowMs > 0
    decreases |times|
  {
    if |times| == 0 then 0
    else
      var (ok, e') := Check(e, maxRequests, windowMs, times[0]);
      (if ok then 1 else 0) + Allowed(Some(e'), maxRequests, windowMs, times[1..])
  }

  /** The requests a bucket still grants in the window ending at `windowEnd`. */
  function Budget(e: Option<RateEntry>, maxRequests: int, windowMs: int, windowEnd: int): int {
    if e.None? || e.value.resetTime <= windowEnd - windowMs then maxRequests
    else if e.value.count >= maxRequests then 0
    else maxRequests - e.value.count
  }

  /** `Math.max(0, 10 - count)`: what `getRateLimitInfo` reports as left. */
  function Remaining(e: RateEntry): (r: int)
    ensures r >= 0 && r >= AssumedMaxRequests - e.count
    ensures r == 0 || r == AssumedMaxRequests - e.count
  {
    if AssumedMaxRequests - e.count > 0 then AssumedMaxRequests - e.count else 0
  }

  /**
   * For a key limited to 10 requests, a live bucket that reports requests remaining allows the
   * next call, and one that reports none refuses it.
   */
  lemma RemainingPredictsCheck(e: RateEntry, windowMs: int, nowMs: int)
    requires windowMs > 0 && e.resetTime > nowMs
    ensures Check(Some(e), AssumedMaxRequests, windowMs, nowMs).0 <==> Remaining(e) > 0
  {
  }

  /** A bucket written by calls with this window size: its end lies on the window grid. */
  predicate OnGrid(e: Option<RateEntry>, windowMs: int)
    requires windowMs > 0
  {
    e.None? || (e.value.resetTime % windowMs == 0 && e.value.count >= 1)
  }

  lemma {:induction false} AllowedWithinBudget(e: Option<RateEntry>, maxRequests: int, windowMs: int, windowEnd: int, times: seq<int>)
    requires windowMs > 0 && windowEnd % windowMs == 0 && maxRequests >= 1
    requires OnGrid(e, windowMs)
    requires forall i :: 0 <= i < |times| ==> windowEnd - windowMs <= times[i] < windowEnd
    ensures Allowed(e, maxRequests, windowMs, times) <= Budget(e, maxRequests, windowMs, windowEnd)
    decreases |times|
  {
    if |times| > 0 {
      var t := times[0];
      var (ok, e') := Check(e, maxRequests, windowMs, t);
      if e.Some? {
        GridStep(e.value.resetTime, windowEnd, windowMs);
      }
      assert ResetTime(t, windowMs) == windowEnd by {
        GridFloor(t, windowEnd, windowMs);
      }
      assert OnGrid(Some(e'), windowMs);
      AllowedWithinBudget(Some(e'), maxRequests, windowMs, windowEnd, times[1..]);
    }
  }

  /** A grid point is either at most the window's start or at least its end. */
  lemma GridStep(x: int, windowEnd: int, windowMs: int)
    requires windowMs > 0 && x % windowMs == 0 && windowEnd % windowMs == 0
    ensures x <= windowEnd - windowMs || x >= windowEnd
  {
    var q, p := x / windowMs, windowEnd / windowMs;
    assert x == q * windowMs && windowEnd == p * windowMs;
    if q < p {
      assert q <= p - 1;
      assert q * windowMs <= (p - 1) * windowMs;
    } else {
      assert q * windowMs >= p * windowMs;
    }
  }

  /** Every moment of a window gets that window's end as its reset time. */
  lemma GridFloor(t: int, windowEnd: int, windowMs: int)
    requires windowMs > 0 && windowEnd % windowMs == 0
    requires windowEnd - windowMs <= t < windowEnd
    ensures ResetTime(t, windowMs) == windowEnd
  {
    var p := windowEnd / windowMs;
    assert windowEnd == p * windowMs;
    assert (p - 1) * windowMs == p * windowMs - windowMs;
    FloorOf(t, windowMs, p - 1, t - (p - 1) * windowMs);
  }

  /** Within one window, at most `maxRequests` calls for a key are allowed. */
  lemma AtMostMaxPerWindow(e: Option<RateEntry>, maxRequests: int, windowMs: int, windowEnd: int, times: seq<int>)
    requires windowMs > 0 && windowEnd % windowMs == 0 && maxRequests >= 1
    requires OnGrid(e, windowMs)
    requires forall i :: 0 <= i < |times| ==> windowEnd - windowMs <= times[i] < windowEnd
    ensures Allowed(e, maxRequests, windowMs, times) <= maxRequests
  {
    AllowedWithinBudget(e, maxRequests, windowMs, windowEnd, times);
  }

  /**
   * While the log is below capacity, logging an event raises any filtered count by one exactly
   * when the event passes the filter.
   */
  lemma LoggedEventCounted(logs: seq<SecurityEvent>, e: SecurityEvent, f: SecurityEvent -> bool)
    requires |logs| < MaxLogSize
    ensures |Filter(Appended(logs, e), f)| == |Filter(logs, f)| + (if f(e) then 1 else 0)
  {
    FilterSnoc(logs, e, f);
  }

  /** A failed login just logged counts among the user's failed attempts in any positive window. */
  lemma FailureJustLoggedCounts(logs: seq<SecurityEvent>, userId: string, ip: Option<string>, userAgent: Option<string>,
                                nowMs: int, windowMinutes: int)
    requires |logs| < MaxLogSize && windowMinutes > 0
    ensures var f := e => IsFailedLoginOf(e, userId, nowMs - windowMinutes * 60 * 1000);
      |Filter(Appended(logs, SecurityEvent(LoginFailure, Some(userId), ip, userAgent, nowMs)), f)| ==
      |Filter(logs, f)| + 1
  {
    var f := e => IsFailedLoginOf(e, userId, nowMs - windowMinutes * 60 * 1000);
    LoggedEventCounted(logs, SecurityEvent(LoginFailure, Some(userId), ip, userAgent, nowMs), f);
  }

  class SecurityService {
    var securityLogs: seq<SecurityEvent>
    var rateLimitStore: map<string, RateEntry>

    /** The log holds at most 1000 events and every bucket has counted at least one request. */
    ghost predicate Valid()
      reads this
    {
      |securityLogs| <= MaxLogSize && forall k :: k in rateLimitStore ==> rateLimitStore[k].count >= 1
    }

    constructor ()
      ensures Valid() && securityLogs == [] && rateLimitStore == map[]
    {
      securityLogs := [];
      rateLimitStore := map[];
    }

    /** `logSecurityEvent`: stamp the event with `nowMs` and keep the newest 1000. */
    method LogSecurityEvent(eventType: EventType, userId: Option<string>, ip: Option<string>, userAgent: Option<string>, nowMs: int)
      requires Valid()
      modifies this
      ensures Valid()
      ensures securityLogs == Appended(old(securityLogs), SecurityEvent(eventType, userId, ip, userAgent, nowMs))
      ensures rateLimitStore == old(rateLimitStore)
    {
      securityLogs := securityLogs + [SecurityEvent(eventType, userId, ip, userAgent, nowMs)];
      if |securityLogs| > MaxLogSize {
        securityLogs := SliceFrom(securityLogs, -MaxLogSize);
      }
    }

    /** `getSecurityLogs(limit)`: `slice(-limit)`; for `limit >= 1` the newest `limit` events. */
    function GetSecurityLogs(limit: int): (r: seq<SecurityEvent>)
      reads this
      ensures limit >= 1 ==> |r| == (if limit < |securityLogs| then limit else |securityLogs|)
      ensures limit >= 1 ==> r == securityLogs[|securityLogs| - |r|..]
      ensures limit == 0 ==> r == securityLogs
    {
      SliceLast(securityLogs, if limit >= 1 then limit else 1);
      SliceFrom(securityLogs, -limit)
    }

    /** `getFailedLoginAttempts(userId, minutes)`: login failures of that user after `now - window`. */
    function GetFailedLoginAttempts(userId: string, windowMinutes: int, nowMs: int): (r: nat)
      reads this
      ensures r <= |securityLogs|
      ensures r == |Filter(securityLogs, e => IsFailedLoginOf(e, userId, nowMs - windowMinutes * 60 * 1000))|
    {
      |Filter(securityLogs, e => IsFailedLoginOf(e, userId, nowMs - windowMinutes * 60 * 1000))|
    }

    /** `getSuspiciousActivities(limit)`: the newest `limit` suspicious-activity events. */
    function GetSuspiciousActivities(limit: int): (r: seq<SecurityEvent>)
      reads this
      ensures forall i :: 0 <= i < |r| ==> IsSuspicious(r[i]) && r[i] in securityLogs
      ensures limit >= 1 ==> var all := Filter(securityLogs, IsSuspicious);
        |r| == (if limit < |all| then limit else |all|) && r == all[|all| - |r|..]
    {
      var all := Filter(securityLogs, IsSuspicious);
      SliceLast(all, if limit >= 1 then limit else 1);
      SliceFrom(all, -limit)
    }

    /** `checkRateLimit(key, maxRequests, windowSeconds)`. */
    method CheckRateLimit(key: string, maxRequests: int, windowSeconds: int, nowMs: int) returns (allowed: bool)
      requires Valid() && windowSeconds > 0
      modifies this
      ensures Valid()
      ensures key in rateLimitStore
      ensures var current := if key in old(rateLimitStore) then Some(old(rateLimitStore)[key]) else None;
        (allowed, rateLimitStore[key]) == Check(current, maxRequests, windowSeconds * 1000, nowMs)
      ensures rateLimitStore.Keys == old(rateLimitStore).Keys + {key}
      ensures forall k :: k in old(rateLimitStore) && k != key ==> rateLimitStore[k] == old(rateLimitStore)[k]
      ensures securityLogs == old(securityLogs)
    {
      var windowMs := windowSeconds * 1000;
      var resetTime := (nowMs / windowMs) * windowMs + windowMs;
      if key !in rateLimitStore || rateLimitStore[key].resetTime <= nowMs {
        rateLimitStore := rateLimitStore[key := RateEntry(1, resetTime)];
        return true;
      }
      var current := rateLimitStore[key];
      if current.count >= maxRequests {
        return false;
      }
      rateLimitStore := rateLimitStore[key := current.(count := current.count + 1)];
      return true;
    }

    /** `getRateLimitInfo(key)`: a lapsed bucket is deleted and reported as absent. */
    method GetRateLimitInfo(key: string, nowMs: int) returns (r: Option<RateLimitInfo>)
      requires Valid()
      modifies this
      ensures Valid()
      ensures key !in old(rateLimitStore) ==> r.None? && rateLimitStore == old(rateLimitStore)
      ensures key in old(rateLimitStore) && old(rateLimitStore)[key].resetTime <= nowMs ==>
        r.None? && rateLimitStore == old(rateLimitStore) - {key}
      ensures key in old(rateLimitStore) && old(rateLimitStore)[key].resetTime > nowMs ==>
        rateLimitStore == old(rateLimitStore) &&
        var c := old(rateLimitStore)[key].count;
        r == Some(RateLimitInfo(Remaining(old(rateLimitStore)[key]), old(rateLimitStore)[key].resetTime))
      ensures r.Some? ==> 0 <= r.value.remaining < AssumedMaxRequests && r.value.resetTime > nowMs
      ensures securityLogs == old(securityLogs)
    {
      if key !in rateLimitStore {
        return None;
      }
      var current := rateLimitStore[key];
      if current.resetTime <= nowMs {
        rateLimitStore := rateLimitStore - {key};
        return None;
      }
      var remaining := Remaining(current);
      return Some(RateLimitInfo(remaining, current.resetTime));
    }
  }
}
