/** The request middlewares of app/middleware.py that decide something: the
    client key, the API-key check and the fixed-window rate limiter, whose
    per-key store is updated in place. Timestamps are whole seconds. */
module Middleware {
  import opened Wrappers
  import opened Text

  /** `_client_key`: the first comma-separated field of a non-empty
      `X-Forwarded-For` header, stripped; otherwise the peer's host, or
      `"anon"` when the peer is unknown. */
  function ClientKey(forwardedFor: Option<string>, clientHost: Option<string>): (key: string)
    ensures forwardedFor.Some? && forwardedFor.value != "" ==>
      && ',' !in key
      && (key == [] || (!IsSpace(key[0]) && !IsSpace(key[|key| - 1])))
    ensures forwardedFor.None? || forwardedFor.value == "" ==> key == clientHost.GetOr("anon")
  {
    if forwardedFor.Some? && forwardedFor.value != "" then Strip(FirstField(forwardedFor.value))
    else clientHost.GetOr("anon")
  }

  /** With a proxy chain `a, b, ...` in the header, the key is the first hop. */
  lemma ClientKeyFirstHop(first: string, others: string, clientHost: Option<string>)
    requires ',' !in first
    ensures ClientKey(Some(first + "," + others), clientHost) == Strip(first)
  {
    FirstFieldOf(first, others);
  }

  /** A header without a comma gives the whole header, stripped. */
  lemma ClientKeySingleHop(fwd: string, clientHost: Option<string>)
    requires fwd != "" && ',' !in fwd
    ensures ClientKey(Some(fwd), clientHost) == Strip(fwd)
  {
    assert FirstField(fwd) == fwd;
  }

  // ---------------------------------------------------------------- auth

  datatype AuthResult = Authorized | Unauthorized

  /** `auth_middleware`: with an API key configured, a request passes iff its
      `X-API-Key` header (read as `""` when absent) equals the key; with none
      configured, every request passes. */
  function Authenticate(apiKey: string, providedKey: Option<string>): (r: AuthResult)
    ensures r == Authorized <==> apiKey == "" || providedKey == Some(apiKey)
  {
    if apiKey != "" && providedKey.GetOr("") != apiKey then Unauthorized else Authorized
  }

  // --------------------------------------------------------- rate limiting

  /** A key's fixed window: when it ends, and how many requests it has seen. */
  datatype Window = Window(reset: int, count: int)

  /** What the rate limiter does with a request: lets it through untouched
      (limiting disabled), admits it with its `X-RateLimit-*` values, or
      answers 429 with them. */
  datatype RateDecision =
    | Bypassed
    | Admitted(limit: int, remaining: int, reset: int)
    | Rejected(limit: int, remaining: int, reset: int)

  /** The configured default window: 60 seconds. */
  const DefaultWindowSeconds := 60

  function Max(a: int, b: int): int {
    if a >= b then a else b
  }

  /** The key's window after one more request at `now`: an unseen key, or one
      whose window ended strictly before `now`, starts a new window ending at
      `now + windowLen`; the request is then counted. */
  function Advance(entry: Option<Window>, now: int, windowLen: int): (w: Window)
    ensures entry.None? ==> w == Window(now + windowLen, 1)
    ensures entry.Some? && now > entry.value.reset ==> w == Window(now + windowLen, 1)
    ensures entry.Some? && now <= entry.value.reset ==>
      w == Window(entry.value.reset, entry.value.count + 1)
  {
    var current := entry.GetOr(Window(now + windowLen, 0));
    var started := if now > current.reset then Window(now + windowLen, 0) else current;
    Window(started.reset, started.count + 1)
  }

  /** A request is rejected iff its window's count exceeds the limit; a
      rejection reports nothing remaining, an admission what is left of the
      limit. */
  function Decide(w: Window, limit: int): (d: RateDecision)
    ensures d.Rejected? <==> w.count > limit
    ensures d.Admitted? <==> w.count <= limit
    ensures d.Rejected? ==> d == Rejected(limit, 0, w.reset)
    ensures d.Admitted? ==> d.limit == limit && d.reset == w.reset && d.remaining == limit - w.count
  {
    if w.count > limit then Rejected(limit, 0, w.reset)
    else Admitted(limit, Max(0, limit - w.count), w.reset)
  }

  /** The key's stored window, if it has one. */
  function Lookup(store: map<string, Window>, key: string): (o: Option<Window>)
    ensures o.Some? <==> key in store
    ensures o.Some? ==> o.value == store[key]
  {
    if key in store then Some(store[key]) else None
  }

  /** The module-level store `_rate_store` and the middleware that updates it. */
  class RateLimiter {
    var store: map<string, Window>

    constructor ()
      ensures store == map[]
    {
      store := map[];
    }

    /** `rate_limit_middleware`: every limited request, rejected ones
        included, writes its own key's window; no other key changes. */
    method Handle(enabled: bool, key: string, now: int, windowLen: int, limit: int) returns (d: RateDecision)
      modifies this
      ensures !enabled ==> d == Bypassed && store == old(store)
      ensures enabled ==> store == old(store)[key := Advance(Lookup(old(store), key), now, windowLen)]
      ensures enabled ==> d == Decide(store[key], limit)
    {
      if !enabled {
        return Bypassed;
      }
      var reset, count;
      if key in store {
        reset, count := store[key].reset, store[key].count;
      } else {
        reset, count := now + windowLen, 0;
      }
      if now > reset {
        reset := now + windowLen;
        count := 0;
      }
      count := count + 1;
      var remaining := Max(0, limit - count);
      store := store[key := Window(reset, count)];
      if count > limit {
        return Rejected(limit, 0, reset);
      }
      return Admitted(limit, remaining, reset);
    }
  }

  /** How many of the requests at `times` from one key are admitted, starting
      from the key's window `entry`. */
  function AdmittedCount(entry: Option<Window>, times: seq<int>, windowLen: int, limit: int): nat
    decreases |times|
  {
    if times == [] then 0
    else
      var w := Advance(entry, times[0], windowLen);
      (if Decide(w, limit).Admitted? then 1 else 0) + AdmittedCount(Some(w), times[1..], windowLen, limit)
  }

  function Clamp(x: int, n: nat): nat {
    if x < 0 then 0 else if x > n then n else x
  }

  lemma {:induction false} AdmittedWithinWindow(reset: int, count: int, times: seq<int>, windowLen: int, limit: int)
    requires forall k :: 0 <= k < |times| ==> times[k] <= reset
    ensures AdmittedCount(Some(Window(reset, count)), times, windowLen, limit) == Clamp(limit - count, |times|)
    decreases |times|
  {
    if times != [] {
      AdmittedWithinWindow(reset, count + 1, times[1..], windowLen, limit);
    }
  }

  /** The fixed-window budget: of the requests a new key makes before its
      first window ends, exactly the first `limit` are admitted. */
  lemma FixedWindowBudget(times: seq<int>, windowLen: int, limit: int)
    requires times != []
    requires forall k :: 0 <= k < |times| ==> times[k] <= times[0] + windowLen
    ensures AdmittedCount(None, times, windowLen, limit) == Clamp(limit, |times|)
  {
    AdmittedWithinWindow(times[0] + windowLen, 1, times[1..], windowLen, limit);
  }

  /** With a limit of 1, a client's second request inside the window is
      rejected with `X-RateLimit-Limit: 1` and `X-RateLimit-Remaining: 0`. */
  method LimitOneScenario(now: int, later: int) returns (first: RateDecision, second: RateDecision)
    requires now <= later <= now + DefaultWindowSeconds
    ensures first == Admitted(1, 0, now + DefaultWindowSeconds)
    ensures second == Rejected(1, 0, now + DefaultWindowSeconds)
  {
    var limiter := new RateLimiter();
    first := limiter.Handle(true, "client", now, DefaultWindowSeconds, 1);
    second := limiter.Handle(true, "client", later, DefaultWindowSeconds, 1);
  }
}
