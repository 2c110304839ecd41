/** The fixed-window request limiter of the API routes: a client is known
    by the address its request headers report, each route and address pair
    has a counter that opens a window on its first request, and requests
    beyond the limit inside a live window are refused with a retry delay. */
module RateLimit {
  import opened Types

  // ---------------------------------------------------------------------------
  // Client address
  // ---------------------------------------------------------------------------

  /** The characters JavaScript's `trim` removes: white space and line
      terminators (tab, vertical tab, form feed, space, no-break space,
      byte order mark, the space separators, line feed, carriage return,
      line and paragraph separators). */
  predicate IsWhitespace(c: char) {
    c == '\t' || c == '\n' || c == '\U{B}' || c == '\U{C}' || c == '\r' || c == ' ' ||
    c == '\U{A0}' || c == '\U{1680}' || ('\U{2000}' <= c <= '\U{200A}') ||
    c == '\U{2028}' || c == '\U{2029}' || c == '\U{202F}' || c == '\U{205F}' ||
    c == '\U{3000}' || c == '\U{FEFF}'
  }

  /** `s` without its longest all-whitespace prefix. */
  function TrimStart(s: string): (r: string)
    ensures |r| <= |s| && r == s[|s| - |r|..]
    ensures forall k :: 0 <= k < |s| - |r| ==> IsWhitespace(s[k])
    ensures r == [] || !IsWhitespace(r[0])
  {
    if s != [] && IsWhitespace(s[0]) then TrimStart(s[1..]) else s
  }

  /** `s` without its longest all-whitespace suffix. */
  function TrimEnd(s: string): (r: string)
    ensures |r| <= |s| && r == s[..|r|]
    ensures forall k :: |r| <= k < |s| ==> IsWhitespace(s[k])
    ensures r == [] || !IsWhitespace(r[|r| - 1])
  {
    if s != [] && IsWhitespace(s[|s| - 1]) then TrimEnd(s[..|s| - 1]) else s
  }

  /** `r` is the piece of `s` starting at `lo`, and `s` holds only
      whitespace before and after it. */
  predicate PieceAt(s: string, r: string, lo: int) {
    0 <= lo <= |s| - |r| && r == s[lo..lo + |r|] &&
    (forall k :: 0 <= k < lo ==> IsWhitespace(s[k])) &&
    (forall k :: lo + |r| <= k < |s| ==> IsWhitespace(s[k]))
  }

  /** `s` without leading and trailing whitespace: a contiguous piece of
      `s` that neither starts nor ends with whitespace and outside of
      which `s` holds only whitespace. */
  function Trim(s: string): (r: string)
    ensures r == [] || (!IsWhitespace(r[0]) && !IsWhitespace(r[|r| - 1]))
    ensures exists lo :: PieceAt(s, r, lo)
  {
    var t := TrimStart(s);
    var r := TrimEnd(t);
    var lo := |s| - |t|;
    assert PieceAt(s, r, lo);
    r
  }

  /** Trimming introduces no character that was not there. */
  lemma TrimKeepsAbsent(s: string, c: char)
    requires c !in s
    ensures c !in Trim(s)
  {
    var r := Trim(s);
    var lo :| PieceAt(s, r, lo);
    forall k | 0 <= k < |r|
      ensures r[k] != c
    {
      assert r[k] == s[lo + k];
    }
  }

  /** Trimming twice is trimming once. */
  lemma TrimIdempotent(s: string)
    ensures Trim(Trim(s)) == Trim(s)
  {
    var r := Trim(s);
    assert TrimStart(r) == r;
    assert TrimEnd(r) == r;
  }

  /** The first field of a comma-separated list: the longest prefix that
      holds no comma. */
  function FirstField(s: string): (r: string)
    ensures |r| <= |s| && r == s[..|r|]
    ensures ',' !in r
    ensures |r| < |s| ==> s[|r|] == ','
  {
    if s == [] || s[0] == ',' then [] else [s[0]] + FirstField(s[1..])
  }

  /** The header lookup; request header names are kept in lower case. */
  function Header(headers: map<string, string>, name: string): Option<string> {
    if name in headers then Some(headers[name]) else None
  }

  const ForwardedFor := "x-forwarded-for"
  const RealIp := "x-real-ip"
  const Loopback := "127.0.0.1"

  /** The client address of a request: the first hop of a non-empty
      `x-forwarded-for` header, else a non-empty `x-real-ip` header, both
      trimmed, else the loopback address. */
  function GetClientIp(headers: map<string, string>): (ip: string)
    ensures ip == [] || (!IsWhitespace(ip[0]) && !IsWhitespace(ip[|ip| - 1]))
    ensures Truthy(Header(headers, ForwardedFor)) ==> ',' !in ip
    ensures !Truthy(Header(headers, ForwardedFor)) && !Truthy(Header(headers, RealIp)) ==> ip == Loopback
  {
    var forwarded := Header(headers, ForwardedFor);
    if Truthy(forwarded) then
      TrimKeepsAbsent(FirstField(forwarded.value), ',');
      Trim(FirstField(forwarded.value))
    else
      var realIp := Header(headers, RealIp);
      if Truthy(realIp) then Trim(realIp.value) else Loopback
  }

  /** The first field of `hop , rest` is `hop` when `hop` holds no comma. */
  lemma {:induction false} FirstFieldOfList(hop: string, rest: string)
    requires ',' !in hop
    ensures FirstField(hop + "," + rest) == hop
  {
    var s := hop + "," + rest;
    if hop != [] {
      assert s[0] == hop[0] && s[1..] == hop[1..] + "," + rest;
      FirstFieldOfList(hop[1..], rest);
    }
  }

  /** A comma-free list is its own first field. */
  lemma {:induction false} FirstFieldOfSingle(s: string)
    requires ',' !in s
    ensures FirstField(s) == s
  {
    if s != [] {
      assert s[0] != ',' && ',' !in s[1..];
      FirstFieldOfSingle(s[1..]);
    }
  }

  /** A non-empty `x-forwarded-for` header decides the address: its first
      field, trimmed, whatever `x-real-ip` says. */
  lemma ForwardedDecides(headers: map<string, string>, forwarded: string)
    requires Header(headers, ForwardedFor) == Some(forwarded) && forwarded != ""
    ensures GetClientIp(headers) == Trim(FirstField(forwarded))
  {
  }

  /** A single forwarded address is used as it is, trimmed. */
  lemma ForwardedSingleAddress(headers: map<string, string>, address: string)
    requires ',' !in address && address != ""
    requires Header(headers, ForwardedFor) == Some(address)
    ensures GetClientIp(headers) == Trim(address)
  {
    FirstFieldOfSingle(address);
  }

  /** With a forwarded list `hop , rest`, the address is the trimmed first hop. */
  lemma ForwardedFirstHop(headers: map<string, string>, hop: string, rest: string)
    requires ',' !in hop
    requires Header(headers, ForwardedFor) == Some(hop + "," + rest)
    ensures GetClientIp(headers) == Trim(hop)
  {
    FirstFieldOfList(hop, rest);
  }

  /** An empty or missing forwarded list falls through to the real-ip header. */
  lemma RealIpFallback(headers: map<string, string>, realIp: string)
    requires !Truthy(Header(headers, ForwardedFor))
    requires Header(headers, RealIp) == Some(realIp) && realIp != ""
    ensures GetClientIp(headers) == Trim(realIp)
  {
  }

  // ---------------------------------------------------------------------------
  // Counters and the admission rule
  // ---------------------------------------------------------------------------

  /** The requests seen in the current window and when the window ends (ms). */
  datatype Counter = Counter(count: int, resetAt: int)

  /** The answer to one request. A refusal carries the values of the 429
      response's `Retry-After`, `X-RateLimit-Limit`, `X-RateLimit-Remaining`
      and `X-RateLimit-Reset` headers. */
  datatype Outcome =
    | Allowed
    | Denied(retryAfterSec: int, limit: int, remaining: int, resetSec: int)

  datatype Admission = Admission(outcome: Outcome, store: map<string, Counter>)

  /** JavaScript's `Math.ceil`: the least integer not below `x`. */
  function Ceil(x: real): (r: int)
    ensures r as real - 1.0 < x <= r as real
  {
    -((-x).Floor)
  }

  /** Whole seconds until `resetAt`, rounded up and never negative. */
  function RetryAfterSec(resetAt: int, now: int): (r: int)
    ensures r >= 0 && r * 1000 >= resetAt - now
    ensures resetAt > now ==> (r - 1) * 1000 < resetAt - now
    ensures resetAt <= now ==> r == 0
  {
    var c := Ceil((resetAt - now) as real / 1000.0);
    if c < 0 then 0 else c
  }

  /** The store key of a route and client address. */
  function Key(routeKey: string, ip: string): string {
    routeKey + ":" + ip
  }

  /** A window is live while its end lies in the future. */
  predicate Live(store: map<string, Counter>, key: string, now: int) {
    key in store && store[key].resetAt > now
  }

  /** The admission rule for one request at time `now`: a missing or
      expired counter opens a new window with count 1; a live window below
      the limit counts the request; a live window at the limit refuses it
      and leaves the store as it was. Only the request's own key changes. */
  function Admit(store: map<string, Counter>, key: string, limit: int, windowMs: int, now: int): (r: Admission)
    ensures r.outcome.Allowed? <==> !Live(store, key, now) || store[key].count < limit
    ensures r.outcome.Allowed? ==> key in r.store
    ensures !Live(store, key, now) ==> r.store[key] == Counter(1, now + windowMs)
    ensures Live(store, key, now) && r.outcome.Allowed? ==>
      r.store[key] == Counter(store[key].count + 1, store[key].resetAt)
    ensures r.outcome.Denied? ==>
      r.store == store && r.outcome.remaining == 0 && r.outcome.limit == limit &&
      r.outcome.retryAfterSec == RetryAfterSec(store[key].resetAt, now) &&
      r.outcome.resetSec == Ceil(store[key].resetAt as real / 1000.0) &&
      r.outcome.retryAfterSec >= 1
    ensures forall k :: k != key ==> (k in r.store <==> k in store)
    ensures forall k :: k != key && k in store ==> r.store[k] == store[k]
  {
    if key !in store || store[key].resetAt <= now then
      Admission(Allowed, store[key := Counter(1, now + windowMs)])
    else if store[key].count < limit then
      Admission(Allowed, store[key := store[key].(count := store[key].count + 1)])
    else
      var current := store[key];
      Admission(Denied(RetryAfterSec(current.resetAt, now), limit, 0, Ceil(current.resetAt as real / 1000.0)), store)
  }

  /** Every counter holds between 1 and `limit` requests. */
  predicate CountsInRange(store: map<string, Counter>, limit: int) {
    forall k :: k in store ==> 1 <= store[k].count <= limit
  }

  /** With a positive limit, the admission rule keeps every count in [1, limit]. */
  lemma AdmitKeepsCountsInRange(store: map<string, Counter>, key: string, limit: int, windowMs: int, now: int)
    requires limit >= 1 && CountsInRange(store, limit)
    ensures CountsInRange(Admit(store, key, limit, windowMs, now).store, limit)
  {
    var r := Admit(store, key, limit, windowMs, now);
    forall k | k in r.store
      ensures 1 <= r.store[k].count <= limit
    {
      if k != key {
        assert r.store[k] == store[k];
      }
    }
  }

  /** The number of requests admitted when requests for `key` arrive at
      the given times, in order. */
  function Admitted(store: map<string, Counter>, key: string, limit: int, windowMs: int, times: seq<int>): (n: nat)
    ensures n <= |times|
    decreases |times|
  {
    if times == [] then 0
    else
      var r := Admit(store, key, limit, windowMs, times[0]);
      (if r.outcome.Allowed? then 1 else 0) + Admitted(r.store, key, limit, windowMs, times[1..])
  }

  function Min(a: int, b: int): int { if a <= b then a else b }
  function Max(a: int, b: int): int { if a <= b then b else a }

  /** Inside a live window that already counted `c` requests, exactly
      `limit - c` more are admitted (as many as arrive, and never fewer
      than none); the window's end does not move. */
  lemma {:induction false} LiveWindowAdmits(store: map<string, Counter>, key: string, limit: int, windowMs: int, times: seq<int>)
    requires key in store
    requires forall j :: 0 <= j < |times| ==> times[j] < store[key].resetAt
    ensures Admitted(store, key, limit, windowMs, times) ==
            Min(|times|, Max(0, limit - store[key].count))
  {
    if times != [] {
      var r := Admit(store, key, limit, windowMs, times[0]);
      assert Live(store, key, times[0]);
      assert key in r.store && r.store[key].resetAt == store[key].resetAt;
      LiveWindowAdmits(r.store, key, limit, windowMs, times[1..]);
    }
  }

  /** A window opened by the first of a run of requests that all fall
      inside it admits `limit` of them at most; the first request of a
      window is admitted even when the limit is zero or negative. */
  lemma AtMostLimitPerWindow(store: map<string, Counter>, key: string, limit: int, windowMs: int, times: seq<int>)
    requires times != []
    requires !Live(store, key, times[0])
    requires forall j :: 0 <= j < |times| ==> times[j] < times[0] + windowMs
    ensures Admitted(store, key, limit, windowMs, times) == Min(|times|, Max(1, limit))
    ensures limit >= 1 ==> Admitted(store, key, limit, windowMs, times) <= limit
  {
    var r := Admit(store, key, limit, windowMs, times[0]);
    assert r.store[key] == Counter(1, times[0] + windowMs);
    LiveWindowAdmits(r.store, key, limit, windowMs, times[1..]);
  }

  /** Requests for other keys never change the outcome for a key: the
      counter of `key` is untouched by an admission for `other`. */
  lemma OtherKeysIndependent(store: map<string, Counter>, key: string, other: string, limit: int, windowMs: int, now: int)
    requires other != key
    ensures var s := Admit(store, other, limit, windowMs, now).store;
      (key in s <==> key in store) && (key in store ==> s[key] == store[key])
  {
  }

  // ---------------------------------------------------------------------------
  // The limiter object
  // ---------------------------------------------------------------------------

  /** The process-wide counter store and the limiter operation over it.
      The current time is a parameter. */
  class RateLimiter {
    var store: map<string, Counter>

    constructor()
      ensures store == map[]
    {
      store := map[];
    }

    /** Decides one request for `routeKey` and records it: the store and
        the outcome are those of the admission rule for the request's
        client key. */
    method RateLimit(headers: map<string, string>, routeKey: string, limit: int, windowMs: int, now: int)
      returns (outcome: Outcome)
      modifies this
      ensures Admission(outcome, store) ==
              Admit(old(store), Key(routeKey, GetClientIp(headers)), limit, windowMs, now)
    {
      var ip := GetClientIp(headers);
      var key := routeKey + ":" + ip;
      if key !in store || store[key].resetAt <= now {
        store := store[key := Counter(1, now + windowMs)];
        return Allowed;
      }
      var current := store[key];
      if current.count < limit {
        store := store[key := current.(count := current.count + 1)];
        return Allowed;
      }
      var retryAfterSec := RetryAfterSec(current.resetAt, now);
      outcome := Denied(retryAfterSec, limit, 0, Ceil(current.resetAt as real / 1000.0));
    }
  }
}
