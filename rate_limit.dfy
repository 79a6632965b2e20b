/**
 * The fixed-window request counter of api/_rateLimit.js. Each key
 * (`action:userId`) has a count and the time its window ends; the clock is
 * the parameter `now`, in milliseconds.
 */
module RateLimit {
  import opened Basics
  import opened Strings
  import opened Json
  import opened Http

  datatype Entry = Entry(count: int, resetTime: int)

  /** The result of `isRateLimited`; `retryAfter` is present only when limited. */
  datatype Check = Check(limited: bool, remaining: int, resetTime: int, retryAfter: Option<int>)

  /** `Math.ceil(d / 1000)` on whole milliseconds. */
  function CeilSeconds(d: int): (s: int)
    ensures 1000 * (s - 1) < d <= 1000 * s
  {
    -((-d) / 1000)
  }

  /** The largest count an entry can reach: `maxRequests`, or 1 when that is below 1. */
  function Cap(max: int): int
  {
    if max < 1 then 1 else max
  }

  /** `isRateLimited` on the entry of one key: the answer and the entry left behind. */
  function Step(e: Option<Entry>, max: int, window: int, now: int): (r: (Check, Entry))
    ensures r.0.limited <==> e.Some? && now < e.value.resetTime && e.value.count >= max
    ensures r.0.limited ==>
      (r.1 == e.value && r.0.remaining == 0 && r.0.resetTime == e.value.resetTime
       && r.0.retryAfter.Some? && r.0.retryAfter.value >= 1
       && 1000 * r.0.retryAfter.value >= e.value.resetTime - now)
    ensures !r.0.limited ==>
      (r.0.remaining == max - r.1.count && r.0.resetTime == r.1.resetTime && r.0.retryAfter.None?)
    ensures (e.None? || now >= e.value.resetTime) ==> r.1 == Entry(1, now + window)
    ensures e.Some? && now < e.value.resetTime && !r.0.limited ==>
      r.1 == Entry(e.value.count + 1, e.value.resetTime)
  {
    if e.None? || now >= e.value.resetTime then
      (Check(false, max - 1, now + window, None), Entry(1, now + window))
    else if e.value.count >= max then
      (Check(true, 0, e.value.resetTime, Some(CeilSeconds(e.value.resetTime - now))), e.value)
    else
      var e1 := Entry(e.value.count + 1, e.value.resetTime);
      (Check(false, max - e1.count, e1.resetTime, None), e1)
  }

  /** The counter invariant: every stored count lies between 1 and `Cap(max)`. */
  ghost predicate Bounded(m: map<string, Entry>, max: int)
  {
    forall k :: k in m ==> 1 <= m[k].count <= Cap(max)
  }

  /** One step keeps the invariant. */
  lemma StepBounded(e: Option<Entry>, max: int, window: int, now: int)
    requires e.Some? ==> 1 <= e.value.count <= Cap(max)
    ensures 1 <= Step(e, max, window, now).1.count <= Cap(max)
  {
  }

  /** Requests at times `ts` against one key: how many pass, and the entry afterwards. */
  function Run(e: Option<Entry>, max: int, window: int, ts: seq<int>): (Option<Entry>, nat)
    decreases |ts|
  {
    if ts == [] then (e, 0)
    else
      var (c, e1) := Step(e, max, window, ts[0]);
      var (e2, n) := Run(Some(e1), max, window, ts[1..]);
      (e2, if c.limited then n else n + 1)
  }

  /** Inside the window of `e`, at most `max - count` further requests pass. */
  lemma {:induction false} RunInsideWindow(e: Entry, max: int, window: int, ts: seq<int>)
    requires 1 <= e.count
    requires forall i :: 0 <= i < |ts| ==> ts[i] < e.resetTime
    ensures Run(Some(e), max, window, ts).1 <= if max - e.count > 0 then max - e.count else 0
    decreases |ts|
  {
    if ts != [] {
      var (c, e1) := Step(Some(e), max, window, ts[0]);
      assert forall i :: 0 <= i < |ts[1..]| ==> ts[1..][i] < e1.resetTime by {
        forall i | 0 <= i < |ts[1..]| ensures ts[1..][i] < e1.resetTime {
          assert ts[1..][i] == ts[i + 1];
        }
      }
      RunInsideWindow(e1, max, window, ts[1..]);
    }
  }

  /**
   * A key seen for the first time at `ts[0]`: of all requests made before
   * that window ends, at most `Cap(max)` pass (`max` when `max >= 1`).
   */
  lemma AtMostMaxPerWindow(max: int, window: int, ts: seq<int>)
    requires |ts| > 0
    requires forall i :: 0 <= i < |ts| ==> ts[i] < ts[0] + window
    ensures Run(None, max, window, ts).1 <= Cap(max)
  {
    var (c, e1) := Step(None, max, window, ts[0]);
    assert forall i :: 0 <= i < |ts[1..]| ==> ts[1..][i] < e1.resetTime by {
      forall i | 0 <= i < |ts[1..]| ensures ts[1..][i] < e1.resetTime {
        assert ts[1..][i] == ts[i + 1];
      }
    }
    RunInsideWindow(e1, max, window, ts[1..]);
  }

  /** The entries `cleanup` keeps: those whose window has not ended at `now`. */
  function Live(m: map<string, Entry>, now: int): (r: map<string, Entry>)
    ensures forall k :: k in r <==> k in m && now < m[k].resetTime
    ensures forall k :: k in r ==> r[k] == m[k]
  {
    map k | k in m && now < m[k].resetTime :: m[k]
  }

  /**
   * Removing expired entries cannot be observed: a later request for any key
   * gets the same answer and leaves the same entry as without the cleanup.
   */
  lemma CleanupUnobservable(m: map<string, Entry>, max: int, window: int, now: int, later: int, key: string)
    requires now <= later
    ensures Step(if key in Live(m, now) then Some(Live(m, now)[key]) else None, max, window, later)
         == Step(if key in m then Some(m[key]) else None, max, window, later)
  {
  }

  /**
   * `userId` in the middleware: `req.userId`, else `req.query.userId`, else
   * `'anonymous'`, as the key's template literal writes it (a repeated
   * `userId` is joined by commas).
   */
  function KeyUser(reqUserId: Option<Num>, queryUserId: Option<QueryValue>): (u: string)
    ensures reqUserId.Some? && reqUserId.value.Int? && reqUserId.value.i != 0 ==> u == IntToString(reqUserId.value.i)
    ensures !(reqUserId.Some? && reqUserId.value.Int? && reqUserId.value.i != 0) && QueryTruthy(queryUserId) ==>
      u == QueryText(queryUserId.value)
    ensures !(reqUserId.Some? && reqUserId.value.Int? && reqUserId.value.i != 0) && !QueryTruthy(queryUserId) ==>
      u == "anonymous"
  {
    if reqUserId.Some? && reqUserId.value.Int? && reqUserId.value.i != 0 then IntToString(reqUserId.value.i)
    else if QueryTruthy(queryUserId) then QueryText(queryUserId.value)
    else "anonymous"
  }

  /** The largest absolute time value `Date` accepts; `toISOString` throws beyond it. */
  const MaxTimeValue: int := 8_640_000_000_000_000

  /** The 429 body. */
  function LimitedResponse(retryAfter: int): Response
  {
    JsonResponse(429, JObject([
      ("success", JBool(false)),
      ("error", JString("rate_limit_exceeded")),
      ("message", JString("Rate limit exceeded. Try again in " + IntToString(retryAfter) + " seconds.")),
      ("retryAfter", JNumber(retryAfter))]))
  }

  /** What the middleware does: call `next`, answer 429, or throw from `toISOString`. */
  datatype Verdict = Passed | Limited(response: Response) | Threw(message: string)

  /** The verdict for a check. */
  function VerdictOf(c: Check): Verdict
  {
    if c.resetTime < -MaxTimeValue || c.resetTime > MaxTimeValue then Threw("Invalid time value")
    else if c.limited then Limited(LimitedResponse(c.retryAfter.GetOr(0)))
    else Passed
  }

  /** The headers set before the verdict; `X-RateLimit-Reset`'s date formatting is not modelled. */
  function HeadersOf(max: int, c: Check): seq<(string, string)>
  {
    [("X-RateLimit-Limit", IntToString(max)), ("X-RateLimit-Remaining", IntToString(c.remaining))]
    + (if c.limited && VerdictOf(c).Limited? then [("Retry-After", IntToString(c.retryAfter.GetOr(0)))] else [])
  }

  class RateLimiter {
    const maxRequests: int
    const windowMs: int
    var requests: map<string, Entry>

    ghost predicate Valid()
      reads this
    {
      Bounded(requests, maxRequests)
    }

    constructor (maxRequests: int, windowMs: int)
      ensures this.maxRequests == maxRequests && this.windowMs == windowMs
      ensures requests == map[] && Valid()
    {
      this.maxRequests := maxRequests;
      this.windowMs := windowMs;
      requests := map[];
    }

    function EntryFor(key: string): Option<Entry>
      reads this
    {
      if key in requests then Some(requests[key]) else None
    }

    /** `isRateLimited(key)` at time `now`; only the entry of `key` changes, and the invariant is kept. */
    method IsRateLimited(key: string, now: int) returns (c: Check)
      modifies this
      ensures key in requests && (c, requests[key]) == Step(old(EntryFor(key)), maxRequests, windowMs, now)
      ensures requests == old(requests)[key := Step(old(EntryFor(key)), maxRequests, windowMs, now).1]
      ensures old(Valid()) ==> Valid()
    {
      var e := EntryFor(key);
      if e.None? || now >= e.value.resetTime {
        requests := requests[key := Entry(1, now + windowMs)];
        return Check(false, maxRequests - 1, now + windowMs, None);
      }
      if e.value.count >= maxRequests {
        return Check(true, 0, e.value.resetTime, Some(CeilSeconds(e.value.resetTime - now)));
      }
      requests := requests[key := Entry(e.value.count + 1, e.value.resetTime)];
      c := Check(false, maxRequests - (e.value.count + 1), e.value.resetTime, None);
    }

    /** `cleanup()`: deletes exactly the entries whose window has ended; the rest are untouched. */
    method Cleanup(now: int)
      modifies this
      ensures requests == Live(old(requests), now)
      ensures old(Valid()) ==> Valid()
    {
      var pending := requests.Keys;
      while pending != {}
        invariant pending <= old(requests).Keys
        invariant forall k :: k in requests <==> k in old(requests) && (k in pending || now < old(requests)[k].resetTime)
        invariant forall k :: k in requests ==> requests[k] == old(requests)[k]
        decreases pending
      {
        var k :| k in pending;
        if now >= requests[k].resetTime {
          requests := requests - {k};
        }
        pending := pending - {k};
      }
      assert requests.Keys == Live(old(requests), now).Keys;
    }

    /**
     * `middleware(action)` for one request: counts it under
     * `action:userId`, sets the limit headers, and answers 429 when limited
     * (without calling `next`).
     */
    method Middleware(action: string, reqUserId: Option<Num>, queryUserId: Option<QueryValue>, now: int)
      returns (v: Verdict, headers: seq<(string, string)>)
      modifies this
      ensures var key := action + ":" + KeyUser(reqUserId, queryUserId);
        var (c, e) := Step(old(EntryFor(key)), maxRequests, windowMs, now);
        requests == old(requests)[key := e] && v == VerdictOf(c) && headers == HeadersOf(maxRequests, c)
      ensures old(Valid()) ==> Valid()
    {
      var key := action + ":" + KeyUser(reqUserId, queryUserId);
      var c := IsRateLimited(key, now);
      v := VerdictOf(c);
      headers := HeadersOf(maxRequests, c);
    }
  }

  /** The three instances: (requests allowed, window in ms). */
  const ConsumeLimit: (int, int) := (5, 60000)
  const BalanceLimit: (int, int) := (20, 60000)
  const InvoiceLimit: (int, int) := (10, 60000)

  /**
   * Within the minute after a key is first seen, the consume limiter lets
   * at most 5 requests through, the balance limiter 20 and the invoice
   * limiter 10.
   */
  lemma InstanceBudgets(ts: seq<int>)
    requires |ts| > 0
    requires forall i :: 0 <= i < |ts| ==> ts[i] < ts[0] + 60000
    ensures Run(None, ConsumeLimit.0, ConsumeLimit.1, ts).1 <= 5
    ensures Run(None, BalanceLimit.0, BalanceLimit.1, ts).1 <= 20
    ensures Run(None, InvoiceLimit.0, InvoiceLimit.1, ts).1 <= 10
  {
    AtMostMaxPerWindow(ConsumeLimit.0, ConsumeLimit.1, ts);
    AtMostMaxPerWindow(BalanceLimit.0, BalanceLimit.1, ts);
    AtMostMaxPerWindow(InvoiceLimit.0, InvoiceLimit.1, ts);
  }
}
