/**
 * The balance query of api/balance.js: a GET with the signed initData in the
 * query. After validation and authentication the balance limiter counts the
 * request, the user gets the welcome credit if new, and the answer carries
 * the balance.
 */
module Balance {
  import opened Basics
  import opened Strings
  import opened Json
  import opened Http
  import opened InitData
  import opened Validation
  import opened Ledger
  import Store
  import RateLimit

  /** A 500 from the catch block. */
  function InternalError(message: string): Response
  {
    JsonResponse(500, ErrorWith("Internal server error", message))
  }

  /**
   * Lines 21-49: the user id, or the response that ends the request. A
   * repeated `initData` arrives as an array, which `validateInitData`
   * turns away with 400 before anything reads it as text.
   */
  function Gate(initData: Option<QueryValue>, token: Option<string>, mac: Mac, parse: JsonParser): (r: Result<int, Response>)
    ensures r.Ok? <==> QueryTruthy(initData) && ValidateInitData(Some(QueryJson(initData.value)), parse).Valid?
                       && Authenticate(QueryJson(initData.value), token, mac, parse).User?
    ensures r.Ok? ==> initData.value.One? && Authenticate(JString(initData.value.s), token, mac, parse) == User(r.value)
                      && r.value != 0
    ensures !QueryTruthy(initData) ==> r == Err(JsonResponse(400, ErrorResponse("Missing initData", None)))
    ensures initData.Some? && initData.value.Many? ==>
      r == Err(JsonResponse(400, ErrorWith("Validation failed", "Missing or invalid initData")))
  {
    if !QueryTruthy(initData) then Err(JsonResponse(400, ErrorResponse("Missing initData", None)))
    else
      var v := ValidateInitData(Some(QueryJson(initData.value)), parse);
      if v.Invalid? then Err(JsonResponse(400, ErrorWith("Validation failed", v.error)))
      else AuthResponse(Authenticate(QueryJson(initData.value), token, mac, parse))
  }

  /** The user a request is admitted for: a GET that passes the gate. */
  function Admitted(req: Request, env: Env, mac: Mac, parse: JsonParser): (u: Option<int>)
    ensures u.Some? ==> req.verb == "GET"
                        && Gate(QueryParam(req, "initData"), EnvVar(env, "TELEGRAM_BOT_TOKEN"), mac, parse) == Ok(u.value)
  {
    if req.verb != "GET" then None
    else
      var g := Gate(QueryParam(req, "initData"), EnvVar(env, "TELEGRAM_BOT_TOKEN"), mac, parse);
      if g.Ok? then Some(g.value) else None
  }

  /** Lines 12-49: the answer to a request that is not admitted. */
  function EarlyReply(req: Request, env: Env, mac: Mac, parse: JsonParser): (r: Response)
    requires Admitted(req, env, mac, parse).None?
    ensures req.verb == "OPTIONS" ==> r == Response(200, None)
    ensures req.verb != "OPTIONS" && req.verb != "GET" ==> r == JsonResponse(405, ErrorResponse("Method not allowed", None))
    ensures req.verb == "GET" ==> Gate(QueryParam(req, "initData"), EnvVar(env, "TELEGRAM_BOT_TOKEN"), mac, parse) == Err(r)
  {
    if req.verb == "OPTIONS" then Response(200, None)
    else if req.verb != "GET" then JsonResponse(405, ErrorResponse("Method not allowed", None))
    else Gate(QueryParam(req, "initData"), EnvVar(env, "TELEGRAM_BOT_TOKEN"), mac, parse).error
  }

  /** The answer carrying the balance. */
  function BalanceResponse(credits: nat, u: int): (r: Response)
    ensures r.status == 200 && r.body.Some? && r.body.value.JObject?
    ensures Lookup(r.body.value.members, "credits") == Some(JNumber(credits))
    ensures Lookup(r.body.value.members, "userId") == Some(JNumber(u))
  {
    var data := [("credits", JNumber(credits)), ("userId", JNumber(u))];
    assert LastLookup(data, "userId") == Some(JNumber(u));
    LookupAt(data, "userId", 1);
    JsonResponse(200, SuccessResponse(data))
  }

  /**
   * Lines 69-80 on the ledger `t`: the welcome credit and the balance, or the
   * 500 of a failed welcome insert (`welcomeFault`), which changes nothing.
   */
  function Query(t: Table, u: int, welcomeFault: Option<string>): (r: (Table, Response))
    ensures u in t ==> r == (t, BalanceResponse(t[u], u))
    ensures u !in t && welcomeFault.None? ==> r == (t[u := WelcomeCredits], BalanceResponse(WelcomeCredits, u))
    ensures u !in t && welcomeFault.Some? ==> r == (t, InternalError("Failed to create user: " + welcomeFault.value))
  {
    if u !in t && welcomeFault.Some? then (t, InternalError("Failed to create user: " + welcomeFault.value))
    else (WithWelcome(t, u), BalanceResponse(WithWelcome(t, u)[u], u))
  }

  /** Asking twice gives the same balance, and the second request changes nothing. */
  lemma QueryIdempotent(t: Table, u: int)
    ensures var (t1, r1) := Query(t, u, None);
      Query(t1, u, None) == (t1, r1)
  {
    WelcomeIdempotent(t, u);
  }

  /** The limiter's check of user `u` against its state before the request. */
  function LimiterStep(limiter: RateLimit.RateLimiter, u: int, now: int): (RateLimit.Check, RateLimit.Entry)
    reads limiter
  {
    RateLimit.Step(limiter.EntryFor("balance:" + IntToString(u)), limiter.maxRequests, limiter.windowMs, now)
  }

  /** The 429 a limited request is answered with, if its check limits it. */
  function FirstOf(c: RateLimit.Check): Option<Response>
  {
    if RateLimit.VerdictOf(c).Limited? then Some(RateLimit.VerdictOf(c).response) else None
  }

  /**
   * Lines 51-80 for the admitted user `u`: the limiter counts the request
   * under `balance:<u>`. A limited request is answered 429, but the handler
   * goes on and still adds the welcome credit. A reset time the date
   * formatting rejects throws into the catch block (500).
   */
  method Serve(store: Store.Store, limiter: RateLimit.RateLimiter, u: int, queryUserId: Option<QueryValue>, now: int,
               welcomeFault: Option<string>)
    returns (reply: Reply)
    requires u != 0
    modifies store`credits, limiter
    ensures limiter.requests == old(limiter.requests)["balance:" + IntToString(u) := old(LimiterStep(limiter, u, now)).1]
    ensures RateLimit.VerdictOf(old(LimiterStep(limiter, u, now)).0).Threw? ==>
      reply == Sent(InternalError("Invalid time value")) && store.credits == old(store.credits)
    ensures !RateLimit.VerdictOf(old(LimiterStep(limiter, u, now)).0).Threw? ==>
      var (t, r) := Query(old(store.credits), u, welcomeFault);
      store.credits == t && reply == FirstSent(FirstOf(old(LimiterStep(limiter, u, now)).0), Sent(r))
    ensures old(limiter.Valid()) ==> limiter.Valid()
  {
    ghost var step := LimiterStep(limiter, u, now);
    assert RateLimit.KeyUser(Some(Int(u)), queryUserId) == IntToString(u);
    assert "balance" + ":" + IntToString(u) == "balance:" + IntToString(u);
    ghost var t0 := store.credits;
    var verdict, _ := limiter.Middleware("balance", Some(Int(u)), queryUserId, now);
    assert verdict == RateLimit.VerdictOf(step.0);
    assert store.credits == t0;
    if verdict.Threw? {
      return Sent(InternalError(verdict.message));
    }
    var first := if verdict.Limited? then Some(verdict.response) else None;
    var credits := store.EnsureUserWithWelcomeCredit(u, welcomeFault);
    var later := if credits.Err? then InternalError(credits.error) else BalanceResponse(credits.value, u);
    reply := FirstSent(first, Sent(later));
  }

  /** The handler: a request that is not admitted is answered by `EarlyReply` and changes nothing. */
  method Handle(store: Store.Store, limiter: RateLimit.RateLimiter, req: Request, env: Env, mac: Mac, parse: JsonParser,
                now: int, welcomeFault: Option<string>)
    returns (reply: Reply)
    modifies store`credits, limiter
    ensures Admitted(req, env, mac, parse).None? ==>
      reply == Sent(EarlyReply(req, env, mac, parse))
      && store.credits == old(store.credits) && limiter.requests == old(limiter.requests)
    ensures Admitted(req, env, mac, parse).Some? ==>
      var u := Admitted(req, env, mac, parse).value;
      var step := old(LimiterStep(limiter, u, now));
      limiter.requests == old(limiter.requests)["balance:" + IntToString(u) := step.1]
      && (RateLimit.VerdictOf(step.0).Threw? ==>
            reply == Sent(InternalError("Invalid time value")) && store.credits == old(store.credits))
      && (!RateLimit.VerdictOf(step.0).Threw? ==>
            store.credits == Query(old(store.credits), u, welcomeFault).0
            && reply == FirstSent(FirstOf(step.0), Sent(Query(old(store.credits), u, welcomeFault).1)))
    ensures old(limiter.Valid()) ==> limiter.Valid()
  {
    var admitted := Admitted(req, env, mac, parse);
    if admitted.None? {
      return Sent(EarlyReply(req, env, mac, parse));
    }
    reply := Serve(store, limiter, admitted.value, QueryParam(req, "userId"), now, welcomeFault);
  }
}
