/**
 * The credit-consuming endpoint of api/consume.js. A POST carries the signed
 * initData, a base64 image, a prompt and a chat id. After validation and
 * authentication the request is counted by the consume limiter, the user is
 * given the welcome credit if new, one credit is taken, and the Make webhook is
 * called with the image job. A failed or timed-out call returns the credit.
 */
module Consume {
  import opened Basics
  import opened Strings
  import opened Json
  import opened Http
  import opened InitData
  import opened Validation
  import opened Ledger
  import Store
  import RateLimit

  /** The fields the body must carry. */
  const Fields: seq<string> := ["initData", "composite_image_base64", "prompt", "chat_id"]

  /** A 500 from the catch block for an error that is not an abort. */
  function InternalError(message: string): Response
  {
    JsonResponse(500, ErrorWith("Internal server error", message))
  }

  /** Every body check of lines 29-56 passes. */
  predicate BodyValid(body: Json, parse: JsonParser)
  {
    RequiredFields(body, Fields) == Ok(Valid)
    && ValidateInitData(Field(Some(body), "initData"), parse).Valid?
    && ValidateBase64Image(Field(Some(body), "composite_image_base64")).Valid?
    && ValidatePrompt(Field(Some(body), "prompt")).Valid?
    && ValidateChatId(Field(Some(body), "chat_id")).Valid?
  }

  /** Lines 24-56: the first response a body check sends, if any. */
  function BodyError(body: Option<Json>, parse: JsonParser): (r: Option<Response>)
    ensures r.None? <==> body.Some? && !body.value.JNull? && BodyValid(body.value, parse)
    ensures r.Some? ==> r.value.status in {400, 500}
  {
    if body.None? || body.value.JNull? then Some(InternalError(DestructureError("initData", body)))
    else
      var required := RequiredFields(body.value, Fields);
      if required.Err? then Some(InternalError(required.error))
      else
        var checks := [required.value,
                       ValidateInitData(Field(body, "initData"), parse),
                       ValidateBase64Image(Field(body, "composite_image_base64")),
                       ValidatePrompt(Field(body, "prompt")),
                       ValidateChatId(Field(body, "chat_id"))];
        var r := FirstInvalid(checks);
        assert r.None? <==> checks[0].Valid? && checks[1].Valid? && checks[2].Valid? && checks[3].Valid? && checks[4].Valid?;
        r
  }

  /** The 400 for the first failed check of a list, in order. */
  function FirstInvalid(checks: seq<Validity>): (r: Option<Response>)
    ensures r.None? <==> forall i :: 0 <= i < |checks| ==> checks[i].Valid?
    ensures r.Some? ==> r.value.status == 400
  {
    if checks == [] then None
    else if checks[0].Invalid? then Some(JsonResponse(400, ErrorWith("Validation failed", checks[0].error)))
    else
      var r := FirstInvalid(checks[1..]);
      assert forall i :: 1 <= i < |checks| ==> checks[i] == checks[1..][i - 1];
      r
  }

  /**
   * Lines 24-74: the checks before the limiter, ending with the user id or
   * the response that ends the request. Body checks come first, so a bad
   * body is reported even when the token is missing or the signature wrong.
   */
  function Gate(body: Option<Json>, token: Option<string>, mac: Mac, parse: JsonParser): (r: Result<int, Response>)
    ensures BodyError(body, parse).Some? ==> r == Err(BodyError(body, parse).value)
    ensures BodyError(body, parse).None? ==>
      r == AuthResponse(Authenticate(Field(body, "initData").value, token, mac, parse))
    ensures r.Ok? ==> r.value != 0
  {
    var e := BodyError(body, parse);
    if e.Some? then Err(e.value)
    else AuthResponse(Authenticate(Field(body, "initData").value, token, mac, parse))
  }

  /** The job sent to the Make webhook: image, prompt and `String(chat_id)`. */
  function Job(body: Json, u: int): (j: Json)
    ensures j.JObject? && |j.members| == 3
  {
    var chat := Field(Some(body), "chat_id");
    JObject([
      ("composite_image_base64", Field(Some(body), "composite_image_base64").GetOr(JNull)),
      ("prompt", Field(Some(body), "prompt").GetOr(JNull)),
      ("chat_id", JString(if IsTruthy(chat) then Str(chat.value) else IntToString(u)))])
  }

  // ---------------------------------------------------------------------
  // The abort branch of the catch block (lines 173-194)

  /**
   * The abort branch after the refund: the audit call names `userId`, so it
   * answers 504 only when `userId` is in scope at the catch block; otherwise
   * the `ReferenceError` rejects the handler and nothing is sent.
   */
  function AbortReply(scope: set<string>): (r: Reply)
    ensures r.Sent? <==> "userId" in scope
    ensures r.Sent? ==> r.response.status == 504
  {
    if "userId" in scope then Sent(JsonResponse(504, ErrorWith("webhook_timeout", "任务处理超时，积分已返还")))
    else Unhandled
  }

  /** The names visible in the catch block as written: `userId` and `userIdVar` are declared inside `try`. */
  const ScopeAsWritten: set<string> := {"req", "res", "error"}

  /** The evidently intended scope: `userId` declared before `try`. */
  const ScopeIntended: set<string> := ScopeAsWritten + {"userId"}

  /** As written, a timed-out job is refunded but the client never gets the 504. */
  lemma TimeoutUnansweredAsWritten()
    ensures AbortReply(ScopeAsWritten) == Unhandled
  {
  }

  /** With `userId` in scope the refund is followed by the 504. */
  lemma TimeoutAnsweredIntended()
    ensures AbortReply(ScopeIntended).Sent? && AbortReply(ScopeIntended).response.status == 504
  {
  }

  // ---------------------------------------------------------------------
  // After the limiter

  const InsufficientCredits: Response := JsonResponse(402, ErrorWith("insufficient_credits", "积分不足，请先充值"))
  const NoWebhookUrl: Response := JsonResponse(500, ErrorWith("server_configuration_error", "Webhook URL not configured"))
  const Submitted: Response := JsonResponse(200, SuccessResponse([("message", JString("任务已提交，正在处理中"))]))
  const WebhookFailed: Response := JsonResponse(500, ErrorWith("webhook_failed", "任务处理失败，积分已返还"))

  /** The state and answer after the limiter let the request on. */
  datatype Effect = Effect(credits: Table, reply: Reply, call: Option<Call>)

  /**
   * Lines 95-196 on the ledger `t`: welcome credit, debit, the webhook call
   * and its refund. `welcomeFault` is the error of the welcome insert, if any.
   */
  function Charge(t: Table, u: int, body: Json, env: Env, welcomeFault: Option<string>, outcome: CallOutcome): (e: Effect)
    ensures OthersUnchanged(t, e.credits, u)
  {
    if u !in t && welcomeFault.Some? then
      Effect(t, Sent(InternalError("Failed to create user: " + welcomeFault.value)), None)
    else
      var t1 := WithWelcome(t, u);
      if !CanDebit(t1, u) then
        Effect(t1, Sent(InsufficientCredits), None)
      else
        Submit(Debited(t1, u), u, body, env, outcome)
  }

  /**
   * Lines 114-196 on the debited ledger `t`: the webhook call, its answer,
   * and the refund of a failed job. A timed-out job is refunded and then
   * left unanswered, as the catch block is written.
   */
  function Submit(t: Table, u: int, body: Json, env: Env, outcome: CallOutcome): (e: Effect)
    ensures OthersUnchanged(t, e.credits, u)
  {
    if !EnvSet(env, "MAKE_WEBHOOK_URL") then
      Effect(t, Sent(NoWebhookUrl), None)
    else
      var call := Some(Call(env["MAKE_WEBHOOK_URL"], Job(body, u)));
      match outcome
      case Responded(_, _, _) =>
        if IsOk(outcome) then
          Effect(t, Sent(Submitted), call)
        else
          Effect(Bumped(t, u), Sent(WebhookFailed), call)
      case Timeout => Effect(Bumped(t, u), AbortReply(ScopeAsWritten), call)
      case Failed(m) => Effect(t, Sent(InternalError(m)), call)
  }

  /**
   * A timed-out job, as the code is written: the credit taken is refunded,
   * the job was sent, and the client gets no answer at all.
   */
  lemma TimeoutRefundedUnanswered(t: Table, u: int, body: Json, env: Env)
    requires u in t && t[u] > 0 && EnvSet(env, "MAKE_WEBHOOK_URL")
    ensures var e := Charge(t, u, body, env, None, Timeout);
      e.credits == t && e.call == Some(Call(env["MAKE_WEBHOOK_URL"], Job(body, u))) && e.reply == Unhandled
  {
    RefundUndoesDebit(t, u);
  }

  /** The user is left with one credit less exactly on these paths. */
  predicate Charged(t: Table, u: int, env: Env, outcome: CallOutcome)
  {
    CanDebit(WithWelcome(t, u), u) && (!EnvSet(env, "MAKE_WEBHOOK_URL") || IsOk(outcome) || outcome.Failed?)
  }

  /**
   * The accounting of one request: once the user row exists, the user's
   * balance drops by exactly one on the charged paths and is the welcomed
   * balance otherwise; a failed or timed-out job is refunded in full; the
   * job is submitted only after a successful debit; and a 200 always means
   * one credit was taken.
   */
  lemma ChargeAccounting(t: Table, u: int, body: Json, env: Env, welcomeFault: Option<string>, outcome: CallOutcome)
    requires u in t || welcomeFault.None?
    ensures var e := Charge(t, u, body, env, welcomeFault, outcome);
      var t1 := WithWelcome(t, u);
      u in e.credits
      && (Charged(t, u, env, outcome) ==> e.credits[u] == t1[u] - 1)
      && (!Charged(t, u, env, outcome) ==> e.credits == t1)
      && (e.call.Some? ==> CanDebit(t1, u))
      && (e.reply.Sent? && e.reply.response.status == 200 ==> e.call.Some? && e.credits[u] == t1[u] - 1)
  {
    var t1 := WithWelcome(t, u);
    if CanDebit(t1, u) {
      RefundUndoesDebit(t1, u);
    }
  }

  /** A failed welcome insert for a new user touches no credits and calls nothing. */
  lemma WelcomeFailureChangesNothing(t: Table, u: int, body: Json, env: Env, fault: string, outcome: CallOutcome)
    requires u !in t
    ensures var e := Charge(t, u, body, env, Some(fault), outcome);
      e.credits == t && e.call.None? && e.reply == Sent(InternalError("Failed to create user: " + fault))
  {
  }

  /**
   * The two paths on which a credit is taken with no job running: a missing
   * webhook URL, and a call that rejects for a reason other than the timeout.
   */
  lemma ChargedWithoutJob(t: Table, u: int, body: Json, env: Env, message: string)
    requires u in t && t[u] > 0
    ensures var e := Charge(t, u, body, env - {"MAKE_WEBHOOK_URL"}, None, Timeout);
      e.credits[u] == t[u] - 1 && e.call.None? && e.reply.Sent? && e.reply.response.status == 500
    ensures EnvSet(env, "MAKE_WEBHOOK_URL") ==>
      var e := Charge(t, u, body, env, None, Failed(message));
      e.credits[u] == t[u] - 1 && e.call.Some? && e.reply == Sent(InternalError(message))
  {
  }

  /** Lines 95-196 on the store: the ledger ends as `Charge` says. */
  method ChargeStep(store: Store.Store, u: int, body: Json, env: Env, welcomeFault: Option<string>, outcome: CallOutcome)
    returns (reply: Reply, call: Option<Call>)
    modifies store`credits
    ensures store.credits == Charge(old(store.credits), u, body, env, welcomeFault, outcome).credits
    ensures reply == Charge(old(store.credits), u, body, env, welcomeFault, outcome).reply
    ensures call == Charge(old(store.credits), u, body, env, welcomeFault, outcome).call
  {
    var welcome := store.EnsureUserWithWelcomeCredit(u, welcomeFault);
    if welcome.Err? {
      return Sent(InternalError(welcome.error)), None;
    }
    assert store.credits == WithWelcome(old(store.credits), u);
    var ok := store.ConsumeOneCredit(u);
    if !ok {
      return Sent(InsufficientCredits), None;
    }
    reply, call := SubmitStep(store, u, body, env, outcome);
  }

  /** The webhook call after the debit, and the refund when it fails or times out. */
  method SubmitStep(store: Store.Store, u: int, body: Json, env: Env, outcome: CallOutcome)
    returns (reply: Reply, call: Option<Call>)
    modifies store`credits
    ensures store.credits == Submit(old(store.credits), u, body, env, outcome).credits
    ensures reply == Submit(old(store.credits), u, body, env, outcome).reply
    ensures call == Submit(old(store.credits), u, body, env, outcome).call
  {
    if !EnvSet(env, "MAKE_WEBHOOK_URL") {
      return Sent(NoWebhookUrl), None;
    }
    call := Some(Call(env["MAKE_WEBHOOK_URL"], Job(body, u)));
    match outcome {
      case Responded(_, _, _) =>
        if IsOk(outcome) {
          reply := Sent(Submitted);
        } else {
          store.AddOneIfPresent(u);
          reply := Sent(WebhookFailed);
        }
      case Timeout =>
        store.AddOneIfPresent(u);
        reply := AbortReply(ScopeAsWritten);
      case Failed(m) =>
        reply := Sent(InternalError(m));
    }
  }

  // ---------------------------------------------------------------------
  // The handler

  /** The user a request is admitted for: a POST that passes the gate. */
  function Admitted(req: Request, env: Env, mac: Mac, parse: JsonParser): (u: Option<int>)
    ensures u.Some? ==> req.verb == "POST" && Gate(req.body, EnvVar(env, "TELEGRAM_BOT_TOKEN"), mac, parse) == Ok(u.value)
  {
    if req.verb != "POST" then None
    else
      var g := Gate(req.body, EnvVar(env, "TELEGRAM_BOT_TOKEN"), mac, parse);
      if g.Ok? then Some(g.value) else None
  }

  /** Lines 12-74: the answer to a request that is not admitted. */
  function EarlyReply(req: Request, env: Env, mac: Mac, parse: JsonParser): (r: Response)
    requires Admitted(req, env, mac, parse).None?
    ensures req.verb == "OPTIONS" ==> r == Response(200, None)
    ensures req.verb != "OPTIONS" && req.verb != "POST" ==> r == JsonResponse(405, ErrorResponse("Method not allowed", None))
    ensures req.verb == "POST" ==> Gate(req.body, EnvVar(env, "TELEGRAM_BOT_TOKEN"), mac, parse) == Err(r)
  {
    if req.verb == "OPTIONS" then Response(200, None)
    else if req.verb != "POST" then JsonResponse(405, ErrorResponse("Method not allowed", None))
    else Gate(req.body, EnvVar(env, "TELEGRAM_BOT_TOKEN"), mac, parse).error
  }

  /** The limiter's check of the admitted user `u` against its state before the request. */
  function LimiterStep(limiter: RateLimit.RateLimiter, u: int, now: int): (RateLimit.Check, RateLimit.Entry)
    reads limiter
  {
    RateLimit.Step(limiter.EntryFor("consume:" + IntToString(u)), limiter.maxRequests, limiter.windowMs, now)
  }

  /** The 429 a limited request is answered with, if its check limits it. */
  function FirstOf(c: RateLimit.Check): Option<Response>
  {
    if RateLimit.VerdictOf(c).Limited? then Some(RateLimit.VerdictOf(c).response) else None
  }

  /**
   * Lines 76-196 for the admitted user `u`: the limiter counts the request
   * under `consume:<u>`; a limited request is answered 429, but the handler
   * goes on and its effects on the ledger are those of `Charge`. A reset time
   * the date formatting rejects throws into the catch block (500).
   */
  method Serve(store: Store.Store, limiter: RateLimit.RateLimiter, u: int, body: Json, queryUserId: Option<QueryValue>,
               env: Env, now: int, welcomeFault: Option<string>, outcome: CallOutcome)
    returns (reply: Reply, call: Option<Call>)
    requires u != 0
    modifies store`credits, limiter
    ensures limiter.requests == old(limiter.requests)["consume:" + IntToString(u) := old(LimiterStep(limiter, u, now)).1]
    ensures RateLimit.VerdictOf(old(LimiterStep(limiter, u, now)).0).Threw? ==>
      reply == Sent(InternalError("Invalid time value")) && call.None? && store.credits == old(store.credits)
    ensures !RateLimit.VerdictOf(old(LimiterStep(limiter, u, now)).0).Threw? ==>
      var e := Charge(old(store.credits), u, body, env, welcomeFault, outcome);
      store.credits == e.credits && call == e.call
      && reply == FirstSent(FirstOf(old(LimiterStep(limiter, u, now)).0), e.reply)
    ensures old(limiter.Valid()) ==> limiter.Valid()
  {
    ghost var step := LimiterStep(limiter, u, now);
    assert RateLimit.KeyUser(Some(Int(u)), queryUserId) == IntToString(u);
    assert "consume" + ":" + IntToString(u) == "consume:" + IntToString(u);
    var verdict, _ := limiter.Middleware("consume", Some(Int(u)), queryUserId, now);
    assert verdict == RateLimit.VerdictOf(step.0);
    if verdict.Threw? {
      return Sent(InternalError(verdict.message)), None;
    }
    var first := if verdict.Limited? then Some(verdict.response) else None;
    assert store.credits == old(store.credits);
    var later: Reply;
    later, call := ChargeStep(store, u, body, env, welcomeFault, outcome);
    reply := FirstSent(first, later);
  }

  /**
   * The handler: a request that is not admitted is answered by
   * `EarlyReply` and changes nothing; an admitted one is served.
   */
  method Handle(store: Store.Store, limiter: RateLimit.RateLimiter, req: Request, env: Env, mac: Mac, parse: JsonParser,
                now: int, welcomeFault: Option<string>, outcome: CallOutcome)
    returns (reply: Reply, call: Option<Call>)
    modifies store`credits, limiter
    ensures Admitted(req, env, mac, parse).None? ==>
      reply == Sent(EarlyReply(req, env, mac, parse)) && call.None?
      && store.credits == old(store.credits) && limiter.requests == old(limiter.requests)
    ensures Admitted(req, env, mac, parse).Some? ==>
      var u := Admitted(req, env, mac, parse).value;
      limiter.requests == old(limiter.requests)["consume:" + IntToString(u) := old(LimiterStep(limiter, u, now)).1]
    ensures Admitted(req, env, mac, parse).Some? &&
            RateLimit.VerdictOf(old(LimiterStep(limiter, Admitted(req, env, mac, parse).value, now)).0).Threw? ==>
      reply == Sent(InternalError("Invalid time value")) && call.None? && store.credits == old(store.credits)
    ensures Admitted(req, env, mac, parse).Some? &&
            !RateLimit.VerdictOf(old(LimiterStep(limiter, Admitted(req, env, mac, parse).value, now)).0).Threw? ==>
      var u := Admitted(req, env, mac, parse).value;
      var e := Charge(old(store.credits), u, req.body.value, env, welcomeFault, outcome);
      store.credits == e.credits && call == e.call
      && reply == FirstSent(FirstOf(old(LimiterStep(limiter, u, now)).0), e.reply)
    ensures old(limiter.Valid()) ==> limiter.Valid()
  {
    var admitted := Admitted(req, env, mac, parse);
    if admitted.None? {
      return Sent(EarlyReply(req, env, mac, parse)), None;
    }
    reply, call := Serve(store, limiter, admitted.value, req.body.value, QueryParam(req, "userId"),
                         env, now, welcomeFault, outcome);
  }
}
