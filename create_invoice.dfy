/**
 * Invoice creation of api/create-invoice.js. A POST names a pack and carries
 * the signed initData; after validation, authentication and the invoice
 * limiter, the handler asks the Bot API's `createInvoiceLink` for a Stars
 * invoice whose payload is `{userId, sku}` and answers with the link.
 */
module CreateInvoice {
  import opened Basics
  import opened Strings
  import opened Json
  import opened Http
  import opened InitData
  import opened Validation
  import Catalog
  import TestMode
  import RateLimit
  import Webhook
  import Store

  // ---------------------------------------------------------------------
  // The outer catch block (lines 280-327)

  const NetworkText: string :=
    "Network error: Unable to connect to Telegram API. Please check your internet connection and try again."
  const ConfigText: string := "Server configuration error. Please contact support."
  const ParseText: string := "Invalid response from server. Please try again."
  const GenericText: string := "An unexpected error occurred. Please try again later."

  /**
   * The text the outer catch block shows for an error message: a fixed text
   * chosen by keywords, the message itself only in development, and a
   * generic text otherwise.
   */
  function FriendlyMessage(message: string, env: Env): (r: string)
    ensures EnvVar(env, "NODE_ENV") != Some("development") ==> r in {NetworkText, ConfigText, ParseText, GenericText}
    ensures message == "" ==> r == GenericText
    ensures Contains(message, "fetch") ==> r == NetworkText
  {
    if message == "" then GenericText
    else if Contains(message, "fetch") || Contains(message, "network") || Contains(message, "ECONNREFUSED") then NetworkText
    else if Contains(message, "TELEGRAM_BOT_TOKEN") || Contains(message, "configuration") then ConfigText
    else if Contains(message, "JSON") || Contains(message, "parse") then ParseText
    else if EnvVar(env, "NODE_ENV") == Some("development") then message
    else GenericText
  }

  /** The 500 of the outer catch block. */
  function Unexpected(message: string, env: Env): Response
  {
    JsonResponse(500, ErrorWith("Internal server error", FriendlyMessage(message, env)))
  }

  /** Outside development an unexpected error never shows its own message, unless it is one of the fixed texts. */
  lemma MessageHiddenOutsideDevelopment(message: string, env: Env)
    requires EnvVar(env, "NODE_ENV") != Some("development")
    requires message !in {NetworkText, ConfigText, ParseText, GenericText}
    ensures FriendlyMessage(message, env) != message
  {
  }

  /** The `TypeError` of `initData?.substring(...)` on an initData that is not a string. */
  const SubstringError: string := "initData?.substring is not a function"

  // ---------------------------------------------------------------------
  // Lines 25-89: validation and authentication

  const Fields: seq<string> := ["initData", "sku"]

  /** Lines 26-50: the body checks, ending with the pack named or the response that ends the request. */
  function BodyCheck(body: Option<Json>, env: Env): (r: Result<string, Response>)
    ensures r.Ok? ==> body.Some? && RequiredFields(body.value, Fields) == Ok(Valid)
                      && Field(body, "sku") == Some(JString(r.value)) && r.value in Catalog.SkuMap
    ensures r.Ok? ==> Field(body, "initData").Some?
  {
    if body.None? || body.value.JNull? then Err(Unexpected(DestructureError("initData", body), env))
    else
      var required := RequiredFields(body.value, Fields);
      if required.Err? then Err(Unexpected(required.error, env))
      else if required.value.Invalid? then Err(JsonResponse(400, ErrorWith("Validation failed", required.value.error)))
      else
        var sku := ValidateSku(Field(body, "sku"));
        if sku.Invalid? then Err(JsonResponse(400, ErrorWith("Invalid SKU", sku.error)))
        else
          assert InBody(body.value, "initData") by {
            assert "initData" in Fields;
          }
          LookupPresent(body.value.members, "initData");
          Ok(Field(body, "sku").value.s)
  }

  const MissingToken: Response := JsonResponse(500, ErrorWith("Server configuration error",
    "Missing TELEGRAM_BOT_TOKEN. Please configure the bot token in environment variables."))
  const InvalidInitData: Response := JsonResponse(401, ErrorWith("Invalid initData",
    "The provided initData is invalid or has been tampered with. Please ensure you are using the app from Telegram."))
  const NoUserId: Response := JsonResponse(400, ErrorWith("Cannot extract user ID",
    "Unable to extract user ID from initData. Please ensure you are using the app from Telegram."))

  /**
   * Lines 52-89: the answer to each outcome of the token, signature and
   * user-id checks. A signature or user-id failure on an initData that is not
   * a string (`isText` false) throws while logging it (`initData?.substring`),
   * and the outer catch answers.
   */
  function AuthCheck(a: Auth, isText: bool, env: Env): (r: Result<int, Response>)
    ensures r.Ok? <==> a.User?
    ensures r.Ok? ==> r.value == a.id
    ensures a.BadSignature? && isText ==>
      r == Err(InvalidInitData)
    ensures (a.BadSignature? || a.NoUser?) && !isText ==> r == Err(Unexpected(SubstringError, env))
  {
    match a
    case NoToken =>
      Err(MissingToken)
    case BadSignature =>
      if !isText then Err(Unexpected(SubstringError, env))
      else Err(InvalidInitData)
    case NoUser =>
      if !isText then Err(Unexpected(SubstringError, env))
      else Err(NoUserId)
    case User(u) => Ok(u)
  }

  /** Lines 25-89: the user id and the pack, or the response that ends the request. */
  function Gate(body: Option<Json>, token: Option<string>, mac: Mac, parse: JsonParser, env: Env)
    : (r: Result<(int, string), Response>)
    ensures BodyCheck(body, env).Err? ==> r == Err(BodyCheck(body, env).error)
    ensures BodyCheck(body, env).Ok? ==>
      var initData := Field(body, "initData").value;
      var a := AuthCheck(Authenticate(initData, token, mac, parse), initData.JString?, env);
      r == if a.Ok? then Ok((a.value, BodyCheck(body, env).value)) else Err(a.error)
    ensures r.Ok? ==> r.value.0 != 0 && r.value.1 in Catalog.SkuMap
                      && Authenticate(Field(body, "initData").value, token, mac, parse) == User(r.value.0)
  {
    var b := BodyCheck(body, env);
    if b.Err? then Err(b.error)
    else
      var initData := Field(body, "initData").value;
      var a := AuthCheck(Authenticate(initData, token, mac, parse), initData.JString?, env);
      if a.Ok? then Ok((a.value, b.value)) else Err(a.error)
  }

  // ---------------------------------------------------------------------
  // Lines 120-169: the invoice

  const Title: string := "AI图片编辑算力点"

  /** `mapping.label || \`测试算力点${mapping.credits || ''}\`.trim()`. */
  function SafeLabel(info: Catalog.SkuInfo): (l: string)
    ensures info.name != "" ==> l == info.name
    ensures l != ""
  {
    if info.name != "" then info.name
    else
      var l := Trim("测试算力点" + (if info.credits != 0 then NatToString(info.credits) else ""));
      assert l == "测试算力点" + (if info.credits != 0 then NatToString(info.credits) else "") by {
        TrimDigitsSuffix(if info.credits != 0 then NatToString(info.credits) else "");
      }
      l
  }

  lemma TrimDigitsSuffix(d: string)
    requires AllDigits(d)
    ensures Trim("测试算力点" + d) == "测试算力点" + d
  {
    var s := "测试算力点" + d;
    assert s[|s| - 1] == if d == [] then '点' else d[|d| - 1];
    TrimUntouched(s);
  }

  /** The order's payload as the invoice carries it: `JSON.stringify({userId, sku})`. */
  function InvoicePayload(u: int, sku: string): (p: string)
    ensures p != "" && p[0] == '{'
  {
    Stringify(JObject([("userId", JNumber(u)), ("sku", JString(sku))]))
  }

  /** The `invoiceData` sent to `createInvoiceLink`. */
  function InvoiceFor(u: int, sku: string, info: Catalog.SkuInfo): (inv: Json)
    ensures inv.JObject?
  {
    var shown := SafeLabel(info);
    JObject([
      ("title", JString(Title)),
      ("description", JString(shown + " - 可用于AI图片重绘")),
      ("payload", JString(InvoicePayload(u, sku))),
      ("provider_token", JString("")),
      ("currency", JString("XTR")),
      ("prices", JArray([JObject([("label", JString(shown)), ("amount", JNumber(info.xtr))])]))])
  }

  /** The pack the invoice is for: the base pack, or the test pack in test mode. */
  function Mapping(sku: string, env: Env): (m: Option<Catalog.SkuInfo>)
    ensures sku in Catalog.SkuMap ==> m == Some(Catalog.SkuMap[sku])
  {
    TestMode.TestSkusDisjoint();
    if TestMode.IsTestSku(env, sku) then
      Some(Catalog.SkuInfo(TestMode.TestSkus[sku].0, TestMode.TestSkus[sku].1, ""))
    else if sku in Catalog.SkuMap then Some(Catalog.SkuMap[sku])
    else None
  }

  /** Lines 120-169: the mapping, the price check and the invoice, or the 400/500 that ends the request. */
  function Order(u: int, sku: string, env: Env): (r: Result<Json, Response>)
    ensures sku in Catalog.SkuMap ==> r == Ok(InvoiceFor(u, sku, Catalog.SkuMap[sku]))
  {
    Catalog.CatalogWellFormed();
    var m := Mapping(sku, env);
    if m.None? then Err(UnknownSkuError(sku))
    else if m.value.xtr <= 0 then Err(BadPriceError(sku, m.value.xtr))
    else Ok(InvoiceFor(u, sku, m.value))
  }

  /** The 400 for a pack with no mapping. */
  function UnknownSkuError(sku: string): Response
  {
    JsonResponse(400, ErrorWith("Invalid SKU",
      "SKU \"" + sku + "\" is not available. Valid options: " + Join(Catalog.BaseSkus, ", ")))
  }

  /** The 400 for a pack whose price is not positive. */
  function BadPriceError(sku: string, xtr: nat): Response
  {
    JsonResponse(400, ErrorWith("Invalid price configuration",
      "Invalid XTR amount for SKU " + sku + ": " + NatToString(xtr)))
  }

  /** Test packs are in no invoice: a pack that passes `validateSKU` is a base pack, so the test branch never applies. */
  lemma NoTestInvoices(sku: string, env: Env)
    requires ValidateSku(Some(JString(sku))).Valid?
    ensures !TestMode.IsTestSku(env, sku)
    ensures Order(0, sku, env).Ok?
  {
    TestMode.TestSkusDisjoint();
  }

  // ---------------------------------------------------------------------
  // Lines 176-278: the Bot API call and its answer

  const FailedText: string := "Failed to create invoice"

  /** The 500 of the inner catch: the call rejected or its body is not JSON. */
  function NetworkFailure(message: string): Response
  {
    JsonResponse(500, ErrorWith(FailedText,
      "Network error: " + message + ". Please check your internet connection and try again."))
  }

  /**
   * Lines 187-206: the detail of a non-2xx answer: the JSON `description`
   * (any value), an `error_code` line, or the first 200 UTF-16 units of the
   * body text, falling back to `HTTP <status>: <statusText>`.
   */
  function HttpErrorDetail(status: int, statusText: string, body: Option<string>, parse: JsonParser): (d: Json)
    ensures body.None? ==> d == JString("HTTP " + IntToString(status) + ": " + statusText)
    ensures body.Some? && parse(body.value).None? && body.value != "" ==> d == JString(Utf16Prefix(body.value, 200))
  {
    var fallback := JString("HTTP " + IntToString(status) + ": " + statusText);
    if body.None? then fallback
    else
      var cut := Utf16Prefix(body.value, 200);
      var text := if cut != "" then JString(cut) else fallback;
      var j := parse(body.value);
      if j.None? || j.value.JNull? then text
      else
        var desc := Field(j, "description");
        var code := Field(j, "error_code");
        if IsTruthy(desc) then desc.value
        else if IsTruthy(code) then JString("Error " + Str(code.value) + ": Unknown error")
        else text
  }

  /** Lines 235-278: what the parsed answer `j` of a 2xx call gives. */
  function ResultReply(j: Json, env: Env): (r: Response)
    ensures r.status == 200 <==> !j.JNull? && IsTruthy(Field(Some(j), "ok")) && IsTruthy(Field(Some(j), "result"))
    ensures r.status == 200 ==> r == JsonResponse(200, SuccessResponse([("invoiceLink", Field(Some(j), "result").value)]))
  {
    if j.JNull? then Unexpected("Cannot read properties of null (reading 'ok')", env)
    else
      var desc := Field(Some(j), "description");
      var code := Field(Some(j), "error_code");
      if !IsTruthy(Field(Some(j), "ok")) then
        JsonResponse(500, ErrorWith(FailedText,
          if IsTruthy(desc) || IsTruthy(code) then
            "Error " + ToJsString(code) + ": " + (if IsTruthy(desc) then Str(desc.value) else "Unknown error")
          else "Unknown error from Telegram API"))
      else if !IsTruthy(Field(Some(j), "result")) then
        JsonResponse(500, ErrorWith(FailedText, "Telegram API did not return an invoice link"))
      else JsonResponse(200, SuccessResponse([("invoiceLink", Field(Some(j), "result").value)]))
  }

  /**
   * Lines 179-278 for a call outcome. There is no abort timer in this
   * handler, so `Timeout` stands for the platform's own abort, a rejection.
   * `bodyError` is the message `response.json()` rejects with.
   */
  function BotReply(outcome: CallOutcome, parse: JsonParser, bodyError: string, env: Env): (r: Response)
    ensures r.status == 200 ==> IsOk(outcome) && outcome.body.Some? && parse(outcome.body.value).Some?
  {
    match outcome
    case Failed(m) => NetworkFailure(m)
    case Timeout => NetworkFailure("This operation was aborted")
    case Responded(status, statusText, body) =>
      if !IsOk(outcome) then JsonResponse(500, ErrorResponse(FailedText, Some(HttpErrorDetail(status, statusText, body, parse))))
      else if body.None? || parse(body.value).None? then NetworkFailure(bodyError)
      else ResultReply(parse(body.value).value, env)
  }

  /** The link a 200 answer carries is exactly the Bot API's `result`. */
  lemma LinkIsBotResult(status: int, statusText: string, text: string, parse: JsonParser, bodyError: string, env: Env,
                        link: string)
    requires 200 <= status <= 299
    requires parse(text) == Some(JObject([("ok", JBool(true)), ("result", JString(link))]))
    requires link != ""
    ensures BotReply(Responded(status, statusText, Some(text)), parse, bodyError, env)
         == JsonResponse(200, SuccessResponse([("invoiceLink", JString(link))]))
  {
    var ms := [("ok", JBool(true)), ("result", JString(link))];
    LookupAt(ms, "result", 1);
    assert Field(Some(JObject(ms)), "ok") == Some(JBool(true));
    assert Field(Some(JObject(ms)), "result") == Some(JString(link));
    var outcome := Responded(status, statusText, Some(text));
    assert IsOk(outcome);
    assert BotReply(outcome, parse, bodyError, env) == ResultReply(JObject(ms), env);
  }

  // ---------------------------------------------------------------------
  // The handler

  /** The user and pack a request is admitted for: a POST that passes the gate. */
  function Admitted(req: Request, env: Env, mac: Mac, parse: JsonParser): (a: Option<(int, string)>)
    ensures a.Some? ==> req.verb == "POST" && Gate(req.body, EnvVar(env, "TELEGRAM_BOT_TOKEN"), mac, parse, env) == Ok(a.value)
    ensures a.Some? ==> a.value.0 != 0 && a.value.1 in Catalog.SkuMap
  {
    if req.verb != "POST" then None
    else
      var g := Gate(req.body, EnvVar(env, "TELEGRAM_BOT_TOKEN"), mac, parse, env);
      if g.Ok? then Some(g.value) else None
  }

  /** Lines 13-89: the answer to a request that is not admitted. */
  function EarlyReply(req: Request, env: Env, mac: Mac, parse: JsonParser): (r: Response)
    requires Admitted(req, env, mac, parse).None?
    ensures req.verb == "OPTIONS" ==> r == Response(200, None)
    ensures req.verb != "OPTIONS" && req.verb != "POST" ==>
      r == JsonResponse(405, ErrorWith("Method not allowed", "Expected POST, got " + req.verb))
    ensures req.verb == "POST" ==> Gate(req.body, EnvVar(env, "TELEGRAM_BOT_TOKEN"), mac, parse, env) == Err(r)
  {
    if req.verb == "OPTIONS" then Response(200, None)
    else if req.verb != "POST" then JsonResponse(405, ErrorWith("Method not allowed", "Expected POST, got " + req.verb))
    else Gate(req.body, EnvVar(env, "TELEGRAM_BOT_TOKEN"), mac, parse, env).error
  }

  /** Lines 120-278 after the limiter: the answer and the Bot API call made, if any. */
  function Invoice(u: int, sku: string, token: string, env: Env, outcome: CallOutcome, parse: JsonParser, bodyError: string)
    : (r: (Response, Option<Call>))
    ensures r.1.Some? <==> Order(u, sku, env).Ok?
    ensures r.1.Some? ==> r.1.value == Call(BotApiUrl(token, "createInvoiceLink"), Order(u, sku, env).value)
                          && r.0 == BotReply(outcome, parse, bodyError, env)
  {
    match Order(u, sku, env)
    case Err(resp) => (resp, None)
    case Ok(inv) => (BotReply(outcome, parse, bodyError, env), Some(Call(BotApiUrl(token, "createInvoiceLink"), inv)))
  }

  /** The limiter's check of user `u` against its state before the request. */
  function LimiterStep(limiter: RateLimit.RateLimiter, u: int, now: int): (RateLimit.Check, RateLimit.Entry)
    reads limiter
  {
    RateLimit.Step(limiter.EntryFor("invoice:" + IntToString(u)), limiter.maxRequests, limiter.windowMs, now)
  }

  /**
   * Lines 93-278 for the admitted user `u` and pack `sku`: the limiter counts
   * the request under `invoice:<u>`. A limited request is answered 429 and
   * ends; a limiter that throws is ignored, and the invoice is requested.
   */
  method Serve(limiter: RateLimit.RateLimiter, u: int, sku: string, token: string, queryUserId: Option<QueryValue>,
               env: Env, now: int, outcome: CallOutcome, parse: JsonParser, bodyError: string)
    returns (reply: Reply, call: Option<Call>)
    requires u != 0
    modifies limiter
    ensures limiter.requests == old(limiter.requests)["invoice:" + IntToString(u) := old(LimiterStep(limiter, u, now)).1]
    ensures RateLimit.VerdictOf(old(LimiterStep(limiter, u, now)).0).Limited? ==>
      reply == Sent(RateLimit.VerdictOf(old(LimiterStep(limiter, u, now)).0).response) && call.None?
    ensures !RateLimit.VerdictOf(old(LimiterStep(limiter, u, now)).0).Limited? ==>
      (reply, call) == (Sent(Invoice(u, sku, token, env, outcome, parse, bodyError).0),
                        Invoice(u, sku, token, env, outcome, parse, bodyError).1)
    ensures !RateLimit.VerdictOf(old(LimiterStep(limiter, u, now)).0).Limited? && sku in Catalog.SkuMap ==>
      call == Some(Call(BotApiUrl(token, "createInvoiceLink"), InvoiceFor(u, sku, Catalog.SkuMap[sku])))
      && reply == Sent(BotReply(outcome, parse, bodyError, env))
    ensures old(limiter.Valid()) ==> limiter.Valid()
  {
    ghost var step := LimiterStep(limiter, u, now);
    assert RateLimit.KeyUser(Some(Int(u)), queryUserId) == IntToString(u);
    assert "invoice" + ":" + IntToString(u) == "invoice:" + IntToString(u);
    var verdict, _ := limiter.Middleware("invoice", Some(Int(u)), queryUserId, now);
    assert verdict == RateLimit.VerdictOf(step.0);
    if verdict.Limited? {
      return Sent(verdict.response), None;
    }
    var r := Invoice(u, sku, token, env, outcome, parse, bodyError);
    reply, call := Sent(r.0), r.1;
  }

  /**
   * The handler: a request that is not admitted is answered by
   * `EarlyReply` and leaves the limiter alone; an admitted one is served.
   */
  method Handle(limiter: RateLimit.RateLimiter, req: Request, env: Env, mac: Mac, parse: JsonParser, now: int,
                outcome: CallOutcome, bodyError: string)
    returns (reply: Reply, call: Option<Call>)
    modifies limiter
    ensures Admitted(req, env, mac, parse).None? ==>
      reply == Sent(EarlyReply(req, env, mac, parse)) && call.None? && limiter.requests == old(limiter.requests)
    ensures Admitted(req, env, mac, parse).Some? ==>
      var (u, sku) := Admitted(req, env, mac, parse).value;
      limiter.requests == old(limiter.requests)["invoice:" + IntToString(u) := old(LimiterStep(limiter, u, now)).1]
      && (RateLimit.VerdictOf(old(LimiterStep(limiter, u, now)).0).Limited? ==>
            reply == Sent(RateLimit.VerdictOf(old(LimiterStep(limiter, u, now)).0).response) && call.None?)
      && (!RateLimit.VerdictOf(old(LimiterStep(limiter, u, now)).0).Limited? ==>
            call == Some(Call(BotApiUrl(env["TELEGRAM_BOT_TOKEN"], "createInvoiceLink"),
                              InvoiceFor(u, sku, Catalog.SkuMap[sku])))
            && reply == Sent(BotReply(outcome, parse, bodyError, env)))
    ensures old(limiter.Valid()) ==> limiter.Valid()
  {
    var admitted := Admitted(req, env, mac, parse);
    if admitted.None? {
      return Sent(EarlyReply(req, env, mac, parse)), None;
    }
    var (u, sku) := admitted.value;
    reply, call := Serve(limiter, u, sku, env["TELEGRAM_BOT_TOKEN"], QueryParam(req, "userId"),
                         env, now, outcome, parse, bodyError);
  }

  // ---------------------------------------------------------------------
  // The invoice and the webhook

  /**
   * The order survives the round trip through Telegram: when the platform
   * parser reads back what `JSON.stringify` wrote, paying the invoice's
   * price in Stars for a fresh charge id makes the webhook accept the order
   * for the same user and pack.
   */
  lemma InvoicePaidIsAccepted(parse: JsonParser, u: int, sku: string, env: Env, charge: string,
                              payments: seq<Store.Payment>)
    requires sku in Catalog.SkuMap && u != 0
    requires parse(InvoicePayload(u, sku)) == Some(JObject([("userId", JNumber(u)), ("sku", JString(sku))]))
    requires !Store.HasRef(payments, charge)
    ensures Order(u, sku, env) == Ok(InvoiceFor(u, sku, Catalog.SkuMap[sku]))
    ensures var update := Webhook.StarsUpdate(JNumber(Catalog.SkuMap[sku].xtr), "XTR", InvoicePayload(u, sku), charge);
      Webhook.Decide(Some(update), parse, payments)
        == Webhook.Accept(Webhook.StarsPayment(JNumber(Catalog.SkuMap[sku].xtr), "XTR", InvoicePayload(u, sku), charge),
                          JNumber(u), sku, Catalog.SkuMap[sku], charge)
  {
    Webhook.UnauthenticatedOrderAccepted(parse, InvoicePayload(u, sku), u, sku, charge, payments);
  }
}
