/**
 * The request gate that api/balance-with-referral.js, api/referral-link.js
 * and api/admin-test.js share word for word: OPTIONS is answered 200, any
 * other method but GET 405, then the `initData` query parameter must be
 * present, a bot token configured, the signature valid and a user id
 * extractable. Unlike the other handlers these answer with plain `{error}`
 * objects, not the `createErrorResponse` shape. The three also share a
 * catch block that logs `userId`, a name declared inside `try`, so any
 * error thrown in the `try` block leaves the client without an answer.
 */
module QueryGate {
  import opened Basics
  import opened Json
  import opened Http
  import opened InitData
  import QueryString

  /** `res.status(status).json({error})`. */
  function PlainError(status: int, error: string): (r: Response)
    ensures r.status == status && r.body.Some? && r.body.value.JObject?
    ensures Lookup(r.body.value.members, "error") == Some(JString(error))
  {
    JsonResponse(status, JObject([("error", JString(error))]))
  }

  const MethodNotAllowed: Response := PlainError(405, "Method not allowed")
  const MissingInitData: Response := PlainError(400, "Missing initData")
  const ConfigError: Response := PlainError(500, "Server configuration error")
  const InvalidInitData: Response := PlainError(401, "Invalid initData")
  const NoUserId: Response := PlainError(400, "Cannot extract user ID")

  /**
   * The catch blocks of the three handlers (api/balance-with-referral.js:120-126,
   * api/referral-link.js:77-83, api/admin-test.js:136-142) log `userId`
   * before answering. When that name is not in the block's scope the log
   * throws a `ReferenceError` from inside the catch, and the handler
   * rejects with nothing sent.
   */
  function FailureReply(scope: set<string>, message: string): (r: Reply)
    ensures r.Sent? <==> "userId" in scope
    ensures r.Sent? ==> r.response == InternalError(message) && r.response.status == 500
  {
    if "userId" in scope then Sent(InternalError(message)) else Unhandled
  }

  /** The names visible in the catch blocks as written: `userId` is declared inside `try`. */
  const CatchScopeAsWritten: set<string> := {"req", "res", "requestId", "logger", "error"}

  /** The evidently intended scope: `userId` visible where the error is logged. */
  const CatchScopeIntended: set<string> := CatchScopeAsWritten + {"userId"}

  /** The `TypeError` of `initData.substr(0, 50)` when `initData` is an array. */
  const SubstrError: string := "initData.substr is not a function"

  /**
   * api/balance-with-referral.js:23-48 (and the same lines of the other two
   * handlers): the user id, or what the client gets when the request ends
   * here; initData is checked before the token. A repeated `initData` is an
   * array: it passes the `!initData` test, never verifies, and then the
   * 401 branch's `initData.substr` throws into the catch block.
   */
  function Gate(initData: Option<QueryValue>, token: Option<string>, mac: Mac, parse: JsonParser): (r: Result<int, Reply>)
    ensures !QueryTruthy(initData) ==> r == Err(Sent(MissingInitData))
    ensures QueryTruthy(initData) ==>
      var a := Authenticate(QueryJson(initData.value), token, mac, parse);
      && (a.NoToken? ==> r == Err(Sent(ConfigError)))
      && (a.BadSignature? && initData.value.One? ==> r == Err(Sent(InvalidInitData)))
      && (a.BadSignature? && initData.value.Many? ==> r == Err(FailureReply(CatchScopeAsWritten, SubstrError)))
      && (a.NoUser? ==> r == Err(Sent(NoUserId)))
      && (a.User? <==> r.Ok?)
      && (a.User? ==> r == Ok(a.id) && a.id != 0)
  {
    if !QueryTruthy(initData) then Err(Sent(MissingInitData))
    else
      match Authenticate(QueryJson(initData.value), token, mac, parse)
      case NoToken => Err(Sent(ConfigError))
      case BadSignature =>
        if initData.value.One? then Err(Sent(InvalidInitData)) else Err(FailureReply(CatchScopeAsWritten, SubstrError))
      case NoUser => Err(Sent(NoUserId))
      case User(u) => Ok(u)
  }

  /** An array of texts never verifies: `new URLSearchParams` throws on a text element, and an empty array has no `hash`. */
  lemma {:induction false} ListNeverVerifies(items: seq<string>, token: string, mac: Mac)
    ensures !VerifyInitDataValue(QueryJson(Many(items)), token, mac)
  {
    var j := QueryJson(Many(items));
    if items != [] {
      assert !j.elems[0].JArray?;
      assert InitPairs(j).None?;
    } else {
      assert j == JArray([]);
      var ps := InitPairs(j).value;
      assert ps == [];
      assert QueryString.Get(ps, "hash").None?;
    }
  }

  /**
   * A repeated `initData`, with a token configured: as the catch block is
   * written, the client gets no answer at all, where a single bad value
   * gets the 401.
   */
  lemma ListInitDataUnanswered(items: seq<string>, token: string, mac: Mac, parse: JsonParser)
    requires token != ""
    ensures Gate(Some(Many(items)), Some(token), mac, parse) == Err(Unhandled)
  {
    ListNeverVerifies(items, token, mac);
  }

  /** The user a request is admitted for: a GET that passes the gate. */
  function Admitted(req: Request, env: Env, mac: Mac, parse: JsonParser): (u: Option<int>)
    ensures u.Some? ==> req.verb == "GET" && u.value != 0
                        && Gate(QueryParam(req, "initData"), EnvVar(env, "TELEGRAM_BOT_TOKEN"), mac, parse) == Ok(u.value)
  {
    if req.verb != "GET" then None
    else
      var g := Gate(QueryParam(req, "initData"), EnvVar(env, "TELEGRAM_BOT_TOKEN"), mac, parse);
      if g.Ok? then Some(g.value) else None
  }

  /** api/balance-with-referral.js:10-48: what the client gets for a request that is not admitted. */
  function EarlyReply(req: Request, env: Env, mac: Mac, parse: JsonParser): (r: Reply)
    requires Admitted(req, env, mac, parse).None?
    ensures req.verb == "OPTIONS" ==> r == Sent(Response(200, None))
    ensures req.verb != "OPTIONS" && req.verb != "GET" ==> r == Sent(MethodNotAllowed)
    ensures req.verb == "GET" ==> Gate(QueryParam(req, "initData"), EnvVar(env, "TELEGRAM_BOT_TOKEN"), mac, parse) == Err(r)
  {
    if req.verb == "OPTIONS" then Sent(Response(200, None))
    else if req.verb != "GET" then Sent(MethodNotAllowed)
    else Gate(QueryParam(req, "initData"), EnvVar(env, "TELEGRAM_BOT_TOKEN"), mac, parse).error
  }

  /** A GET whose `initData` is repeated, with a token configured, gets no answer. */
  lemma ListInitDataRequestUnanswered(req: Request, env: Env, mac: Mac, parse: JsonParser, items: seq<string>)
    requires req.verb == "GET" && QueryParam(req, "initData") == Some(Many(items)) && EnvSet(env, "TELEGRAM_BOT_TOKEN")
    ensures Admitted(req, env, mac, parse).None? && EarlyReply(req, env, mac, parse) == Unhandled
  {
    ListInitDataUnanswered(items, env["TELEGRAM_BOT_TOKEN"], mac, parse);
  }

  /**
   * `{error: 'Internal server error', details}`: what the catch blocks of the
   * three handlers would send with `userId` in their scope
   * (`FailureReply(CatchScopeIntended, …)`); as written they never send it.
   */
  function InternalError(message: string): Response
  {
    JsonResponse(500, JObject([("error", JString("Internal server error")), ("details", JString(message))]))
  }
}
