/**
 * Requests, responses, the environment and outgoing calls as values. A
 * handler's effect on the client is the first response it sends; once a
 * response has been sent, later sends fail and change nothing the client sees.
 */
module Http {
  import opened Basics
  import opened Strings
  import opened Json

  /** `req`: the method (`verb`), lower-case header names, the parsed query and the parsed body (`None` when absent). */
  datatype Request = Request(
    verb: string, headers: map<string, string>, query: map<string, QueryValue>, body: Option<Json>)

  /**
   * A value of `req.query`: the text of a name given once, or, for a name
   * given more than once (`?a=x&a=y`), the array of its texts.
   */
  datatype QueryValue = One(s: string) | Many(items: seq<string>)

  datatype Response = Response(status: int, body: Option<Json>)

  /** What the client receives: a response, or none when the handler rejects before sending. */
  datatype Reply = Sent(response: Response) | Unhandled

  /** The outcome of a `fetch`: a response (its body text, `None` when reading it fails), the abort timer firing, or a rejection. */
  datatype CallOutcome =
    | Responded(status: int, statusText: string, body: Option<string>)
    | Timeout
    | Failed(message: string)

  /** `response.ok`. */
  predicate IsOk(o: CallOutcome)
  {
    o.Responded? && 200 <= o.status <= 299
  }

  /** `process.env`. */
  type Env = map<string, string>

  function EnvVar(env: Env, name: string): Option<string>
  {
    if name in env then Some(env[name]) else None
  }

  /** `process.env[name]` is truthy. */
  predicate EnvSet(env: Env, name: string)
  {
    name in env && env[name] != ""
  }

  /** `process.env[name] || fallback`: an unset or empty variable gives the fallback. */
  function EnvOr(env: Env, name: string, fallback: string): (r: string)
    ensures EnvSet(env, name) ==> r == env[name]
    ensures !EnvSet(env, name) ==> r == fallback
  {
    if EnvSet(env, name) then env[name] else fallback
  }

  /** `req.query[name]`. */
  function QueryParam(req: Request, name: string): Option<QueryValue>
  {
    if name in req.query then Some(req.query[name]) else None
  }

  /** The query value as a JavaScript value: a string, or an array of strings. */
  function QueryJson(v: QueryValue): (j: Json)
    ensures v.One? <==> j.JString?
    ensures v.One? ==> j == JString(v.s)
    ensures v.Many? ==> j.JArray? && |j.elems| == |v.items|
                        && forall i :: 0 <= i < |v.items| ==> j.elems[i] == JString(v.items[i])
  {
    match v
    case One(s) => JString(s)
    case Many(items) => JArray(seq(|items|, i requires 0 <= i < |items| => JString(items[i])))
  }

  /** `!value` is false: the parameter is present and is not the empty text (an array is always truthy). */
  predicate QueryTruthy(v: Option<QueryValue>)
  {
    v.Some? && v.value != One("")
  }

  /** `${value}`: the text itself, or the array's texts joined by commas. */
  function QueryText(v: QueryValue): (t: string)
    ensures v.One? ==> t == v.s
    ensures v.Many? ==> t == Join(v.items, ",")
  {
    match v
    case One(s) => s
    case Many(items) => Join(items, ",")
  }

  /** The text of a parameter given once; `None` when it is absent or repeated. */
  function SingleText(v: Option<QueryValue>): (r: Option<string>)
    ensures r.Some? <==> v.Some? && v.value.One?
    ensures r.Some? ==> v == Some(One(r.value))
  {
    if v.Some? && v.value.One? then Some(v.value.s) else None
  }

  /** A parameter given once with text `s`, or absent. */
  function Single(s: Option<string>): (v: Option<QueryValue>)
    ensures SingleText(v) == s
    ensures v.None? <==> s.None?
  {
    if s.Some? then Some(One(s.value)) else None
  }

  /** A request to an outside service: the URL and the JSON body. */
  datatype Call = Call(url: string, body: Json)

  /** Telegram Bot API method URL. */
  function BotApiUrl(token: string, apiMethod: string): string
  {
    "https://api.telegram.org/bot" + token + "/" + apiMethod
  }

  /** A response with a JSON body. */
  function JsonResponse(status: int, body: Json): Response
  {
    Response(status, Some(body))
  }

  /** The `TypeError` message of `const {name, ...} = req.body` on a missing (`None`) or null body. */
  function DestructureError(name: string, body: Option<Json>): string
  {
    "Cannot destructure property '" + name + "' of 'req.body' as it is " + (if body.None? then "undefined." else "null.")
  }

  /** The client sees the first of two responses sent. */
  function FirstSent(first: Option<Response>, later: Reply): Reply
  {
    if first.Some? then Sent(first.value) else later
  }
}
