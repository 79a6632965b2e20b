/**
 * The older CORS middleware of server/api/_cors.js, used by the local
 * development server. It has the same allowlist and the same fixed headers
 * as module Cors, but no same-host exception: the request's `Origin` is
 * echoed only when it is in the allowlist itself.
 */
module ServerCors {
  import opened Basics
  import opened Http
  import Strings
  import Cors

  /**
   * Lines 20-22 and 43-45: `ALLOWED_ORIGINS.includes(origin)`. An absent
   * header is never included; an empty one is, when the configured list
   * has an empty entry.
   */
  function AllowOrigin(req: Request, env: Env): (r: Option<string>)
    ensures r.Some? <==> "origin" in req.headers && req.headers["origin"] in Cors.AllowedOrigins(env)
    ensures r.Some? ==> r == Cors.Header(req, "origin")
  {
    if "origin" in req.headers && req.headers["origin"] in Cors.AllowedOrigins(env) then Some(req.headers["origin"]) else None
  }

  /**
   * `corsMiddleware(req, res, next)` (lines 16-35): the CORS headers are set;
   * a preflight is ended with 200 and `next` is not called, any other
   * request is passed on with the response still open.
   */
  method CorsMiddleware(req: Request, res: Cors.ServerResponse, env: Env) returns (callsNext: bool)
    modifies res
    ensures res.headers == Cors.WithCorsHeaders(old(res.headers), AllowOrigin(req, env))
    ensures callsNext <==> req.verb != "OPTIONS"
    ensures req.verb == "OPTIONS" ==> res.status == Some(200) && res.ended
    ensures req.verb != "OPTIONS" ==> res.status == old(res.status) && res.ended == old(res.ended)
  {
    var origin := Cors.Header(req, "origin");
    if origin.Some? && origin.value in Cors.AllowedOrigins(env) {
      res.SetHeader("Access-Control-Allow-Origin", origin.value);
    }
    res.SetHeader("Access-Control-Allow-Methods", Cors.AllowMethods);
    res.SetHeader("Access-Control-Allow-Headers", Cors.AllowHeaders);
    res.SetHeader("Access-Control-Allow-Credentials", "true");
    if req.verb == "OPTIONS" {
      res.EndWith(200);
      return false;
    }
    callsNext := true;
  }

  /** `handleOptions(req, res)` (lines 40-53): the same headers plus a one-day `Max-Age`, and always 200. */
  method HandleOptions(req: Request, res: Cors.ServerResponse, env: Env)
    modifies res
    ensures res.headers == Cors.WithCorsHeaders(old(res.headers), AllowOrigin(req, env))["Access-Control-Max-Age" := Cors.MaxAge]
    ensures res.status == Some(200) && res.ended
  {
    var origin := Cors.Header(req, "origin");
    if origin.Some? && origin.value in Cors.AllowedOrigins(env) {
      res.SetHeader("Access-Control-Allow-Origin", origin.value);
    }
    res.SetHeader("Access-Control-Allow-Methods", Cors.AllowMethods);
    res.SetHeader("Access-Control-Allow-Headers", Cors.AllowHeaders);
    res.SetHeader("Access-Control-Allow-Credentials", "true");
    res.SetHeader("Access-Control-Max-Age", Cors.MaxAge);
    res.EndWith(200);
  }

  /** Every non-empty origin this middleware echoes, the newer one echoes too. */
  lemma NewerMiddlewareAllowsMore(req: Request, env: Env, hostnameOf: Cors.HostnameOf)
    requires Cors.HasHeader(req, "origin")
    ensures AllowOrigin(req, env).Some? ==> Cors.AllowOrigin(req, env, hostnameOf) == AllowOrigin(req, env)
  {
  }

  /**
   * The newer middleware echoes more: an origin that is not allowlisted but
   * names the host of a plain `Host: <name>:<port>` header is echoed by
   * module Cors and not here.
   */
  lemma SameHostOnlyInNewer(req: Request, env: Env, hostnameOf: Cors.HostnameOf, name: string, port: string)
    requires Cors.HasHeader(req, "origin") && req.headers["origin"] !in Cors.AllowedOrigins(env)
    requires "host" in req.headers && req.headers["host"] == name + ":" + port
    requires ':' !in name && !Strings.StartsWith(name, "http") && hostnameOf(req.headers["origin"]) == Some(name)
    ensures AllowOrigin(req, env).None?
    ensures Cors.AllowOrigin(req, env, hostnameOf) == Some(req.headers["origin"])
  {
    Cors.PlainHostPortIgnored(name, port);
  }
}
