/**
 * The CORS middleware of api/_cors.js: it echoes the request's `Origin` in
 * `Access-Control-Allow-Origin` for a same-host request or an allowlisted
 * origin, always sets the method, header and credential headers, and ends a
 * preflight with 200 instead of passing it on.
 *
 * The response object is a class whose header map `setHeader` updates;
 * `next` is the method's result. The platform URL parser is a parameter
 * that gives a URL's hostname, or `None` when `new URL` throws.
 */
module Cors {
  import opened Basics
  import opened Strings
  import opened Http
  import QueryString

  /** `new URL(s).hostname`, or `None` when the constructor throws. */
  type HostnameOf = string -> Option<string>

  const AllowMethods: string := "GET, POST, OPTIONS"
  const AllowHeaders: string := "Content-Type, Authorization"
  const MaxAge: string := "86400"

  /** The four local development origins that follow the configured ones. */
  const LocalOrigins: seq<string> :=
    ["http://localhost:3000", "http://localhost:5173", "http://127.0.0.1:3000", "http://127.0.0.1:5173"]

  /** `ALLOWED_ORIGINS`: the comma-separated `ALLOWED_ORIGINS` variable, if set, then the local origins. */
  function AllowedOrigins(env: Env): (origins: seq<string>)
    ensures |origins| >= |LocalOrigins| && origins[|origins| - |LocalOrigins|..] == LocalOrigins
    ensures EnvSet(env, "ALLOWED_ORIGINS") ==> origins[..|origins| - |LocalOrigins|] == Split(env["ALLOWED_ORIGINS"], ',')
    ensures !EnvSet(env, "ALLOWED_ORIGINS") ==> origins == LocalOrigins
  {
    (if EnvSet(env, "ALLOWED_ORIGINS") then Split(env["ALLOWED_ORIGINS"], ',') else []) + LocalOrigins
  }

  /** A configured origin is allowed, and so are the local ones. */
  lemma ConfiguredOriginsAllowed(env: Env, o: string)
    requires (EnvSet(env, "ALLOWED_ORIGINS") && o in Split(env["ALLOWED_ORIGINS"], ',')) || o in LocalOrigins
    ensures o in AllowedOrigins(env)
  {
    var origins := AllowedOrigins(env);
    var n := |origins| - |LocalOrigins|;
    if o in LocalOrigins {
      var i :| 0 <= i < |LocalOrigins| && LocalOrigins[i] == o;
      assert origins[n + i] == origins[n..][i];
    } else {
      var parts := Split(env["ALLOWED_ORIGINS"], ',');
      var i :| 0 <= i < |parts| && parts[i] == o;
      assert origins[i] == origins[..n][i];
    }
  }

  /** A request header, `None` when absent. */
  function Header(req: Request, name: string): Option<string>
  {
    if name in req.headers then Some(req.headers[name]) else None
  }

  /** A header that is present and not empty (truthy). */
  predicate HasHeader(req: Request, name: string)
  {
    name in req.headers && req.headers[name] != ""
  }

  /** The hostname of the `Host` header: URL-parsed when it starts with `http`, otherwise the text before its first ':'. */
  function HostHostname(host: string, hostnameOf: HostnameOf): Option<string>
  {
    if StartsWith(host, "http") then hostnameOf(host) else Some(Split(host, ':')[0])
  }

  /**
   * `isSameOrigin(req)` (lines 16-40): a request without an `Origin` header
   * counts as same-origin; otherwise the origin's hostname must equal the
   * host's, and a URL that does not parse fails the test.
   */
  predicate IsSameOrigin(req: Request, hostnameOf: HostnameOf)
  {
    !HasHeader(req, "origin")
    || (HasHeader(req, "host")
        && hostnameOf(req.headers["origin"]).Some?
        && HostHostname(req.headers["host"], hostnameOf) == Some(hostnameOf(req.headers["origin"]).value))
  }

  /** Same-origin with an `Origin` header means a `Host` header whose hostname matches the origin's. */
  lemma SameOriginIff(req: Request, hostnameOf: HostnameOf)
    requires HasHeader(req, "origin")
    ensures IsSameOrigin(req, hostnameOf) <==>
      HasHeader(req, "host") && hostnameOf(req.headers["origin"]).Some?
      && HostHostname(req.headers["host"], hostnameOf) == hostnameOf(req.headers["origin"])
  {
  }

  /** A plain `Host` header names its hostname before the port. */
  lemma PlainHostPortIgnored(name: string, port: string)
    requires ':' !in name && !StartsWith(name, "http")
    ensures forall hostnameOf: HostnameOf :: HostHostname(name + ":" + port, hostnameOf) == Some(name)
  {
    var host := name + ":" + port;
    assert !StartsWith(host, "http") by {
      if |name| >= 4 { assert host[..4] == name[..4]; } else { assert host[|name|] == ':'; }
    }
    QueryString.SplitAtFirst(name, ':', port);
    assert name + ":" + port == name + [':'] + port;
  }

  /** Lines 49-56 and 78-85: the origin to echo, if any. */
  function AllowOrigin(req: Request, env: Env, hostnameOf: HostnameOf): (r: Option<string>)
    ensures r.Some? <==> HasHeader(req, "origin") && (IsSameOrigin(req, hostnameOf) || req.headers["origin"] in AllowedOrigins(env))
    ensures r.Some? ==> r == Header(req, "origin")
  {
    if IsSameOrigin(req, hostnameOf) then
      if HasHeader(req, "origin") then Some(req.headers["origin"]) else None
    else if HasHeader(req, "origin") && req.headers["origin"] in AllowedOrigins(env) then Some(req.headers["origin"])
    else None
  }

  const CorsHeaderNames: set<string> :=
    {"Access-Control-Allow-Origin", "Access-Control-Allow-Methods", "Access-Control-Allow-Headers", "Access-Control-Allow-Credentials"}

  /** The CORS headers a response carries after the middleware, over the headers it had. */
  function WithCorsHeaders(headers: map<string, string>, allow: Option<string>): (r: map<string, string>)
    ensures "Access-Control-Allow-Methods" in r && r["Access-Control-Allow-Methods"] == AllowMethods
    ensures "Access-Control-Allow-Headers" in r && r["Access-Control-Allow-Headers"] == AllowHeaders
    ensures "Access-Control-Allow-Credentials" in r && r["Access-Control-Allow-Credentials"] == "true"
    ensures allow.Some? ==> "Access-Control-Allow-Origin" in r && r["Access-Control-Allow-Origin"] == allow.value
    ensures forall k :: k in headers && k !in CorsHeaderNames ==> k in r && r[k] == headers[k]
    ensures allow.None? ==> ("Access-Control-Allow-Origin" in r <==> "Access-Control-Allow-Origin" in headers)
                            && ("Access-Control-Allow-Origin" in r ==> r["Access-Control-Allow-Origin"] == headers["Access-Control-Allow-Origin"])
  {
    var h := if allow.Some? then headers["Access-Control-Allow-Origin" := allow.value] else headers;
    h["Access-Control-Allow-Methods" := AllowMethods]["Access-Control-Allow-Headers" := AllowHeaders]
     ["Access-Control-Allow-Credentials" := "true"]
  }

  /** The response the middleware writes to: its headers, its status once set, and whether it was ended. */
  class ServerResponse {
    var headers: map<string, string>
    var status: Option<int>
    var ended: bool

    constructor()
      ensures headers == map[] && status.None? && !ended
    {
      headers := map[];
      status := None;
      ended := false;
    }

    /** `res.setHeader(name, value)`. */
    method SetHeader(name: string, value: string)
      modifies this
      ensures headers == old(headers)[name := value] && status == old(status) && ended == old(ended)
    {
      headers := headers[name := value];
    }

    /** `res.status(code).end()`. */
    method EndWith(code: int)
      modifies this
      ensures headers == old(headers) && status == Some(code) && ended
    {
      status := Some(code);
      ended := true;
    }
  }

  /** Lines 49-61 and 78-89: the origin header if allowed, then the three fixed headers. */
  method SetCorsHeaders(req: Request, res: ServerResponse, env: Env, hostnameOf: HostnameOf)
    modifies res
    ensures res.headers == WithCorsHeaders(old(res.headers), AllowOrigin(req, env, hostnameOf))
    ensures res.status == old(res.status) && res.ended == old(res.ended)
  {
    var origin := Header(req, "origin");
    if IsSameOrigin(req, hostnameOf) {
      if HasHeader(req, "origin") {
        res.SetHeader("Access-Control-Allow-Origin", origin.value);
      }
    } else if HasHeader(req, "origin") && origin.value in AllowedOrigins(env) {
      res.SetHeader("Access-Control-Allow-Origin", origin.value);
    }
    res.SetHeader("Access-Control-Allow-Methods", AllowMethods);
    res.SetHeader("Access-Control-Allow-Headers", AllowHeaders);
    res.SetHeader("Access-Control-Allow-Credentials", "true");
  }

  /**
   * `corsMiddleware(req, res, next)`: the CORS headers are set; a preflight
   * is ended with 200 and `next` is not called, any other request is passed
   * on exactly once with the response still open.
   */
  method CorsMiddleware(req: Request, res: ServerResponse, env: Env, hostnameOf: HostnameOf) returns (callsNext: bool)
    modifies res
    ensures res.headers == WithCorsHeaders(old(res.headers), AllowOrigin(req, env, hostnameOf))
    ensures callsNext <==> req.verb != "OPTIONS"
    ensures req.verb == "OPTIONS" ==> res.status == Some(200) && res.ended
    ensures req.verb != "OPTIONS" ==> res.status == old(res.status) && res.ended == old(res.ended)
  {
    SetCorsHeaders(req, res, env, hostnameOf);
    if req.verb == "OPTIONS" {
      res.EndWith(200);
      return false;
    }
    callsNext := true;
  }

  /** `handleOptions(req, res)`: the same headers plus a one-day `Max-Age`, and always 200. */
  method HandleOptions(req: Request, res: ServerResponse, env: Env, hostnameOf: HostnameOf)
    modifies res
    ensures res.headers == WithCorsHeaders(old(res.headers), AllowOrigin(req, env, hostnameOf))["Access-Control-Max-Age" := MaxAge]
    ensures res.status == Some(200) && res.ended
  {
    SetCorsHeaders(req, res, env, hostnameOf);
    res.SetHeader("Access-Control-Max-Age", MaxAge);
    res.EndWith(200);
  }

  /** Without an `Origin` header no origin is echoed. */
  lemma NoOriginNoEcho(req: Request, env: Env, hostnameOf: HostnameOf)
    requires !HasHeader(req, "origin")
    ensures AllowOrigin(req, env, hostnameOf).None?
  {
  }

  /** A cross-host origin is echoed exactly when it is allowlisted. */
  lemma CrossOriginNeedsAllowlist(req: Request, env: Env, hostnameOf: HostnameOf)
    requires HasHeader(req, "origin") && !IsSameOrigin(req, hostnameOf)
    ensures AllowOrigin(req, env, hostnameOf).Some? <==> req.headers["origin"] in AllowedOrigins(env)
  {
  }
}
