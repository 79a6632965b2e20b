/**
 * The invitation links of api/referral-link.js. After the shared gate of
 * module QueryGate the handler builds three links that all carry the start
 * parameter `ref_<userId>`: the bot link, the Mini App link and a web link.
 * Module BalanceWithReferral reads that parameter back.
 */
module ReferralLink {
  import opened Basics
  import opened Strings
  import opened Json
  import opened Http
  import opened InitData
  import opened QueryString
  import opened QueryGate
  import BalanceWithReferral

  const DefaultBotUsername: string := "your_bot_username"
  const DefaultBaseUrl: string := "https://my-ai-image-editor-fc7blcgqx-ez21502s-projects.vercel.app"

  /** The start parameter of every link: `ref_` and the decimal user id. */
  function StartToken(u: int): string
  {
    "ref_" + IntToString(u)
  }

  /** The query `name=ref_<u>` of a link. */
  function StartQuery(name: string, u: int): string
  {
    name + "=" + StartToken(u)
  }

  /** The Mini App address of the bot. */
  function MiniAppBase(botUsername: string): string
  {
    "https://t.me/" + botUsername + "/my-ai-image-editor"
  }

  lemma MiniAppBaseUnqueried(botUsername: string)
    requires '?' !in botUsername
    ensures '?' !in MiniAppBase(botUsername)
  {
    assert '?' !in "https://t.me/" && '?' !in "/my-ai-image-editor";
  }

  datatype Links = Links(bot: string, miniApp: string, web: string)

  /** api/referral-link.js:57-63. */
  function LinksFor(botUsername: string, baseUrl: string, u: int): Links
  {
    Links("https://t.me/" + botUsername + "?" + StartQuery("start", u),
          MiniAppBase(botUsername) + "?" + StartQuery("startapp", u),
          baseUrl + "?" + StartQuery("startapp", u))
  }

  /** The text after the first '?' of a link: its query. */
  function QueryOf(link: string): string
  {
    if '?' in link then link[IndexOf(link, '?') + 1..] else ""
  }

  lemma QueryOfJoin(x: string, y: string)
    requires '?' !in x
    ensures QueryOf(x + "?" + y) == y
  {
    var s := x + "?" + y;
    assert s[|x|] == '?';
    assert s[IndexOf(s, '?') + 1..] == y;
  }

  /** The query `name=ref_<u>` has one parameter, `name`, whose value is `ref_<u>`. */
  lemma StartTokenParses(name: string, u: int)
    requires PlainName(name) && ' ' !in name && name != ""
    ensures Get(Parse(StartQuery(name, u)), name) == Some(StartToken(u))
  {
    var tok := StartToken(u);
    IntToStringChars(u);
    assert forall i :: 0 <= i < |tok| ==> tok[i] != '&' && tok[i] != '+' && tok[i] != '%' && tok[i] != ' ' by {
      forall i | 0 <= i < |tok| ensures tok[i] != '&' && tok[i] != '+' && tok[i] != '%' && tok[i] != ' ' {
        if i >= 4 {
          assert tok[i] == IntToString(u)[i - 4];
        }
      }
    }
    var ps: Params := [(name, tok)];
    assert Plain(ps);
    assert SpaceToPlus(name) == name;
    assert SpaceToPlus(tok) == tok;
    assert Serialize(ps) == name + "=" + tok;
    ParseSerialize(ps);
  }

  /** The two parameter names the links use are plain. */
  lemma StartNamesPlain()
    ensures PlainName("start") && ' ' !in "start"
    ensures PlainName("startapp") && ' ' !in "startapp"
  {
  }

  /** A link made of a base without '?', '?' and `name=ref_<u>` names `u` under `name`. */
  lemma LinkNamesOwner(x: string, name: string, u: int)
    requires '?' !in x && PlainName(name) && ' ' !in name && name != ""
    ensures Get(Parse(QueryOf(x + "?" + StartQuery(name, u))), name) == Some(StartToken(u))
  {
    QueryOfJoin(x, StartQuery(name, u));
    StartTokenParses(name, u);
  }

  /**
   * Every link names its owner: the query of each link, parsed, carries
   * `ref_<u>` under `start` or `startapp` (and the referral handler reads
   * that back as inviter `u`, by BalanceWithReferral.InviterOfLink). The
   * bot name and the base URL must not contain '?' themselves.
   */
  lemma BotLinkNamesOwner(botUsername: string, baseUrl: string, u: int)
    requires '?' !in botUsername
    ensures Get(Parse(QueryOf(LinksFor(botUsername, baseUrl, u).bot)), "start") == Some(StartToken(u))
  {
    var x := "https://t.me/" + botUsername;
    assert '?' !in x by { assert '?' !in "https://t.me/"; }
    StartNamesPlain();
    LinkNamesOwner(x, "start", u);
  }

  lemma MiniAppLinkNamesOwner(botUsername: string, baseUrl: string, u: int)
    requires '?' !in botUsername
    ensures Get(Parse(QueryOf(LinksFor(botUsername, baseUrl, u).miniApp)), "startapp") == Some(StartToken(u))
  {
    MiniAppBaseUnqueried(botUsername);
    StartNamesPlain();
    LinkNamesOwner(MiniAppBase(botUsername), "startapp", u);
  }

  lemma WebLinkNamesOwner(botUsername: string, baseUrl: string, u: int)
    requires '?' !in baseUrl
    ensures Get(Parse(QueryOf(LinksFor(botUsername, baseUrl, u).web)), "startapp") == Some(StartToken(u))
  {
    StartNamesPlain();
    LinkNamesOwner(baseUrl, "startapp", u);
  }

  /** api/referral-link.js:67-75: `{success: true, userId, links: {bot, miniApp, web}}`. */
  function LinksResponse(u: int, l: Links): (r: Response)
    ensures r.status == 200 && r.body.Some? && r.body.value.JObject?
    ensures Lookup(r.body.value.members, "userId") == Some(JNumber(u))
    ensures Lookup(r.body.value.members, "links")
            == Some(JObject([("bot", JString(l.bot)), ("miniApp", JString(l.miniApp)), ("web", JString(l.web))]))
  {
    var links := JObject([("bot", JString(l.bot)), ("miniApp", JString(l.miniApp)), ("web", JString(l.web))]);
    var ms := [("success", JBool(true)), ("userId", JNumber(u)), ("links", links)];
    assert Lookup(ms[2..], "links") == Some(links);
    JsonResponse(200, JObject(ms))
  }

  /**
   * The handler: an admitted caller gets the links built from
   * `TELEGRAM_BOT_USERNAME` and `APP_BASE_URL`, with their defaults; every
   * other request gets the gate's answer, which is no answer at all for a
   * repeated `initData`. Only the admitted caller gets a 200 with a body.
   */
  function Handle(req: Request, env: Env, mac: Mac, parse: JsonParser): (r: Reply)
    ensures r.Sent? && r.response.status == 200 && r.response.body.Some? <==> Admitted(req, env, mac, parse).Some?
    ensures Admitted(req, env, mac, parse).None? ==> r == EarlyReply(req, env, mac, parse)
    ensures Admitted(req, env, mac, parse).Some? ==>
      var u := Admitted(req, env, mac, parse).value;
      r == Sent(LinksResponse(u, LinksFor(EnvOr(env, "TELEGRAM_BOT_USERNAME", DefaultBotUsername),
                                          EnvOr(env, "APP_BASE_URL", DefaultBaseUrl), u)))
  {
    var admitted := Admitted(req, env, mac, parse);
    if admitted.None? then
      var r := EarlyReply(req, env, mac, parse);
      assert r.Sent? && r.response.status == 200 ==> r.response.body.None? by {
        if req.verb == "GET" {
          assert Gate(QueryParam(req, "initData"), EnvVar(env, "TELEGRAM_BOT_TOKEN"), mac, parse) == Err(r);
        }
      }
      r
    else
      var u := admitted.value;
      Sent(LinksResponse(u, LinksFor(EnvOr(env, "TELEGRAM_BOT_USERNAME", DefaultBotUsername),
                                     EnvOr(env, "APP_BASE_URL", DefaultBaseUrl), u)))
  }

  /** With the default bot name, a caller's Mini App link brings every other caller back to them as inviter. */
  lemma DefaultMiniAppLinkNamesOwner(baseUrl: string, u: int, caller: int)
    requires u != 0 && u != caller
    ensures BalanceWithReferral.InviterOf(Get(Parse(QueryOf(LinksFor(DefaultBotUsername, baseUrl, u).miniApp)), "startapp"), caller)
            == Some(u)
  {
    MiniAppLinkNamesOwner(DefaultBotUsername, baseUrl, u);
    BalanceWithReferral.InviterOfLink(u, caller);
  }
}
