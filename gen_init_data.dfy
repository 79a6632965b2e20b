/**
 * The development signer of scripts/gen-initdata.js: it builds the initData
 * a Telegram client would send for a test user, signed with the bot token,
 * so that the handlers accept it. The clock (`now`, in milliseconds) is a
 * parameter; the output is what the script prints.
 */
module GenInitData {
  import opened Basics
  import opened Strings
  import opened Json
  import opened QueryString
  import opened Http
  import opened InitData

  const DefaultTestUserId: int := 1740576312

  /** Line 10: `Number(process.env.TEST_USER_ID || 1740576312)`. */
  function TestUserId(env: Env): Num
  {
    if EnvSet(env, "TEST_USER_ID") then
      var n := StringToNumber(env["TEST_USER_ID"]);
      if n.Some? then Int(n.value) else NaN
    else Int(DefaultTestUserId)
  }

  /** `JSON.stringify` writes `NaN` as `null`. */
  function NumJson(n: Num): Json
  {
    if n.Int? then JNumber(n.i) else JNull
  }

  /** Lines 9-13: the test user. */
  function TestUser(id: Num): Json
  {
    JObject([("id", NumJson(id)), ("first_name", JString("Test")), ("username", JString("test_user"))])
  }

  // ---------------------------------------------------------------------
  // The printed text reads back as written

  /** Two texts free of '&', '+' and '%' stay so when joined. */
  lemma PlainConcat(a: string, b: string)
    requires PlainValue(a) && PlainValue(b)
    ensures PlainValue(a + b)
  {
    forall c | c in a + b ensures c != '&' && c != '+' && c != '%' {
      var i :| 0 <= i < |a + b| && (a + b)[i] == c;
      if i < |a| { assert a[i] in a; } else { assert b[i - |a|] in b; }
    }
  }

  lemma EscapeCharPlain(c: char)
    requires c != '&' && c != '+' && c != '%'
    ensures PlainValue(EscapeChar(c))
  {
    if c < ' ' && !(c == '\U{8}' || c == '\U{C}' || c == '\n' || c == '\r' || c == '\t') {
      var e := EscapeChar(c);
      assert e == "\\u00" + [HexDigits[c as int / 16], HexDigits[c as int % 16]];
      assert HexDigits[c as int / 16] in HexDigits && HexDigits[c as int % 16] in HexDigits;
      assert PlainValue("\\u00");
      PlainConcat("\\u00", [HexDigits[c as int / 16], HexDigits[c as int % 16]]);
    }
  }

  lemma {:induction false} EscapePlain(s: string)
    requires PlainValue(s)
    ensures PlainValue(Escape(s))
  {
    if s != [] {
      assert s[0] in s;
      assert forall c | c in s[1..] :: c in s;
      EscapePlain(s[1..]);
      EscapeCharPlain(s[0]);
      PlainConcat(EscapeChar(s[0]), Escape(s[1..]));
    }
  }

  lemma {:induction false} JoinPlain(parts: seq<string>, sep: string)
    requires PlainValue(sep) && forall i :: 0 <= i < |parts| ==> PlainValue(parts[i])
    ensures PlainValue(Join(parts, sep))
  {
    if |parts| > 1 {
      JoinPlain(parts[1..], sep);
      PlainConcat(parts[0], sep);
      PlainConcat(parts[0] + sep, Join(parts[1..], sep));
    }
  }

  lemma NumberPlain(n: int)
    ensures PlainValue(IntToString(n))
  {
    IntToStringChars(n);
  }

  lemma QuotePlain(s: string)
    requires PlainValue(s)
    ensures PlainValue(Quote(s))
  {
    EscapePlain(s);
    PlainConcat("\"", Escape(s));
    PlainConcat("\"" + Escape(s), "\"");
  }

  /** One `"name":value` member of an object with plain name and plain value text. */
  lemma MemberPlain(name: string, v: Json)
    requires PlainValue(name) && PlainValue(Stringify(v))
    ensures PlainValue(Quote(name) + ":" + Stringify(v))
  {
    QuotePlain(name);
    PlainConcat(Quote(name), ":");
    PlainConcat(Quote(name) + ":", Stringify(v));
  }

  /** An object whose members are plain text is plain text. */
  lemma ObjectPlain(ms: seq<(string, Json)>)
    requires forall i :: 0 <= i < |ms| ==> PlainValue(Quote(ms[i].0) + ":" + Stringify(ms[i].1))
    ensures PlainValue(Stringify(JObject(ms)))
  {
    var items := seq(|ms|, i requires 0 <= i < |ms| => Quote(ms[i].0) + ":" + Stringify(ms[i].1));
    JoinPlain(items, ",");
    PlainConcat("{", Join(items, ","));
    PlainConcat("{" + Join(items, ","), "}");
  }

  /** An object of a number and two strings, all names and strings plain, is plain text. */
  lemma UserShapePlain(k0: string, id: Num, k1: string, s1: string, k2: string, s2: string)
    requires PlainValue(k0) && PlainValue(k1) && PlainValue(s1) && PlainValue(k2) && PlainValue(s2)
    ensures PlainValue(Stringify(JObject([(k0, NumJson(id)), (k1, JString(s1)), (k2, JString(s2))])))
  {
    var ms := [(k0, NumJson(id)), (k1, JString(s1)), (k2, JString(s2))];
    if id.Int? { NumberPlain(id.i); }
    MemberPlain(k0, NumJson(id));
    QuotePlain(s1);
    MemberPlain(k1, JString(s1));
    QuotePlain(s2);
    MemberPlain(k2, JString(s2));
    ObjectPlain(ms);
  }

  /** The user text has no '&', '+' or '%', so the query string carries it unchanged. */
  lemma TestUserPlain(id: Num)
    ensures PlainValue(Stringify(TestUser(id)))
  {
    UserShapePlain("id", id, "first_name", "Test", "username", "test_user");
  }

  lemma HexPlain(d: seq<byte>)
    ensures PlainValue(Hex(d))
  {
    var h := Hex(d);
    forall i | 0 <= i < |h| ensures h[i] != '&' && h[i] != '+' && h[i] != '%' {
      assert h[i] in HexDigits;
    }
  }

  // ---------------------------------------------------------------------
  // The signer

  /** The pairs before `hash` is set: `auth_date` (seconds), `query_id` and `user`. */
  function Unsigned(authDate: string, user: string): (ps: Params)
    ensures Keys(ps) == ["auth_date", "query_id", "user"]
  {
    [("auth_date", authDate), ("query_id", "AAEAAA"), ("user", user)]
  }

  /** Removing a name the pairs lack, from behind them, leaves them as they were. */
  lemma {:induction false} DeleteAppended(ps: Params, k: string, v: string)
    requires k !in Keys(ps)
    ensures Delete(ps + [(k, v)], k) == ps
  {
    if ps == [] {
      assert [(k, v)][1..] == [];
    } else {
      assert Keys(ps)[0] == ps[0].0;
      assert (ps + [(k, v)])[1..] == ps[1..] + [(k, v)];
      DeleteAppended(ps[1..], k, v);
    }
  }

  /** The hash the signer appends: the MAC of the check string of the pairs before it. */
  function Signature(unsigned: Params, token: string, mac: Mac): (h: string)
    ensures PlainValue(h)
  {
    var d := mac(SecretKey(token, mac), CheckString(unsigned));
    HexPlain(d);
    Hex(d)
  }

  /**
   * Appending `hash` signed over plain pairs that lack it gives text that
   * parses back to the same pairs and passes the signature check.
   */
  lemma SignedVerifies(unsigned: Params, token: string, mac: Mac)
    requires Plain(unsigned) && "hash" !in Keys(unsigned)
    ensures var ps := unsigned + [("hash", Signature(unsigned, token, mac))];
      Parse(Serialize(ps)) == ps && VerifyInitData(Serialize(ps), token, mac)
  {
    var h := Signature(unsigned, token, mac);
    var ps := unsigned + [("hash", h)];
    PlainWithHash(unsigned, h);
    ParseSerialize(ps);
    SignedPairsVerify(unsigned, token, mac);
  }

  /** Appending a plain `hash` pair to plain pairs keeps them plain. */
  lemma PlainWithHash(unsigned: Params, h: string)
    requires Plain(unsigned) && PlainValue(h)
    ensures Plain(unsigned + [("hash", h)])
  {
    var ps := unsigned + [("hash", h)];
    forall i | 0 <= i < |ps| ensures PlainName(ps[i].0) && PlainValue(ps[i].1) {
      if i < |unsigned| { assert ps[i] == unsigned[i]; }
    }
  }

  /** The pairs with the appended signature pass the check on pairs. */
  lemma SignedPairsVerify(unsigned: Params, token: string, mac: Mac)
    requires "hash" !in Keys(unsigned)
    ensures VerifyPairs(unsigned + [("hash", Signature(unsigned, token, mac))], token, mac)
  {
    var h := Signature(unsigned, token, mac);
    var ps := unsigned + [("hash", h)];
    DeleteAppended(unsigned, "hash", h);
    GetAppend(unsigned, [("hash", h)], "hash");
    assert Get(ps, "hash") == Some(h);
  }

  /**
   * Lines 3-26 with the bot token of `env`. A missing token prints nothing
   * (the script exits). Otherwise the printed initData carries exactly
   * `auth_date`, `query_id`, `user` and `hash`, in that order, and
   * `verifyInitData` accepts it with that token: the round trip with the
   * check of server/api/_shared.js. With a `JSON.parse` that reads the
   * user text back, `getUserIdFromInitData` gives the test user's id.
   */
  method Sign(env: Env, now: int, mac: Mac, parse: JsonParser) returns (out: Option<string>)
    ensures out.None? <==> !EnvSet(env, "TELEGRAM_BOT_TOKEN")
    ensures out.Some? ==> VerifyInitData(out.value, env["TELEGRAM_BOT_TOKEN"], mac)
    ensures out.Some? ==> Keys(Parse(out.value)) == ["auth_date", "query_id", "user", "hash"]
    ensures out.Some? ==> Get(Parse(out.value), "user") == Some(Stringify(TestUser(TestUserId(env))))
    ensures out.Some? && parse(Stringify(TestUser(TestUserId(env)))) == Some(TestUser(TestUserId(env))) ==>
      GetUserIdFromInitData(out.value, parse) == if IdIsTruthy(Some(TestUserId(env))) then Some(TestUserId(env)) else None
  {
    if !EnvSet(env, "TELEGRAM_BOT_TOKEN") {
      return None;
    }
    var token := env["TELEGRAM_BOT_TOKEN"];
    var user := Stringify(TestUser(TestUserId(env)));
    var authDate := IntToString(now / 1000);
    var params: Params := [];
    params := SetParam(params, "auth_date", authDate);
    params := SetParam(params, "query_id", "AAEAAA");
    params := SetParam(params, "user", user);
    assert params == Unsigned(authDate, user);
    var keys := Sort(Keys(params));
    var dataCheckString := Join(CheckLines(params, keys), "\n");
    var secret := mac(WebAppDataKey, token);
    var hmac := Hex(mac(secret, dataCheckString));
    assert hmac == Signature(params, token, mac);
    params := SetParam(params, "hash", hmac);
    out := Some(Serialize(params));
    NumberPlain(now / 1000);
    TestUserPlain(TestUserId(env));
    SignedParts(authDate, user, token, mac);
    if parse(user) == Some(TestUser(TestUserId(env))) {
      SignedUserReadsBack(env, out.value, parse);
    }
  }

  /** The signed pairs of `Sign`, parsed back. */
  lemma SignedParts(authDate: string, user: string, token: string, mac: Mac)
    requires PlainValue(authDate) && PlainValue(user)
    ensures var ps := Unsigned(authDate, user) + [("hash", Signature(Unsigned(authDate, user), token, mac))];
      VerifyInitData(Serialize(ps), token, mac)
      && Keys(Parse(Serialize(ps))) == ["auth_date", "query_id", "user", "hash"]
      && Get(Parse(Serialize(ps)), "user") == Some(user)
  {
    var unsigned := Unsigned(authDate, user);
    assert Plain(unsigned);
    SignedVerifies(unsigned, token, mac);
    SignedPairs(authDate, user, Signature(unsigned, token, mac));
  }

  lemma SignedPairs(authDate: string, user: string, h: string)
    ensures Keys(Unsigned(authDate, user) + [("hash", h)]) == ["auth_date", "query_id", "user", "hash"]
    ensures Get(Unsigned(authDate, user) + [("hash", h)], "user") == Some(user)
  {
    var ps := Unsigned(authDate, user) + [("hash", h)];
    assert |ps| == 4 && ps[0].0 == "auth_date" && ps[1].0 == "query_id" && ps[2].0 == "user" && ps[3].0 == "hash";
    GetAppend(Unsigned(authDate, user), [("hash", h)], "user");
  }

  /**
   * The signed user reads back: with a `JSON.parse` that inverts
   * `JSON.stringify` on the user text, the id the handlers extract is the
   * test user's id (null when that id is 0 or `NaN`).
   */
  lemma SignedUserReadsBack(env: Env, initData: string, parse: JsonParser)
    requires Get(Parse(initData), "user") == Some(Stringify(TestUser(TestUserId(env))))
    requires parse(Stringify(TestUser(TestUserId(env)))) == Some(TestUser(TestUserId(env)))
    ensures GetUserIdFromInitData(initData, parse) == if IdIsTruthy(Some(TestUserId(env))) then Some(TestUserId(env)) else None
  {
    var id := TestUserId(env);
    var ms := [("id", NumJson(id)), ("first_name", JString("Test")), ("username", JString("test_user"))];
    assert Lookup(ms, "id") == Some(NumJson(id));
    assert Stringify(TestUser(id)) != "" by {
      assert Stringify(TestUser(id))[0] == '{';
    }
  }

  /** With the default id the signed initData admits user 1740576312. */
  lemma DefaultUserAdmitted(env: Env, initData: string, parse: JsonParser)
    requires !EnvSet(env, "TEST_USER_ID")
    requires Get(Parse(initData), "user") == Some(Stringify(TestUser(TestUserId(env))))
    requires parse(Stringify(TestUser(TestUserId(env)))) == Some(TestUser(TestUserId(env)))
    ensures GetUserIdFromInitData(initData, parse) == Some(Int(DefaultTestUserId))
  {
    SignedUserReadsBack(env, initData, parse);
  }
}
