/**
 * Telegram Web App initData: the signature check `verifyInitData`, the user
 * id and start-parameter readers (server/api/_shared.js).
 *
 * HMAC-SHA256 (RFC 2104, section 2) is not re-derived: it is the parameter
 * `mac`, an arbitrary function from a key and a message to 32 bytes, so every
 * property below holds for whatever function the platform supplies.
 */
module InitData {
  import opened Basics
  import opened Strings
  import opened Json
  import opened QueryString

  type byte = b: int | 0 <= b < 256

  type Digest = s: seq<byte> | |s| == 32 witness seq(32, _ => 0)

  /** HMAC-SHA256 of a message (its UTF-8 bytes) under a key. */
  type Mac = (seq<byte>, string) -> Digest

  /** The key "WebAppData" as bytes. */
  const WebAppDataKey: seq<byte> := [87, 101, 98, 65, 112, 112, 68, 97, 116, 97]

  /** `digest('hex')`: two lower-case hex digits per byte. */
  function Hex(d: seq<byte>): (h: string)
    ensures |h| == 2 * |d|
    ensures forall i :: 0 <= i < |h| ==> h[i] in HexDigits
  {
    if d == [] then [] else [HexDigits[d[0] / 16], HexDigits[d[0] % 16]] + Hex(d[1..])
  }

  lemma HexDigitsDistinct(i: nat, j: nat)
    requires i < 16 && j < 16 && HexDigits[i] == HexDigits[j]
    ensures i == j
  {
  }

  /** Distinct digests have distinct hex renderings. */
  lemma {:induction false} HexInjective(a: seq<byte>, b: seq<byte>)
    requires Hex(a) == Hex(b)
    ensures a == b
  {
    if a != [] {
      var h := Hex(a);
      assert h[0] == HexDigits[a[0] / 16] == HexDigits[b[0] / 16];
      assert h[1] == HexDigits[a[0] % 16] == HexDigits[b[0] % 16];
      HexDigitsDistinct(a[0] / 16, b[0] / 16);
      HexDigitsDistinct(a[0] % 16, b[0] % 16);
      assert a[0] == b[0];
      assert h[2..] == Hex(a[1..]) == Hex(b[1..]);
      HexInjective(a[1..], b[1..]);
      assert a == [a[0]] + a[1..] && b == [b[0]] + b[1..];
    }
  }

  /** One line of the check string: the name and the FIRST value recorded under it. */
  function CheckLine(ps: Params, k: string): string
  {
    k + "=" + Get(ps, k).GetOr("")
  }

  function CheckLines(ps: Params, ks: seq<string>): (lines: seq<string>)
    ensures |lines| == |ks|
    ensures forall i :: 0 <= i < |ks| ==> lines[i] == CheckLine(ps, ks[i])
  {
    if ks == [] then [] else [CheckLine(ps, ks[0])] + CheckLines(ps, ks[1..])
  }

  /** The data-check string: the sorted names, each as `name=value`, joined with newlines. */
  function CheckString(ps: Params): string
  {
    Join(CheckLines(ps, Sort(Keys(ps))), "\n")
  }

  /** `HMAC("WebAppData", token)`. */
  function SecretKey(token: string, mac: Mac): Digest
  {
    mac(WebAppDataKey, token)
  }

  /** The hash a genuine initData carries, computed over every pair except `hash`. */
  function ExpectedHash(ps: Params, token: string, mac: Mac): (h: string)
    ensures |h| == 64
  {
    Hex(mac(SecretKey(token, mac), CheckString(Delete(ps, "hash"))))
  }

  /** The signature check on the pairs: `hash` must be present and equal the expected hash. */
  function VerifyPairs(ps: Params, token: string, mac: Mac): (ok: bool)
    ensures ok ==> "hash" in Keys(ps) && |Get(ps, "hash").value| == 64
  {
    Get(ps, "hash") == Some(ExpectedHash(ps, token, mac))
  }

  /**
   * `verifyInitData(initData, token)` for a string: nothing in it can throw,
   * so its catch is never taken.
   */
  function VerifyInitData(initData: string, token: string, mac: Mac): (ok: bool)
    ensures ok ==> "hash" in Keys(Parse(initData))
    ensures ok ==> |Get(Parse(initData), "hash").value| == 64
  {
    VerifyPairs(Parse(initData), token, mac)
  }

  /**
   * `new URLSearchParams(v)` for any value: an array must hold two-element
   * arrays (anything else throws, `None`), an object gives its members with
   * their values converted by `String`, and any other value is converted by
   * `String` and parsed as text (so `null` reads as the text "null").
   */
  function InitPairs(v: Json): (r: Option<Params>)
    ensures v.JString? ==> r == Some(Parse(v.s))
    ensures v.JObject? ==> r.Some? && Keys(r.value) == seq(|v.members|, i requires 0 <= i < |v.members| => v.members[i].0)
  {
    match v
    case JArray(es) =>
      if forall i :: 0 <= i < |es| ==> es[i].JArray? && |es[i].elems| == 2 then
        Some(seq(|es|, i requires 0 <= i < |es| && es[i].JArray? && |es[i].elems| == 2 =>
          (Str(es[i].elems[0]), Str(es[i].elems[1]))))
      else None
    case JObject(ms) => Some(seq(|ms|, i requires 0 <= i < |ms| => (ms[i].0, Str(ms[i].1))))
    case _ => Some(Parse(Str(v)))
  }

  /** `verifyInitData(v, token)` for any value: a constructor that throws is caught and gives false. */
  function VerifyInitDataValue(v: Json, token: string, mac: Mac): (ok: bool)
    ensures v.JString? ==> ok == VerifyInitData(v.s, token, mac)
    ensures ok ==> InitPairs(v).Some?
  {
    var ps := InitPairs(v);
    ps.Some? && VerifyPairs(ps.value, token, mac)
  }

  /**
   * Two pair lists that carry the same hash and both verify have check
   * strings on which the MAC collides: forging a signature for altered data
   * needs a collision of the MAC.
   */
  lemma ForgeryNeedsCollision(a: Params, b: Params, token: string, mac: Mac)
    requires VerifyPairs(a, token, mac) && VerifyPairs(b, token, mac)
    requires Get(a, "hash") == Get(b, "hash")
    ensures mac(SecretKey(token, mac), CheckString(Delete(a, "hash")))
         == mac(SecretKey(token, mac), CheckString(Delete(b, "hash")))
  {
    HexInjective(mac(SecretKey(token, mac), CheckString(Delete(a, "hash"))),
                 mac(SecretKey(token, mac), CheckString(Delete(b, "hash"))));
  }

  /** A signature made under one token verifies under another only if their MAC outputs collide. */
  lemma WrongTokenNeedsCollision(ps: Params, token: string, other: string, mac: Mac)
    requires VerifyPairs(ps, token, mac) && VerifyPairs(ps, other, mac)
    ensures var cs := CheckString(Delete(ps, "hash"));
            mac(SecretKey(token, mac), cs) == mac(SecretKey(other, mac), cs)
  {
    var cs := CheckString(Delete(ps, "hash"));
    HexInjective(mac(SecretKey(token, mac), cs), mac(SecretKey(other, mac), cs));
  }

  lemma CheckLinesAgree(ps: Params, qs: Params, ks: seq<string>)
    requires forall k :: Get(ps, k) == Get(qs, k)
    ensures CheckLines(ps, ks) == CheckLines(qs, ks)
  {
  }

  /**
   * The check string depends only on which names occur (with multiplicity)
   * and on each name's first value, not on the order of the pairs.
   */
  lemma CheckStringIgnoresOrder(ps: Params, qs: Params)
    requires multiset(Keys(ps)) == multiset(Keys(qs))
    requires forall k :: Get(ps, k) == Get(qs, k)
    ensures CheckString(ps) == CheckString(qs)
  {
    SortPermutation(Keys(ps), Keys(qs));
    CheckLinesAgree(ps, qs, Sort(Keys(ps)));
  }

  /** A name given twice contributes two lines, both with its first value. */
  lemma DuplicateNameUsesFirstValue()
    ensures CheckString([("a", "1"), ("a", "2")]) == "a=1\na=1"
  {
    var ps := [("a", "1"), ("a", "2")];
    assert Keys(ps) == ["a", "a"];
    LessEqReflexive("a");
    assert Sort(["a", "a"]) == ["a", "a"] by {
      assert Sort(["a"]) == ["a"];
      assert Insert("a", ["a"]) == ["a", "a"];
    }
    assert Get(ps, "a") == Some("1");
    assert CheckLine(ps, "a") == "a=1";
    assert CheckLines(ps, ["a", "a"]) == ["a=1", "a=1"];
    assert Join(["a=1", "a=1"], "\n") == "a=1" + "\n" + Join(["a=1"], "\n");
  }

  /**
   * `getUserIdFromInitData` on the pairs: `Number(user.id)` when the `user`
   * value parses and carries a truthy `id`; `None` (null) otherwise. The
   * number may be `NaN` (an `id` such as `"abc"`), which callers treat as falsy.
   */
  function UserIdOfPairs(ps: Params, parse: JsonParser): (r: Option<Num>)
    ensures var u := Get(ps, "user");
      r.Some? <==> u.Some? && u.value != "" && parse(u.value).Some? && Truthy(parse(u.value).value)
                   && IsTruthy(Field(parse(u.value), "id"))
    ensures r.Some? ==> r.value == ToNumber(Field(parse(Get(ps, "user").value), "id"))
  {
    var userJson := Get(ps, "user");
    if userJson.None? || userJson.value == "" then None
    else
      var user := parse(userJson.value);
      if user.None? || !Truthy(user.value) then None
      else
        var id := Field(user, "id");
        if IsTruthy(id) then Some(ToNumber(id)) else None
  }

  /** `getUserIdFromInitData(initData)` for a string. */
  function GetUserIdFromInitData(initData: string, parse: JsonParser): (r: Option<Num>)
    ensures r.Some? ==> Get(Parse(initData), "user").Some?
  {
    UserIdOfPairs(Parse(initData), parse)
  }

  /** A user object with a numeric id yields that id, unless it is 0, which yields null. */
  lemma UserIdOfNumericId(ps: Params, parse: JsonParser, ms: seq<(string, Json)>, n: int)
    requires Get(ps, "user").Some? && Get(ps, "user").value != ""
    requires parse(Get(ps, "user").value) == Some(JObject(ms))
    requires Lookup(ms, "id") == Some(JNumber(n))
    ensures UserIdOfPairs(ps, parse) == if n == 0 then None else Some(Int(n))
  {
  }

  /** `getUserIdFromInitData(v)` for a value whose constructor does not throw (the only kind that verifies). */
  function UserIdOfValue(v: Json, parse: JsonParser): (r: Option<Num>)
    requires InitPairs(v).Some?
    ensures v.JString? ==> r == GetUserIdFromInitData(v.s, parse)
  {
    UserIdOfPairs(InitPairs(v).value, parse)
  }

  /** A user id is usable when it is a number other than 0 (`NaN`, 0 and null are falsy). */
  predicate IdIsTruthy(u: Option<Num>)
  {
    u.Some? && u.value.Int? && u.value.i != 0
  }

  /** Where the shared token, signature and user-id checks stop, or the user they admit. */
  datatype Auth = NoToken | BadSignature | NoUser | User(id: int)

  /**
   * The three checks every authenticated handler makes in this order: a
   * bot token is configured, `verifyInitData` accepts, and
   * `getUserIdFromInitData` gives a truthy number.
   */
  function Authenticate(initData: Json, token: Option<string>, mac: Mac, parse: JsonParser): (a: Auth)
    ensures a.NoToken? <==> token.GetOr("") == ""
    ensures a.BadSignature? <==> token.GetOr("") != "" && !VerifyInitDataValue(initData, token.value, mac)
    ensures a.User? ==> token.GetOr("") != "" && VerifyInitDataValue(initData, token.value, mac)
                        && UserIdOfValue(initData, parse) == Some(Int(a.id)) && a.id != 0
    ensures a.NoUser? <==> token.GetOr("") != "" && VerifyInitDataValue(initData, token.value, mac)
                           && !IdIsTruthy(UserIdOfValue(initData, parse))
  {
    if token.GetOr("") == "" then NoToken
    else if !VerifyInitDataValue(initData, token.value, mac) then BadSignature
    else
      var u := UserIdOfValue(initData, parse);
      if IdIsTruthy(u) then User(u.value.i) else NoUser
  }

  /** `getStartParam`: `start_param`, else `startapp`, else null; an empty value falls through. */
  function GetStartParam(initData: string): (r: Option<string>)
    ensures r.Some? ==> r.value != ""
    ensures r.Some? ==> r == Get(Parse(initData), "start_param") || r == Get(Parse(initData), "startapp")
    ensures r.None? <==> (Get(Parse(initData), "start_param").GetOr("") == ""
                          && Get(Parse(initData), "startapp").GetOr("") == "")
    ensures Get(Parse(initData), "start_param").GetOr("") != "" ==> r == Get(Parse(initData), "start_param")
  {
    var p := Parse(initData);
    var a := Get(p, "start_param");
    var b := Get(p, "startapp");
    if a.Some? && a.value != "" then a else if b.Some? && b.value != "" then b else None
  }
}
