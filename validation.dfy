/**
 * The input validators and response builders of api/_validation.js. A
 * validator answers `{valid: true}` or `{valid: false, error}`; here that is
 * `Valid` or `Invalid(error)`. Arguments are JSON values (`None` is
 * `undefined`).
 */
module Validation {
  import opened Basics
  import opened Strings
  import opened Json
  import opened QueryString
  import opened Http
  import opened InitData
  import Catalog

  datatype Validity = Valid | Invalid(error: string)

  /** A non-empty string: what `!v || typeof v !== 'string'` lets through. */
  predicate NonEmptyString(v: Option<Json>)
  {
    v.Some? && v.value.JString? && v.value.s != ""
  }

  /**
   * `validateInitData`: valid iff the value is a non-empty string whose
   * `hash` and `user` parameters are non-empty and `user` parses as JSON.
   */
  function ValidateInitData(v: Option<Json>, parse: JsonParser): (r: Validity)
    ensures r.Valid? <==>
      (NonEmptyString(v)
       && Get(Parse(v.value.s), "hash").GetOr("") != ""
       && Get(Parse(v.value.s), "user").GetOr("") != ""
       && parse(Get(Parse(v.value.s), "user").value).Some?)
    ensures !NonEmptyString(v) ==> r == Invalid("Missing or invalid initData")
  {
    if !NonEmptyString(v) then Invalid("Missing or invalid initData")
    else
      var ps := Parse(v.value.s);
      var hash := Get(ps, "hash");
      var user := Get(ps, "user");
      if hash.GetOr("") == "" || user.GetOr("") == "" then Invalid("Missing required initData parameters")
      else if parse(user.value).None? then Invalid("Invalid initData format")
      else Valid
  }

  /** `validateSKU`: valid iff the value is one of the four pack names. */
  function ValidateSku(v: Option<Json>): (r: Validity)
    ensures r.Valid? <==> v.Some? && v.value.JString? && v.value.s in Catalog.SkuMap
    ensures !NonEmptyString(v) ==> r == Invalid("Missing or invalid SKU")
  {
    if !NonEmptyString(v) then Invalid("Missing or invalid SKU")
    else if v.value.s !in Catalog.BaseSkus then Invalid("Invalid SKU. Valid options: pack12, pack30, pack60, pack88")
    else Valid
  }

  // ---------------------------------------------------------------------
  // Base64 images (the alphabet of section 4 of RFC 4648)

  predicate IsBase64Char(c: char)
  {
    'A' <= c <= 'Z' || 'a' <= c <= 'z' || '0' <= c <= '9' || c == '+' || c == '/'
  }

  predicate AllBase64(s: string)
  {
    forall i :: 0 <= i < |s| ==> IsBase64Char(s[i])
  }

  /** `/^[A-Za-z0-9+/]*={0,2}$/`: alphabet characters followed by at most two `=`. */
  predicate MatchesBase64(s: string)
  {
    AllBase64(s)
    || (|s| >= 1 && s[|s| - 1] == '=' && AllBase64(s[..|s| - 1]))
    || (|s| >= 2 && s[|s| - 2..] == "==" && AllBase64(s[..|s| - 2]))
  }

  /** The text checked: the piece after the first comma, or the whole string if that piece is empty or absent. */
  function PureBase64(s: string): (p: string)
    ensures ',' !in s ==> p == s
  {
    var parts := Split(s, ',');
    if |parts| > 1 && parts[1] != "" then parts[1] else s
  }

  /** `Buffer.byteLength(s, 'base64')`: up to two trailing `=` dropped, then three bytes per four characters. */
  function Base64ByteLength(s: string): nat
  {
    var n := if |s| > 0 && s[|s| - 1] == '=' then |s| - 1 else |s|;
    var m := if n > 1 && s[n - 1] == '=' then n - 1 else n;
    (m * 3) / 4
  }

  /** The size bound: 3 MiB, whatever the error text says. */
  const MaxImageBytes: nat := 3 * 1024 * 1024

  /** `validateBase64Image`. */
  function ValidateBase64Image(v: Option<Json>): (r: Validity)
    ensures r.Valid? <==> NonEmptyString(v) && MatchesBase64(PureBase64(v.value.s))
                          && Base64ByteLength(PureBase64(v.value.s)) <= MaxImageBytes
  {
    if !NonEmptyString(v) then Invalid("Missing or invalid image data")
    else
      var pure := PureBase64(v.value.s);
      if !MatchesBase64(pure) then Invalid("Invalid base64 image format")
      else if Base64ByteLength(pure) > MaxImageBytes then Invalid("Image size exceeds 5MB limit")
      else Valid
  }

  /** A padded encoding of `m` bytes has `4 * ceil(m / 3)` characters, the last `(3 - m % 3) % 3` of them `=`. */
  function PaddedEncodingShape(m: nat): (s: string)
    ensures MatchesBase64(s)
  {
    var pad := (3 - m % 3) % 3;
    var body := seq(4 * ((m + 2) / 3) - pad, _ => 'A');
    assert AllBase64(body);
    var s := body + seq(pad, _ => '=');
    assert pad == 1 ==> s[..|s| - 1] == body;
    assert pad == 2 ==> s[..|s| - 2] == body && s[|s| - 2..] == "==";
    s
  }

  /** Four characters per three bytes. */
  lemma ByteLengthOfShape(n: nat, pad: nat, s: string)
    requires pad <= 2 && |s| == n + pad && n >= 2
    requires forall i :: 0 <= i < n ==> s[i] == 'A'
    requires forall i :: n <= i < |s| ==> s[i] == '='
    ensures Base64ByteLength(s) == (n * 3) / 4
  {
  }

  /** The byte count of a padded encoding is the number of bytes encoded. */
  lemma PaddedEncodingLength(m: nat)
    ensures Base64ByteLength(PaddedEncodingShape(m)) == m
  {
    var k := m / 3;
    if m % 3 == 0 {
      if k > 0 {
        PaddedLengthCase(m, k, 0, 0);
      }
    } else if m % 3 == 1 {
      PaddedLengthCase(m, k, 1, 2);
    } else {
      PaddedLengthCase(m, k, 2, 1);
    }
  }

  /** One residue of `m` modulo 3: `4 * k + 1 + r` characters before `pad` padding characters. */
  lemma PaddedLengthCase(m: nat, k: nat, r: nat, pad: nat)
    requires m == 3 * k + r && r < 3 && pad == (3 - r) % 3 && m > 0
    ensures Base64ByteLength(PaddedEncodingShape(m)) == m
  {
    var s := PaddedEncodingShape(m);
    var n := if r == 0 then 4 * k else 4 * k + r + 1;
    assert m % 3 == r && (m + 2) / 3 == (if r == 0 then k else k + 1);
    assert |s| == n + pad;
    ByteLengthOfShape(n, pad, s);
    assert (n * 3) / 4 == m;
  }

  /** An image of `m` bytes, sent as a bare padded encoding, passes the size check iff `0 < m <= 3 MiB`. */
  lemma ImageSizeLimit(m: nat)
    ensures ValidateBase64Image(Some(JString(PaddedEncodingShape(m)))).Valid? <==> 0 < m <= MaxImageBytes
  {
    PaddedEncodingLength(m);
    var s := PaddedEncodingShape(m);
    assert ',' !in s by {
      assert forall i :: 0 <= i < |s| ==> s[i] == 'A' || s[i] == '=';
    }
    if m == 0 {
      assert s == [];
    } else {
      assert |s| > 0;
    }
  }

  /** `validatePrompt`: valid iff it is a string of 3 to 1000 UTF-16 code units. */
  function ValidatePrompt(v: Option<Json>): (r: Validity)
    ensures r.Valid? <==> v.Some? && v.value.JString? && 3 <= Utf16Length(v.value.s) <= 1000
  {
    if !NonEmptyString(v) then Invalid("Missing or invalid prompt")
    else if Utf16Length(v.value.s) > 1000 then Invalid("Prompt exceeds maximum length of 1000 characters")
    else if Utf16Length(v.value.s) < 3 then Invalid("Prompt must be at least 3 characters long")
    else Valid
  }

  /** `validateChatId`: a falsy value is missing; otherwise `String(v)` must be a run of ASCII digits. */
  function ValidateChatId(v: Option<Json>): (r: Validity)
    ensures !IsTruthy(v) ==> r == Invalid("Missing chat_id")
    ensures r.Valid? <==> IsTruthy(v) && Str(v.value) != "" && AllDigits(Str(v.value))
  {
    if !IsTruthy(v) then Invalid("Missing chat_id")
    else if Str(v.value) == "" || !AllDigits(Str(v.value)) then Invalid("Invalid chat_id format")
    else Valid
  }

  /** A numeric chat id is valid iff it is positive. */
  lemma ChatIdNumber(n: int)
    ensures ValidateChatId(Some(JNumber(n))).Valid? <==> n > 0
  {
    if n < 0 {
      assert Str(JNumber(n))[0] == '-';
    }
  }

  // ---------------------------------------------------------------------
  // Required fields

  /** `field in body` for an object body; an array body has none of the named members. */
  function InBody(body: Json, field: string): bool
  {
    body.JObject? && HasKey(body.members, field)
  }

  /** `body[field]` is `null`, `undefined` or `''`. */
  predicate Blank(body: Json, field: string)
  {
    var x := if body.JObject? then Lookup(body.members, field) else None;
    x.None? || x.value == JNull || x.value == JString("")
  }

  /** The fields absent from the body, in the given order. */
  function MissingFields(body: Json, fields: seq<string>): (r: seq<string>)
    ensures forall f :: f in r <==> f in fields && !InBody(body, f)
    ensures |r| <= |fields|
  {
    if fields == [] then []
    else
      var f := fields[|fields| - 1];
      assert fields == fields[..|fields| - 1] + [f];
      MissingFields(body, fields[..|fields| - 1]) + (if InBody(body, f) then [] else [f])
  }

  /** The fields present but `null`, `undefined` or `''`, in the given order. */
  function BlankFields(body: Json, fields: seq<string>): (r: seq<string>)
    ensures forall f :: f in r <==> f in fields && InBody(body, f) && Blank(body, f)
    ensures |r| <= |fields|
  {
    if fields == [] then []
    else
      var f := fields[|fields| - 1];
      assert fields == fields[..|fields| - 1] + [f];
      BlankFields(body, fields[..|fields| - 1]) + (if InBody(body, f) && Blank(body, f) then [f] else [])
  }

  /** The report for the two lists: missing fields first, then blank ones. */
  function RequiredFieldsReport(missing: seq<string>, blank: seq<string>): (r: Validity)
    ensures r.Valid? <==> missing == [] && blank == []
  {
    if missing != [] then Invalid("Missing required fields: " + Join(missing, ", "))
    else if blank != [] then Invalid("Invalid field values: " + Join(blank, ", "))
    else Valid
  }

  /** The report is valid iff every field is present and not blank. */
  lemma ReportValid(body: Json, fields: seq<string>)
    ensures RequiredFieldsReport(MissingFields(body, fields), BlankFields(body, fields)).Valid?
        <==> forall f :: f in fields ==> InBody(body, f) && !Blank(body, f)
  {
    var missing := MissingFields(body, fields);
    var blank := BlankFields(body, fields);
    assert missing != [] ==> missing[0] in missing;
    assert blank != [] ==> blank[0] in blank;
  }

  /** One more field extends each list by that field at most. */
  lemma FieldsStep(body: Json, fields: seq<string>, i: nat)
    requires i < |fields|
    ensures MissingFields(body, fields[..i + 1])
         == MissingFields(body, fields[..i]) + (if InBody(body, fields[i]) then [] else [fields[i]])
    ensures BlankFields(body, fields[..i + 1])
         == BlankFields(body, fields[..i]) + (if InBody(body, fields[i]) && Blank(body, fields[i]) then [fields[i]] else [])
  {
    assert fields[..i + 1][..i] == fields[..i];
  }

  /** The `TypeError` of `field in body` for a body that is not an object. */
  function InOperatorError(field: string, body: Json): string
  {
    "Cannot use 'in' operator to search for '" + field + "' in " + Str(body)
  }

  /** A body `in` can search: an object or an array. */
  predicate Searchable(body: Json)
  {
    body.JObject? || body.JArray?
  }

  /** The result `validateRequiredFields` computes; `Err` carries the message of the `TypeError` it throws. */
  function RequiredFields(body: Json, fields: seq<string>): (r: Result<Validity, string>)
    ensures r == Ok(Valid) <==>
      ((Searchable(body) || fields == []) && forall f :: f in fields ==> InBody(body, f) && !Blank(body, f))
  {
    ReportValid(body, fields);
    if !Searchable(body) && fields != [] then Err(InOperatorError(fields[0], body))
    else Ok(RequiredFieldsReport(MissingFields(body, fields), BlankFields(body, fields)))
  }

  /**
   * `validateRequiredFields(body, fields)`: one pass over the fields
   * collecting the absent and the blank ones. On a string, number or
   * boolean body the first `in` throws (`Err`).
   */
  method ValidateRequiredFields(body: Json, fields: seq<string>) returns (r: Result<Validity, string>)
    requires !body.JNull?
    ensures r == RequiredFields(body, fields)
  {
    var missing: seq<string> := [];
    var blank: seq<string> := [];
    var i := 0;
    while i < |fields|
      invariant 0 <= i <= |fields|
      invariant missing == MissingFields(body, fields[..i])
      invariant blank == BlankFields(body, fields[..i])
      invariant i > 0 ==> Searchable(body)
    {
      var f := fields[i];
      if !Searchable(body) {
        return Err(InOperatorError(f, body));
      }
      FieldsStep(body, fields, i);
      if !InBody(body, f) {
        missing := missing + [f];
      } else if Blank(body, f) {
        blank := blank + [f];
      }
      i := i + 1;
    }
    assert fields[..i] == fields;
    r := Ok(RequiredFieldsReport(missing, blank));
  }

  // ---------------------------------------------------------------------
  // Response bodies (the `timestamp` member is not modelled)

  /** `createErrorResponse(error, details)`; absent details become `null`. */
  function ErrorResponse(error: string, details: Option<Json>): (r: Json)
    ensures r.JObject?
    ensures Lookup(r.members, "success") == Some(JBool(false))
    ensures Lookup(r.members, "error") == Some(JString(error))
    ensures Lookup(r.members, "details") == Some(details.GetOr(JNull))
  {
    var ms := [("success", JBool(false)), ("error", JString(error)), ("details", details.GetOr(JNull))];
    assert Lookup(ms[2..], "details") == Some(details.GetOr(JNull));
    JObject(ms)
  }

  /** An error response with a text detail. */
  function ErrorWith(error: string, details: string): Json
  {
    ErrorResponse(error, Some(JString(details)))
  }

  /** `createSuccessResponse(data)`: `{success: true, ...data}`. */
  function SuccessResponse(data: seq<(string, Json)>): (r: Json)
    ensures r.JObject?
    ensures forall k :: Lookup(r.members, k) == (if Lookup(data, k).Some? then LastLookup(data, k)
                                                  else Lookup([("success", JBool(true))], k))
  {
    forall k ensures Lookup(Spread([("success", JBool(true))], data), k)
                  == (if Lookup(data, k).Some? then LastLookup(data, k) else Lookup([("success", JBool(true))], k)) {
      SpreadLookup([("success", JBool(true))], data, k);
    }
    JObject(Spread([("success", JBool(true))], data))
  }

  // ---------------------------------------------------------------------
  // Authentication answers

  /**
   * The answers of the handlers that use `createErrorResponse` to each
   * outcome of the token, signature and user-id checks.
   */
  function AuthResponse(a: Auth): (r: Result<int, Response>)
    ensures r.Ok? <==> a.User?
    ensures r.Ok? ==> r.value == a.id
    ensures a.NoToken? ==> r == Err(JsonResponse(500, ErrorWith("Server configuration error", "Missing Telegram token")))
    ensures a.BadSignature? ==> r == Err(JsonResponse(401, ErrorResponse("Invalid initData", None)))
    ensures a.NoUser? ==> r == Err(JsonResponse(400, ErrorResponse("Cannot extract user ID", None)))
  {
    match a
    case NoToken => Err(JsonResponse(500, ErrorWith("Server configuration error", "Missing Telegram token")))
    case BadSignature => Err(JsonResponse(401, ErrorResponse("Invalid initData", None)))
    case NoUser => Err(JsonResponse(400, ErrorResponse("Cannot extract user ID", None)))
    case User(u) => Ok(u)
  }
}
