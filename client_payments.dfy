/**
 * The Mini App's payment hook, frontend/src/hooks/usePayments.ts: the
 * message extraction it applies to error bodies, the invoice request with
 * its retries, the balance it keeps after `fetchBalance` and
 * `consumeCredits`, and the result of opening an invoice.
 *
 * Every `fetch` is an outcome parameter (indexed by attempt where the hook
 * retries), `JSON.parse` and `response.json()` are the parser parameter,
 * and the Telegram invoice window is the status its callback reports.
 * Toasts are returned as values; console logging and haptics are not
 * modelled.
 */
module ClientPayments {
  import opened Basics
  import opened Strings
  import opened Json
  import Balance
  import Consume

  /** The text for a message that could not be found. */
  const Unknown: string := "未知错误"

  // ---------------------------------------------------------------------
  // extractErrorMessage (lines 16-62)

  /** A caught value: an `Error` instance, or any other value (`None` is `undefined`). */
  datatype Caught = ErrorInstance(message: string) | Value(v: Option<Json>)

  /** The fields an object's message is looked for in, in this order. */
  const MessageFields: seq<string> := ["details", "error", "message", "description"]

  /** `s.length > 200 ? s.substring(0, 200) + '...' : s`. */
  function Truncated(s: string): (r: string)
    ensures Utf16Length(r) <= 203
    ensures Utf16Length(s) <= 200 ==> r == s
    ensures Utf16Length(s) > 200 ==> r == Utf16Prefix(s, 200) + "..." && Utf16Prefix(s, 200) <= s
  {
    if Utf16Length(s) > 200 then
      Utf16ConcatLength(Utf16Prefix(s, 200), "...");
      Utf16Prefix(s, 200) + "..."
    else s
  }

  lemma {:induction false} Utf16ConcatLength(a: string, b: string)
    ensures Utf16Length(a + b) == Utf16Length(a) + Utf16Length(b)
    decreases |b|
  {
    if b != [] {
      assert (a + b)[..|a + b| - 1] == a + b[..|b| - 1];
      Utf16ConcatLength(a, b[..|b| - 1]);
    } else {
      assert a + b == a;
    }
  }

  /** `extractErrorMessage` of a present JSON value. */
  function ExtractJson(v: Json): (r: string)
    ensures !Truthy(v) ==> r == Unknown
    ensures v.JString? && Truthy(v) ==> r == v.s
    decreases v, 1, 0
  {
    if !Truthy(v) then Unknown
    else if v.JString? then v.s
    else if v.JObject? || v.JArray? then FromFields(v, MessageFields)
    else Str(v)
  }

  /** Lines 26-57 from the field `ks[0]` on: the first field whose message is known wins, else the truncated JSON text. */
  function FromFields(v: Json, ks: seq<string>): (r: string)
    requires v.JObject? || v.JArray?
    decreases v, 0, |ks|
  {
    if ks == [] then Truncated(Stringify(v))
    else
      var f := Field(Some(v), ks[0]);
      if IsTruthy(f) && (FieldSmaller(Some(v), ks[0]); ExtractJson(f.value) != Unknown) then ExtractJson(f.value)
      else FromFields(v, ks[1..])
  }

  /** `extractErrorMessage(error)`: an `Error` gives its message, a falsy value the unknown text, a string itself. */
  function ExtractErrorMessage(e: Caught): (r: string)
    ensures e.ErrorInstance? ==> r == e.message
    ensures e.Value? && !IsTruthy(e.v) ==> r == Unknown
    ensures e.Value? && e.v.Some? && e.v.value.JString? && e.v.value.s != "" ==> r == e.v.value.s
  {
    match e
    case ErrorInstance(m) => m
    case Value(v) => if v.None? then Unknown else ExtractJson(v.value)
  }

  /** A message looked for in the fields is never the unknown text. */
  lemma {:induction false} FromFieldsKnown(v: Json, ks: seq<string>)
    requires v.JObject? || v.JArray?
    ensures FromFields(v, ks) != Unknown
    decreases |ks|
  {
    if ks == [] {
      var s := Stringify(v);
      assert s[0] == '{' || s[0] == '[';
      var r := Truncated(s);
      assert r[0] == s[0] by {
        if Utf16Length(s) > 200 {
          assert Utf16Prefix(s, 200) != [] && Utf16Prefix(s, 200) <= s;
        }
      }
    } else {
      var f := Field(Some(v), ks[0]);
      if !(IsTruthy(f) && ExtractJson(f.value) != Unknown) {
        FromFieldsKnown(v, ks[1..]);
      }
    }
  }

  /** The unknown text comes out exactly for a falsy value and for that text itself. */
  lemma UnknownOnlyWhenFalsy(v: Json)
    ensures ExtractJson(v) == Unknown <==> !Truthy(v) || v == JString(Unknown)
  {
    if Truthy(v) && (v.JObject? || v.JArray?) {
      FromFieldsKnown(v, MessageFields);
    } else if Truthy(v) && v.JNumber? {
      IntToStringChars(v.n);
      assert Str(v)[0] == '-' || IsDigit(Str(v)[0]);
      assert Unknown[0] == '未';
    } else if Truthy(v) && v.JBool? {
      assert Str(v) == "true";
    }
  }

  /** The `i`-th field of the list is the first whose message is known: it gives the message. */
  lemma {:induction false} FromFieldsFirst(v: Json, ks: seq<string>, i: nat)
    requires v.JObject? && i < |ks|
    requires IsTruthy(Field(Some(v), ks[i])) && ExtractJson(Field(Some(v), ks[i]).value) != Unknown
    requires forall j :: 0 <= j < i ==>
      !(IsTruthy(Field(Some(v), ks[j])) && ExtractJson(Field(Some(v), ks[j]).value) != Unknown)
    ensures FromFields(v, ks) == ExtractJson(Field(Some(v), ks[i]).value)
    decreases i
  {
    if i > 0 {
      assert !(IsTruthy(Field(Some(v), ks[0])) && ExtractJson(Field(Some(v), ks[0]).value) != Unknown);
      FromFieldsFirst(v, ks[1..], i - 1);
    }
  }

  /**
   * Lines 26-50: of `details`, `error`, `message` and `description`, the
   * first field that is truthy and whose own message is known gives the
   * object's message.
   */
  lemma FirstKnownFieldWins(v: Json, i: nat)
    requires v.JObject? && i < |MessageFields|
    requires IsTruthy(Field(Some(v), MessageFields[i])) && ExtractJson(Field(Some(v), MessageFields[i]).value) != Unknown
    requires forall j :: 0 <= j < i ==>
      !(IsTruthy(Field(Some(v), MessageFields[j])) && ExtractJson(Field(Some(v), MessageFields[j]).value) != Unknown)
    ensures ExtractJson(v) == ExtractJson(Field(Some(v), MessageFields[i]).value)
  {
    FromFieldsFirst(v, MessageFields, i);
  }

  lemma {:induction false} FromFieldsNone(v: Json, ks: seq<string>)
    requires v.JObject? || v.JArray?
    requires forall j :: 0 <= j < |ks| ==>
      !(IsTruthy(Field(Some(v), ks[j])) && ExtractJson(Field(Some(v), ks[j]).value) != Unknown)
    ensures FromFields(v, ks) == Truncated(Stringify(v))
    decreases |ks|
  {
    if ks != [] {
      assert !(IsTruthy(Field(Some(v), ks[0])) && ExtractJson(Field(Some(v), ks[0]).value) != Unknown);
      FromFieldsNone(v, ks[1..]);
    }
  }

  /**
   * Lines 52-54: an object or array none of whose four fields gives a known
   * message is shown as its JSON text, cut to 200 UTF-16 units plus "...".
   */
  lemma NoKnownFieldShowsJson(v: Json)
    requires (v.JObject? || v.JArray?)
    requires forall j :: 0 <= j < |MessageFields| ==>
      !(IsTruthy(Field(Some(v), MessageFields[j])) && ExtractJson(Field(Some(v), MessageFields[j]).value) != Unknown)
    ensures Utf16Length(ExtractJson(v)) <= 203
    ensures Utf16Length(Stringify(v)) <= 200 ==> ExtractJson(v) == Stringify(v)
    ensures Utf16Length(Stringify(v)) > 200 ==>
      ExtractJson(v) == Utf16Prefix(Stringify(v), 200) + "..." && Utf16Prefix(Stringify(v), 200) <= Stringify(v)
  {
    FromFieldsNone(v, MessageFields);
  }

  // ---------------------------------------------------------------------
  // The shared pieces of the requests

  /** A toast: its title and its optional description. */
  datatype Toast = Toast(title: string, description: Option<string>)

  /** What a `fetch` gives: a rejection (a `TypeError`) or a response with its status and body text. */
  datatype Fetch = Rejected(message: string) | Answered(status: int, text: string)

  /** `a || b` of two possibly `undefined` values. */
  function Or(a: Option<Json>, b: Option<Json>): (r: Option<Json>)
    ensures IsTruthy(a) ==> r == a
    ensures !IsTruthy(a) ==> r == b
  {
    if IsTruthy(a) then a else b
  }

  /** `!initData`: the Telegram SDK's initData, `None` outside Telegram. */
  predicate HasInitData(initData: Option<string>)
  {
    initData.Some? && initData.value != ""
  }

  /** The message of the `TypeError` that reading property `k` of `null` throws. */
  function NullPropertyError(k: string): Caught
  {
    ErrorInstance("Cannot read properties of null (reading '" + k + "')")
  }

  /** The `SyntaxError` that `response.json()` rejects with on a body that is not JSON. */
  const BodyNotJson: Caught := ErrorInstance("Unexpected token in JSON")

  // ---------------------------------------------------------------------
  // createInvoice (lines 105-224)

  const MaxRetries: nat := 2

  const ConfigToast: Toast := Toast("支付配置错误：缺少支付基础URL", Some("请检查环境变量 VITE_PAYMENTS_BASE_URL 是否正确配置"))
  const AuthToast: Toast := Toast("支付配置错误：需要Telegram认证", Some("请在Telegram环境中使用此功能"))

  /** The outcome of one attempt. */
  datatype Attempt =
    | Got(link: string)                    // an invoice link came back
    | Refused(status: int, toast: Toast)   // a non-2xx answer; retried when its status is 500 or more
    | Unsuccessful(toast: Toast)           // 2xx, but no success flag or no link: never retried
    | Threw(error: Caught)                 // something in the `try` threw: retried

  /** Lines 146-153: the error body of a non-2xx answer. */
  function ErrorData(status: int, text: string, parse: JsonParser): Json
  {
    var p := parse(text);
    if p.Some? then p.value
    else JObject([("error", JString(if text != "" then text else "HTTP " + IntToString(status)))])
  }

  /** Lines 168-184: the toast of a non-2xx answer that is not retried, or the `TypeError` of a `null` body. */
  function RefusedToast(status: int, errorData: Json): (r: Result<Toast, Caught>)
    ensures errorData.JNull? <==> r.Err?
  {
    if errorData.JNull? then Err(NullPropertyError("details"))
    else
      var d := Some(errorData);
      var picked := Or(Field(d, "details"), Or(Field(d, "error"), Or(d, Some(JString("HTTP " + IntToString(status))))));
      var message := ExtractErrorMessage(Value(picked));
      var e := Field(d, "error");
      var description := if IsTruthy(e) && e.value.JString? && e.value.s != message then Some(e.value.s) else None;
      Ok(Toast("创建发票失败: " + message, description))
  }

  /** One attempt, lines 127-203, given what `fetch` gave. */
  function AttemptOf(o: Fetch, retryCount: nat, parse: JsonParser): (a: Attempt)
    ensures a.Got? ==> a.link != "" && o.Answered? && 200 <= o.status <= 299
    ensures a.Refused? ==> o.Answered? && !(200 <= o.status <= 299) && a.status == o.status
    ensures o.Rejected? ==> a == Threw(ErrorInstance(o.message))
  {
    match o
    case Rejected(m) => Threw(ErrorInstance(m))
    case Answered(status, text) =>
      if !(200 <= status <= 299) then
        if status >= 500 && retryCount < MaxRetries then Refused(status, Toast("", None))
        else
          var t := RefusedToast(status, ErrorData(status, text, parse));
          if t.Err? then Threw(t.error) else Refused(status, t.value)
      else
        var p := parse(text);
        if p.None? then Threw(BodyNotJson)
        else if p.value.JNull? then Threw(NullPropertyError("success"))
        else
          var data := Some(p.value);
          var link := Field(data, "invoiceLink");
          if IsTruthy(Field(data, "success")) && IsTruthy(link) then
            if link.value.JString? then Got(link.value.s)
            else Threw(ErrorInstance("data.invoiceLink.substring is not a function"))
          else
            var picked := Or(Field(data, "details"), Or(Field(data, "error"), Or(data, Some(JString(Unknown)))));
            Unsuccessful(Toast("创建发票失败: " + ExtractErrorMessage(Value(picked)), None))
  }

  /** Whether the hook tries again after an attempt (lines 162 and 212). */
  predicate Retries(a: Attempt, retryCount: nat)
  {
    retryCount < MaxRetries && ((a.Refused? && a.status >= 500) || a.Threw?)
  }

  /** The toast of the last catch (lines 218-221). */
  function NetworkToast(e: Caught): Toast
  {
    var message := if e.ErrorInstance? then e.message else "网络连接失败";
    Toast("创建支付链接失败", Some(message + "。请检查网络连接后重试。"))
  }

  /** What `createInvoice` resolves to, the number of requests it made and the toast it showed. */
  datatype InvoiceResult = InvoiceResult(link: Option<string>, attempts: nat, toast: Option<Toast>)

  /**
   * `createInvoice(sku, retryCount)`: attempt `n` gets the outcome `net(n)`.
   * A missing base URL or initData makes no request. At most
   * `MaxRetries + 1 - retryCount` requests are made, a link comes only from
   * the last one, and only a failure shows a toast.
   */
  function CreateInvoice(baseUrl: string, initData: Option<string>, net: nat -> Fetch, parse: JsonParser,
                         retryCount: nat): (r: InvoiceResult)
    requires retryCount <= MaxRetries
    ensures baseUrl == "" ==> r == InvoiceResult(None, 0, Some(ConfigToast))
    ensures baseUrl != "" && !HasInitData(initData) ==> r == InvoiceResult(None, 0, Some(AuthToast))
    ensures baseUrl != "" && HasInitData(initData) ==> 1 <= r.attempts <= MaxRetries + 1 - retryCount
    ensures r.link.Some? ==> r.link.value != "" && r.toast.None? && r.attempts >= 1
    ensures r.link.None? <==> r.toast.Some?
    decreases MaxRetries - retryCount
  {
    if baseUrl == "" then InvoiceResult(None, 0, Some(ConfigToast))
    else if !HasInitData(initData) then InvoiceResult(None, 0, Some(AuthToast))
    else
      var a := AttemptOf(net(retryCount), retryCount, parse);
      if Retries(a, retryCount) then
        var rest := CreateInvoice(baseUrl, initData, net, parse, retryCount + 1);
        rest.(attempts := rest.attempts + 1)
      else
        match a
        case Got(link) => InvoiceResult(Some(link), 1, None)
        case Refused(_, t) => InvoiceResult(None, 1, Some(t))
        case Unsuccessful(t) => InvoiceResult(None, 1, Some(t))
        case Threw(e) => InvoiceResult(None, 1, Some(NetworkToast(e)))
  }

  /** A link comes from the last request made, number `last`, and that request got it. */
  lemma {:induction false} LinkFromLastAttempt(baseUrl: string, initData: Option<string>, net: nat -> Fetch,
                                               parse: JsonParser, retryCount: nat, last: int)
    requires retryCount <= MaxRetries
    requires last == retryCount + CreateInvoice(baseUrl, initData, net, parse, retryCount).attempts - 1
    ensures CreateInvoice(baseUrl, initData, net, parse, retryCount).link.Some? ==>
      last >= 0 && AttemptOf(net(last), last, parse) == Got(CreateInvoice(baseUrl, initData, net, parse, retryCount).link.value)
    decreases MaxRetries - retryCount
  {
    var r := CreateInvoice(baseUrl, initData, net, parse, retryCount);
    if baseUrl != "" && HasInitData(initData) {
      var a := AttemptOf(net(retryCount), retryCount, parse);
      if Retries(a, retryCount) {
        var rest := CreateInvoice(baseUrl, initData, net, parse, retryCount + 1);
        assert r == rest.(attempts := rest.attempts + 1);
        LinkFromLastAttempt(baseUrl, initData, net, parse, retryCount + 1, last);
      } else {
        if r.link.Some? {
          assert a.Got? && r == InvoiceResult(Some(a.link), 1, None);
          assert last == retryCount;
        }
      }
    }
  }

  /**
   * Every request that was followed by another one was retried for a
   * reason the hook retries on: a status of 500 or more, or a throw.
   */
  lemma {:induction false} RetriedOnlyOnServerErrorOrThrow(baseUrl: string, initData: Option<string>, net: nat -> Fetch,
                                                         parse: JsonParser, retryCount: nat, j: nat)
    requires retryCount <= MaxRetries && retryCount <= j
    requires j + 1 < retryCount + CreateInvoice(baseUrl, initData, net, parse, retryCount).attempts
    ensures Retries(AttemptOf(net(j), j, parse), j)
    decreases MaxRetries - retryCount, 1
  {
    if j == retryCount {
      RetryUnfold(baseUrl, initData, net, parse, retryCount);
    } else {
      RetriedLater(baseUrl, initData, net, parse, retryCount, j);
    }
  }

  /** A later request than the first is one of the retry's. */
  lemma {:induction false} RetriedLater(baseUrl: string, initData: Option<string>, net: nat -> Fetch,
                                        parse: JsonParser, retryCount: nat, j: nat)
    requires retryCount <= MaxRetries && retryCount < j
    requires j + 1 < retryCount + CreateInvoice(baseUrl, initData, net, parse, retryCount).attempts
    ensures Retries(AttemptOf(net(j), j, parse), j)
    decreases MaxRetries - retryCount, 0
  {
    RetryUnfold(baseUrl, initData, net, parse, retryCount);
    RetriedOnlyOnServerErrorOrThrow(baseUrl, initData, net, parse, retryCount + 1, j);
  }

  /** More than one request means the first was retried and the rest is the retry's. */
  lemma RetryUnfold(baseUrl: string, initData: Option<string>, net: nat -> Fetch, parse: JsonParser, retryCount: nat)
    requires retryCount <= MaxRetries
    requires CreateInvoice(baseUrl, initData, net, parse, retryCount).attempts >= 2
    ensures retryCount < MaxRetries
    ensures Retries(AttemptOf(net(retryCount), retryCount, parse), retryCount)
    ensures CreateInvoice(baseUrl, initData, net, parse, retryCount).attempts
            == CreateInvoice(baseUrl, initData, net, parse, retryCount + 1).attempts + 1
  {
  }

  /** An answer below 500 whose body is not JSON `null` is never retried: one request, no link. */
  lemma ClientErrorNotRetried(baseUrl: string, initData: Option<string>, net: nat -> Fetch, parse: JsonParser)
    requires baseUrl != "" && HasInitData(initData)
    requires net(0).Answered? && !(200 <= net(0).status <= 299) && net(0).status < 500
    requires ErrorData(net(0).status, net(0).text, parse) != JNull
    ensures CreateInvoice(baseUrl, initData, net, parse, 0).attempts == 1
    ensures CreateInvoice(baseUrl, initData, net, parse, 0).link.None?
  {
  }

  /**
   * A 4xx whose body is JSON `null` is retried: reading `details` of `null`
   * throws into the catch block, which retries.
   */
  lemma NullClientErrorRetried(baseUrl: string, initData: Option<string>, net: nat -> Fetch, parse: JsonParser)
    requires baseUrl != "" && HasInitData(initData)
    requires net(0).Answered? && !(200 <= net(0).status <= 299) && net(0).status < 500
    requires ErrorData(net(0).status, net(0).text, parse) == JNull
    ensures CreateInvoice(baseUrl, initData, net, parse, 0).attempts >= 2
  {
    assert AttemptOf(net(0), 0, parse).Threw?;
  }

  /** A server that keeps answering 5xx is asked exactly three times. */
  lemma {:induction false} PersistentServerErrorAskedThreeTimes(baseUrl: string, initData: Option<string>, net: nat -> Fetch,
                                                              parse: JsonParser, retryCount: nat)
    requires baseUrl != "" && HasInitData(initData) && retryCount <= MaxRetries
    requires forall n :: net(n).Answered? && net(n).status >= 500
    ensures CreateInvoice(baseUrl, initData, net, parse, retryCount).attempts == MaxRetries + 1 - retryCount
    ensures CreateInvoice(baseUrl, initData, net, parse, retryCount).link.None?
    decreases MaxRetries - retryCount
  {
    assert net(retryCount).Answered? && net(retryCount).status >= 500;
    if retryCount < MaxRetries {
      PersistentServerErrorAskedThreeTimes(baseUrl, initData, net, parse, retryCount + 1);
    }
  }

  // ---------------------------------------------------------------------
  // openPaymentModal (lines 269-360)

  /** What the invoice window does: throws when opened, or closes with a status. */
  datatype Window = OpenThrew(message: string) | Closed(status: string)

  /**
   * `openPaymentModal(sku)`: true only when the invoice window is
   * available, the invoice link starts with `https://` and the window
   * closes with status `paid`. Without the window no request is made.
   */
  function OpenPaymentModal(hasOpenInvoice: bool, baseUrl: string, initData: Option<string>, net: nat -> Fetch,
                            parse: JsonParser, window: Window): (paid: bool)
    ensures paid <==> hasOpenInvoice
                      && CreateInvoice(baseUrl, initData, net, parse, 0).link.Some?
                      && StartsWith(CreateInvoice(baseUrl, initData, net, parse, 0).link.value, "https://")
                      && window == Closed("paid")
  {
    if !hasOpenInvoice then false
    else
      var invoice := CreateInvoice(baseUrl, initData, net, parse, 0);
      if invoice.link.None? then false
      else if !StartsWith(invoice.link.value, "https://") then false
      else match window
        case OpenThrew(_) => false
        case Closed(status) => status == "paid"
  }

  /** A paid invoice always came from a successful 2xx answer carrying a secure link. */
  lemma PaidInvoiceCameFromServer(hasOpenInvoice: bool, baseUrl: string, initData: Option<string>, net: nat -> Fetch,
                                  parse: JsonParser, window: Window)
    requires OpenPaymentModal(hasOpenInvoice, baseUrl, initData, net, parse, window)
    ensures var r := CreateInvoice(baseUrl, initData, net, parse, 0);
      1 <= r.attempts <= MaxRetries + 1
      && net(r.attempts - 1).Answered? && 200 <= net(r.attempts - 1).status <= 299
      && StartsWith(r.link.value, "https://")
  {
    var r := CreateInvoice(baseUrl, initData, net, parse, 0);
    LinkFromLastAttempt(baseUrl, initData, net, parse, 0, r.attempts - 1);
  }

  // ---------------------------------------------------------------------
  // The hook's state: fetchBalance and consumeCredits

  /**
   * `credits` after `setCredits(v)`: `null` is no balance, any other value
   * is kept as the number it reads as (which is all the hook uses it for).
   */
  function Stored(v: Option<Json>): (c: Option<Num>)
    ensures v == Some(JNull) <==> c.None?
    ensures v.Some? && v.value.JNumber? ==> c == Some(Int(v.value.n))
  {
    if v == Some(JNull) then None else Some(ToNumber(v))
  }

  /** `Math.max(0, credits - 1)`. */
  function Decremented(c: Num): (r: Num)
    ensures c.Int? ==> r == Int(if c.i >= 1 then c.i - 1 else 0)
    ensures c.NaN? ==> r.NaN?
  {
    if c.NaN? then NaN else Int(if c.i - 1 > 0 then c.i - 1 else 0)
  }

  /** Lines 70-103: the balance after `fetchBalance`; a failure of any kind shows 0. */
  function BalanceAfter(credits: Option<Num>, baseUrl: string, initData: Option<string>, o: Fetch, parse: JsonParser)
    : (r: Option<Num>)
    ensures baseUrl == "" || !HasInitData(initData) ==> r == credits
    ensures baseUrl != "" && HasInitData(initData) && o.Rejected? ==> r == Some(Int(0))
  {
    if baseUrl == "" || !HasInitData(initData) then credits
    else match o
      case Rejected(_) => Some(Int(0))
      case Answered(_, text) =>
        var p := parse(text);
        if p.None? || p.value.JNull? then Some(Int(0))
        else if IsTruthy(Field(p, "success")) then Stored(Field(p, "credits"))
        else Some(Int(0))
  }

  /** The request body of `consumeCredits`: the caller's payload with `initData` set over it. */
  function ConsumeBody(payload: seq<(string, Json)>, initData: string): (body: Json)
    ensures body.JObject? && Lookup(body.members, "initData") == Some(JString(initData))
    ensures forall k :: k != "initData" ==> Lookup(body.members, k) == Lookup(payload, k)
  {
    forall k ensures Lookup(Spread(payload, [("initData", JString(initData))]), k)
                 == if k == "initData" then Some(JString(initData)) else Lookup(payload, k) {
      SpreadLookup(payload, [("initData", JString(initData))], k);
    }
    JObject(Spread(payload, [("initData", JString(initData))]))
  }

  /** What `consumeCredits` decides from its answer. */
  datatype Consumed = Consumed(ok: bool, credits: Option<Num>, toast: Option<Toast>)

  /** Lines 226-267 against the balance `credits` the hook holds. */
  function ConsumeAfter(credits: Option<Num>, baseUrl: string, initData: Option<string>, o: Fetch, parse: JsonParser)
    : (r: Consumed)
    ensures !r.ok ==> r.credits == credits
    ensures r.ok ==> r.credits == if credits.None? then None else Some(Decremented(credits.value))
    ensures baseUrl == "" || !HasInitData(initData) ==> !r.ok
  {
    if baseUrl == "" then Consumed(false, credits, Some(Toast("支付配置错误：缺少支付基础URL", None)))
    else if !HasInitData(initData) then Consumed(false, credits, Some(Toast("支付配置错误：需要Telegram认证", None)))
    else match o
      case Rejected(_) => Consumed(false, credits, Some(Toast("处理失败", None)))
      case Answered(_, text) =>
        var p := parse(text);
        if p.None? || p.value.JNull? then Consumed(false, credits, Some(Toast("处理失败", None)))
        else if IsTruthy(Field(p, "success")) then
          Consumed(true, if credits.None? then None else Some(Decremented(credits.value)), None)
        else if Field(p, "error") == Some(JString("insufficient_credits")) then
          Consumed(false, credits, Some(Toast("积分不足，请先充值", None)))
        else
          Consumed(false, credits, Some(Toast("处理失败: " + ToJsString(Or(Field(p, "message"), Field(p, "error"))), None)))
  }

  /** A known non-negative balance stays non-negative, and drops by exactly one while positive. */
  lemma ConsumeKeepsBalanceNonNegative(c: int, baseUrl: string, initData: Option<string>, o: Fetch, parse: JsonParser)
    requires c >= 0
    ensures var r := ConsumeAfter(Some(Int(c)), baseUrl, initData, o, parse);
      r.credits.Some? && r.credits.value.Int? && r.credits.value.i >= 0
      && (r.ok && c > 0 ==> r.credits.value.i == c - 1)
  {
  }

  /** The server's 402 `insufficient_credits` answer leaves the balance as it was and shows the top-up hint. */
  lemma InsufficientCreditsKeepsBalance(credits: Option<Num>, baseUrl: string, initData: Option<string>, text: string,
                                        parse: JsonParser)
    requires baseUrl != "" && HasInitData(initData)
    requires parse(text) == Consume.InsufficientCredits.body
    ensures ConsumeAfter(credits, baseUrl, initData, Answered(402, text), parse)
            == Consumed(false, credits, Some(Toast("积分不足，请先充值", None)))
  {
    var body := Consume.InsufficientCredits.body.value;
    assert Lookup(body.members, "success") == Some(JBool(false));
    assert Lookup(body.members, "error") == Some(JString("insufficient_credits"));
  }

  /** The balance the hook shows after reading the balance handler's answer is the balance that answer carries. */
  lemma FetchedBalanceShown(credits: Option<Num>, baseUrl: string, initData: Option<string>, c: nat, u: int,
                            status: int, text: string, parse: JsonParser)
    requires baseUrl != "" && HasInitData(initData)
    requires parse(text) == Balance.BalanceResponse(c, u).body
    ensures BalanceAfter(credits, baseUrl, initData, Answered(status, text), parse) == Some(Int(c))
  {
    var data := [("credits", JNumber(c)), ("userId", JNumber(u))];
    LookupAbsent(data, "success");
  }

  /** The hook's state. */
  class PaymentHook {
    var credits: Option<Num>
    var isLoading: bool
    var isProcessing: bool

    /** `useState(null)`, `useState(false)`, `useState(false)`. */
    constructor()
      ensures credits == None && !isLoading && !isProcessing
    {
      credits := None;
      isLoading := false;
      isProcessing := false;
    }

    /** `fetchBalance()`: the loading flag is raised for the request and lowered in `finally`. */
    method FetchBalance(baseUrl: string, initData: Option<string>, o: Fetch, parse: JsonParser)
      modifies this
      ensures credits == BalanceAfter(old(credits), baseUrl, initData, o, parse)
      ensures isLoading == (if baseUrl == "" || !HasInitData(initData) then old(isLoading) else false)
      ensures isProcessing == old(isProcessing)
    {
      if baseUrl == "" || !HasInitData(initData) {
        return;
      }
      isLoading := true;
      match o {
        case Rejected(_) =>
          credits := Some(Int(0));
        case Answered(_, text) =>
          var p := parse(text);
          if p.None? || p.value.JNull? {
            credits := Some(Int(0));
          } else if IsTruthy(Field(p, "success")) {
            credits := Stored(Field(p, "credits"));
          } else {
            credits := Some(Int(0));
          }
      }
      isLoading := false;
    }

    /**
     * `consumeCredits(payload)`, given the answer `o` to its request. The
     * request body (`ConsumeBody`) leaves the hook's state alone, so the
     * payload is not a parameter here.
     */
    method ConsumeCredits(baseUrl: string, initData: Option<string>, o: Fetch, parse: JsonParser)
      returns (ok: bool, toast: Option<Toast>)
      modifies this
      ensures var r := ConsumeAfter(old(credits), baseUrl, initData, o, parse);
        ok == r.ok && credits == r.credits && toast == r.toast
      ensures isProcessing == (if baseUrl == "" || !HasInitData(initData) then old(isProcessing) else false)
      ensures isLoading == old(isLoading)
    {
      if baseUrl == "" {
        return false, Some(Toast("支付配置错误：缺少支付基础URL", None));
      }
      if !HasInitData(initData) {
        return false, Some(Toast("支付配置错误：需要Telegram认证", None));
      }
      isProcessing := true;
      ok, toast := false, Some(Toast("处理失败", None));
      if o.Answered? {
        var p := parse(o.text);
        if p.Some? && !p.value.JNull? {
          if IsTruthy(Field(p, "success")) {
            if credits.Some? {
              credits := Some(Decremented(credits.value));
            }
            ok, toast := true, None;
          } else if Field(p, "error") == Some(JString("insufficient_credits")) {
            toast := Some(Toast("积分不足，请先充值", None));
          } else {
            toast := Some(Toast("处理失败: " + ToJsString(Or(Field(p, "message"), Field(p, "error"))), None));
          }
        }
      }
      isProcessing := false;
    }
  }
}
