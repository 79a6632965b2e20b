/**
 * The Telegram payment webhook of api/webhook.js. The handler answers
 * `200 {ok: true}` at once and then processes the update: it answers
 * pre-checkout queries, and for a successful payment it correlates the
 * invoice payload, checks the pack, the idempotency key, amount, currency and
 * provider, records the payment and credits the buyer.
 */
module Webhook {
  import opened Basics
  import opened Strings
  import opened Json
  import opened Http
  import Catalog
  import Ledger
  import TestMode
  import opened Store

  /** `update?.successful_payment`, when truthy. */
  function SuccessfulPayment(update: Option<Json>): (r: Option<Json>)
    ensures r.Some? ==> Truthy(r.value) && r == Field(update, "successful_payment")
  {
    var p := Field(update, "successful_payment");
    if IsTruthy(p) then p else None
  }

  /**
   * `JSON.parse(payment.invoice_payload || '{}')`, with `{}` kept when the
   * parse throws. `JSON.parse` turns a non-string argument into a string first.
   */
  function Payload(payment: Json, parse: JsonParser): Json
  {
    var ip := Field(Some(payment), "invoice_payload");
    if !IsTruthy(ip) then JObject([])
    else
      var v := parse(Str(ip.value));
      if v.Some? then v.value else JObject([])
  }

  /** `payment.telegram_payment_charge_id`, as the text the queries compare. */
  function ChargeId(payment: Json): string
  {
    ToJsString(Field(Some(payment), "telegram_payment_charge_id"))
  }

  /**
   * The `payment_ref` the insert writes: an absent (`undefined`) member is
   * dropped from the row and a `null` one is null, so the column is null; a
   * string is stored as itself and any other value as its JSON text.
   */
  function StoredRef(payment: Json): (r: Option<string>)
    ensures r.None? <==> Field(Some(payment), "telegram_payment_charge_id") in {None, Some(JNull)}
  {
    var c := Field(Some(payment), "telegram_payment_charge_id");
    if c.None? || c.value.JNull? then None
    else if c.value.JString? then Some(c.value.s)
    else Some(Stringify(c.value))
  }

  /** A charge id that is a string, a number or a boolean: the one kind the lookup finds again. */
  predicate ScalarCharge(payment: Json)
  {
    var c := Field(Some(payment), "telegram_payment_charge_id");
    c.Some? && (c.value.JString? || c.value.JNumber? || c.value.JBool?)
  }

  /** For a scalar charge id, the text the lookup compares is the text the insert stores. */
  lemma ScalarChargeStored(payment: Json)
    requires ScalarCharge(payment)
    ensures StoredRef(payment) == Some(ChargeId(payment))
  {
  }

  /** `payment.total_amount === mapping.xtr` (no coercion: the string `"50"` does not match). */
  predicate AmountMatches(payment: Json, xtr: nat)
  {
    Field(Some(payment), "total_amount") == Some(JNumber(xtr))
  }

  predicate CurrencyIsStars(payment: Json)
  {
    Field(Some(payment), "currency") == Some(JString("XTR"))
  }

  /** `provider_token` is `''` or absent. */
  predicate NoProvider(payment: Json)
  {
    var t := Field(Some(payment), "provider_token");
    t.None? || t == Some(JString(""))
  }

  /** The three checks of the payment against the pack it names. */
  predicate PassesChecks(payment: Json, info: Catalog.SkuInfo)
  {
    AmountMatches(payment, info.xtr) && CurrencyIsStars(payment) && NoProvider(payment)
  }

  /** Where processing of an update stops, or the order it accepts. */
  datatype Decision =
    | NoPayment
    | NoOrder
    | UnknownSku(sku: string)
    | Duplicate(ref: string)
    | Rejected(ref: string)
    | Accept(payment: Json, userId: Json, sku: string, info: Catalog.SkuInfo, ref: string)

  /** The early-return chain of lines 29-61, against the payments already recorded. */
  ghost function Decide(update: Option<Json>, parse: JsonParser, payments: seq<Payment>): (d: Decision)
    ensures d.Accept? ==> d.sku in Catalog.SkuMap && d.info == Catalog.SkuMap[d.sku]
                          && PassesChecks(d.payment, d.info) && !HasRef(payments, d.ref)
                          && Truthy(d.userId) && d.ref == ChargeId(d.payment)
    ensures d.Duplicate? ==> HasRef(payments, d.ref)
  {
    var payment := SuccessfulPayment(update);
    if payment.None? then NoPayment
    else
      var payload := Payload(payment.value, parse);
      var userId := Field(Some(payload), "userId");
      var sku := Field(Some(payload), "sku");
      if !IsTruthy(userId) || !IsTruthy(sku) then NoOrder
      else
        var name := Str(sku.value);
        var ref := ChargeId(payment.value);
        if name !in Catalog.SkuMap then UnknownSku(name)
        else if HasRef(payments, ref) then Duplicate(ref)
        else if !PassesChecks(payment.value, Catalog.SkuMap[name]) then Rejected(ref)
        else Accept(payment.value, userId.value, name, Catalog.SkuMap[name], ref)
  }

  /** Database errors the code inspects: the payment insert's, and the welcome-credit insert's. */
  datatype Faults = Faults(paymentInsert: Option<string>, welcomeInsert: Option<string>)

  /** The row inserted for an accepted order. */
  function Row(d: Decision, user: int, now: int): Payment
    requires d.Accept?
  {
    Payment(user, d.info.xtr, d.info.credits, now, StoredRef(d.payment), d.payment, Completed, None)
  }

  /** The error that makes the payment insert fail, if any: a user id the `bigint` column rejects, or a fault. */
  function InsertError(d: Decision, faults: Faults): Option<string>
    requires d.Accept?
  {
    if UserKey(d.userId).None? then Some(BigintSyntaxError) else faults.paymentInsert
  }

  /** The whole order goes through: the row is written and the credits are added. */
  ghost predicate Succeeds(d: Decision, faults: Faults, credits: Ledger.Table)
  {
    d.Accept? && InsertError(d, faults).None?
    && (UserKey(d.userId).value in credits || faults.welcomeInsert.None?)
  }

  /** The confirmation sent to the buyer. */
  function ConfirmationText(credits: nat, balance: nat): string
  {
    "✅ 支付成功！\n\n您已成功购买 " + NatToString(credits) + " 算力点。\n当前余额：" + NatToString(balance)
    + " 算力点\n\n感谢您的支持！🎉"
  }

  /** The `answerPreCheckoutQuery` call, made for any pre-checkout query when a token is set. */
  function PreCheckoutCalls(update: Option<Json>, botToken: Option<string>): (calls: seq<Call>)
    ensures |calls| <= 1
  {
    var id := Field(Field(update, "pre_checkout_query"), "id");
    if botToken.GetOr("") != "" && IsTruthy(id) then
      [Call(BotApiUrl(botToken.value, "answerPreCheckoutQuery"),
            JObject([("pre_checkout_query_id", id.value), ("ok", JBool(true))]))]
    else []
  }

  /** The `sendMessage` call after a successful order, when a token and `update.message.chat.id` are present. */
  function NotifyCalls(update: Option<Json>, botToken: Option<string>, credits: nat, balance: nat): seq<Call>
  {
    var chat := Field(Field(Field(update, "message"), "chat"), "id");
    if botToken.GetOr("") != "" && IsTruthy(chat) then
      [Call(BotApiUrl(botToken.value, "sendMessage"),
            JObject([("chat_id", chat.value), ("text", JString(ConfirmationText(credits, balance))),
                     ("parse_mode", JString("HTML"))]))]
    else []
  }

  /** The decision, computed with one `payments` lookup. */
  method Classify(store: Store, update: Option<Json>, parse: JsonParser) returns (d: Decision)
    ensures d == Decide(update, parse, store.payments)
  {
    var payment := SuccessfulPayment(update);
    if payment.None? {
      return NoPayment;
    }
    var payload := Payload(payment.value, parse);
    var userId := Field(Some(payload), "userId");
    var sku := Field(Some(payload), "sku");
    if !IsTruthy(userId) || !IsTruthy(sku) {
      return NoOrder;
    }
    var name := Str(sku.value);
    if name !in Catalog.SkuMap {
      return UnknownSku(name);
    }
    var ref := ChargeId(payment.value);
    var existing := store.HasPayment(ref);
    if existing {
      return Duplicate(ref);
    }
    if !PassesChecks(payment.value, Catalog.SkuMap[name]) {
      return Rejected(ref);
    }
    d := Accept(payment.value, userId.value, name, Catalog.SkuMap[name], ref);
  }

  /**
   * Lines 62-82 for an accepted order: an insert that fails changes nothing
   * (no row carries the reference yet); a failure after the insert marks the
   * row failed; otherwise exactly one completed row is added and the buyer's
   * balance grows by the pack's credits. The new balance is returned.
   */
  method Fulfil(store: Store, d: Decision, now: int, faults: Faults) returns (newBalance: Option<nat>)
    requires d.Accept? && !HasRef(store.payments, d.ref)
    modifies store
    ensures store.referrals == old(store.referrals) && store.admins == old(store.admins)
    ensures InsertError(d, faults).Some? ==>
      store.credits == old(store.credits) && store.payments == old(store.payments) && newBalance.None?
    ensures InsertError(d, faults).None? && !Succeeds(d, faults, old(store.credits)) ==>
      store.credits == old(store.credits) && newBalance.None?
      && store.payments == MarkedFailed(old(store.payments) + [Row(d, UserKey(d.userId).value, now)], d.ref,
                                        "Failed to create user: " + faults.welcomeInsert.value)
    ensures Succeeds(d, faults, old(store.credits)) ==>
      var u := UserKey(d.userId).value;
      store.payments == old(store.payments) + [Row(d, u, now)]
      && store.credits == Ledger.Credited(Ledger.WithWelcome(old(store.credits), u), u, d.info.credits)
      && newBalance == Some(Ledger.Balance(Ledger.WithWelcome(old(store.credits), u), u) + d.info.credits)
  {
    var key := UserKey(d.userId);
    var paymentError := InsertError(d, faults);
    if paymentError.Some? {
      MarkedFailedAbsent(store.payments, d.ref, paymentError.value);
      store.MarkPaymentsFailed(d.ref, paymentError.value);
      return None;
    }
    store.InsertPayment(Row(d, key.value, now));
    var welcome := store.EnsureUserWithWelcomeCredit(key.value, faults.welcomeInsert);
    if welcome.Err? {
      store.MarkPaymentsFailed(d.ref, welcome.error);
      return None;
    }
    var b := store.AddCredits(key.value, d.info.credits);
    newBalance := Some(b);
  }

  /**
   * The processing after the reply: the pre-checkout answer, then the order.
   * Nothing in the store changes unless the order is accepted. Outgoing calls
   * are returned; the code ignores their outcomes.
   */
  method ProcessUpdate(store: Store, update: Option<Json>, botToken: Option<string>, parse: JsonParser,
                       now: int, faults: Faults) returns (calls: seq<Call>)
    modifies store
    ensures store.referrals == old(store.referrals) && store.admins == old(store.admins)
    ensures !Decide(update, parse, old(store.payments)).Accept? ==>
      store.credits == old(store.credits) && store.payments == old(store.payments)
      && calls == PreCheckoutCalls(update, botToken)
    ensures var d := Decide(update, parse, old(store.payments));
      d.Accept? && !Succeeds(d, faults, old(store.credits)) ==>
        store.credits == old(store.credits) && calls == PreCheckoutCalls(update, botToken)
        && store.payments == (if InsertError(d, faults).Some? then old(store.payments)
                              else MarkedFailed(old(store.payments) + [Row(d, UserKey(d.userId).value, now)], d.ref,
                                                "Failed to create user: " + faults.welcomeInsert.value))
    ensures var d := Decide(update, parse, old(store.payments));
      Succeeds(d, faults, old(store.credits)) ==>
        var u := UserKey(d.userId).value;
        store.payments == old(store.payments) + [Row(d, u, now)]
        && store.credits == Ledger.Credited(Ledger.WithWelcome(old(store.credits), u), u, d.info.credits)
        && calls == PreCheckoutCalls(update, botToken)
                    + NotifyCalls(update, botToken, d.info.credits,
                                  Ledger.Balance(Ledger.WithWelcome(old(store.credits), u), u) + d.info.credits)
  {
    calls := PreCheckoutCalls(update, botToken);
    var d := Classify(store, update, parse);
    if !d.Accept? {
      return;
    }
    var newBalance := Fulfil(store, d, now, faults);
    if newBalance.Some? {
      calls := calls + NotifyCalls(update, botToken, d.info.credits, newBalance.value);
    }
  }

  /**
   * The handler: OPTIONS is answered by `handleOptions` (200), any other
   * method but POST gets 405, and a POST gets `200 {ok: true}` whatever the
   * processing then does.
   */
  method Handle(store: Store, req: Request, env: Env, parse: JsonParser, now: int, faults: Faults)
    returns (reply: Response, calls: seq<Call>)
    modifies store
    ensures req.verb == "OPTIONS" ==> reply == Response(200, None)
    ensures req.verb != "OPTIONS" && req.verb != "POST" ==>
      reply == JsonResponse(405, JObject([("error", JString("Method not allowed"))]))
    ensures req.verb == "POST" ==> reply == JsonResponse(200, JObject([("ok", JBool(true))]))
    ensures req.verb != "POST" ==> calls == [] && store.credits == old(store.credits) && store.payments == old(store.payments)
    ensures var d := Decide(req.body, parse, old(store.payments));
      req.verb == "POST" && !d.Accept? ==>
        store.credits == old(store.credits) && store.payments == old(store.payments)
        && calls == PreCheckoutCalls(req.body, EnvVar(env, "TELEGRAM_BOT_TOKEN"))
    ensures var d := Decide(req.body, parse, old(store.payments));
      req.verb == "POST" && d.Accept? && !Succeeds(d, faults, old(store.credits)) ==>
        store.credits == old(store.credits)
        && store.payments == (if InsertError(d, faults).Some? then old(store.payments)
                              else MarkedFailed(old(store.payments) + [Row(d, UserKey(d.userId).value, now)], d.ref,
                                                "Failed to create user: " + faults.welcomeInsert.value))
    ensures var d := Decide(req.body, parse, old(store.payments));
      req.verb == "POST" && Succeeds(d, faults, old(store.credits)) ==>
        var u := UserKey(d.userId).value;
        store.payments == old(store.payments) + [Row(d, u, now)]
        && store.credits == Ledger.Credited(Ledger.WithWelcome(old(store.credits), u), u, d.info.credits)
    ensures store.referrals == old(store.referrals) && store.admins == old(store.admins)
  {
    calls := [];
    if req.verb == "OPTIONS" {
      return Response(200, None), [];
    }
    if req.verb != "POST" {
      return JsonResponse(405, JObject([("error", JString("Method not allowed"))])), [];
    }
    reply := JsonResponse(200, JObject([("ok", JBool(true))]));
    calls := ProcessUpdate(store, req.body, EnvVar(env, "TELEGRAM_BOT_TOKEN"), parse, now, faults);
  }

  // ---------------------------------------------------------------------
  // Properties of the decision

  /**
   * After an order has been recorded, the same update is a duplicate and a
   * second delivery changes nothing, provided its charge id is a string, a
   * number or a boolean.
   */
  lemma RedeliveryIsDuplicate(update: Option<Json>, parse: JsonParser, payments: seq<Payment>, u: int, now: int)
    requires Decide(update, parse, payments).Accept?
    requires ScalarCharge(Decide(update, parse, payments).payment)
    ensures Decide(update, parse, payments + [Row(Decide(update, parse, payments), u, now)]).Duplicate?
  {
    var d := Decide(update, parse, payments);
    var ps := payments + [Row(d, u, now)];
    ScalarChargeStored(d.payment);
    assert ps[|ps| - 1].paymentRef == Some(d.ref);
  }

  /**
   * An order without a charge id (or with a null one) is stored with a null
   * `payment_ref`, which the lookup for `eq.undefined` (or `eq.null`) never
   * finds: the same update is accepted again, and credited again.
   */
  lemma ChargelessRedeliveryAccepted(update: Option<Json>, parse: JsonParser, payments: seq<Payment>, u: int, now: int)
    requires Decide(update, parse, payments).Accept?
    requires Field(Some(Decide(update, parse, payments).payment), "telegram_payment_charge_id") in {None, Some(JNull)}
    ensures Decide(update, parse, payments + [Row(Decide(update, parse, payments), u, now)])
         == Decide(update, parse, payments)
  {
    var d := Decide(update, parse, payments);
    var ps := payments + [Row(d, u, now)];
    assert !HasRef(ps, d.ref) by {
      forall i | 0 <= i < |ps| ensures ps[i].paymentRef != Some(d.ref) {
        if i < |payments| { assert ps[i] == payments[i]; }
      }
    }
  }

  /** A duplicate stays a duplicate whatever rows are added, including a row marked failed. */
  lemma DuplicateStays(update: Option<Json>, parse: JsonParser, payments: seq<Payment>, ref: string, msg: string)
    requires Decide(update, parse, payments).Duplicate?
    ensures Decide(update, parse, MarkedFailed(payments, ref, msg)).Duplicate?
  {
    var r := Decide(update, parse, payments).ref;
    var i :| 0 <= i < |payments| && payments[i].paymentRef == Some(r);
    assert MarkedFailed(payments, ref, msg)[i].paymentRef == Some(r);
  }

  /** The update Telegram sends for a Stars payment, with the given payload text and charge id. */
  function StarsUpdate(total: Json, currency: string, payloadText: string, charge: string): Json
  {
    JObject([("successful_payment", StarsPayment(total, currency, payloadText, charge))])
  }

  /**
   * Any sender can post an update naming any user: with a payload that parses
   * to that user and a pack, at the pack's price, the order is accepted for
   * that user. No secret is consulted.
   */
  lemma UnauthenticatedOrderAccepted(parse: JsonParser, payloadText: string, u: int, sku: string, charge: string,
                                     payments: seq<Payment>)
    requires sku in Catalog.SkuMap && u != 0 && payloadText != ""
    requires parse(payloadText) == Some(JObject([("userId", JNumber(u)), ("sku", JString(sku))]))
    requires !HasRef(payments, charge)
    ensures var update := StarsUpdate(JNumber(Catalog.SkuMap[sku].xtr), "XTR", payloadText, charge);
      Decide(Some(update), parse, payments)
        == Accept(StarsPayment(JNumber(Catalog.SkuMap[sku].xtr), "XTR", payloadText, charge), JNumber(u), sku,
                  Catalog.SkuMap[sku], charge)
  {
    var p := StarsPayment(JNumber(Catalog.SkuMap[sku].xtr), "XTR", payloadText, charge);
    DecideStars(parse, payloadText, u, sku, JNumber(Catalog.SkuMap[sku].xtr), charge, payments);
    StarsUpdateFields(JNumber(Catalog.SkuMap[sku].xtr), "XTR", payloadText, charge);
    assert PassesChecks(p, Catalog.SkuMap[sku]);
  }

  /**
   * Where `Decide` stops on a Stars update whose payload parses to
   * `{userId: u, sku}`: the pack lookup, the idempotency key and the three
   * checks decide, in that order.
   */
  lemma DecideStars(parse: JsonParser, payloadText: string, u: int, sku: string, total: Json, charge: string,
                    payments: seq<Payment>)
    requires u != 0 && sku != "" && payloadText != ""
    requires parse(payloadText) == Some(JObject([("userId", JNumber(u)), ("sku", JString(sku))]))
    ensures var p := StarsPayment(total, "XTR", payloadText, charge);
      Decide(Some(StarsUpdate(total, "XTR", payloadText, charge)), parse, payments)
        == if sku !in Catalog.SkuMap then UnknownSku(sku)
           else if HasRef(payments, charge) then Duplicate(charge)
           else if !PassesChecks(p, Catalog.SkuMap[sku]) then Rejected(charge)
           else Accept(p, JNumber(u), sku, Catalog.SkuMap[sku], charge)
  {
    var p := StarsPayment(total, "XTR", payloadText, charge);
    StarsSuccessful(total, "XTR", payloadText, charge);
    StarsAmountFields(total, "XTR", payloadText, charge);
    StarsChargeId(total, "XTR", payloadText, charge);
    PayloadFields(parse, payloadText, u, sku, p);
    assert Str(JString(sku)) == sku;
  }

  /** The payment object of `StarsUpdate`. */
  function StarsPayment(total: Json, currency: string, payloadText: string, charge: string): Json
  {
    JObject([
      ("currency", JString(currency)),
      ("total_amount", total),
      ("invoice_payload", JString(payloadText)),
      ("telegram_payment_charge_id", JString(charge)),
      ("provider_payment_charge_id", JString(""))])
  }

  /** The fields of `StarsUpdate` as the handler reads them. */
  lemma StarsUpdateFields(total: Json, currency: string, payloadText: string, charge: string)
    ensures var p := StarsPayment(total, currency, payloadText, charge);
      SuccessfulPayment(Some(StarsUpdate(total, currency, payloadText, charge))) == Some(p)
      && Field(Some(p), "currency") == Some(JString(currency))
      && Field(Some(p), "total_amount") == Some(total)
      && Field(Some(p), "invoice_payload") == Some(JString(payloadText))
      && ChargeId(p) == charge
      && NoProvider(p)
  {
    StarsSuccessful(total, currency, payloadText, charge);
    StarsAmountFields(total, currency, payloadText, charge);
    StarsChargeId(total, currency, payloadText, charge);
    StarsNoProvider(total, currency, payloadText, charge);
  }

  /** The update carries its payment under `successful_payment`. */
  lemma StarsSuccessful(total: Json, currency: string, payloadText: string, charge: string)
    ensures var p := StarsPayment(total, currency, payloadText, charge);
      SuccessfulPayment(Some(StarsUpdate(total, currency, payloadText, charge))) == Some(p)
  {
    var p := StarsPayment(total, currency, payloadText, charge);
    assert StarsUpdate(total, currency, payloadText, charge) == JObject([("successful_payment", p)]);
    LookupAt([("successful_payment", p)], "successful_payment", 0);
  }

  /** The currency, amount and payload read back as given. */
  lemma StarsAmountFields(total: Json, currency: string, payloadText: string, charge: string)
    ensures var p := StarsPayment(total, currency, payloadText, charge);
      && Field(Some(p), "currency") == Some(JString(currency))
      && Field(Some(p), "total_amount") == Some(total)
      && Field(Some(p), "invoice_payload") == Some(JString(payloadText))
  {
    var ms := StarsPayment(total, currency, payloadText, charge).members;
    LookupAt(ms, "currency", 0);
    LookupAt(ms, "total_amount", 1);
    LookupAt(ms, "invoice_payload", 2);
  }

  /** The charge id reads back as given. */
  lemma StarsChargeId(total: Json, currency: string, payloadText: string, charge: string)
    ensures ChargeId(StarsPayment(total, currency, payloadText, charge)) == charge
  {
    var ms := StarsPayment(total, currency, payloadText, charge).members;
    assert forall j :: 0 <= j < 3 ==> ms[j].0 != "telegram_payment_charge_id";
    LookupAt(ms, "telegram_payment_charge_id", 3);
  }

  /** A Stars payment has no provider token. */
  lemma StarsNoProvider(total: Json, currency: string, payloadText: string, charge: string)
    ensures NoProvider(StarsPayment(total, currency, payloadText, charge))
  {
    var ms := StarsPayment(total, currency, payloadText, charge).members;
    assert forall j :: 0 <= j < |ms| ==> ms[j].0 != "provider_token";
    LookupAbsent(ms, "provider_token");
  }

  /** A payload that parses to `{userId: u, sku}` yields that user and pack. */
  lemma PayloadFields(parse: JsonParser, payloadText: string, u: int, sku: string, p: Json)
    requires parse(payloadText) == Some(JObject([("userId", JNumber(u)), ("sku", JString(sku))]))
    requires Field(Some(p), "invoice_payload") == Some(JString(payloadText)) && payloadText != ""
    ensures Field(Some(Payload(p, parse)), "userId") == Some(JNumber(u))
    ensures Field(Some(Payload(p, parse)), "sku") == Some(JString(sku))
  {
    var ms := [("userId", JNumber(u)), ("sku", JString(sku))];
    assert Payload(p, parse) == JObject(ms);
    LookupAt(ms, "sku", 1);
  }

  /** A pack12 payment of 5000 Stars (the price scaled by 100) is rejected. */
  lemma ScaledAmountRejected(parse: JsonParser, payloadText: string, u: int, charge: string, payments: seq<Payment>)
    requires u != 0 && payloadText != ""
    requires parse(payloadText) == Some(JObject([("userId", JNumber(u)), ("sku", JString("pack12"))]))
    requires !HasRef(payments, charge)
    ensures Decide(Some(StarsUpdate(JNumber(5000), "XTR", payloadText, charge)), parse, payments) == Rejected(charge)
  {
    var p := StarsPayment(JNumber(5000), "XTR", payloadText, charge);
    DecideStars(parse, payloadText, u, "pack12", JNumber(5000), charge, payments);
    StarsAmountFields(JNumber(5000), "XTR", payloadText, charge);
    assert "pack12" in Catalog.SkuMap && Catalog.SkuMap["pack12"].xtr != 5000;
    assert !AmountMatches(p, Catalog.SkuMap["pack12"].xtr);
  }

  /** Test packs are never credited by the webhook, in test mode or not. */
  lemma TestSkusNeverCredited(update: Option<Json>, parse: JsonParser, payments: seq<Payment>)
    ensures Decide(update, parse, payments).Accept? ==> Decide(update, parse, payments).sku !in TestMode.TestSkus
  {
    TestMode.TestSkusDisjoint();
  }

  /** A successful order leaves the buyer with their earlier balance (3 for a new account) plus the pack's credits. */
  lemma SuccessBalance(credits: Ledger.Table, u: int, n: nat)
    ensures var t := Ledger.Credited(Ledger.WithWelcome(credits, u), u, n);
      Ledger.Balance(t, u) == (if u in credits then credits[u] else Ledger.WelcomeCredits) + n
      && Ledger.OthersUnchanged(credits, t, u)
  {
  }
}
