/**
 * The standalone payment-validation script test-payment-system.js: its copy
 * of the webhook's acceptance rule, and the fifteen cases it runs.
 */
module PaymentCheck {
  import opened Basics
  import opened Strings
  import opened Json
  import Catalog
  import Webhook

  /** The errors `validatePayment` collects, in check order. */
  function PaymentErrors(payment: Json, sku: string): (errors: seq<string>)
    ensures sku !in Catalog.SkuMap ==> errors == ["Invalid SKU"]
    ensures sku in Catalog.SkuMap ==> |errors| <= 3
    ensures sku in Catalog.SkuMap ==> (errors == [] <==> Webhook.PassesChecks(payment, Catalog.SkuMap[sku]))
    ensures sku in Catalog.SkuMap && !Webhook.AmountMatches(payment, Catalog.SkuMap[sku].xtr) ==>
      errors[0] == "Amount mismatch: expected " + NatToString(Catalog.SkuMap[sku].xtr) + ", got "
                   + ToJsString(Field(Some(payment), "total_amount"))
  {
    if sku !in Catalog.SkuMap then ["Invalid SKU"]
    else
      var xtr := Catalog.SkuMap[sku].xtr;
      var p := Some(payment);
      (if Webhook.AmountMatches(payment, xtr) then []
       else ["Amount mismatch: expected " + NatToString(xtr) + ", got " + ToJsString(Field(p, "total_amount"))])
      + (if Webhook.CurrencyIsStars(payment) then []
         else ["Invalid currency: expected XTR, got " + ToJsString(Field(p, "currency"))])
      + (if Webhook.NoProvider(payment) then []
         else ["Invalid provider: expected empty string, got \"" + ToJsString(Field(p, "provider_token")) + "\""])
  }

  /** The script accepts exactly the payments the webhook accepts for the same pack. */
  lemma SameRuleAsWebhook(payment: Json, sku: string)
    ensures PaymentErrors(payment, sku) == [] <==>
      (sku in Catalog.SkuMap && Webhook.PassesChecks(payment, Catalog.SkuMap[sku]))
  {
  }

  /** `validatePayment(payment, sku)`: an unknown pack stops at one error; otherwise the three checks accumulate. */
  method ValidatePayment(payment: Json, sku: string) returns (valid: bool, errors: seq<string>)
    ensures errors == PaymentErrors(payment, sku)
    ensures valid <==> errors == []
  {
    errors := [];
    if sku !in Catalog.SkuMap {
      errors := errors + ["Invalid SKU"];
      return false, errors;
    }
    var mapping := Catalog.SkuMap[sku];
    var expectedAmount := mapping.xtr;
    if !Webhook.AmountMatches(payment, expectedAmount) {
      errors := errors + ["Amount mismatch: expected " + NatToString(expectedAmount) + ", got "
                          + ToJsString(Field(Some(payment), "total_amount"))];
    }
    if !Webhook.CurrencyIsStars(payment) {
      errors := errors + ["Invalid currency: expected XTR, got " + ToJsString(Field(Some(payment), "currency"))];
    }
    if !Webhook.NoProvider(payment) {
      errors := errors + ["Invalid provider: expected empty string, got \"" + ToJsString(Field(Some(payment), "provider_token")) + "\""];
    }
    valid := errors == [];
  }

  /** A test payment; a `provider_token` of `undefined` is an absent member. */
  function TestPayment(total: int, currency: string, provider: Option<string>, charge: string, sku: string): Json
  {
    var payload := TestPayload(sku);
    JObject([("total_amount", JNumber(total)), ("currency", JString(currency))]
            + (if provider.Some? then [("provider_token", JString(provider.value))] else [])
            + [("telegram_payment_charge_id", JString(charge)), ("invoice_payload", payload)])
  }

  /** The order every test payment carries: user 123456789 buying `sku`. */
  function TestPayload(sku: string): Json
  {
    JString(Stringify(JObject([("userId", JNumber(123456789)), ("sku", JString(sku))])))
  }

  /** The verdict on a test payment. */
  lemma TestPaymentVerdict(total: int, currency: string, provider: Option<string>, charge: string, sku: string)
    ensures PaymentErrors(TestPayment(total, currency, provider, charge, sku), sku) == [] <==>
      sku in Catalog.SkuMap && total == Catalog.SkuMap[sku].xtr && currency == "XTR"
      && (provider.None? || provider == Some(""))
  {
    var p := TestPayment(total, currency, provider, charge, sku);
    TestPaymentFields(total, currency, provider, charge, sku);
    SameRuleAsWebhook(p, sku);
    if sku in Catalog.SkuMap {
      var xtr := Catalog.SkuMap[sku].xtr;
      assert Webhook.AmountMatches(p, xtr) <==> total == xtr;
      assert Webhook.CurrencyIsStars(p) <==> currency == "XTR";
      assert Webhook.NoProvider(p) <==> provider.None? || provider == Some("");
    }
  }

  /** The three members of a test payment the checks read. */
  lemma TestPaymentFields(total: int, currency: string, provider: Option<string>, charge: string, sku: string)
    ensures var p := Some(TestPayment(total, currency, provider, charge, sku));
      Field(p, "total_amount") == Some(JNumber(total))
      && Field(p, "currency") == Some(JString(currency))
      && Field(p, "provider_token") == if provider.Some? then Some(JString(provider.value)) else None
  {
    var tail := [("telegram_payment_charge_id", JString(charge)), ("invoice_payload", TestPayload(sku))];
    var head := [("total_amount", JNumber(total)), ("currency", JString(currency))];
    var ms := TestPayment(total, currency, provider, charge, sku).members;
    if provider.Some? {
      ProviderMembers(head, ("provider_token", JString(provider.value)), tail, ms);
    } else {
      assert ms == head + tail;
      LookupAt(ms, "total_amount", 0);
      LookupAt(ms, "currency", 1);
      LookupAbsent(ms, "provider_token");
    }
  }

  /** The members of a test payment that names its provider. */
  lemma ProviderMembers(head: seq<(string, Json)>, provider: (string, Json), tail: seq<(string, Json)>,
                        ms: seq<(string, Json)>)
    requires |head| == 2 && head[0].0 == "total_amount" && head[1].0 == "currency"
    requires provider.0 == "provider_token"
    requires ms == head + [provider] + tail
    ensures Lookup(ms, "total_amount") == Some(head[0].1)
    ensures Lookup(ms, "currency") == Some(head[1].1)
    ensures Lookup(ms, "provider_token") == Some(provider.1)
  {
    LookupAt(ms, "total_amount", 0);
    LookupAt(ms, "currency", 1);
    LookupAt(ms, "provider_token", 2);
  }

  /** The `testResults` counters. */
  class TestResults {
    var passed: nat
    var failed: nat
    var total: nat

    constructor ()
      ensures passed == 0 && failed == 0 && total == 0
    {
      passed, failed, total := 0, 0, 0;
    }

    /** `recordTest(ok)`. */
    method Record(ok: bool)
      modifies this
      ensures total == old(total) + 1
      ensures passed == old(passed) + (if ok then 1 else 0)
      ensures failed == old(failed) + (if ok then 0 else 1)
    {
      total := total + 1;
      if ok {
        passed := passed + 1;
      } else {
        failed := failed + 1;
      }
    }
  }

  /** One case: validate the payment and record whether the verdict is the expected one. */
  method RunCase(results: TestResults, total: int, currency: string, provider: Option<string>, charge: string,
                 sku: string, expectValid: bool)
    modifies results
    ensures results.total == old(results.total) + 1
    ensures var accepted := sku in Catalog.SkuMap && total == Catalog.SkuMap[sku].xtr && currency == "XTR"
                            && (provider.None? || provider == Some(""));
      results.passed == old(results.passed) + (if accepted == expectValid then 1 else 0)
      && results.failed == old(results.failed) + (if accepted == expectValid then 0 else 1)
  {
    TestPaymentVerdict(total, currency, provider, charge, sku);
    var valid, _ := ValidatePayment(TestPayment(total, currency, provider, charge, sku), sku);
    results.Record(valid == expectValid);
  }

  /** `runTests()` (test 9 names its charges with the clock reading `now`): all fifteen cases pass and the exit code is 0. */
  method RunTests(now: int) returns (exitCode: int, results: TestResults)
    ensures results.total == 15 && results.passed == 15 && results.failed == 0
    ensures exitCode == 0
  {
    results := new TestResults();
    RunCase(results, 50, "XTR", Some(""), "test_charge_123", "pack12", true);
    RunCase(results, 5000, "XTR", Some(""), "test_charge_456", "pack12", false);
    RunCase(results, 50, "USD", Some(""), "test_charge_789", "pack12", false);
    RunCase(results, 50, "XTR", Some("telegram"), "test_charge_101", "pack12", false);
    for i := 0 to |Catalog.BaseSkus|
      invariant results.total == 4 + i && results.passed == 4 + i && results.failed == 0
    {
      var sku := Catalog.BaseSkus[i];
      RunCase(results, Catalog.SkuMap[sku].xtr, "XTR", Some(""), "test_" + sku, sku, true);
    }
    RunCase(results, 50, "XTR", Some(""), "test_invalid", "invalid_sku", false);
    RunCase(results, 99, "XTR", Some(""), "test_mismatch", "pack12", false);
    RunCase(results, 50, "XTR", None, "test_undefined", "pack12", true);
    for i := 0 to |Catalog.BaseSkus|
      invariant results.total == 11 + i && results.passed == 11 + i && results.failed == 0
    {
      var sku := Catalog.BaseSkus[i];
      RunCase(results, Catalog.SkuMap[sku].xtr, "XTR", Some(""), "complete_test_" + sku + "_" + IntToString(now), sku, true);
    }
    exitCode := if results.failed == 0 then 0 else 1;
  }
}
