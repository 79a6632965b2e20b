/** The test-mode switch and test catalog of api/_test.js. */
module TestMode {
  import opened Http
  import Catalog

  /** `isTestMode()`: `TEST_MODE` is exactly `'true'`. */
  predicate IsTestMode(env: Env)
  {
    "TEST_MODE" in env && env["TEST_MODE"] == "true"
  }

  /** `getTestSKUs()`: (xtr, credits) per test pack; they have no display name. */
  const TestSkus: map<string, (nat, nat)> := map[
    "test_credits_1" := (1, 10),
    "test_credits_5" := (5, 50),
    "test_credits_10" := (10, 100)]

  /** `isTestSKU(sku)`. */
  function IsTestSku(env: Env, sku: string): (r: bool)
    ensures !IsTestMode(env) ==> !r
    ensures IsTestMode(env) ==> (r <==> sku in TestSkus)
  {
    if !IsTestMode(env) then false else sku in TestSkus
  }

  /** The test packs and the base packs have no name in common. */
  lemma TestSkusDisjoint()
    ensures forall s :: s in TestSkus ==> s !in Catalog.SkuMap
  {
  }
}
