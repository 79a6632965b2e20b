/** The credit packs sold for Telegram Stars (`SKU_MAP`, server/api/_shared.js). */
module Catalog {
  /** A pack: its price in Stars (XTR), the credits it grants, and its display name. */
  datatype SkuInfo = SkuInfo(xtr: nat, credits: nat, name: string)

  /** The pack names in declaration order. */
  const BaseSkus: seq<string> := ["pack12", "pack30", "pack60", "pack88"]

  const SkuMap: map<string, SkuInfo> := map[
    "pack12" := SkuInfo(50, 12, "12算力点"),
    "pack30" := SkuInfo(100, 30, "30算力点"),
    "pack60" := SkuInfo(180, 60, "60算力点"),
    "pack88" := SkuInfo(250, 88, "88算力点")]

  /** Every pack has a positive price and grants credits, and the names listed are exactly the packs. */
  lemma CatalogWellFormed()
    ensures SkuMap.Keys == set s | s in BaseSkus
    ensures forall s :: s in SkuMap ==> SkuMap[s].xtr > 0 && SkuMap[s].credits > 0 && SkuMap[s].name != ""
  {
  }
}
