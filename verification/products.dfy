/**
 * Products (apps/products/models.py): the central stock item, SKU minting on save,
 * and the damage write-off record.
 */
module Products {
  import opened Codes

  type ProductId = nat

  /**
   * A product row. `quantity` is the central stock counter; it is an `int` because
   * nothing in `save` keeps it from going below zero. An empty `sku` stands for
   * both None and "" (`not self.sku` holds for either).
   */
  datatype Product = Product(name: string, sku: string, quantity: int, openingStock: nat)

  /** A damage write-off: `quantity` units of `product` lost for `reason`. */
  datatype DamageRecord = DamageRecord(product: ProductId, quantity: nat, reason: string)

  /** `Product.generate_sku`: NAME3-HEX6 from the name and a random UUID. */
  function GenerateSku(name: string, uuidHex: string): (sku: string)
    requires IsAscii(Head3(name)) && IsUuidHex(uuidHex)
    ensures IsCode(sku)
    ensures |sku| == |Head3(name)| + 7
    ensures CodePrefix(sku) == Upper(Head3(name))
    ensures CodeSuffix(sku) == Upper(uuidHex[..6])
  {
    Mint(name, uuidHex)
  }

  /**
   * What `Product.save` does to the object before it persists it: mint a SKU when
   * there is none. `uuidHex` is only drawn on when the SKU is empty.
   */
  function AssignSku(p: Product, uuidHex: string): (q: Product)
    requires IsUuidHex(uuidHex) && (p.sku == "" ==> IsAscii(Head3(p.name)))
    ensures q.sku != ""
    ensures q == p.(sku := q.sku)
    ensures p.sku != "" ==> q == p
    ensures p.sku == "" ==> IsCode(q.sku) && CodePrefix(q.sku) == Upper(Head3(p.name))
  {
    if p.sku == "" then p.(sku := GenerateSku(p.name, uuidHex)) else p
  }
}
