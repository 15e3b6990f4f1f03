/**
 * The stock ledger as values: the tables the saves touch, the invariant the saves
 * keep, and one function per `save` override giving the state after it and the
 * exception it raised. Each function lists its row writes in the order the source
 * makes them, so a write made before an exception stays in the result.
 *
 * Saves are sequential: each F("quantity") + n update is read as "the stored value
 * plus n" at the moment of the write.
 */
module Ledger {
  import opened Common
  import opened Codes
  import opened Users
  import opened Products
  import opened Branches

  type RecordId = nat
  type RequestId = nat
  type PairKey = (BranchId, ProductId)

  /** A supplier receipt (ProductInflow). The supplier is only an identifier here. */
  datatype InflowRecord = InflowRecord(product: ProductId, supplier: nat, quantityReceived: nat)

  /** A central-to-branch shipment (ProductOutflow). */
  datatype OutflowRecord = OutflowRecord(product: ProductId, branch: BranchId, quantitySent: nat)

  /** One row written to the database. */
  datatype Write =
    | ProductRow(product: ProductId)
    | BranchRow(branch: BranchId)
    | BranchProductRow(key: PairKey)
    | RequestRow(request: RequestId)
    | InflowRow(inflow: RecordId)
    | OutflowRow(outflow: RecordId)
    | DamageRow(damage: RecordId)

  /**
   * The tables. BranchProduct rows are keyed by their (branch, product) pair, the
   * pair the table declares unique together, so two rows for one pair cannot exist.
   * `journal` lists every row write in order.
   */
  datatype Tables = Tables(
    products: map<ProductId, Product>,
    branches: map<BranchId, Branch>,
    branchProducts: map<PairKey, BranchProduct>,
    requests: map<RequestId, ProductRequest>,
    nextRequestId: RequestId,
    inflows: map<RecordId, InflowRecord>,
    outflows: map<RecordId, OutflowRecord>,
    damages: map<RecordId, DamageRecord>,
    journal: seq<Write>)

  /** The tables after a save, and the exception the save raised (None when it returned normally). */
  datatype Saved = Saved(tables: Tables, raised: Option<Error>)

  const EMPTY: Tables := Tables(map[], map[], map[], map[], 0, map[], map[], map[], [])

  /** A branch with this manager already exists (Branch.manager is a one-to-one field). */
  ghost predicate ManagersDistinct(branches: map<BranchId, Branch>) {
    forall b, c :: b in branches && c in branches && b != c && branches[b].manager.Some? ==>
      branches[b].manager != branches[c].manager
  }

  /** Every product has a SKU, and no two products share one. */
  ghost predicate ProductsValid(products: map<ProductId, Product>) {
    && (forall p :: p in products ==> products[p].sku != "")
    && (forall p, q :: p in products && q in products && p != q ==> products[p].sku != products[q].sku)
  }

  /** Every branch has a code, no two branches share a code, and no two share a manager. */
  ghost predicate BranchesValid(branches: map<BranchId, Branch>) {
    && (forall b :: b in branches ==> branches[b].code != "")
    && (forall b, c :: b in branches && c in branches && b != c ==> branches[b].code != branches[c].code)
    && ManagersDistinct(branches)
  }

  /** Every branch stock row names an existing branch and product and holds a non-negative quantity. */
  ghost predicate StockValid(stock: map<PairKey, BranchProduct>, branchIds: set<BranchId>, productIds: set<ProductId>) {
    forall k :: k in stock ==> k.0 in branchIds && k.1 in productIds && stock[k].quantity >= 0
  }

  /** Every request lies below the next free key and names an existing branch and, if any, product. */
  ghost predicate RequestsValid(requests: map<RequestId, ProductRequest>, next: RequestId,
                                branchIds: set<BranchId>, productIds: set<ProductId>) {
    forall r :: r in requests ==>
      r < next && requests[r].branch in branchIds &&
      (requests[r].product.Some? ==> requests[r].product.value in productIds)
  }

  /** What every stored state satisfies. */
  ghost predicate Valid(t: Tables) {
    && ProductsValid(t.products)
    && BranchesValid(t.branches)
    && StockValid(t.branchProducts, t.branches.Keys, t.products.Keys)
    && RequestsValid(t.requests, t.nextRequestId, t.branches.Keys, t.products.Keys)
  }

  /** Changing one product's quantity keeps the SKUs as they were. */
  lemma CountersKeepProductsValid(products: map<ProductId, Product>, id: ProductId, quantity: int)
    requires ProductsValid(products) && id in products
    ensures ProductsValid(products[id := products[id].(quantity := quantity)])
  {
  }

  lemma EmptyIsValid()
    ensures Valid(EMPTY)
  {
  }

  // ---- single row writes ----

  function PutProduct(t: Tables, id: ProductId, row: Product): Tables {
    t.(products := t.products[id := row], journal := t.journal + [ProductRow(id)])
  }

  function PutBranch(t: Tables, id: BranchId, row: Branch): Tables {
    t.(branches := t.branches[id := row], journal := t.journal + [BranchRow(id)])
  }

  function PutBranchProduct(t: Tables, key: PairKey, row: BranchProduct): Tables {
    t.(branchProducts := t.branchProducts[key := row], journal := t.journal + [BranchProductRow(key)])
  }

  function PutInflow(t: Tables, id: RecordId, row: InflowRecord): Tables {
    t.(inflows := t.inflows[id := row], journal := t.journal + [InflowRow(id)])
  }

  function PutOutflow(t: Tables, id: RecordId, row: OutflowRecord): Tables {
    t.(outflows := t.outflows[id := row], journal := t.journal + [OutflowRow(id)])
  }

  function PutDamage(t: Tables, id: RecordId, row: DamageRecord): Tables {
    t.(damages := t.damages[id := row], journal := t.journal + [DamageRow(id)])
  }

  function PutRequest(t: Tables, id: RequestId, row: ProductRequest): Tables {
    t.(requests := t.requests[id := row], journal := t.journal + [RequestRow(id)])
  }

  /** The stored quantity of a product at a branch, 0 when the pair has no row yet. */
  function BranchQuantity(t: Tables, key: PairKey): int {
    if key in t.branchProducts then t.branchProducts[key].quantity else 0
  }

  // ---- Product.save ----

  function SkuTaken(products: map<ProductId, Product>, id: ProductId, sku: string): bool {
    exists q :: q in products && q != id && products[q].sku == sku
  }

  /**
   * `Product.save`: mint a SKU when there is none, then persist the row. A SKU
   * already held by another product makes the unique constraint reject the row.
   */
  function SaveProduct(t: Tables, id: ProductId, row: Product, uuidHex: string): (s: Saved)
    requires IsUuidHex(uuidHex) && (row.sku == "" ==> IsAscii(Head3(row.name)))
    // the unique SKU column is the only reason to refuse the row
    ensures s.raised.Some? <==> SkuTaken(t.products, id, if row.sku != "" then row.sku else Mint(row.name, uuidHex))
    ensures s.raised.Some? ==> s == Saved(t, Some(IntegrityError))
    ensures s.raised.None? ==>
              && s.tables.products.Keys == t.products.Keys + {id}
              && s.tables.products[id].sku != ""
              // only the SKU is assigned: quantity and opening stock are stored as given
              && s.tables.products[id] == row.(sku := s.tables.products[id].sku)
              && (row.sku != "" ==> s.tables.products[id].sku == row.sku)
              && (row.sku == "" ==> IsCode(s.tables.products[id].sku) &&
                                    CodePrefix(s.tables.products[id].sku) == Upper(Head3(row.name)))
              // the product row is the only write: every other table is as it was
              && s.tables == PutProduct(t, id, s.tables.products[id])
  {
    var r := AssignSku(row, uuidHex);
    if SkuTaken(t.products, id, r.sku) then Saved(t, Some(IntegrityError))
    else Saved(PutProduct(t, id, r), None)
  }

  lemma SaveProductKeepsValid(t: Tables, id: ProductId, row: Product, uuidHex: string)
    requires Valid(t) && IsUuidHex(uuidHex) && (row.sku == "" ==> IsAscii(Head3(row.name)))
    ensures Valid(SaveProduct(t, id, row, uuidHex).tables)
  {
    var r := AssignSku(row, uuidHex);
    if !SkuTaken(t.products, id, r.sku) {
      ProductWriteKeepsValid(t, id, r);
    }
  }

  /** Writing a product row whose SKU is present and held by no other product keeps the invariant. */
  lemma ProductWriteKeepsValid(t: Tables, id: ProductId, p: Product)
    requires Valid(t) && p.sku != "" && !SkuTaken(t.products, id, p.sku)
    ensures Valid(PutProduct(t, id, p))
  {
  }

  // ---- Branch.save ----

  function CodeTaken(branches: map<BranchId, Branch>, id: BranchId, code: string): bool {
    exists c :: c in branches && c != id && branches[c].code == code
  }

  function ManagerTaken(branches: map<BranchId, Branch>, id: BranchId, manager: Option<UserId>): bool {
    manager.Some? && exists c :: c in branches && c != id && branches[c].manager == manager
  }

  /**
   * `Branch.save`: mint a code when there is none, then persist the row. The code
   * and the manager are unique columns; a clash rejects the row and is not retried.
   */
  function SaveBranch(t: Tables, id: BranchId, row: Branch, uuidHex: string): (s: Saved)
    requires IsUuidHex(uuidHex) && (row.code == "" ==> IsAscii(Head3(row.name)))
    // the unique code and manager columns are the only reasons to refuse the row
    ensures s.raised.Some? <==>
              || CodeTaken(t.branches, id, if row.code != "" then row.code else Mint(row.name, uuidHex))
              || ManagerTaken(t.branches, id, row.manager)
    ensures s.raised.Some? ==> s == Saved(t, Some(IntegrityError))
    ensures s.raised.None? ==>
              && s.tables.branches.Keys == t.branches.Keys + {id}
              && s.tables.branches[id].code != ""
              && s.tables.branches[id] == row.(code := s.tables.branches[id].code)
              && (row.code != "" ==> s.tables.branches[id].code == row.code)
              && (row.code == "" ==> IsCode(s.tables.branches[id].code) &&
                                     CodePrefix(s.tables.branches[id].code) == Upper(Head3(row.name)))
              // the branch row is the only write: every other table is as it was
              && s.tables == PutBranch(t, id, s.tables.branches[id])
  {
    var b := AssignCode(row, uuidHex);
    if CodeTaken(t.branches, id, b.code) || ManagerTaken(t.branches, id, b.manager) then
      Saved(t, Some(IntegrityError))
    else
      Saved(PutBranch(t, id, b), None)
  }

  lemma SaveBranchKeepsValid(t: Tables, id: BranchId, row: Branch, uuidHex: string)
    requires Valid(t) && IsUuidHex(uuidHex) && (row.code == "" ==> IsAscii(Head3(row.name)))
    ensures Valid(SaveBranch(t, id, row, uuidHex).tables)
  {
    var b := AssignCode(row, uuidHex);
    if !CodeTaken(t.branches, id, b.code) && !ManagerTaken(t.branches, id, b.manager) {
      BranchWriteKeepsValid(t, id, b);
    }
  }

  /** Writing a branch row whose code and manager no other branch holds keeps the invariant. */
  lemma BranchWriteKeepsValid(t: Tables, id: BranchId, b: Branch)
    requires Valid(t) && b.code != "" && !CodeTaken(t.branches, id, b.code) && !ManagerTaken(t.branches, id, b.manager)
    ensures Valid(PutBranch(t, id, b))
  {
  }

  // ---- BranchProduct.save ----

  /**
   * `BranchProduct.save`: `full_clean` first (both foreign keys must exist and
   * `clean` must accept the quantity), then persist. A rejected row leaves every
   * table as it was.
   */
  function SaveBranchProduct(t: Tables, key: PairKey, row: BranchProduct): (s: Saved)
    ensures s.raised.Some? <==> row.quantity < 0 || key.0 !in t.branches || key.1 !in t.products
    ensures s.raised.Some? ==> s == Saved(t, Some(ValidationError))
    ensures s.raised.None? ==>
              && s.tables.branchProducts == t.branchProducts[key := row]
              && s.tables.products == t.products && s.tables.branches == t.branches
              && s.tables.journal == t.journal + [BranchProductRow(key)]
              && s.tables == PutBranchProduct(t, key, row)
  {
    if Clean(row).Some? || key.0 !in t.branches || key.1 !in t.products then
      Saved(t, Some(ValidationError))
    else
      Saved(PutBranchProduct(t, key, row), None)
  }

  lemma SaveBranchProductKeepsValid(t: Tables, key: PairKey, row: BranchProduct)
    requires Valid(t)
    ensures Valid(SaveBranchProduct(t, key, row).tables)
  {
    if row.quantity >= 0 && key.0 in t.branches && key.1 in t.products {
      StockWriteKeepsValid(t, key, row);
    }
  }

  /** Writing a branch stock row for an existing pair with a non-negative quantity keeps the invariant. */
  lemma StockWriteKeepsValid(t: Tables, key: PairKey, row: BranchProduct)
    requires Valid(t) && key.0 in t.branches && key.1 in t.products && row.quantity >= 0
    ensures Valid(PutBranchProduct(t, key, row))
  {
  }

  // ---- ProductInflow.save ----

  /**
   * `ProductInflow.save`: persist the receipt, then add `quantity_received` to the
   * product's central quantity. Nothing checks whether the receipt is new, so every
   * save of the same receipt adds the quantity again.
   */
  function SaveInflow(t: Tables, id: RecordId, r: InflowRecord): (s: Saved)
    requires r.product in t.products
    ensures s.raised.None?
    ensures s.tables.products == t.products[r.product := t.products[r.product].(quantity := t.products[r.product].quantity + r.quantityReceived)]
    ensures s.tables.branchProducts == t.branchProducts && s.tables.branches == t.branches
    ensures s.tables.requests == t.requests && s.tables.nextRequestId == t.nextRequestId
    ensures s.tables.outflows == t.outflows && s.tables.damages == t.damages
    ensures s.tables.inflows == t.inflows[id := r]
    ensures s.tables.journal == t.journal + [InflowRow(id), ProductRow(r.product)]
  {
    var t1 := PutInflow(t, id, r);
    var p := t1.products[r.product];
    Saved(PutProduct(t1, r.product, p.(quantity := p.quantity + r.quantityReceived)), None)
  }

  lemma SaveInflowKeepsValid(t: Tables, id: RecordId, r: InflowRecord)
    requires Valid(t) && r.product in t.products
    ensures Valid(SaveInflow(t, id, r).tables)
  {
    var t1 := PutInflow(t, id, r);
    CounterWriteKeepsValid(t1, r.product, t1.products[r.product].quantity + r.quantityReceived);
  }

  // ---- ProductOutflow.save ----

  /**
   * `ProductOutflow.save`: persist the shipment; get or create the branch's row for
   * the product (a new row holds `quantity_sent` and the default status; an existing
   * one gets `F("quantity") + quantity_sent` and is saved); then subtract
   * `quantity_sent` from the central quantity, with no check that enough stock exists.
   *
   * Whether `full_clean` inside `BranchProduct.save` accepts the unevaluated F()
   * expression is framework behaviour the source does not show; `cleanAcceptsF`
   * stands for the answer. When it is false, the save raises ExpressionRefused after
   * the shipment row is written and before either counter moves.
   */
  function SaveOutflow(t: Tables, id: RecordId, r: OutflowRecord, cleanAcceptsF: bool): (s: Saved)
    requires r.product in t.products && r.branch in t.branches
    ensures s.tables.outflows == t.outflows[id := r]
    ensures s.raised.Some? ==>
              && s.raised == Some(if cleanAcceptsF then ValidationError else ExpressionRefused)
              && s.tables.journal == t.journal + [OutflowRow(id)]
  {
    var t1 := PutOutflow(t, id, r);
    var s2 := ReceiveAtBranch(t1, (r.branch, r.product), r.quantitySent, cleanAcceptsF);
    if s2.raised.Some? then s2
    else
      var p := s2.tables.products[r.product];
      Saved(PutProduct(s2.tables, r.product, p.(quantity := p.quantity - r.quantitySent)), None)
  }

  /**
   * When an outflow raises: only when the pair already has a row and the F() update
   * is refused by `full_clean` (or would leave a negative quantity). Then only the
   * shipment row has been written.
   */
  lemma OutflowRaises(t: Tables, id: RecordId, r: OutflowRecord, cleanAcceptsF: bool)
    requires r.product in t.products && r.branch in t.branches
    ensures SaveOutflow(t, id, r, cleanAcceptsF).raised.Some? <==>
              && (r.branch, r.product) in t.branchProducts
              && (!cleanAcceptsF || t.branchProducts[(r.branch, r.product)].quantity + r.quantitySent < 0)
    ensures SaveOutflow(t, id, r, cleanAcceptsF).raised.Some? ==> SaveOutflow(t, id, r, cleanAcceptsF).tables == PutOutflow(t, id, r)
  {
    var t1 := PutOutflow(t, id, r);
    var s2 := ReceiveAtBranch(t1, (r.branch, r.product), r.quantitySent, cleanAcceptsF);
  }

  /**
   * What a successful outflow writes: the shipment row, the branch row grown by
   * `quantity_sent` (created with the default status when missing), and the central
   * row shrunk by it; nothing else.
   */
  lemma OutflowEffects(t: Tables, id: RecordId, r: OutflowRecord, cleanAcceptsF: bool)
    requires r.product in t.products && r.branch in t.branches
    requires SaveOutflow(t, id, r, cleanAcceptsF).raised.None?
    ensures var u := SaveOutflow(t, id, r, cleanAcceptsF).tables;
      && u.products.Keys == t.products.Keys
      && u.products[r.product].quantity == t.products[r.product].quantity - r.quantitySent
      && u.products[r.product] == t.products[r.product].(quantity := u.products[r.product].quantity)
      && (u.products == t.products[r.product := u.products[r.product]])
      && u.branchProducts.Keys == t.branchProducts.Keys + {(r.branch, r.product)}
      && BranchQuantity(u, (r.branch, r.product)) == BranchQuantity(t, (r.branch, r.product)) + r.quantitySent
      && ((r.branch, r.product) !in t.branchProducts ==>
            u.branchProducts[(r.branch, r.product)] == BranchProduct(r.quantitySent, Inactive))
      && ((r.branch, r.product) in t.branchProducts ==>
            u.branchProducts[(r.branch, r.product)].status == t.branchProducts[(r.branch, r.product)].status)
      && (u.branchProducts == t.branchProducts[(r.branch, r.product) := u.branchProducts[(r.branch, r.product)]])
      && u.inflows == t.inflows && u.damages == t.damages
      && u.branches == t.branches && u.requests == t.requests && u.nextRequestId == t.nextRequestId
      && u.journal == t.journal + [OutflowRow(id), BranchProductRow((r.branch, r.product)), ProductRow(r.product)]
  {
    var t1 := PutOutflow(t, id, r);
    var s2 := ReceiveAtBranch(t1, (r.branch, r.product), r.quantitySent, cleanAcceptsF);
  }

  /** The shipment row alone touches nothing the invariant speaks of. */
  lemma OutflowRowKeepsValid(t: Tables, id: RecordId, r: OutflowRecord)
    requires Valid(t)
    ensures Valid(PutOutflow(t, id, r))
  {
  }

  /** Writing back a product with only its central quantity changed keeps the invariant. */
  lemma CounterWriteKeepsValid(t: Tables, id: ProductId, quantity: int)
    requires Valid(t) && id in t.products
    ensures Valid(PutProduct(t, id, t.products[id].(quantity := quantity)))
  {
    CountersKeepProductsValid(t.products, id, quantity);
    assert t.products[id := t.products[id].(quantity := quantity)].Keys == t.products.Keys;
  }

  /** The row an outflow of `n` leaves for the pair: a new row of `n` with the default status, or the old row plus `n`. */
  function ReceivedRow(t: Tables, key: PairKey, n: nat): BranchProduct {
    if key in t.branchProducts then
      t.branchProducts[key].(quantity := t.branchProducts[key].quantity + n)
    else
      DEFAULT_BRANCH_PRODUCT.(quantity := n)
  }

  /**
   * The get_or_create step of an outflow and the save that follows it
   * (apps/reports/models.py:56-64).
   */
  function ReceiveAtBranch(t: Tables, key: PairKey, n: nat, cleanAcceptsF: bool): (s: Saved)
    requires key.0 in t.branches && key.1 in t.products
    ensures s.raised.Some? ==> s.tables == t && key in t.branchProducts
    ensures s.raised.Some? ==> s.raised == Some(if cleanAcceptsF then ValidationError else ExpressionRefused)
    ensures s.raised.None? ==> s.tables == PutBranchProduct(t, key, ReceivedRow(t, key, n))
  {
    if key !in t.branchProducts then
      SaveBranchProduct(t, key, DEFAULT_BRANCH_PRODUCT.(quantity := n))
    else if !cleanAcceptsF then
      Saved(t, Some(ExpressionRefused))
    else
      SaveBranchProduct(t, key, ReceivedRow(t, key, n))
  }

  /** On a valid state only the refused F() update raises, and the state stays valid. */
  lemma ReceiveKeepsValid(t: Tables, key: PairKey, n: nat, cleanAcceptsF: bool)
    requires Valid(t) && key.0 in t.branches && key.1 in t.products
    ensures ReceiveAtBranch(t, key, n, cleanAcceptsF).raised.Some? <==> key in t.branchProducts && !cleanAcceptsF
    ensures Valid(ReceiveAtBranch(t, key, n, cleanAcceptsF).tables)
  {
    SaveBranchProductKeepsValid(t, key, ReceivedRow(t, key, n));
  }

  // ---- DamagedProduct.save ----

  /**
   * `DamagedProduct.save`: subtract the damaged quantity from the product and save
   * the product, then persist the damage record. There is no availability check and
   * no check that the record is new.
   */
  function SaveDamage(t: Tables, id: RecordId, d: DamageRecord): (s: Saved)
    requires d.product in t.products
    ensures s.raised.None?
    ensures s.tables.products == t.products[d.product := t.products[d.product].(quantity := t.products[d.product].quantity - d.quantity)]
    ensures s.tables.branchProducts == t.branchProducts && s.tables.branches == t.branches
    ensures s.tables.requests == t.requests && s.tables.nextRequestId == t.nextRequestId
    ensures s.tables.inflows == t.inflows && s.tables.outflows == t.outflows
    ensures s.tables.damages == t.damages[id := d]
    ensures s.tables.journal == t.journal + [ProductRow(d.product), DamageRow(id)]
  {
    var p := t.products[d.product];
    var t1 := PutProduct(t, d.product, p.(quantity := p.quantity - d.quantity));
    Saved(PutDamage(t1, id, d), None)
  }

  lemma SaveDamageKeepsValid(t: Tables, id: RecordId, d: DamageRecord)
    requires Valid(t) && d.product in t.products
    ensures Valid(SaveDamage(t, id, d).tables)
  {
    CounterWriteKeepsValid(t, d.product, t.products[d.product].quantity - d.quantity);
  }

  // ---- ProductRequest rows ----

  /**
   * Inserting a request row under the next free primary key. The foreign keys are
   * checked by the database.
   */
  function InsertRequest(t: Tables, row: ProductRequest): (s: Saved)
    ensures s.raised.Some? <==> row.branch !in t.branches || (row.product.Some? && row.product.value !in t.products)
    ensures s.raised.Some? ==> s == Saved(t, Some(IntegrityError))
    ensures s.raised.None? ==>
              && s.tables.requests == t.requests[t.nextRequestId := row]
              && s.tables.nextRequestId == t.nextRequestId + 1
              && s.tables.journal == t.journal + [RequestRow(t.nextRequestId)]
              && s.tables == t.(requests := s.tables.requests, nextRequestId := s.tables.nextRequestId,
                                journal := s.tables.journal)
  {
    if row.branch !in t.branches || (row.product.Some? && row.product.value !in t.products) then
      Saved(t, Some(IntegrityError))
    else
      Saved(t.(requests := t.requests[t.nextRequestId := row], nextRequestId := t.nextRequestId + 1,
               journal := t.journal + [RequestRow(t.nextRequestId)]), None)
  }

  /** On a valid state the next key is free, and inserting under it keeps the state valid. */
  lemma InsertRequestKeepsValid(t: Tables, row: ProductRequest)
    requires Valid(t)
    ensures t.nextRequestId !in t.requests
    ensures Valid(InsertRequest(t, row).tables)
  {
  }

  /**
   * Overwriting a request's status. There is no transition rule: the new status
   * replaces the old one whatever the two are.
   */
  function SetRequestStatus(t: Tables, id: RequestId, status: RequestStatus): (s: Saved)
    requires id in t.requests
    ensures s.raised.None?
    ensures s.tables.requests.Keys == t.requests.Keys
    ensures s.tables.requests[id] == t.requests[id].(status := status)
    ensures s.tables.requests == t.requests[id := s.tables.requests[id]]
    ensures s.tables.products == t.products && s.tables.branchProducts == t.branchProducts
    ensures s.tables.journal == t.journal + [RequestRow(id)]
    // the request row is the only write: every other table is as it was
    ensures s.tables == PutRequest(t, id, s.tables.requests[id])
  {
    Saved(PutRequest(t, id, t.requests[id].(status := status)), None)
  }

  lemma SetRequestStatusKeepsValid(t: Tables, id: RequestId, status: RequestStatus)
    requires Valid(t) && id in t.requests
    ensures Valid(PutRequest(t, id, t.requests[id].(status := status)))
  {
  }
}
