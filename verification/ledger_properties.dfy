/**
 * Properties of the ledger that relate several saves: re-saving a record, batches of
 * receipts, the stock an outflow moves, and codes that stay put across saves.
 */
module LedgerProperties {
  import opened Common
  import opened Codes
  import opened Products
  import opened Branches
  import opened Ledger

  // ---- re-saving the same record ----

  /** `k` copies of `n` are `k - 1` copies and one more. */
  lemma OneMoreTime(k: nat, n: int)
    requires k > 0
    ensures k * n == (k - 1) * n + n
  {
  }

  /**
   * The tables after the same receipt has been saved `k` times: only the product's
   * row has changed among the stock tables, the receipt is stored once, and every
   * save wrote two rows.
   */
  function InflowSavedTimes(t: Tables, id: RecordId, r: InflowRecord, k: nat): (u: Tables)
    requires r.product in t.products
    ensures r.product in u.products && u.products == t.products[r.product := u.products[r.product]]
    ensures u.branchProducts == t.branchProducts
    ensures k > 0 ==> u.inflows == t.inflows[id := r]
    ensures |u.journal| == |t.journal| + 2 * k
    decreases k
  {
    if k == 0 then t else SaveInflow(InflowSavedTimes(t, id, r, k - 1), id, r).tables
  }

  /**
   * Saving one receipt `k` times adds `k` times its quantity, although the table still
   * holds that receipt once: the delta is applied on every save, not only the first.
   */
  lemma {:induction false} InflowResavedAddsEachTime(t: Tables, id: RecordId, r: InflowRecord, k: nat)
    requires r.product in t.products
    ensures InflowSavedTimes(t, id, r, k).products[r.product]
              == t.products[r.product].(quantity := t.products[r.product].quantity + k * r.quantityReceived)
  {
    if k > 0 {
      InflowResavedAddsEachTime(t, id, r, k - 1);
      OneMoreTime(k, r.quantityReceived);
    }
  }

  /** The tables after the same damage record has been saved `k` times. */
  function DamageSavedTimes(t: Tables, id: RecordId, d: DamageRecord, k: nat): (u: Tables)
    requires d.product in t.products
    ensures d.product in u.products && u.products == t.products[d.product := u.products[d.product]]
    ensures u.branchProducts == t.branchProducts
    ensures k > 0 ==> u.damages == t.damages[id := d]
    ensures |u.journal| == |t.journal| + 2 * k
    decreases k
  {
    if k == 0 then t else SaveDamage(DamageSavedTimes(t, id, d, k - 1), id, d).tables
  }

  /** Saving one damage record `k` times deducts `k` times its quantity. */
  lemma {:induction false} DamageResavedDeductsEachTime(t: Tables, id: RecordId, d: DamageRecord, k: nat)
    requires d.product in t.products
    ensures DamageSavedTimes(t, id, d, k).products[d.product]
              == t.products[d.product].(quantity := t.products[d.product].quantity - k * d.quantity)
  {
    if k > 0 {
      DamageResavedDeductsEachTime(t, id, d, k - 1);
      OneMoreTime(k, d.quantity);
    }
  }

  // ---- batches of receipts ----

  ghost predicate ProductsKnown(t: Tables, batch: seq<(RecordId, InflowRecord)>) {
    forall i :: 0 <= i < |batch| ==> batch[i].1.product in t.products
  }

  /** The tables after saving each receipt of `batch` in turn. */
  function ApplyInflows(t: Tables, batch: seq<(RecordId, InflowRecord)>): (u: Tables)
    requires ProductsKnown(t, batch)
    ensures u.products.Keys == t.products.Keys
    decreases |batch|
  {
    if batch == [] then t
    else
      var last := batch[|batch| - 1];
      SaveInflow(ApplyInflows(t, batch[..|batch| - 1]), last.0, last.1).tables
  }

  /** The total received for product `p` over a batch. */
  function ReceivedFor(batch: seq<(RecordId, InflowRecord)>, p: ProductId): nat
    decreases |batch|
  {
    if batch == [] then 0
    else
      var last := batch[|batch| - 1];
      ReceivedFor(batch[..|batch| - 1], p) + (if last.1.product == p then last.1.quantityReceived else 0)
  }

  /** After a batch of receipts, each product holds its starting quantity plus everything received for it. */
  lemma {:induction false} InflowBatchAddsTotal(t: Tables, batch: seq<(RecordId, InflowRecord)>, p: ProductId)
    requires ProductsKnown(t, batch) && p in t.products
    ensures ApplyInflows(t, batch).products[p].quantity == t.products[p].quantity + ReceivedFor(batch, p)
    ensures ApplyInflows(t, batch).branchProducts == t.branchProducts
    decreases |batch|
  {
    if batch != [] {
      InflowBatchAddsTotal(t, batch[..|batch| - 1], p);
    }
  }

  /** The total received splits over concatenation. */
  lemma {:induction false} ReceivedForAppend(a: seq<(RecordId, InflowRecord)>, b: seq<(RecordId, InflowRecord)>, p: ProductId)
    ensures ReceivedFor(a + b, p) == ReceivedFor(a, p) + ReceivedFor(b, p)
    decreases |b|
  {
    if b == [] {
      assert a + b == a;
    } else {
      assert (a + b)[..|a + b| - 1] == a + b[..|b| - 1];
      ReceivedForAppend(a, b[..|b| - 1], p);
    }
  }

  /**
   * Two batches of receipts leave every central quantity the same whichever lands
   * first: relative updates do not lose each other's deltas.
   */
  lemma InflowBatchesCommute(t: Tables, a: seq<(RecordId, InflowRecord)>, b: seq<(RecordId, InflowRecord)>, p: ProductId)
    requires ProductsKnown(t, a + b) && ProductsKnown(t, b + a) && p in t.products
    ensures ApplyInflows(t, a + b).products[p].quantity == ApplyInflows(t, b + a).products[p].quantity
  {
    InflowBatchAddsTotal(t, a + b, p);
    InflowBatchAddsTotal(t, b + a, p);
    ReceivedForAppend(a, b, p);
    ReceivedForAppend(b, a, p);
  }

  // ---- outflows ----

  /**
   * An outflow moves stock and creates none: the central quantity plus the branch's
   * quantity of the product is the same before and after, whether or not it raised.
   */
  lemma OutflowConservesStock(t: Tables, id: RecordId, r: OutflowRecord, cleanAcceptsF: bool)
    requires r.product in t.products && r.branch in t.branches
    ensures var u := SaveOutflow(t, id, r, cleanAcceptsF).tables;
      u.products[r.product].quantity + BranchQuantity(u, (r.branch, r.product))
        == t.products[r.product].quantity + BranchQuantity(t, (r.branch, r.product))
  {
    OutflowRaises(t, id, r, cleanAcceptsF);
    if SaveOutflow(t, id, r, cleanAcceptsF).raised.None? {
      OutflowEffects(t, id, r, cleanAcceptsF);
    }
  }

  /**
   * A second outflow to the same pair adds to the row the first one created rather
   * than creating another one (when `full_clean` accepts the F() update).
   */
  lemma {:induction false} SecondOutflowAccumulates(t: Tables, id1: RecordId, id2: RecordId, r1: OutflowRecord, r2: OutflowRecord)
    requires r1.product in t.products && r1.branch in t.branches
    requires r2.product == r1.product && r2.branch == r1.branch
    requires (r1.branch, r1.product) !in t.branchProducts
    ensures var u1 := SaveOutflow(t, id1, r1, true).tables;
      var s2 := SaveOutflow(u1, id2, r2, true);
      && s2.raised.None?
      && s2.tables.branchProducts.Keys == t.branchProducts.Keys + {(r1.branch, r1.product)}
      && s2.tables.branchProducts[(r1.branch, r1.product)] == BranchProduct(r1.quantitySent + r2.quantitySent, Inactive)
      && s2.tables.products[r1.product].quantity == t.products[r1.product].quantity - r1.quantitySent - r2.quantitySent
  {
    OutflowRaises(t, id1, r1, true);
    OutflowEffects(t, id1, r1, true);
    var u1 := SaveOutflow(t, id1, r1, true).tables;
    OutflowRaises(u1, id2, r2, true);
    OutflowEffects(u1, id2, r2, true);
  }

  // ---- codes ----

  /**
   * Once a product has a SKU, saving it again, even renamed, keeps the SKU: the
   * second save draws no new code and cannot clash with another product.
   */
  lemma {:induction false} SkuKeptAfterRename(t: Tables, id: ProductId, row: Product, h1: string, newName: string, h2: string)
    requires IsUuidHex(h1) && IsUuidHex(h2) && (row.sku == "" ==> IsAscii(Head3(row.name)))
    requires SaveProduct(t, id, row, h1).raised.None?
    ensures var u := SaveProduct(t, id, row, h1).tables;
      var s2 := SaveProduct(u, id, u.products[id].(name := newName), h2);
      s2.raised.None? && s2.tables.products[id].sku == u.products[id].sku && s2.tables.products[id].name == newName
  {
    var u := SaveProduct(t, id, row, h1).tables;
    var sku := u.products[id].sku;
    assert !SkuTaken(u.products, id, sku) by {
      assert !SkuTaken(t.products, id, AssignSku(row, h1).sku);
    }
  }

  /** Once a branch has a code, saving it again, even renamed, keeps the code. */
  lemma {:induction false} BranchCodeKeptAfterRename(t: Tables, id: BranchId, row: Branch, h1: string, newName: string, h2: string)
    requires IsUuidHex(h1) && IsUuidHex(h2) && (row.code == "" ==> IsAscii(Head3(row.name)))
    requires SaveBranch(t, id, row, h1).raised.None?
    ensures var u := SaveBranch(t, id, row, h1).tables;
      var s2 := SaveBranch(u, id, u.branches[id].(name := newName), h2);
      s2.raised.None? && s2.tables.branches[id].code == u.branches[id].code && s2.tables.branches[id].name == newName
  {
    var u := SaveBranch(t, id, row, h1).tables;
    var b := AssignCode(row, h1);
    assert !CodeTaken(u.branches, id, b.code) by {
      assert !CodeTaken(t.branches, id, b.code);
    }
    assert !ManagerTaken(u.branches, id, b.manager) by {
      assert !ManagerTaken(t.branches, id, b.manager);
    }
  }

  // ---- a worked scenario ----

  const WIDGET_UUID: string := "3f2a9c0b1d4e5f60718293a4b5c6d7e8"

  lemma UpperWid()
    ensures Upper("Wid") == "WID"
  {
    var w := Upper("Wid");
    assert forall i :: 0 <= i < 3 ==> w[i] == UpperChar("Wid"[i]);
  }

  lemma UpperUuidHead()
    ensures Upper("3f2a9c") == "3F2A9C"
  {
    var u := Upper("3f2a9c");
    assert forall i :: 0 <= i < 6 ==> u[i] == UpperChar("3f2a9c"[i]);
  }

  lemma WidgetUuidIsHex()
    ensures IsUuidHex(WIDGET_UUID)
  {
    forall i | 0 <= i < |WIDGET_UUID|
      ensures IsLowerHexDigit(WIDGET_UUID[i])
    {
      assert WIDGET_UUID[i] in "0123456789abcdef";
    }
  }

  /** The code minted for "Widget" from this UUID. */
  lemma MintWidget()
    ensures IsUuidHex(WIDGET_UUID)
    ensures Mint("Widget", WIDGET_UUID) == "WID-3F2A9C"
  {
    WidgetUuidIsHex();
    UpperWid();
    UpperUuidHead();
    assert WIDGET_UUID[..6] == "3f2a9c";
    assert Head3("Widget") == "Wid";
    // the code is its prefix, a dash and its suffix
    CodeSplitJoin(Mint("Widget", WIDGET_UUID));
  }

  /** Registering "Widget" with no SKU mints WID- followed by the first six UUID digits in upper case. */
  lemma WidgetSku()
    ensures IsUuidHex(WIDGET_UUID)
    ensures SaveProduct(EMPTY, 1, Product("Widget", "", 0, 0), WIDGET_UUID).tables.products[1].sku == "WID-3F2A9C"
  {
    MintWidget();
    var row := AssignSku(Product("Widget", "", 0, 0), WIDGET_UUID);
    assert row.sku == "WID-3F2A9C";
    assert !SkuTaken(EMPTY.products, 1, row.sku);
  }

  /** The registry after "Widget" (product 1) and the "Harbour" branch (branch 7) are saved. */
  const REGISTERED: Tables :=
    EMPTY.(products := map[1 := Product("Widget", "WID-3F2A9C", 0, 0)],
           branches := map[7 := Branch("Harbour", "Quay St", "HAR-0A1B2C", "555-0100", None)])

  // A worked run, one save per step: receive 50 Widgets, send 20 and then 5 to the
  // branch, write off 5. With the F() update accepted the branch ends with 25 and the
  // centre with 50 - 20 - 5 - 5 = 20; otherwise the second shipment stops after its
  // own row, the branch keeps 20 and the centre ends with 50 - 20 - 5 = 25.

  function WidgetsReceived(): (t: Tables)
    ensures t.products == map[1 := Product("Widget", "WID-3F2A9C", 50, 0)]
    ensures t.branches == REGISTERED.branches && t.branchProducts == map[]
  {
    SaveInflow(REGISTERED, 1, InflowRecord(1, 1, 50)).tables
  }

  function TwentyShipped(cleanAcceptsF: bool): (t: Tables)
    ensures t.products == map[1 := Product("Widget", "WID-3F2A9C", 30, 0)]
    ensures t.branches == REGISTERED.branches
    ensures t.branchProducts == map[(7, 1) := BranchProduct(20, Inactive)]
  {
    var t := WidgetsReceived();
    var r := OutflowRecord(1, 7, 20);
    OutflowRaises(t, 1, r, cleanAcceptsF);
    OutflowEffects(t, 1, r, cleanAcceptsF);
    SaveOutflow(t, 1, r, cleanAcceptsF).tables
  }

  function FiveMoreShipped(cleanAcceptsF: bool): (s: Saved)
    ensures s.raised.None? <==> cleanAcceptsF
    ensures s.tables.products == map[1 := Product("Widget", "WID-3F2A9C", if cleanAcceptsF then 25 else 30, 0)]
    ensures s.tables.branchProducts == map[(7, 1) := BranchProduct(if cleanAcceptsF then 25 else 20, Inactive)]
  {
    var t := TwentyShipped(cleanAcceptsF);
    var r := OutflowRecord(1, 7, 5);
    OutflowRaises(t, 2, r, cleanAcceptsF);
    if cleanAcceptsF then
      OutflowEffects(t, 2, r, cleanAcceptsF);
      SaveOutflow(t, 2, r, cleanAcceptsF)
    else
      SaveOutflow(t, 2, r, cleanAcceptsF)
  }

  function FiveWrittenOff(cleanAcceptsF: bool): (t: Tables)
    ensures t.products == map[1 := Product("Widget", "WID-3F2A9C", if cleanAcceptsF then 20 else 25, 0)]
    ensures t.branchProducts == map[(7, 1) := BranchProduct(if cleanAcceptsF then 25 else 20, Inactive)]
  {
    SaveDamage(FiveMoreShipped(cleanAcceptsF).tables, 1, DamageRecord(1, 5, "crushed")).tables
  }
}
