/**
 * The database the `save` overrides write to: one field per table, and one method
 * per override that makes its row writes one after another, in the source's order.
 * Each method is proved to leave exactly the state, and raise exactly the exception,
 * that the matching function of the Ledger module describes.
 */
module Database {
  import opened Common
  import opened Codes
  import opened Products
  import opened Branches
  import Ledger

  class Store {
    var products: map<ProductId, Product>
    var branches: map<BranchId, Branch>
    var branchProducts: map<Ledger.PairKey, BranchProduct>
    var requests: map<Ledger.RequestId, ProductRequest>
    var nextRequestId: Ledger.RequestId
    var inflows: map<Ledger.RecordId, Ledger.InflowRecord>
    var outflows: map<Ledger.RecordId, Ledger.OutflowRecord>
    var damages: map<Ledger.RecordId, DamageRecord>
    var journal: seq<Ledger.Write>

    /** The stored tables as a value. */
    function Snapshot(): Ledger.Tables
      reads this
    {
      Ledger.Tables(products, branches, branchProducts, requests, nextRequestId, inflows, outflows, damages, journal)
    }

    ghost predicate Valid()
      reads this
    {
      Ledger.Valid(Snapshot())
    }

    constructor ()
      ensures Valid() && Snapshot() == Ledger.EMPTY
    {
      products, branches, branchProducts, requests := map[], map[], map[], map[];
      nextRequestId := 0;
      inflows, outflows, damages := map[], map[], map[];
      journal := [];
      Ledger.EmptyIsValid();
    }

    /** `Product.save` (apps/products/models.py:48-51). */
    method SaveProduct(id: ProductId, row: Product, uuidHex: string) returns (raised: Option<Error>)
      requires Valid() && IsUuidHex(uuidHex) && (row.sku == "" ==> IsAscii(Head3(row.name)))
      modifies this
      ensures Valid()
      ensures Ledger.Saved(Snapshot(), raised) == Ledger.SaveProduct(old(Snapshot()), id, row, uuidHex)
    {
      var saved := AssignSku(row, uuidHex);
      if exists q :: q in products && q != id && products[q].sku == saved.sku {
        return Some(IntegrityError);
      }
      ghost var t0 := Snapshot();
      Ledger.ProductWriteKeepsValid(t0, id, saved);
      products, journal := products[id := saved], journal + [Ledger.ProductRow(id)];
      raised := None;
      assert Snapshot() == Ledger.PutProduct(t0, id, saved);
    }

    /** `Branch.save` (apps/branches/models.py:25-28). */
    method SaveBranch(id: BranchId, row: Branch, uuidHex: string) returns (raised: Option<Error>)
      requires Valid() && IsUuidHex(uuidHex) && (row.code == "" ==> IsAscii(Head3(row.name)))
      modifies this
      ensures Valid()
      ensures Ledger.Saved(Snapshot(), raised) == Ledger.SaveBranch(old(Snapshot()), id, row, uuidHex)
    {
      var saved := AssignCode(row, uuidHex);
      if Ledger.CodeTaken(branches, id, saved.code) || Ledger.ManagerTaken(branches, id, saved.manager) {
        return Some(IntegrityError);
      }
      ghost var t0 := Snapshot();
      Ledger.BranchWriteKeepsValid(t0, id, saved);
      branches, journal := branches[id := saved], journal + [Ledger.BranchRow(id)];
      raised := None;
      assert Snapshot() == Ledger.PutBranch(t0, id, saved);
    }

    /** `BranchProduct.save` (apps/branches/models.py:52-58): validate, then persist. */
    method SaveBranchProduct(key: Ledger.PairKey, row: BranchProduct) returns (raised: Option<Error>)
      requires Valid()
      modifies this
      ensures Valid()
      ensures Ledger.Saved(Snapshot(), raised) == Ledger.SaveBranchProduct(old(Snapshot()), key, row)
    {
      // full_clean: the foreign keys, then clean()
      if key.0 !in branches || key.1 !in products || Clean(row).Some? {
        return Some(ValidationError);
      }
      ghost var t0 := Snapshot();
      Ledger.StockWriteKeepsValid(t0, key, row);
      branchProducts, journal := branchProducts[key := row], journal + [Ledger.BranchProductRow(key)];
      raised := None;
      assert Snapshot() == Ledger.PutBranchProduct(t0, key, row);
    }

    /**
     * `ProductInflow.save` (apps/reports/models.py:28-32). The product is written
     * directly: `Product.save` would mint a SKU only for an empty one, and no stored
     * product has an empty SKU.
     */
    method SaveInflow(id: Ledger.RecordId, r: Ledger.InflowRecord)
      requires Valid() && r.product in products
      modifies this
      ensures Valid()
      ensures Snapshot() == Ledger.SaveInflow(old(Snapshot()), id, r).tables
    {
      ghost var t0 := Snapshot();
      Ledger.SaveInflowKeepsValid(t0, id, r);
      inflows, journal := inflows[id := r], journal + [Ledger.InflowRow(id)];
      var p := products[r.product];
      products, journal := products[r.product := p.(quantity := p.quantity + r.quantityReceived)], journal + [Ledger.ProductRow(r.product)];
      assert Snapshot() == Ledger.SaveInflow(t0, id, r).tables;
    }

    /**
     * The get_or_create step of an outflow and the branch save after it
     * (apps/reports/models.py:56-64).
     */
    method ReceiveAtBranch(key: Ledger.PairKey, n: nat, cleanAcceptsF: bool) returns (raised: Option<Error>)
      requires Valid() && key.0 in branches && key.1 in products
      modifies this
      ensures Valid()
      ensures Ledger.Saved(Snapshot(), raised) == Ledger.ReceiveAtBranch(old(Snapshot()), key, n, cleanAcceptsF)
    {
      if key !in branchProducts {
        raised := SaveBranchProduct(key, DEFAULT_BRANCH_PRODUCT.(quantity := n));
      } else if !cleanAcceptsF {
        raised := Some(ExpressionRefused);
      } else {
        var bp := branchProducts[key];
        raised := SaveBranchProduct(key, bp.(quantity := bp.quantity + n));
      }
    }

    /** Persisting a shipment row, with nothing else written yet. */
    method WriteOutflow(id: Ledger.RecordId, r: Ledger.OutflowRecord)
      requires Valid()
      modifies this
      ensures Valid()
      ensures Snapshot() == Ledger.PutOutflow(old(Snapshot()), id, r)
    {
      ghost var t0 := Snapshot();
      Ledger.OutflowRowKeepsValid(t0, id, r);
      outflows, journal := outflows[id := r], journal + [Ledger.OutflowRow(id)];
      assert Snapshot() == Ledger.PutOutflow(t0, id, r);
    }

    /** Persisting a product whose central quantity has been changed, and nothing else. */
    method WriteQuantity(id: ProductId, quantity: int)
      requires Valid() && id in products
      modifies this
      ensures Valid()
      ensures Snapshot() == Ledger.PutProduct(old(Snapshot()), id, old(products[id]).(quantity := quantity))
    {
      ghost var t0 := Snapshot();
      Ledger.CounterWriteKeepsValid(t0, id, quantity);
      products, journal := products[id := products[id].(quantity := quantity)], journal + [Ledger.ProductRow(id)];
      assert Snapshot() == Ledger.PutProduct(t0, id, t0.products[id].(quantity := quantity));
    }

    /**
     * `ProductOutflow.save` (apps/reports/models.py:52-68): the shipment row, then the
     * branch row, then the product row. `cleanAcceptsF` is the framework's answer to
     * whether `full_clean` accepts the F() value assigned to an existing branch row.
     */
    method SaveOutflow(id: Ledger.RecordId, r: Ledger.OutflowRecord, cleanAcceptsF: bool) returns (raised: Option<Error>)
      requires Valid() && r.product in products && r.branch in branches
      modifies this
      ensures Valid()
      ensures Ledger.Saved(Snapshot(), raised) == Ledger.SaveOutflow(old(Snapshot()), id, r, cleanAcceptsF)
    {
      WriteOutflow(id, r);
      raised := ReceiveAtBranch((r.branch, r.product), r.quantitySent, cleanAcceptsF);
      if raised.Some? {
        return;
      }
      WriteQuantity(r.product, products[r.product].quantity - r.quantitySent);
    }

    /**
     * `DamagedProduct.save` (apps/products/models.py:79-83): the product row first,
     * then the damage row.
     */
    method SaveDamage(id: Ledger.RecordId, d: DamageRecord)
      requires Valid() && d.product in products
      modifies this
      ensures Valid()
      ensures Snapshot() == Ledger.SaveDamage(old(Snapshot()), id, d).tables
    {
      ghost var t0 := Snapshot();
      Ledger.SaveDamageKeepsValid(t0, id, d);
      var p := products[d.product];
      products, journal := products[d.product := p.(quantity := p.quantity - d.quantity)], journal + [Ledger.ProductRow(d.product)];
      damages, journal := damages[id := d], journal + [Ledger.DamageRow(id)];
      assert Snapshot() == Ledger.SaveDamage(t0, id, d).tables;
    }

    /** Persisting a new request row under the next free id, and nothing else. */
    method WriteRequest(row: ProductRequest) returns (id: Ledger.RequestId)
      requires Valid() && row.branch in branches && (row.product.Some? ==> row.product.value in products)
      modifies this
      ensures Valid()
      ensures id == old(nextRequestId) && id in requests
      ensures Snapshot() == Ledger.InsertRequest(old(Snapshot()), row).tables
    {
      ghost var t0 := Snapshot();
      Ledger.InsertRequestKeepsValid(t0, row);
      id := nextRequestId;
      requests, nextRequestId, journal := requests[id := row], nextRequestId + 1, journal + [Ledger.RequestRow(id)];
      assert Snapshot() == Ledger.InsertRequest(t0, row).tables;
    }

    /** Inserting a request row (`serializer.save()` on create). */
    method InsertRequest(row: ProductRequest) returns (id: Ledger.RequestId, raised: Option<Error>)
      requires Valid()
      modifies this
      ensures Valid()
      ensures Ledger.Saved(Snapshot(), raised) == Ledger.InsertRequest(old(Snapshot()), row)
      ensures raised.None? ==> id == old(nextRequestId) && id in requests
    {
      if row.branch !in branches || (row.product.Some? && row.product.value !in products) {
        return nextRequestId, Some(IntegrityError);
      }
      id := WriteRequest(row);
      raised := None;
    }

    /** Overwriting a request's status (`serializer.save()` on update). */
    method SetRequestStatus(id: Ledger.RequestId, status: RequestStatus)
      requires Valid() && id in requests
      modifies this
      ensures Valid()
      ensures Snapshot() == Ledger.SetRequestStatus(old(Snapshot()), id, status).tables
    {
      ghost var t0 := Snapshot();
      Ledger.SetRequestStatusKeepsValid(t0, id, status);
      var q := requests[id];
      requests, journal := requests[id := q.(status := status)], journal + [Ledger.RequestRow(id)];
      assert Snapshot() == Ledger.PutRequest(t0, id, q.(status := status));
    }
  }
}
