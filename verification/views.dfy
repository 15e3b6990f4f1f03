/**
 * The role-scoped endpoints of the branches app (apps/branches/views.py): which
 * branches, branch stock rows and requests a caller sees, and the guarded saves
 * behind branch updates, `update_quantity`, request creation and request status
 * changes. Listing is a pure selection over the stored tables; the saves are
 * methods on the `Store`, each proved to leave exactly the state the Ledger
 * function it calls describes, and nothing at all when it refuses.
 */
module Views {
  import opened Common
  import opened Codes
  import opened Users
  import opened Products
  import opened Branches
  import Ledger
  import Database

  /** The authenticated user behind a request: its key and its role string. */
  datatype Caller = Caller(id: UserId, role: string)

  /** The writable fields of a branch (`branch_code` and `id` are read-only). */
  datatype BranchPatch = BranchPatch(name: string, location: string, contact: string, manager: Option<UserId>)

  /** The `quantity` field of an `update_quantity` body. */
  datatype QuantityField = Missing | Given(n: int) | NotAnInteger

  /** A body field that may be left out, sent as null, or sent with a value. */
  datatype Field<T> = Omitted | Null | Sent(value: T)

  /**
   * The writable fields of a request body. For `branch`, `product` and `quantity`
   * a field left out and one sent as null are treated alike (`None`): the first and
   * last are refused either way, and a nullable `product` is stored as null either
   * way. `status` has a default but is not nullable, so the two differ there.
   */
  datatype RequestPayload = RequestPayload(branch: Option<BranchId>, product: Option<ProductId>,
                                           quantity: Option<int>, status: Field<string>)

  /**
   * A 32-digit hex string handed to `Branch.save` on an update. A stored branch
   * always has a code, so nothing is minted from it.
   */
  const UNUSED_UUID: string := "00000000000000000000000000000000"

  /**
   * `user.managed_branch`: the branch whose one-to-one `manager` is the user,
   * or `None` where Django would raise `RelatedObjectDoesNotExist`.
   */
  function ManagedBranch(branches: map<BranchId, Branch>, user: UserId): (b: Option<BranchId>)
    requires Ledger.ManagersDistinct(branches)
    ensures b.Some? <==> exists x :: x in branches && branches[x].manager == Some(user)
    ensures b.Some? ==> b.value in branches && branches[b.value].manager == Some(user)
    ensures b.Some? ==> forall x :: x in branches && branches[x].manager == Some(user) ==> x == b.value
  {
    if exists x :: x in branches && branches[x].manager == Some(user) then
      var x :| x in branches && branches[x].manager == Some(user);
      Some(x)
    else
      None
  }

  // ---- BranchViewSet ----

  /** `BranchViewSet.get_queryset` (apps/branches/views.py:18-24). */
  function BranchQueryset(c: Caller, branches: map<BranchId, Branch>): (q: set<BranchId>)
    ensures q <= branches.Keys
    ensures c.role == ADMIN ==> q == branches.Keys
    ensures c.role == BRANCH_MANAGER ==>
              forall b :: b in branches ==> (b in q <==> branches[b].manager == Some(c.id))
    ensures c.role != ADMIN && c.role != BRANCH_MANAGER ==> q == {}
  {
    if c.role == ADMIN then branches.Keys
    else if c.role == BRANCH_MANAGER then set b | b in branches && branches[b].manager == Some(c.id)
    else {}
  }

  /** A branch manager sees exactly the branch it manages, and none if it manages none. */
  lemma {:induction false} ManagerSeesOnlyOwnBranch(c: Caller, branches: map<BranchId, Branch>)
    requires Ledger.ManagersDistinct(branches) && c.role == BRANCH_MANAGER
    ensures ManagedBranch(branches, c.id).None? ==> BranchQueryset(c, branches) == {}
    ensures ManagedBranch(branches, c.id).Some? ==> BranchQueryset(c, branches) == {ManagedBranch(branches, c.id).value}
  {
    var q := BranchQueryset(c, branches);
    match ManagedBranch(branches, c.id)
    case None =>
    case Some(m) =>
      assert m in q;
      forall b | b in q
        ensures b == m
      {
        assert branches[b].manager == Some(c.id);
      }
  }

  /** The branch a full update leaves: the patch over the stored row, code kept. */
  function Patched(b: Branch, p: BranchPatch): (r: Branch)
    ensures r.code == b.code
    ensures r.name == p.name && r.location == p.location && r.contact == p.contact && r.manager == p.manager
  {
    Branch(p.name, p.location, b.code, p.contact, p.manager)
  }

  /**
   * An update through `BranchViewSet` (apps/branches/views.py:26-29): the row is
   * looked up in the caller's queryset, the body is validated (the one-to-one
   * `manager` must not belong to another branch), then `perform_update` refuses
   * every role except branch_manager, and otherwise `Branch.save` runs.
   */
  method UpdateBranch(store: Database.Store, c: Caller, id: BranchId, patch: BranchPatch) returns (raised: Option<Error>)
    requires store.Valid()
    modifies store
    ensures store.Valid()
    ensures id !in BranchQueryset(c, old(store.branches)) ==>
              raised == Some(NotFound) && store.Snapshot() == old(store.Snapshot())
    ensures id in BranchQueryset(c, old(store.branches)) && Ledger.ManagerTaken(old(store.branches), id, patch.manager) ==>
              raised == Some(BadRequest) && store.Snapshot() == old(store.Snapshot())
    ensures c.role != BRANCH_MANAGER && !Ledger.ManagerTaken(old(store.branches), id, patch.manager) ==>
              raised.Some? && store.Snapshot() == old(store.Snapshot())
    ensures id in BranchQueryset(c, old(store.branches)) && c.role != BRANCH_MANAGER
            && !Ledger.ManagerTaken(old(store.branches), id, patch.manager) ==>
              raised == Some(PermissionDenied)
    ensures raised.None? <==>
              id in BranchQueryset(c, old(store.branches)) && c.role == BRANCH_MANAGER
              && !Ledger.ManagerTaken(old(store.branches), id, patch.manager)
    ensures raised.None? ==>
              && old(store.branches[id].manager) == Some(c.id)
              && store.branches == old(store.branches)[id := Patched(old(store.branches[id]), patch)]
              && store.branches[id].code == old(store.branches[id].code)
              && store.Snapshot() == Ledger.SaveBranch(old(store.Snapshot()), id, Patched(old(store.branches[id]), patch), UNUSED_UUID).tables
  {
    if id !in BranchQueryset(c, store.branches) {
      return Some(NotFound);
    }
    if Ledger.ManagerTaken(store.branches, id, patch.manager) {
      return Some(BadRequest);
    }
    if c.role != BRANCH_MANAGER {
      return Some(PermissionDenied);
    }
    var row := Patched(store.branches[id], patch);
    assert IsUuidHex(UNUSED_UUID);
    raised := store.SaveBranch(id, row, UNUSED_UUID);
  }

  // ---- BranchProductViewSet ----

  /**
   * `BranchProductViewSet.get_queryset` (apps/branches/views.py:36-38): the stock
   * rows of the caller's managed branch, whatever its role; a caller that manages
   * no branch gets an error instead of a list.
   */
  function BranchProductQueryset(c: Caller, t: Ledger.Tables): (q: Result<set<Ledger.PairKey>>)
    requires Ledger.ManagersDistinct(t.branches)
    ensures q.Err? <==> ManagedBranch(t.branches, c.id).None?
    ensures q.Err? ==> q.error == NoManagedBranch
    ensures q.Ok? ==> forall k :: k in q.value <==> k in t.branchProducts && k.0 == ManagedBranch(t.branches, c.id).value
  {
    match ManagedBranch(t.branches, c.id)
    case None => Err(NoManagedBranch)
    case Some(b) => Ok(set k | k in t.branchProducts && k.0 == b)
  }

  /** The quantity `update_quantity` stores, or `None` when the serializer rejects the body. */
  function ValidQuantity(current: int, f: QuantityField): (q: Option<int>)
    ensures q.Some? <==> f.Missing? || (f.Given? && f.n >= 0)
    ensures f.Missing? ==> q == Some(current)
    ensures f.Given? && f.n >= 0 ==> q == Some(f.n)
  {
    match f
    case Missing => Some(current)
    case Given(n) => if n >= 0 then Some(n) else None
    case NotAnInteger => None
  }

  /**
   * `update_quantity` (apps/branches/views.py:40-49): the row is looked up in the
   * caller's queryset, the body's `quantity` is validated as a non-negative integer
   * (a body without it is valid and keeps the stored value), and the row is saved
   * through `BranchProduct.save`. On any refusal nothing is written.
   */
  method UpdateQuantity(store: Database.Store, c: Caller, key: Ledger.PairKey, f: QuantityField)
    returns (r: Result<BranchProduct>)
    requires store.Valid()
    modifies store
    ensures store.Valid()
    ensures BranchProductQueryset(c, old(store.Snapshot())).Err? ==>
              r == Err(NoManagedBranch) && store.Snapshot() == old(store.Snapshot())
    ensures BranchProductQueryset(c, old(store.Snapshot())).Ok? && key !in BranchProductQueryset(c, old(store.Snapshot())).value ==>
              r == Err(NotFound) && store.Snapshot() == old(store.Snapshot())
    ensures r.Err? ==> store.Snapshot() == old(store.Snapshot())
    ensures r.Ok? <==>
              && BranchProductQueryset(c, old(store.Snapshot())).Ok?
              && key in BranchProductQueryset(c, old(store.Snapshot())).value
              && ValidQuantity(old(store.branchProducts[key].quantity), f).Some?
    ensures r.Err? && r.error != NoManagedBranch && r.error != NotFound ==> r.error == BadRequest
    ensures r.Ok? ==>
              && r.value == old(store.branchProducts[key]).(quantity := ValidQuantity(old(store.branchProducts[key].quantity), f).value)
              && r.value.quantity >= 0
              && store.branchProducts == old(store.branchProducts)[key := r.value]
              && store.Snapshot() == Ledger.SaveBranchProduct(old(store.Snapshot()), key, r.value).tables
  {
    var q := BranchProductQueryset(c, store.Snapshot());
    if q.Err? {
      return Err(q.error);
    }
    if key !in q.value {
      return Err(NotFound);
    }
    var row := store.branchProducts[key];
    var n := ValidQuantity(row.quantity, f);
    if n.None? {
      return Err(BadRequest);
    }
    r := Ok(row.(quantity := n.value));
    var raised := store.SaveBranchProduct(key, r.value);
  }

  // ---- ProductRequestViewSet ----

  /**
   * `ProductRequestViewSet.get_queryset` (apps/branches/views.py:56-60): a branch
   * manager sees the requests of its managed branch (an error when it manages
   * none); every other role sees every request.
   */
  function RequestQueryset(c: Caller, t: Ledger.Tables): (q: Result<set<Ledger.RequestId>>)
    requires Ledger.ManagersDistinct(t.branches)
    ensures q.Err? <==> c.role == BRANCH_MANAGER && ManagedBranch(t.branches, c.id).None?
    ensures q.Err? ==> q.error == NoManagedBranch
    ensures q.Ok? && c.role != BRANCH_MANAGER ==> q.value == t.requests.Keys
    ensures q.Ok? && c.role == BRANCH_MANAGER ==>
              forall r :: r in q.value <==> r in t.requests && t.requests[r].branch == ManagedBranch(t.branches, c.id).value
  {
    if c.role == BRANCH_MANAGER then
      match ManagedBranch(t.branches, c.id)
      case None => Err(NoManagedBranch)
      case Some(b) => Ok(set r | r in t.requests && t.requests[r].branch == b)
    else
      Ok(t.requests.Keys)
  }

  /**
   * The serializer's validation of a request body: `branch` is required and must
   * exist, `product` may be null but must exist when given, `quantity` is a required
   * non-negative integer, and `status` may be left out (the default applies) but,
   * when sent, must be one of the choices and not null.
   */
  function ValidateRequest(t: Ledger.Tables, p: RequestPayload): (r: Result<ProductRequest>)
    ensures r.Err? ==> r.error == BadRequest
    ensures r.Ok? <==>
              && p.branch.Some? && p.branch.value in t.branches
              && (p.product.Some? ==> p.product.value in t.products)
              && p.quantity.Some? && p.quantity.value >= 0
              && !p.status.Null?
              && (p.status.Sent? ==> ParseRequestStatus(p.status.value).Some?)
    ensures r.Ok? ==>
              && r.value.branch == p.branch.value && r.value.product == p.product
              && r.value.quantity == p.quantity.value
              && (p.status.Omitted? ==> r.value.status == DEFAULT_REQUEST_STATUS)
              && (p.status.Sent? ==> RequestStatusName(r.value.status) == p.status.value)
  {
    if p.branch.None? || p.branch.value !in t.branches then Err(BadRequest)
    else if p.product.Some? && p.product.value !in t.products then Err(BadRequest)
    else if p.quantity.None? || p.quantity.value < 0 then Err(BadRequest)
    else if p.status.Null? then Err(BadRequest)
    else if p.status.Sent? && ParseRequestStatus(p.status.value).None? then Err(BadRequest)
    else
      var status := if p.status.Sent? then ParseRequestStatus(p.status.value).value else DEFAULT_REQUEST_STATUS;
      Ok(ProductRequest(p.branch.value, p.product, p.quantity.value, status))
  }

  /**
   * `perform_create` (apps/branches/views.py:62-67): the row a validated body is
   * saved as. A branch manager's request is moved to its managed branch whatever
   * branch was submitted; any other role keeps the submitted one.
   */
  function RequestRow(c: Caller, t: Ledger.Tables, valid: ProductRequest): (r: Result<ProductRequest>)
    requires Ledger.ManagersDistinct(t.branches)
    ensures r.Err? <==> c.role == BRANCH_MANAGER && ManagedBranch(t.branches, c.id).None?
    ensures r.Err? ==> r.error == NoManagedBranch
    ensures r.Ok? && c.role == BRANCH_MANAGER ==> r.value == valid.(branch := ManagedBranch(t.branches, c.id).value)
    ensures r.Ok? && c.role != BRANCH_MANAGER ==> r.value == valid
  {
    if c.role == BRANCH_MANAGER then
      match ManagedBranch(t.branches, c.id)
      case None => Err(NoManagedBranch)
      case Some(b) => Ok(valid.(branch := b))
    else
      Ok(valid)
  }

  /**
   * Creating a request through `ProductRequestViewSet`: validation first, then
   * `perform_create`, then the insert. On a refusal nothing is written.
   */
  method CreateRequest(store: Database.Store, c: Caller, p: RequestPayload) returns (r: Result<Ledger.RequestId>)
    requires store.Valid()
    modifies store
    ensures store.Valid()
    ensures r.Err? ==> store.Snapshot() == old(store.Snapshot())
    ensures ValidateRequest(old(store.Snapshot()), p).Err? ==> r == Err(BadRequest)
    ensures r.Ok? <==>
              ValidateRequest(old(store.Snapshot()), p).Ok?
              && RequestRow(c, old(store.Snapshot()), ValidateRequest(old(store.Snapshot()), p).value).Ok?
    ensures r.Ok? ==>
              && r.value == old(store.nextRequestId)
              && store.requests == old(store.requests)[r.value := RequestRow(c, old(store.Snapshot()), ValidateRequest(old(store.Snapshot()), p).value).value]
              && store.Snapshot() == Ledger.InsertRequest(old(store.Snapshot()),
                   RequestRow(c, old(store.Snapshot()), ValidateRequest(old(store.Snapshot()), p).value).value).tables
    ensures r.Ok? && c.role == BRANCH_MANAGER ==>
              && store.requests[r.value].branch == ManagedBranch(store.branches, c.id).value
              && RequestQueryset(c, store.Snapshot()).Ok? && r.value in RequestQueryset(c, store.Snapshot()).value
    ensures r.Ok? && c.role != BRANCH_MANAGER ==> store.requests[r.value].branch == p.branch.value
  {
    var valid := ValidateRequest(store.Snapshot(), p);
    if valid.Err? {
      return Err(valid.error);
    }
    var row := RequestRow(c, store.Snapshot(), valid.value);
    if row.Err? {
      return Err(row.error);
    }
    var id, raised := store.InsertRequest(row.value);
    r := Ok(id);
  }

  /**
   * A status change through `ProductRequestViewSet` (its default update): the row
   * is looked up in the caller's queryset and the new status must be one of the
   * choices. Any status may replace any other.
   */
  method UpdateRequestStatus(store: Database.Store, c: Caller, id: Ledger.RequestId, status: string)
    returns (r: Result<ProductRequest>)
    requires store.Valid()
    modifies store
    ensures store.Valid()
    ensures r.Err? ==> store.Snapshot() == old(store.Snapshot())
    ensures RequestQueryset(c, old(store.Snapshot())).Err? ==> r == Err(NoManagedBranch)
    ensures r.Ok? <==>
              && RequestQueryset(c, old(store.Snapshot())).Ok?
              && id in RequestQueryset(c, old(store.Snapshot())).value
              && ParseRequestStatus(status).Some?
    ensures r.Ok? ==>
              && RequestStatusName(r.value.status) == status
              && r.value == old(store.requests[id]).(status := r.value.status)
              && store.requests == old(store.requests)[id := r.value]
              && store.Snapshot() == Ledger.SetRequestStatus(old(store.Snapshot()), id, r.value.status).tables
  {
    var q := RequestQueryset(c, store.Snapshot());
    if q.Err? {
      return Err(q.error);
    }
    if id !in q.value {
      return Err(NotFound);
    }
    var s := ParseRequestStatus(status);
    if s.None? {
      return Err(BadRequest);
    }
    store.SetRequestStatus(id, s.value);
    r := Ok(store.requests[id]);
  }
}
