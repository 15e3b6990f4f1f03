/**
 * Branches (apps/branches/models.py): the branch with its minted code, the per-branch
 * stock counter of a product, and a branch's reorder request.
 */
module Branches {
  import opened Common
  import opened Codes
  import opened Users
  import opened Products

  type BranchId = nat

  /** A branch row. An empty `code` stands for both None and "". */
  datatype Branch = Branch(name: string, location: string, code: string, contact: string, manager: Option<UserId>)

  /** `Branch.generate_branch_code`: NAME3-HEX6 from the name and a random UUID. */
  function GenerateBranchCode(name: string, uuidHex: string): (code: string)
    requires IsAscii(Head3(name)) && IsUuidHex(uuidHex)
    ensures IsCode(code)
    ensures |code| == |Head3(name)| + 7
    ensures CodePrefix(code) == Upper(Head3(name))
    ensures CodeSuffix(code) == Upper(uuidHex[..6])
  {
    Mint(name, uuidHex)
  }

  /** What `Branch.save` does to the object before it persists it: mint a code when there is none. */
  function AssignCode(b: Branch, uuidHex: string): (c: Branch)
    requires IsUuidHex(uuidHex) && (b.code == "" ==> IsAscii(Head3(b.name)))
    ensures c.code != ""
    ensures c == b.(code := c.code)
    ensures b.code != "" ==> c == b
    ensures b.code == "" ==> IsCode(c.code) && CodePrefix(c.code) == Upper(Head3(b.name))
  {
    if b.code == "" then b.(code := GenerateBranchCode(b.name, uuidHex)) else b
  }

  /** The status of a product at a branch; the choices are "active" and "inactive". */
  datatype ProductStatus = Active | Inactive

  const PRODUCT_STATUS_CHOICES: seq<string> := ["active", "inactive"]

  function ProductStatusName(s: ProductStatus): string {
    match s
    case Active => "active"
    case Inactive => "inactive"
  }

  /** Choice validation of a submitted status: exactly the two stored values are accepted. */
  function ParseProductStatus(name: string): (s: Option<ProductStatus>)
    ensures s.Some? <==> name in PRODUCT_STATUS_CHOICES
    ensures s.Some? ==> ProductStatusName(s.value) == name
  {
    if name == "active" then Some(Active)
    else if name == "inactive" then Some(Inactive)
    else None
  }

  /**
   * The stock of one product at one branch. `quantity` is an `int` in memory: a
   * negative value can be assigned, and `save` must then reject it.
   */
  datatype BranchProduct = BranchProduct(quantity: int, status: ProductStatus)

  /** The field defaults of a new row: quantity 0, status inactive. */
  const DEFAULT_BRANCH_PRODUCT: BranchProduct := BranchProduct(0, Inactive)

  /** `BranchProduct.clean`: the only model-level rule is that the quantity is not negative. */
  function Clean(bp: BranchProduct): (e: Option<Error>)
    ensures e.Some? <==> bp.quantity < 0
    ensures e.Some? ==> e.value == ValidationError
  {
    if bp.quantity < 0 then Some(ValidationError) else None
  }

  /** The lifecycle states of a reorder request. */
  datatype RequestStatus = Pending | Acknowledged | Fulfilled

  const REQUEST_STATUS_CHOICES: seq<string> := ["pending", "acknowledged", "fulfilled"]

  /** The field default of a new request. */
  const DEFAULT_REQUEST_STATUS: RequestStatus := Pending

  function RequestStatusName(s: RequestStatus): string {
    match s
    case Pending => "pending"
    case Acknowledged => "acknowledged"
    case Fulfilled => "fulfilled"
  }

  /** Choice validation of a submitted status: exactly the three stored values are accepted. */
  function ParseRequestStatus(name: string): (s: Option<RequestStatus>)
    ensures s.Some? <==> name in REQUEST_STATUS_CHOICES
    ensures s.Some? ==> RequestStatusName(s.value) == name
  {
    if name == "pending" then Some(Pending)
    else if name == "acknowledged" then Some(Acknowledged)
    else if name == "fulfilled" then Some(Fulfilled)
    else None
  }

  /** A reorder request; `product` becomes None when the product is deleted. */
  datatype ProductRequest = ProductRequest(branch: BranchId, product: Option<ProductId>, quantity: nat, status: RequestStatus)
}
