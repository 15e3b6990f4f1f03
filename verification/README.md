# Stock ledger of a stock-management backend, in Dafny

This project models the core of a Django stock-management backend: the warehouse's
central stock, the branches it supplies, and the reorder requests branches send back.
It covers:

- **The stock ledger.** These are the `save` overrides that move quantities:
  - a supplier receipt (`ProductInflow`) adds to a product's central quantity;
  - a shipment to a branch (`ProductOutflow`) gets or creates the branch's stock row for the product, adds to it, and takes the same amount off the central quantity;
  - a damage write-off (`DamagedProduct`) takes the amount off the central quantity;
  - `BranchProduct.save` runs `full_clean` first, so a negative branch quantity is refused.
- **Code minting.** Products get a SKU and branches get a branch code, both of the form `NAME-HEX6`: the first (up to) three characters of the name, upper-cased, then a dash and six hex digits of a random UUID. Digits, spaces and names shorter than three characters are kept as they are. A code is minted only when the row has none.
- **Users.** A user's role (`admin` or `branch_manager`) sets their staff and superuser flags and adds them to the matching group.
- **The role-scoped views of the branches app.** They decide which branches, branch stock rows and requests a caller sees. They also guard branch updates, `update_quantity`, request creation and request status changes.

The model has two layers:

- **Values.** `Ledger.Tables` holds every table. Each `save` override is a function from `Tables` to `Saved(tables, raised)`: the state after the call, and the exception it raised. A save that raises halfway keeps the writes it made before the exception.
- **Objects.** `Database.Store` is a class with one field per table. Each of its methods makes the row writes one after another, in the source's order, and is proved to leave exactly the state its `Ledger` function gives.

The `journal` field lists every row write in order, so the order of writes is part of what is proved. `Ledger.Valid` is the invariant every stored state keeps:

- SKUs and branch codes are present and unique;
- managers are one-to-one with branches;
- every branch stock row and every request names an existing branch and product;
- branch quantities are not negative.

Some things the code depends on come in as parameters:

- The random UUID is a parameter: 32 lower-case hex digits.
- Whether `full_clean` accepts an unevaluated `F("quantity") + n` is framework behaviour the source does not show. The parameter `cleanAcceptsF` stands for the answer. When it is refused, the exception is the distinct error `ExpressionRefused`. Its class is not fixed: `clean()` compares the unevaluated expression with 0, so it need not be a ValidationError.
- The central quantity is an unbounded `int`. Nothing in the saves keeps it from going below zero, and the model does not assume a database CHECK constraint would.

A worked run is modelled step by step: register "Widget", receive 50, send 20 and then 5 to one branch, then write off 5. It has two outcomes, depending on `cleanAcceptsF`:

- The F() update is accepted: the second shipment lands, and the run ends with 20 centrally (50 - 20 - 5 - 5) and 25 at the branch.
- The F() update is refused: the second shipment raises after its own row is written, and the run ends with 25 centrally (50 - 20 - 5) and 20 at the branch.

## Model

| member | source | states |
|---|---|---|
| Codes.UpperChar | apps/products/models.py:54 | `str.upper()` on one ASCII character: a lower-case letter becomes its own capital, every other character is unchanged, and the result is never a lower-case letter |
| Codes.Upper | apps/products/models.py:54 | upper-casing keeps the length and maps each character by `UpperChar` |
| Codes.Head3 | apps/products/models.py:54 | `name[:3]` is the first three characters, or the whole name when it is shorter, and is a prefix of the name |
| Codes.Mint | apps/products/models.py:53-54 | the code is well formed (prefix of at most three non-lower-case characters, a dash, six upper-case hex digits); its prefix is the upper-cased `name[:3]` and its suffix the upper-cased first six UUID digits |
| Codes.CodeSplitJoin | apps/branches/models.py:30-31 | a well-formed code is exactly its prefix, a dash and its suffix |
| Codes.UpperHexDigitInjective | apps/products/models.py:54 | two lower-case hex digits with the same capital are equal |
| Codes.UpperHexInjective | apps/products/models.py:54 | two lower-case hex strings of equal length with the same upper-casing are equal |
| Codes.MintInjectiveInSuffix | apps/products/models.py:53-54 | two codes minted for one name are equal if and only if the two UUIDs agree in their first six digits |
| Users.WithRoleFlags | apps/users/models.py:14-19 | admin gets staff and superuser set, branch_manager gets both cleared, any other role is left untouched; the flags then agree with the role |
| Users.RoleGroup | apps/users/models.py:23-28 | the group is "Admin" exactly for admin and "Branch Manager" exactly for branch_manager; other roles get none |
| Users.GroupWrites | apps/users/models.py:23-28 | a role with no group writes nothing after the user row; otherwise the group row is written exactly when the group is new, and then the membership row exactly when the membership is new, and nothing else |
| Users.UserTable.Save | apps/users/models.py:13-28 | the stored row carries the role's flags; group rows and memberships are only added to; the user joins its role's group; the writes are the user row, then the group row if the group is new, then the membership row if the membership is new; every stored user keeps flags and membership that agree with its role |
| Products.GenerateSku | apps/products/models.py:53-54 | a SKU is a well-formed code built from the name and the UUID |
| Products.AssignSku | apps/products/models.py:48-50 | only the SKU may change; a present SKU is kept, and an empty one is replaced by a well-formed code with the upper-cased name prefix |
| Branches.GenerateBranchCode | apps/branches/models.py:30-31 | a branch code is a well-formed code built from the name and the UUID |
| Branches.AssignCode | apps/branches/models.py:25-27 | only the code may change; a present code is kept, and an empty one is replaced by a well-formed code |
| Branches.ParseProductStatus | apps/branches/models.py:35-38 | a status string is accepted exactly when it is one of "active" and "inactive", and names the status it parses to |
| Branches.Clean | apps/branches/models.py:52-54 | `clean` raises ValidationError exactly when the quantity is negative |
| Branches.ParseRequestStatus | apps/branches/models.py:78-82 | a request status is accepted exactly when it is one of "pending", "acknowledged" and "fulfilled", and names the status it parses to |
| Ledger.SaveProduct | apps/products/models.py:48-51 | the row is rejected exactly when another product already holds its SKU (the given one, or the one just minted), and then nothing changes; otherwise the row is stored under its key with a non-empty SKU, and that product row is the only write. The SKU is the given one, or a freshly minted code whose prefix is the upper-cased `name[:3]` |
| Ledger.ProductWriteKeepsValid | apps/products/models.py:29 | writing a product whose SKU is present and held by no other product keeps the invariant |
| Ledger.SaveProductKeepsValid | apps/products/models.py:29 | saving a product keeps SKUs present and unique, and keeps every other invariant |
| Ledger.SaveBranch | apps/branches/models.py:25-28 | the row is rejected exactly when another branch already holds its code (the given one, or the one just minted) or its manager, and then nothing changes; otherwise the row is stored and that branch row is the only write. The code is the given one, or a freshly minted code whose prefix is the upper-cased `name[:3]` |
| Ledger.BranchWriteKeepsValid | apps/branches/models.py:11-15 | writing a branch whose code and manager no other branch holds keeps the invariant |
| Ledger.SaveBranchKeepsValid | apps/branches/models.py:11-15 | saving a branch keeps codes unique and managers one-to-one |
| Ledger.SaveBranchProduct | apps/branches/models.py:52-58 | ValidationError, with nothing written, exactly when the quantity is negative or the branch or product does not exist; otherwise the row is stored under its pair, and that row is the only write |
| Ledger.StockWriteKeepsValid | apps/branches/models.py:41-46 | writing a stock row for an existing branch and product with a non-negative quantity keeps the invariant |
| Ledger.SaveBranchProductKeepsValid | apps/branches/models.py:41-46 | every stored branch row names an existing branch and product and holds a non-negative quantity |
| Ledger.SaveInflow | apps/reports/models.py:28-32 | the receipt row is written, then the product row with `quantity_received` added; nothing else changes and nothing raises |
| Ledger.SaveInflowKeepsValid | apps/reports/models.py:28-32 | a receipt keeps the invariant |
| Ledger.SaveOutflow | apps/reports/models.py:52-68 | the shipment row is always stored; when the save raises, the shipment row is the only write, and the exception is `ExpressionRefused` when the F() update is refused, or a ValidationError from `clean()` otherwise |
| Ledger.OutflowRaises | apps/reports/models.py:56-64 | an outflow raises exactly when the pair already has a row and `full_clean` refuses the F() update (or the sum would be negative); then only the shipment row was written |
| Ledger.OutflowEffects | apps/reports/models.py:52-68 | a successful outflow takes `quantity_sent` off the central quantity and adds it to the branch row, creating the row with status inactive when missing and keeping the status otherwise; it writes the shipment, branch and product rows in that order and nothing else |
| Ledger.ReceiveAtBranch | apps/reports/models.py:56-64 | get_or_create and the follow-up save: on success the pair's row is the old quantity plus `n` (or a new row of `n`); on failure nothing changes, the pair already had a row, and the exception is `ExpressionRefused` when the F() update is refused, or a ValidationError otherwise |
| Ledger.ReceiveKeepsValid | apps/reports/models.py:56-64 | on a valid state the branch step raises exactly when the row exists and the F() update is refused, and the state stays valid |
| Ledger.OutflowRowKeepsValid | apps/reports/models.py:53 | writing the shipment row keeps the invariant |
| Ledger.CounterWriteKeepsValid | apps/reports/models.py:67-68 | writing back a product with only its central quantity changed keeps the invariant |
| Ledger.SaveDamage | apps/products/models.py:79-83 | the product row is written with the damaged quantity taken off, then the damage row; no availability check, nothing raises, nothing else changes |
| Ledger.SaveDamageKeepsValid | apps/products/models.py:79-83 | a write-off keeps the invariant |
| Ledger.InsertRequest | apps/branches/models.py:83-89 | IntegrityError, with nothing written, exactly when the branch or a given product does not exist; otherwise the row is stored under the next key, the key counter moves on, one request row is written, and no other table changes |
| Ledger.InsertRequestKeepsValid | apps/branches/models.py:83-89 | on a valid state the next key is free, and inserting under it keeps the state valid |
| Ledger.SetRequestStatus | apps/branches/models.py:89 | any status replaces any other; only that request's status changes, its row is the only write, and no other table changes |
| Ledger.SetRequestStatusKeepsValid | apps/branches/models.py:89 | a status change keeps the invariant |
| LedgerProperties.InflowSavedTimes | apps/reports/models.py:28-32 | saving one receipt `k` times touches only that product's row among the stock tables, stores the receipt once, and writes `2k` rows |
| LedgerProperties.InflowResavedAddsEachTime | apps/reports/models.py:28-32 | saving one receipt `k` times adds `k` times its quantity, though the receipt is stored once |
| LedgerProperties.DamageSavedTimes | apps/products/models.py:79-83 | saving one damage record `k` times touches only that product's row, stores the record once, and writes `2k` rows |
| LedgerProperties.DamageResavedDeductsEachTime | apps/products/models.py:79-83 | saving one damage record `k` times deducts `k` times its quantity |
| LedgerProperties.ApplyInflows | apps/reports/models.py:28-32 | a batch of receipts keeps the set of products |
| LedgerProperties.InflowBatchAddsTotal | apps/reports/models.py:31-32 | after a batch of receipts each product holds its starting quantity plus everything received for it, and no branch row changes |
| LedgerProperties.ReceivedForAppend | apps/reports/models.py:31 | the total received splits over two concatenated batches |
| LedgerProperties.InflowBatchesCommute | apps/reports/models.py:31-32 | two batches of receipts leave every central quantity the same whichever lands first: receipts applied one after another commute |
| LedgerProperties.OutflowConservesStock | apps/reports/models.py:52-68 | central plus branch quantity of the product is the same before and after an outflow, whether or not it raised |
| LedgerProperties.SecondOutflowAccumulates | apps/reports/models.py:56-64 | when `full_clean` accepts the F() update, a second shipment to the same pair adds to the row the first created (status inactive, quantity the sum) instead of creating another, and the central quantity drops by both |
| LedgerProperties.SkuKeptAfterRename | apps/products/models.py:48-51 | once saved, a product keeps its SKU when saved again under a new name, and that save succeeds |
| LedgerProperties.BranchCodeKeptAfterRename | apps/branches/models.py:25-28 | once saved, a branch keeps its code when saved again under a new name, and that save succeeds |
| LedgerProperties.WidgetUuidIsHex | apps/products/models.py:54 | the sample UUID is 32 lower-case hex digits |
| LedgerProperties.MintWidget | apps/products/models.py:53-54 | "Widget" with UUID `3f2a9c…` mints `WID-3F2A9C` |
| LedgerProperties.WidgetSku | apps/products/models.py:48-51 | saving "Widget" with no SKU stores `WID-3F2A9C` |
| LedgerProperties.WidgetsReceived | apps/reports/models.py:28-32 | receiving 50 Widgets sets the central quantity to 50 |
| LedgerProperties.TwentyShipped | apps/reports/models.py:52-68 | shipping 20 leaves 30 centrally and creates the branch row with 20, status inactive |
| LedgerProperties.FiveMoreShipped | apps/reports/models.py:62-68 | shipping 5 more succeeds exactly when `full_clean` accepts the F() update; then 25 centrally and 25 at the branch, otherwise 30 and 20 |
| LedgerProperties.FiveWrittenOff | apps/products/models.py:79-83 | writing off 5 then leaves 20 centrally (25 when the second shipment was refused) and the branch row untouched |
| Database.Store.SaveProduct | apps/products/models.py:48-51 | leaves exactly the state and exception `Ledger.SaveProduct` gives, and keeps the invariant |
| Database.Store.SaveBranch | apps/branches/models.py:25-28 | leaves exactly the state and exception `Ledger.SaveBranch` gives, and keeps the invariant |
| Database.Store.SaveBranchProduct | apps/branches/models.py:52-58 | leaves exactly the state and exception `Ledger.SaveBranchProduct` gives, and keeps the invariant |
| Database.Store.SaveInflow | apps/reports/models.py:28-32 | leaves exactly the state `Ledger.SaveInflow` gives, and keeps the invariant |
| Database.Store.ReceiveAtBranch | apps/reports/models.py:56-64 | leaves exactly the state and exception `Ledger.ReceiveAtBranch` gives |
| Database.Store.WriteOutflow | apps/reports/models.py:53 | writes the shipment row and nothing else |
| Database.Store.WriteQuantity | apps/reports/models.py:67-68 | writes back the product with only its central quantity changed |
| Database.Store.SaveOutflow | apps/reports/models.py:52-68 | leaves exactly the state and exception `Ledger.SaveOutflow` gives, and keeps the invariant |
| Database.Store.SaveDamage | apps/products/models.py:79-83 | leaves exactly the state `Ledger.SaveDamage` gives, and keeps the invariant |
| Database.Store.WriteRequest | apps/branches/models.py:77-89 | stores a request whose keys exist under the next free key |
| Database.Store.InsertRequest | apps/branches/models.py:77-89 | leaves exactly the state and exception `Ledger.InsertRequest` gives; on success the new key is the old counter and is stored |
| Database.Store.SetRequestStatus | apps/branches/models.py:89 | leaves exactly the state `Ledger.SetRequestStatus` gives |
| Views.ManagedBranch | apps/branches/models.py:13-15 | `user.managed_branch` exists exactly when some branch has the user as manager, and is the one such branch |
| Views.BranchQueryset | apps/branches/views.py:18-24 | admin sees every branch, a branch manager exactly the branches it manages, any other role none |
| Views.ManagerSeesOnlyOwnBranch | apps/branches/views.py:18-24 | a branch manager's queryset is exactly its managed branch, or empty when it manages none |
| Views.Patched | apps/branches/serializers.py:5-9 | an update writes name, location, contact and manager from the body and keeps the read-only code |
| Views.UpdateBranch | apps/branches/views.py:26-29 | a branch outside the queryset is NotFound, a manager already taken is BadRequest, any role but branch_manager is PermissionDenied, all with nothing written; otherwise the caller's own branch is saved with the patch and its code kept |
| Views.BranchProductQueryset | apps/branches/views.py:36-38 | a caller managing no branch gets an error; otherwise exactly the stock rows of its managed branch, whatever its role |
| Views.ValidQuantity | apps/branches/serializers.py:20-23 | the body is accepted exactly when `quantity` is absent (kept) or a non-negative integer (stored) |
| Views.UpdateQuantity | apps/branches/views.py:40-49 | no managed branch, a row outside the queryset and an invalid body are refused with nothing written; otherwise the row is saved with the new quantity, which is not negative |
| Views.RequestQueryset | apps/branches/views.py:56-60 | a branch manager sees exactly its branch's requests (an error when it manages none); every other role sees all |
| Views.ValidateRequest | apps/branches/serializers.py:26-33 | the body is accepted exactly when the branch is given and exists, a given product exists, the quantity is a non-negative integer, and the status is left out or sent as one of the choices; a null status is refused, and a status left out defaults to pending |
| Views.RequestRow | apps/branches/views.py:62-67 | a branch manager's request is moved to its managed branch (an error when it manages none); any other role keeps the submitted branch |
| Views.CreateRequest | apps/branches/views.py:62-67 | a refused body writes nothing; an accepted one is inserted under the next key, and a branch manager's new request is in its own queryset |
| Views.UpdateRequestStatus | apps/branches/views.py:52-60 | a request outside the queryset or an unknown status is refused with nothing written; otherwise exactly that request's status is replaced |

## Left out

- Codes.Mint, Products.GenerateSku and Branches.GenerateBranchCode require the first three characters of the name (the only ones upper-cased) to be ASCII. `str.upper()` on other Unicode characters (which can change length) is not modelled.
- Randomness: `uuid.uuid4()` is replaced by a caller-supplied 32-digit hex string. A minted code that clashes with a stored one is refused by the unique constraint (IntegrityError), as in the source; it is not retried.
- Ledger.SaveProduct and Ledger.SaveBranch model the database's unique constraints as an IntegrityError with nothing written. The transaction rollback around it is not modelled beyond that.
- Concurrency: saves are sequential. `F("quantity") + n` is read as "the stored value plus n at the moment of the write". Row locking and transaction isolation are not modelled. One consequence is admitted: `Ledger.SaveDamage` subtracts from the stored quantity, while `DamagedProduct.save` (apps/products/models.py:81) subtracts from the quantity loaded with `self.product` and writes the result back, not an F() update. A product instance loaded before a receipt was saved would overwrite that receipt, which the model does not show.
- The central `quantity` is unbounded and may go below zero. Whether a database CHECK constraint on the positive-integer column would refuse a negative value is left open. The model does not assume it.
- Ledger.SaveOutflow does not decide whether `full_clean` accepts an unevaluated F() expression; `cleanAcceptsF` is that answer as a parameter.
- Ledger.SaveOutflow / Ledger.ReceiveAtBranch: the exception raised for a refused F() update is `ExpressionRefused`. Its Python class is not modelled: `clean()` comparing the expression with 0 may raise a TypeError before any ValidationError is collected.
- The default create, update and delete endpoints of `BranchProductViewSet` are not modelled, only `update_quantity`. So no modelled path parses a branch stock status; Branches.ParseProductStatus states the status choices on their own.
- Upper bounds of the positive-integer columns (2147483647 on common databases) are not modelled.
- Product fields not touched by the saves are left out: price (a Decimal), description, category, brand, barcode image and barcode generation.
- Timestamps (`date_received`, `date_sent`, `last_updated`, `date_requested`, `date_reported`), orderings and `__str__` are left out.
- A BranchProduct row is addressed by its (branch, product) pair instead of its own integer key. This makes the unique-together constraint hold by construction.
- Views.UpdateBranch models a full update (PUT). Field validation other than manager uniqueness (lengths, required fields), partial updates, and whether the new manager is an existing user are not modelled.
- Views.UpdateRequestStatus covers the status field only. Updates of a request's branch, product or quantity through the same endpoint, and request deletion, are not modelled.
- Views: `user.managed_branch` raising `RelatedObjectDoesNotExist` for a caller with no branch is modelled as the error `NoManagedBranch`. An unauthenticated caller is not modelled: authentication is outside this model.
- Users.UserTable.Save models the role, the two flags and group membership only. Password handling and the other user fields are left out.
- Reports views and serializers, suppliers, product views, URL routing, JWT authentication and the admin site are not part of this model.
