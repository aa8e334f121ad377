# Factory ERP stock and status bookkeeping, in Dafny

This project models the bookkeeping core of a Django factory ERP
(`factory_system`). Sales orders are approved against product stock.
Approval either reserves the stock or raises production tasks for the
shortage. A received production task expands its product's bill of
materials (BOM) into a material requisition. Approving the requisition
debits material stock. A qualified QC record moves the task on. A
finished-product inbound is meant to credit product stock and can make an
order ready to ship. As written, its arithmetic raises and rolls back on
every request (see "## Findings"). The model proves that, and also models
the intended exact arithmetic. Shipping debits the
order's products, and delivery completes the order. Purchase tasks
credit material stock when goods arrive. Around these flows sit:

- the role-based permission model with its view decorator and template tags;
- three management commands: the received-task migration, the unit
  price initialisation and the default-BOM initialisation.

Each Django app's tables are a Dafny `class` (a "book") whose fields are
`seq`s of row datatypes; a row's index is its primary key. The Inventory
table is kept as a map from item key (product, material or other name) to
quantity. `InventoryModels.StockOfKeys` and
`InventoryModels.StockOfKeepsEveryRow` relate that map to a row table that
satisfies the three conditional unique constraints. Every POST branch of
a view is a method:

- a refusal (`get_object_or_404`, a status guard, a failed stock check,
  a `DoesNotExist` inside `transaction.atomic`) returns `Err` and provably
  changes nothing;
- success states the whole new state of every table the view writes.

Loops in the source are `while` loops proved against specification
functions (`Deducted`, `Added`, `StockAfter`, `Verdicts`, `RowItems`,
`SavedItems`, `Flatten(Plan(...))`). Lemmas then prove what those
functions mean: net debits and credits per row, no overdraft at
approval, totals equal to the per-row sums, the double debit of reserved
stock at shipping, idempotence of the migration and of the re-pricing.

Decimal quantities and prices are exact `real`s. Clock readings are
`now: int` parameters, and document numbers are row references. The
acting user is an explicit parameter where it matters (`createdBy`).

The files, one module per source file:
`common.dfy`, `inventory_models.dfy`, `sales_models.dfy`,
`production_models.dfy`, `logistics_models.dfy`, `purchase_models.dfy`,
`sales_views.dfy`, `production_views.dfy`, `logistics_views.dfy`,
`purchase_views.dfy`, `accounts_models.dfy`, `accounts_decorators.dfy`,
`permission_tags.dfy`, `update_received_tasks.dfy`,
`set_product_unit_prices.dfy`, `init_missing_boms.dfy`.

Where the code and the project's own description disagree, the model
follows the code:

- a production task is received only from `pending`;
- the purchase receipt never approves anything by itself;
- terminating a purchase task does not cascade;
- approval by the CEO is not part of these views.

## Model

| member | source | states |
|---|---|---|
| Common.TrimLeftRemovesLeadingSpace | factory_system/purchase/views.py:46-49 | `lstrip` keeps a suffix of the input, drops only whitespace, and leaves no leading whitespace |
| Common.TrimRightRemovesTrailingSpace | factory_system/purchase/views.py:46-49 | `rstrip` keeps a prefix, drops only whitespace, and leaves no trailing whitespace |
| Common.StripTrimsBothEnds | factory_system/logistics/views.py:158-160 | a stripped field has whitespace at neither end |
| Common.StripEmptyIffBlank | factory_system/purchase/views.py:56 | `not s.strip()` holds exactly for strings made only of whitespace |
| InventoryModels.BomOf | factory_system/inventory/models.py:156-168 | `BOM.objects.filter(product=…)`, kept in table order (see "## Left out"), is no longer than the table |
| InventoryModels.BomOfMembers | factory_system/inventory/models.py:156-168 | the filtered rows are exactly the table's rows naming the product |
| InventoryModels.BomOfDistinctMaterials | factory_system/inventory/models.py:167 | under `unique_together (product, material)`, one product's BOM names each material once |
| InventoryModels.GetItem | factory_system/inventory/models.py:220-226 | `get_item` returns an item exactly when the row's unique-constraint key names a product or material, and that item is the catalog row the key names |
| InventoryModels.CheckSafetyStock | factory_system/inventory/models.py:228-233 | true exactly when the linked item exists and the quantity is below its safety stock; never for other rows |
| InventoryModels.GetUnitPrice | factory_system/inventory/models.py:235-244 | the linked product's or material's unit price, 0 when there is no item |
| InventoryModels.GetTotalValue | factory_system/inventory/models.py:246-251 | unit price × quantity of the linked item; 0 when `get_item` finds no item (other rows, null links) |
| InventoryModels.StockOfKeys | factory_system/inventory/models.py:174-209 | the stock map's keys are exactly the keys of the rows the unique constraints cover |
| InventoryModels.StockOfKeepsEveryRow | factory_system/inventory/models.py:190-209 | under the three unique constraints every keyed row is found in the map under its key with its own quantity |
| InventoryModels.ExpiredStaysExpired | factory_system/inventory/models.py:290-295 | `is_expired` is monotone in the date: an expired batch stays expired on every later day, and a batch without an expiry date never expires |
| InventoryModels.ConsInOrder | factory_system/inventory/models.py:253-255 | a batch preceding every batch of an ordered list can head it (helper of the batch order) |
| InventoryModels.InsertBatch | factory_system/inventory/models.py:253-255 | inserting keeps the (batch_date, created_at) order and adds exactly the batch to the multiset |
| InventoryModels.SortBatches | factory_system/inventory/models.py:253-255 | the result is in (batch_date, created_at) order and a permutation of the input |
| InventoryModels.BatchesOf | factory_system/inventory/models.py:254 | `Batch.objects.filter(inventory=…)` keeps exactly the batches of that inventory |
| InventoryModels.GetBatches | factory_system/inventory/models.py:253-255 | `get_batches` is ordered, a permutation of the inventory's batches, and holds exactly them |
| InventoryModels.TotalQuantityAppend | factory_system/inventory/models.py:257-262 | the batch quantity sum of a concatenation is the sum of the sums |
| InventoryModels.TotalQuantityPermutation | factory_system/inventory/models.py:257-262 | the `Sum('quantity')` of batches does not depend on their order |
| InventoryModels.Deducted | factory_system/production/views.py:154-157 | debiting existing rows creates and drops no row |
| InventoryModels.DeductedNet | factory_system/production/views.py:154-157 | a debit loop takes from every row exactly the summed quantity of the lines naming it |
| InventoryModels.QuantityForUnnamed | factory_system/production/views.py:154-157 | lines that do not name a row move nothing on it |
| InventoryModels.AddedKeys | factory_system/purchase/views.py:165-171 | a `get_or_create` credit loop creates exactly the missing rows its lines name |
| InventoryModels.AddedNet | factory_system/purchase/views.py:165-171 | a credit loop gives every row its old quantity (0 when created) plus the summed quantity of its lines |
| InventoryModels.DeductedSnoc | factory_system/production/views.py:154-157 | one more debited line changes only its own row, by its quantity |
| InventoryModels.AddedSnoc | factory_system/purchase/views.py:165-171 | one more credited line changes only its own row, by its quantity, from 0 if missing |
| InventoryModels.LoggedSnoc | factory_system/production/views.py:160-167 | one more line appends one transaction of the loop's type and reference |
| InventoryModels.QuantityForDistinct | factory_system/production/views.py:154-157 | with distinct rows the summed quantity for a line's row is that line's quantity |
| InventoryModels.Logged | factory_system/inventory/models.py:298-306 | a loop logs as many transactions as lines |
| InventoryModels.LoggedEntries | factory_system/inventory/models.py:298-306 | the k-th logged transaction has the k-th line's row and quantity, the loop's type and reference |
| InventoryModels.Ledger.UpdateQuantityFromBatches | factory_system/inventory/models.py:257-262 | the row's quantity becomes its batches' sum (0 with none); no other row changes |
| InventoryModels.Ledger.Deduct | factory_system/production/views.py:155-157 | `quantity -= q` on an existing row, nothing else |
| InventoryModels.Ledger.Add | factory_system/purchase/views.py:165-171 | `get_or_create` at 0 then `quantity += q`, nothing else |
| InventoryModels.Ledger.Issue | factory_system/production/views.py:154-167 | the debit loop leaves `Deducted(old stock, lines)` and appends one transaction per line |
| InventoryModels.Ledger.IssueStep | factory_system/production/views.py:154-167 | one turn of the debit loop extends both the deduction and the log by the next line |
| InventoryModels.Ledger.Receive | factory_system/purchase/views.py:156-181 | the credit loop leaves `Added(old stock, lines)` and appends one transaction per line |
| InventoryModels.Ledger.ReceiveStep | factory_system/purchase/views.py:165-181 | one turn of the credit loop extends both the credit and the log by one line |
| InventoryModels.Ledger.Record | factory_system/inventory/models.py:298-306 | `StockTransaction.objects.create` appends exactly one row to the log |
| SalesModels.NewOrder | factory_system/sales/models.py:25-28 | a new order is pending with total 0, no reservation and no items |
| SalesModels.SalesBook.SetStatus | factory_system/sales/models.py:25 | only the order's status changes; the book stays valid |
| SalesModels.SalesBook.CreateNotice | factory_system/sales/models.py:83-87 | appends one pending notice for an order that has left approval and has none |
| SalesModels.SalesBook.SetNoticeStatus | factory_system/sales/models.py:87 | only the notice's status changes |
| ProductionModels.NewTask | factory_system/production/models.py:21-26 | a new task is pending with nothing completed, for the given order, product and quantity |
| SalesViews.SavedItems | factory_system/sales/views.py:52-58 | the save loop creates at most one item per form |
| SalesViews.SavedItemsAreKeptForms | factory_system/sales/views.py:52-58 | the saved items are exactly the items of the filled, not-deleted forms |
| SalesViews.SavedTotalIsKeptTotal | factory_system/sales/views.py:51-60 | the accumulated `total` is quantity × unit price summed over the kept forms |
| SalesViews.OrderCreate | factory_system/sales/views.py:35-69 | succeeds exactly when the order form names an existing customer and the formset is valid; a refusal changes nothing; success appends one pending order with the kept forms' items and their total |
| SalesViews.Judge | factory_system/sales/views.py:124-137 | an item is reserved only from an existing product row; a short item's shortage is positive |
| SalesViews.AfterItem | factory_system/sales/views.py:130-133 | one item's reservation creates and drops no row |
| SalesViews.StockAfter | factory_system/sales/views.py:122-146 | the check loop creates and drops no row |
| SalesViews.Verdicts | factory_system/sales/views.py:122-146 | one verdict per item, each judged on the stock the earlier items left; every shortage positive |
| SalesViews.VerdictsSnoc | factory_system/sales/views.py:122-146 | one more item extends the verdicts by its judgement on the stock so far |
| SalesViews.ShortTasks | factory_system/sales/views.py:134-146 | at most one task per item |
| SalesViews.ShortTasksArePendingShortages | factory_system/sales/views.py:134-146 | every created task is pending, for this order, with nothing completed and positive quantity; each short item has its task for exactly its shortage; none when all are reserved |
| SalesViews.ReservedLinesAreReservedItems | factory_system/sales/views.py:130-133 | the debited lines are exactly the reserved items' products and quantities |
| SalesViews.DeductsReservedStep | factory_system/sales/views.py:122-133 | one more item keeps the loop's stock equal to a debit of the reserved lines from existing rows |
| SalesViews.StockAfterDeductsReserved | factory_system/sales/views.py:122-133 | the check loop is a debit of exactly the reserved items, from existing rows |
| SalesViews.StockAfterNeverOverdraws | factory_system/sales/views.py:130-133 | every row ends untouched or at 0 or more: a reservation never overdraws |
| SalesViews.ShortTasksSnoc | factory_system/sales/views.py:134-146 | one more short item appends exactly its task |
| SalesViews.ReserveOrRaise | factory_system/sales/views.py:123-146 | one item is either reserved from its row or raises one pending task for its shortage, as `Judge` decides |
| SalesViews.ReserveStep | factory_system/sales/views.py:122-146 | one turn of the check loop extends the stock, the tasks and `all_sufficient` by one item |
| SalesViews.ReserveOrRaiseAll | factory_system/sales/views.py:120-146 | the loop leaves `StockAfter`, appends `ShortTasks`, and `all_sufficient` holds exactly when every item was reserved |
| SalesViews.CheckInventoryAndCreateTasks | factory_system/sales/views.py:115-159 | an approved order's stock is reserved or tasks raised; it becomes ready to ship with one pending notice, or in production |
| SalesViews.RecordOutcome | factory_system/sales/views.py:148-159 | the order's final status and notice follow `all_sufficient`; the books stay valid |
| SalesViews.OrderApprove | factory_system/sales/views.py:91-112 | succeeds exactly for an existing pending order; refusals change nothing; success runs the check, which never leaves the order approved, and states the new stock, tasks, order and notices |
| ProductionViews.ExpandBom | factory_system/production/views.py:85-92 | one requisition item per BOM row, in order, with BOM quantity × required quantity and nothing issued |
| ProductionViews.CreateMaterialRequisition | factory_system/production/views.py:69-94 | nothing for a product without BOM rows; else one pending requisition of the task that expands its BOM, one item per BOM row (in table order, see "## Left out") |
| ProductionViews.TaskReceive | factory_system/production/views.py:46-66 | succeeds exactly for an existing pending task, which becomes received at `now` and gets its requisition; refusals change nothing |
| ProductionViews.Shortfalls | factory_system/production/views.py:125-140 | no shortfall exactly when every item's material row holds its quantity; a missing row counts as available 0 |
| ProductionViews.FindShortfalls | factory_system/production/views.py:125-140 | the check loop computes exactly `Shortfalls` |
| ProductionViews.RequisitionDebitIsExact | factory_system/production/views.py:154-157 | on a covered requisition each material row loses exactly its required quantity and stays at 0 or more; other rows are untouched |
| ProductionViews.RequisitionApprove | factory_system/production/views.py:116-179 | succeeds exactly for an existing pending requisition whose every material row covers its item; refusals change nothing; success approves it, debits the stock with one production_out per item and moves the task to material_preparing |
| ProductionViews.QcCreate | factory_system/production/views.py:184-219 | succeeds exactly for an existing task and appends its record; only a qualified result moves the task to qc_checking; a refusal changes nothing |
| ProductionViews.AllReady | factory_system/production/views.py:291-300 | the loop's `all_ready` holds exactly when every item's product row exists and covers it |
| ProductionViews.CheckOrderReadyToShip | factory_system/production/views.py:286-312 | an in-production order fully in stock becomes ready to ship with a notice unless one exists; otherwise nothing changes; no stock is taken |
| ProductionViews.RecordInbound | factory_system/production/views.py:237-270 | one inbound, the product row credited from 0 if missing, one production_in, and the task completed at `now` once its quantity is reached |
| ProductionViews.PyAdd | factory_system/production/views.py:229-266 | Python `+` on a Decimal field, a parsed float and get_or_create's int 0 raises exactly when a Decimal meets a float |
| ProductionViews.InboundCreateAsWritten | factory_system/production/views.py:224-283 | as written, a missing task or QC record gives NotFound, and every other request raises TypeError and rolls back: it never succeeds |
| ProductionViews.InboundCreate | factory_system/production/views.py:224-283 | succeeds exactly when the task and any named QC record exist; a refusal changes nothing; success records the inbound, credits the product row, logs production_in, updates the task (completed at `now` once it reaches its requirement) and gives the exact new orders and notices of the readiness check |
| LogisticsViews.ShipmentCreate | factory_system/logistics/views.py:26-51 | succeeds exactly when the notice and any named driver and vehicle exist; a refusal creates nothing; success adds one `loading` shipment for the notice and its order |
| LogisticsViews.SaleLinesQuantity | factory_system/logistics/views.py:89-94 | the shipping lines ask of a product row exactly the order's summed quantity of that product |
| LogisticsViews.ShipmentDebitsOrderedQuantities | factory_system/logistics/views.py:89-94 | shipping takes from every product row exactly the ordered quantity, with no stock check; other rows are untouched |
| LogisticsViews.ShipmentShip | factory_system/logistics/views.py:78-118 | succeeds exactly for an existing `loading` shipment whose order's products all have rows; refusals change nothing; success debits every item with sale_out, and shipment, notice and order become shipped |
| LogisticsViews.ReservedThenShippedTakesTwice | factory_system/logistics/views.py:89-94 | an order fully reserved at approval loses twice its ordered quantity per product by the time it ships |
| LogisticsViews.ReservedLinesOfAllReserved | factory_system/sales/views.py:130-133 | with every item reserved, approval debits the same lines as shipping |
| LogisticsViews.ShipmentDeliveryConfirm | factory_system/logistics/views.py:149-189 | succeeds exactly for an existing shipped shipment with a non-blank receiver; refusals change nothing; success delivers it with stripped fields, and the order completes exactly when all its shipments are delivered |
| PurchaseViews.Min3 | factory_system/purchase/views.py:76 | `zip` runs to the shortest of the three posted lists |
| PurchaseViews.RowItems | factory_system/purchase/views.py:76-91 | at most one item per posted row |
| PurchaseViews.RowItemsAreCompleteRows | factory_system/purchase/views.py:76-91 | the created items are exactly the items of the rows with all three fields |
| PurchaseViews.RowsAmountSnoc | factory_system/purchase/views.py:76-92 | one more row adds its subtotal if complete, else nothing |
| PurchaseViews.ItemsTotalIsRowsAmount | factory_system/purchase/views.py:75-94 | the saved `total_amount` is quantity × unit price summed over the complete rows |
| PurchaseViews.BuildItems | factory_system/purchase/views.py:75-92 | NotFound exactly when a complete row names no material; else the items and their total |
| PurchaseViews.TaskCreate | factory_system/purchase/views.py:43-98 | succeeds exactly when the supplier is not blank, material ids are posted and none is empty, and every complete row names an existing material; a refusal creates nothing; success adds one pending task with the complete rows' items, their total and the stripped fields |
| PurchaseViews.TaskApprove | factory_system/purchase/views.py:122-140 | succeeds exactly for an existing pending task, which becomes approved; refusals change nothing |
| PurchaseViews.Receipt | factory_system/purchase/views.py:157-160 | an item's receipt is the posted value when present and above 0, else none |
| PurchaseViews.ReceiptLinesQuantity | factory_system/purchase/views.py:156-171 | the receipt lines bring a material row exactly the summed receipts for that material |
| PurchaseViews.ReceiptsCreditMaterials | factory_system/purchase/views.py:156-171 | receiving credits each material row with its summed receipts, from 0 if created; other rows unchanged |
| PurchaseViews.ReceiptLinesStep | factory_system/purchase/views.py:156-171 | one more item adds a receipt line exactly when it has a receipt |
| PurchaseViews.ReceiveItems | factory_system/purchase/views.py:156-181 | each item's received quantity is replaced by its receipt; stock is credited and one purchase_in logged per receipt |
| PurchaseViews.TaskComplete | factory_system/purchase/views.py:145-199 | succeeds exactly for an existing approved or purchasing task; receipts recorded and credited; completed exactly when every item received its quantity, else purchasing; refusals change nothing |
| PurchaseViews.TaskTerminate | factory_system/purchase/views.py:204-230 | succeeds exactly for an existing pending, approved or purchasing task with a non-blank reason, which becomes terminated with the stripped reason; refusals change nothing |
| AccountsModels.RoleOf | factory_system/accounts/models.py:32-43 | reading the role column: each ROLE_CHOICES value is its own role, and only other strings are unknown roles, so the stored name is kept |
| AccountsModels.RoleOfRoleName | factory_system/accounts/models.py:32-43 | writing a valid role to the column and reading it back returns the role |
| AccountsModels.RoleDefaultPermissions | factory_system/accounts/models.py:70-123 | ceo and unknown roles have no default list |
| AccountsModels.HasPermission | factory_system/accounts/models.py:56-68 | ceo has every code; any other role has exactly its defaults and its extra codes |
| AccountsModels.GetAllPermissions | factory_system/accounts/models.py:125-129 | the set is exactly the role's defaults plus the extra codes |
| AccountsModels.HasPermissionIffListed | factory_system/accounts/models.py:56-68 | for a role other than ceo, `has_permission` agrees with `get_all_permissions` |
| AccountsDecorators.RoleRequired | factory_system/accounts/decorators.py:6-29 | anonymous or profile-less users go to login; others go to the dashboard exactly when neither their role nor ceo is allowed and they are not ceo; otherwise the view runs on its arguments |
| PermissionTags.HasPermissionFilter | factory_system/accounts/templatetags/permission_tags.py:6-16 | true exactly for an authenticated user with a profile that has the code |
| PermissionTags.CheckPermission | factory_system/accounts/templatetags/permission_tags.py:19-29 | the tag answers exactly as the filter |
| PermissionTags.AnyCode | factory_system/accounts/templatetags/permission_tags.py:38-43 | the loop finds a code exactly when some listed code is granted |
| PermissionTags.HasAnyPermission | factory_system/accounts/templatetags/permission_tags.py:32-45 | false for no codes; else true exactly when some code passes the filter |
| UpdateReceivedTasks.Migrated | factory_system/production/management/commands/update_received_tasks.py:21-29 | a received task goes to in_production, starting at its receipt time when it had no start; others unchanged; nothing else changes |
| UpdateReceivedTasks.CountReceived | factory_system/production/management/commands/update_received_tasks.py:12-17 | the count is 0 exactly when no task is received |
| UpdateReceivedTasks.CountReceivedSnoc | factory_system/production/management/commands/update_received_tasks.py:12-13 | one more task adds 1 exactly when it is received |
| UpdateReceivedTasks.MigratedTwice | factory_system/production/management/commands/update_received_tasks.py:11-31 | the migration is idempotent, and a second run finds nothing received |
| UpdateReceivedTasks.MigrateAll | factory_system/production/management/commands/update_received_tasks.py:21-29 | every task is migrated, and the updated count is the received count |
| UpdateReceivedTasks.Handle | factory_system/production/management/commands/update_received_tasks.py:11-31 | with no received task nothing changes; else every task migrated and the count reported |
| SetProductUnitPrices.Repriced | factory_system/inventory/management/commands/set_product_unit_prices.py:32-62 | only the unit price changes: kept when skipped, sale price × ratio when the sale price is positive, else 100.00 |
| SetProductUnitPrices.CountSkipped | factory_system/inventory/management/commands/set_product_unit_prices.py:34-39 | with --force nothing is skipped |
| SetProductUnitPrices.CountSkippedSnoc | factory_system/inventory/management/commands/set_product_unit_prices.py:34-39 | one more product adds 1 exactly when it is skipped |
| SetProductUnitPrices.RepricedIsPositiveAndStable | factory_system/inventory/management/commands/set_product_unit_prices.py:32-62 | with a positive ratio every price ends positive, so a second run without --force changes nothing |
| SetProductUnitPrices.RepriceAll | factory_system/inventory/management/commands/set_product_unit_prices.py:29-62 | every product repriced; skipped is the skip count and updated + skipped is the product count |
| SetProductUnitPrices.Handle | factory_system/inventory/management/commands/set_product_unit_prices.py:22-69 | the product table is repriced in place with the same counts; the catalog stays valid |
| InitMissingBoms.MaterialsBySku | factory_system/inventory/management/commands/init_missing_boms.py:17-19 | every material's SKU is a key, and each key maps to a material with that SKU |
| InitMissingBoms.IndexMaterials | factory_system/inventory/management/commands/init_missing_boms.py:17-19 | the loop builds exactly `MaterialsBySku` |
| InitMissingBoms.Recipe | factory_system/inventory/management/commands/init_missing_boms.py:91-131 | every default recipe line meets the BOM quantity validator, and no recipe names a material twice |
| InitMissingBoms.Lookup | factory_system/inventory/management/commands/init_missing_boms.py:78-87 | `materials.get(sku)` finds something exactly when the SKU is a key |
| InitMissingBoms.Resolved | factory_system/inventory/management/commands/init_missing_boms.py:92-131 | one item per recipe line, with the looked-up material, quantity and unit |
| InitMissingBoms.MaterialSkus | factory_system/inventory/management/commands/init_missing_boms.py:92-131 | the SKUs a recipe names, in order |
| InitMissingBoms.BomItemsAsWritten | factory_system/inventory/management/commands/init_missing_boms.py:72-133 | each branch returns its list exactly when its guard materials exist (other SKUs nothing); the list may hold absent materials |
| InitMissingBoms.BomItemsCorrected | factory_system/inventory/management/commands/init_missing_boms.py:72-133 | the list is returned exactly when every material it names exists; every item has a material and a valid quantity |
| InitMissingBoms.GuardWithinRecipe | factory_system/inventory/management/commands/init_missing_boms.py:91-121 | when every recipe material exists, the branch's guard holds |
| InitMissingBoms.CorrectedAgreesWhenComplete | factory_system/inventory/management/commands/init_missing_boms.py:72-133 | the corrected function equals the original when all its items have materials, and is empty otherwise |
| InitMissingBoms.GuardLetsMissingMaterialThrough | factory_system/inventory/management/commands/init_missing_boms.py:109-131 | concrete dictionaries where PROD-009 and PROD-010 pass their guards with absent materials, and the corrected function returns nothing |
| InitMissingBoms.RowsOf | factory_system/inventory/management/commands/init_missing_boms.py:43-49 | one BOM row per item, in order, with the product and the item's fields |
| InitMissingBoms.CorrectedMaterialsDistinct | factory_system/inventory/management/commands/init_missing_boms.py:43-49 | the corrected items name distinct, existing materials |
| InitMissingBoms.ProductRows | factory_system/inventory/management/commands/init_missing_boms.py:28-57 | the rows created for a product all name that product |
| InitMissingBoms.Plan | factory_system/inventory/management/commands/init_missing_boms.py:26-57 | one entry per product, each that product's rows |
| InitMissingBoms.BomOfAppend | factory_system/inventory/models.py:156-168 | filtering a concatenation concatenates the filtered parts |
| InitMissingBoms.BomOfOthers | factory_system/inventory/models.py:156-168 | rows of other products contribute nothing to a product's BOM |
| InitMissingBoms.BomOfOwn | factory_system/inventory/models.py:156-168 | rows all naming a product are its whole BOM |
| InitMissingBoms.FlattenOwned | factory_system/inventory/management/commands/init_missing_boms.py:26-57 | rows planned for earlier products add nothing to a later product's BOM |
| InitMissingBoms.FlattenBom | factory_system/inventory/management/commands/init_missing_boms.py:26-57 | after the appends, a product's BOM is its old rows followed by its planned rows |
| InitMissingBoms.HandleBoms | factory_system/inventory/management/commands/init_missing_boms.py:26-57 | after the command a product with a BOM keeps exactly its rows; any other has exactly its corrected recipe |
| InitMissingBoms.FlattenBelow | factory_system/inventory/management/commands/init_missing_boms.py:26-57 | rows planned so far name only products already visited |
| InitMissingBoms.HasBomAppendOthers | factory_system/inventory/management/commands/init_missing_boms.py:28-30 | rows of earlier products do not change a later product's `exists()` check |
| InitMissingBoms.AppendRowsValid | factory_system/inventory/models.py:160-167 | a new product's rows with distinct materials and valid quantities keep the BOM table's rules |
| InitMissingBoms.CreateRows | factory_system/inventory/management/commands/init_missing_boms.py:43-50 | the inner loop appends the item rows and counts one per row; the catalog stays valid |
| InitMissingBoms.PlanStep | factory_system/inventory/management/commands/init_missing_boms.py:26-57 | before product i the BOM check sees the original table, and the plan grows by that product's rows |
| InitMissingBoms.HandleProduct | factory_system/inventory/management/commands/init_missing_boms.py:27-63 | a product with a BOM is skipped; otherwise its corrected rows are created and it counts as updated when there are any |
| InitMissingBoms.HandleStep | factory_system/inventory/management/commands/init_missing_boms.py:26-63 | one turn of the product loop keeps the table and all three counters in step with the plan |
| InitMissingBoms.Handle | factory_system/inventory/management/commands/init_missing_boms.py:9-70 | the corrected command (with `BomItemsCorrected`): the BOM table grows by exactly the planned rows; created, skipped and updated report rows created, products with a BOM and products filled. The as-written rollback is the Finding below |

## Left out

- Users and audit fields (who approved, received, shipped or terminated, and when) are not kept, except `created_by` of a purchase task.
- GET branches, templates, messages, redirects and `stdout` output are not modelled. Only the effect of each POST branch on the tables is.
- Document numbers (`order_no`, `task_no`, `notice_no`, …) come from the clock. Two tasks created in the same second for one order collide on the unique `task_no`. The model refers to rows by index and does not model that collision.
- Decimal quantisation is not modelled. Columns store two or four decimal places, and the default `--ratio` goes through `str(float)`. Quantities and prices are exact reals.
- Floats are left out:
  - `qc_create` parses quantities with `float()` and computes a qualification rate;
  - `inbound_create` adds a float to a Decimal field. In Python that raises a TypeError; the consequence is the Finding below.
  The model treats these quantities as exact and keeps no qualification rate.
- Unparsable posted numbers (a `ValueError` or `InvalidOperation` from the parsers) are not modelled. Posted values arrive parsed or blank.
- Field validators do not run on `objects.create` or `save`. The sales book's validity carries the item quantity validator (at least 0.01), which the order form enforces. The stock check relies on it (`SalesViews.Positive`).
- FIFO consumption of batches and `SalesOrderItemBatch` allocation are not performed by any core view. Only the tables and `get_batches` are modelled.
- Concurrency and `select_for_update` are left out. Each view body is one atomic step.
- SalesViews.RecordOutcome writes the status before the notice; the source does the reverse inside one transaction. The final state is the same.
- InventoryModels.BomOf keeps one product's BOM rows in table order. The source's queryset orders them by `BOM.Meta.ordering` (`product`, then `material`, which follows `Material.Meta.ordering` by SKU). String ordering of SKUs is not modelled.
- ProductionViews.CreateMaterialRequisition inherits that order: the requisition's items follow table order rather than material SKU order. Which items exist and their quantities do not depend on the order.
- ProductionViews.TaskReceive inherits the same order through CreateMaterialRequisition, and so do the production_out transactions that RequisitionApprove later logs for those items.
- InventoryModels.GetTotalValue returns the exact product. The source converts it to a Python `float` at the end.
- ProductionViews.InboundCreate models the evidently intended exact arithmetic. As written, every POST that finds its task and QC record raises TypeError at production/views.py line 266 (and at line 252 when the product row already exists), and `transaction.atomic()` rolls everything back. So in the source no inbound is ever recorded and no order becomes ready to ship this way. `ProductionViews.InboundCreateAsWritten` models that outcome.
- ProductionViews.RecordInbound models the writes of that intended path. As written, these writes never commit, for the same reason.
- InitMissingBoms.Handle models the corrected command. On the input of the Finding below, the source's `BOM.objects.create(material=None)` raises inside `transaction.atomic()` and the whole run is rolled back; the model instead skips that product.
- The order of `get_all_permissions` is not modelled: the source builds a set.
- CEO approval, rejection, cancellation and termination of orders, and the other flows outside these views, are not part of this model.
- `init_missing_boms` visits products in SKU order (`order_by('sku')`). The model visits them in table order, which changes only the order in which BOM rows are appended.
- The no-op `BOM.objects.filter(product=product).delete()` of `init_missing_boms` (line 40) is omitted: the product is known to have no BOM rows there.
- A null `unit_price` or `sale_price` on a product is not modelled. Both columns are numbers with a default.
- The seed-data commands and the admin, URL and form modules are not part of this model.

## Findings

| source | as written | input that shows it | evidently intended | confidence | as-written member | corrected member |
|---|---|---|---|---|---|---|
| factory_system/inventory/management/commands/init_missing_boms.py:109-131 | The PROD-009 branch tests cement, flame retardant, thickener and expanded pearlite, but its list also names water reducer and fly ash. The PROD-010 branch tests cement, flame retardant and thickener, but its list also names fine sand, water reducer and fly ash. `materials.get` returns None for an absent SKU, so `BOM.objects.create(material=None)` violates NOT NULL and rolls back the whole command. | materials MAT-001, MAT-302, MAT-102 and MAT-301 only: PROD-009 returns items 4 and 5 without a material. Drop MAT-301: PROD-010 returns items 3, 4 and 5 without one. | each branch tests every material its list names, so a product whose recipe cannot be resolved gets no BOM rows and the command continues | not executed | InitMissingBoms.BomItemsAsWritten, InitMissingBoms.GuardLetsMissingMaterialThrough | InitMissingBoms.BomItemsCorrected, InitMissingBoms.CorrectedAgreesWhenComplete, InitMissingBoms.Handle |
| factory_system/production/views.py:229-273 | `quantity` is parsed with `float()` (line 229). `task.completed_quantity += quantity` (line 266) adds it to a Decimal read from the database, which raises TypeError. `inventory.quantity += quantity` (line 252) does the same for an existing product row. The `transaction.atomic()` block (line 236) rolls back the inbound, the stock credit and the transaction log, and `check_order_ready_to_ship` (line 273) is never reached. | any existing task (completed_quantity 0.00) and a POST with quantity 10 and no qc_record_id | the inbound is recorded, the product row is credited, the task's completed quantity grows and the order's readiness is checked, in exact decimal arithmetic | not executed | ProductionViews.InboundCreateAsWritten, ProductionViews.PyAdd | ProductionViews.InboundCreate, ProductionViews.RecordInbound |
