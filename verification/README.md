# Purchase order totals and status helpers

A Dafny model of the `PurchaseOrder` record of the xeroizer Ruby client
(`lib/xeroizer/models/purchase_order.rb`). The record is fetched from the
Xero accounting API. It arrives either as a summary, without its line items,
or fully loaded. The model covers three parts of it:

- **Derived totals.** `sub_total`, `total_tax` and `total` each return a stored
  value when one of these holds: an override was assigned, the caller forces
  summary mode, or the record is not loaded. In every other case they are
  recomputed from the line items. `sub_total` subtracts the tax, as the tax
  getter reports it, when line amounts are `Inclusive`. `total` adds the other
  two getters.
- **Status helpers.** `approved?` is true when the status is AUTHORISED or
  BILLED. `approve!` and `delete!` go through `change_status!`, which raises
  `CannotChangePurchaseOrderStatus` before it does anything else.
- **Contact accessors.** `contact_name` and `contact_id` are nil-safe lookups
  into the contact attribute.

Layout:

- `wrappers.dfy`: the `Option` datatype, standing for Ruby's `nil`.
- `line_items.dfy`: line items and sums over them. `Inject` is the left fold
  Ruby's `inject` performs. `Sum` is a structurally recursive reference sum.
  `Inject`'s contract proves that the fold adds exactly `Sum`.
- `purchase_order.dfy`: the record.
  - It is a class whose fields are the attributes the core reads and the three
    sticky override flags.
  - The setters are methods. They modify only their own flag and attribute.
  - The getters are functions of the state and the `alwaysSummary` argument.
  - Lemmas cover override precedence, the summary fallback, the composition of
    the total, and the worked examples.

Amounts are `real`. Like Ruby's `BigDecimal`, they are exact.

The status operations follow the code, not the guard its comments suggest
("Delete an approved invoice with no payments", line 135; "Approve a draft
invoice", line 140). `change_status!` raises unconditionally, so no status is
ever accepted. The assignment and the save that follow the raise never run.
`ChangeStatus`, `Approve` and `Delete` therefore have no `modifies` clause:
the status, the override flags, the totals and the ghost `saveCount` all stay
as they were. Each method returns the error it raises, which carries the
record and the target status.

`total` calls `sub_total` and `total_tax` with their default `false` argument.
It does not forward its own argument. The results are the same, because that
branch is taken only when the argument is `false`.

## Model

| member | source | states |
|---|---|---|
| `LineItems.Inject` | lib/xeroizer/models/purchase_order.rb:111 | the left `inject` fold from any starting total `acc` gives `acc` plus the reference sum of the column |
| `LineItems.SumAppend` | lib/xeroizer/models/purchase_order.rb:98 | the exact sum over a concatenation is the sum of the sums, so each line item adds exactly its own amount |
| `PurchaseOrders.PurchaseOrder.constructor` | lib/xeroizer/models/purchase_order.rb:34-57 | a record starts with the given attributes, no override flag set and no save |
| `PurchaseOrders.PurchaseOrder.Items` | lib/xeroizer/models/purchase_order.rb:98 | a nil `line_items` collection counts as the empty sequence, otherwise the collection itself |
| `PurchaseOrders.PurchaseOrder.Loaded` | lib/xeroizer/models/purchase_order.rb:130-133 | loaded exactly when new, or when the line-item collection (nil counts as empty) is non-empty |
| `PurchaseOrders.PurchaseOrder.NotSummaryOrLoadedRecord` | lib/xeroizer/models/purchase_order.rb:126-128 | recomputation is allowed exactly when summary mode is not forced and the record is new or has line items |
| `PurchaseOrders.PurchaseOrder.TotalTax` | lib/xeroizer/models/purchase_order.rb:109-115 | on a loaded record in non-summary mode the result is present; without an override it is the sum of the line items' tax amounts (0 for none) |
| `PurchaseOrders.PurchaseOrder.SubTotal` | lib/xeroizer/models/purchase_order.rb:96-106 | on a loaded record in non-summary mode the result is present; without an override it is the sum of line amounts, less the tax getter's value when the type is `Inclusive` |
| `PurchaseOrders.PurchaseOrder.Total` | lib/xeroizer/models/purchase_order.rb:118-124 | on a loaded record in non-summary mode the result is present; with no override at all it is line amounts plus taxes, or just the line amounts when `Inclusive` |
| `PurchaseOrders.PurchaseOrder.SetSubTotal` | lib/xeroizer/models/purchase_order.rb:80-83 | afterwards `SubTotal` returns the value for either argument, the tax getter is unchanged, and a computed total uses the new sub-total |
| `PurchaseOrders.PurchaseOrder.SetTotalTax` | lib/xeroizer/models/purchase_order.rb:85-88 | afterwards `TotalTax` returns the value for either argument, and a computed inclusive sub-total subtracts it |
| `PurchaseOrders.PurchaseOrder.SetTotal` | lib/xeroizer/models/purchase_order.rb:90-93 | afterwards `Total` returns the value for either argument, and the other two getters are unchanged |
| `PurchaseOrders.PurchaseOrder.Approved` | lib/xeroizer/models/purchase_order.rb:76-78 | true exactly when the status is AUTHORISED or BILLED |
| `PurchaseOrders.PurchaseOrder.ContactName` | lib/xeroizer/models/purchase_order.rb:65-67 | nil when there is no contact attribute, otherwise the contact's name entry (itself possibly nil) |
| `PurchaseOrders.PurchaseOrder.ContactId` | lib/xeroizer/models/purchase_order.rb:71-73 | nil when there is no contact attribute, otherwise the contact's id entry (itself possibly nil) |
| `PurchaseOrders.PurchaseOrder.ChangeStatus` | lib/xeroizer/models/purchase_order.rb:147-151 | always raises `CannotChangePurchaseOrderStatus` with this record and the requested status, and changes nothing (status and save count included) |
| `PurchaseOrders.PurchaseOrder.Approve` | lib/xeroizer/models/purchase_order.rb:141-143 | always raises with target AUTHORISED and changes nothing |
| `PurchaseOrders.PurchaseOrder.Delete` | lib/xeroizer/models/purchase_order.rb:136-138 | always raises with target DELETED and changes nothing |
| `PurchaseOrders.OverridesWin` | lib/xeroizer/models/purchase_order.rb:96-124 | a getter whose override flag is set returns the assigned value for any argument, loaded or summary |
| `PurchaseOrders.SummaryReturnsRaw` | lib/xeroizer/models/purchase_order.rb:96-133 | in forced summary mode, or on a persisted record with nil or empty line items, every getter returns the stored attribute unchanged, possibly absent, never a computed 0 |
| `PurchaseOrders.TotalComposes` | lib/xeroizer/models/purchase_order.rb:118-120 | on a loaded record without a total override, the total is the sub-total getter plus the tax getter |
| `PurchaseOrders.InclusiveSubTotalHonoursTaxOverride` | lib/xeroizer/models/purchase_order.rb:100-101 | an inclusive, computed sub-total subtracts the overridden tax, not the line items' tax |
| `PurchaseOrders.AddingLineItemAddsItsAmounts` | lib/xeroizer/models/purchase_order.rb:96-115 | a record with one more line item and no tax override reports that item's tax on top; with no sub-total override and non-inclusive amounts, its line amount on top of the sub-total |
| `PurchaseOrders.NewRecordWithoutItemsIsZero` | lib/xeroizer/models/purchase_order.rb:96-132 | a new record with no line items and no overrides is loaded, and all three totals are 0 |
| `PurchaseOrders.ExclusiveExample` | lib/xeroizer/models/purchase_order.rb:96-124 | a new record with items (10, tax 1) and (20, tax 2), exclusive: sub-total 30, tax 3, total 33 |
| `PurchaseOrders.InclusiveExample` | lib/xeroizer/models/purchase_order.rb:96-124 | the same items, inclusive: sub-total 27, tax 3, total 30 |

## Left out

- `PurchaseOrderModel` and `set_permissions` (lines 6-14): API permission metadata for the generic base model.
- The field schema macros, primary-key settings and `list_contains_summary_only` (lines 27-53): these are implemented by `Base`, which is not part of this model. Only the fields the core reads are modelled.
- The `PURCHASE_ORDER_STATUS` map (lines 18-24): statuses are plain strings, with named constants for the ones used.
- How `belongs_to :contact` and `has_many :line_items` load their data (lines 56-57). Line items are a given optional sequence. The contact is an optional pair of optional name and id.
- `save`, `new_record?` and all persistence or HTTP behaviour. `new_record?` is the `isNew` field. `save` is represented only by the ghost `saveCount`, which no operation increments, because no operation ever reaches `save`.
- The statements after the raise in `change_status!` (lines 149-150): they are unreachable, so they are not modelled.
- Assigning `nil` through a setter: the setters take a number. The case where a nil override is later used in arithmetic would raise in Ruby and is not modelled. `Valid` requires every set flag to have a stored value.
- `status` is a plain string and cannot be nil. In Ruby a nil status is not approved, the same as any status outside AUTHORISED and BILLED, so `Approved` loses nothing.
- `line_amount_types` is a plain string. A nil value is represented by any string other than `Inclusive`, which has the same effect on the comparison.
- The Ruby getters' default argument: callers pass `alwaysSummary` explicitly.
