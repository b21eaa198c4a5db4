# Bright Bears tuckshop: stock ledger model

This project models the stock-accounting layer of the tuckshop point-of-sale
front end (`js/main.js`). The catalog holds items with two independent stock
pools: preorder stock and extra (walk-up) stock. Preorders draw on the first
pool and extra orders on the second. The front end mirrors three collections
from its document store (items, preorders, extra orders). From them it derives:

- the per-item usage of each pool (`calcUsageByItem`);
- the stock warning the order dialogs show while an order is typed or
  edited (`updatePreorderCost`, `updateExtraCost`). When an order is edited, its
  own quantity is taken out of the usage first, so it is not counted twice.
  The check gives one of three warnings: "no stock left", "only N left" or
  "stock after N";
- the dashboard's remaining-stock totals, floored at zero per item, and its
  coupon counters (`updateDashboardStats`);
- the flags of order records: the defaults of a new order, what an edit
  keeps, and the badge toggles.

The three collections are taken as immutable snapshots (`seq`s). Every order
is read through the flat shape the file knows: item id and quantity at the top
level of the order. The ledger sees an order of either kind as a
`Records.Line(orderId, itemId, quantity)`. The two usage passes and the
dashboard loops are methods with loop invariants. Each one is proved equal to a
recursive reference definition (`Usage.Committed`, `Dashboard.Remaining`,
`Dashboard.CountCoupons`). The lemmas are stated about those definitions.

Files: `wrappers.dfy` (Option), `records.dfy` (records, flags, toggles),
`find.dfy` (first-match lookups), `usage.dfy` (usage accumulation),
`availability.dfy` (the dialogs' stock check), `dashboard.dfy` (dashboard
counters).

## Model

| member | source | states |
|---|---|---|
| `Find.FindIndex` | js/main.js:71 | the result is the first index whose element satisfies the predicate; `None` exactly when no element does |
| `Find.FindItemById` | js/main.js:70-72 | a found item is the first catalog item with the requested id (no earlier item has it); `None` exactly when no item has that id |
| `Find.FindOrder` | js/main.js:265 | the first order with the edited id; `None` exactly when no order has it |
| `Usage.Accumulate` | js/main.js:78-80 | after the pass over one pool's orders, the map has an entry exactly for the items some order names, and each entry (a missing one read as 0) is the sum of the quantities of the orders on that item |
| `Usage.CalcUsageByItem` | js/main.js:74-87 | `preorderUsage` is the per-item sum over preorders only, `extraUsage` over extra orders only, so neither pool's orders affect the other pool's map |
| `Usage.CommittedUpdate` | js/main.js:266 | replacing one order changes the item's usage by exactly the difference of the old and new order's quantities on that item |
| `Usage.CommittedPermutation` | js/main.js:78-84 | the usage does not depend on the order in which the orders are listed (any permutation gives the same totals) |
| `Availability.Classify` | js/main.js:269-276 | first match wins: "no stock left" iff `before <= 0`; "only `before` left" iff `0 < before < qty`; "stock after `before - qty`" iff `0 < before` and `qty <= before` |
| `Availability.Check` | js/main.js:251-258 | the check is a no-op (empty warning) exactly when the item is not found or the quantity is 0 |
| `Availability.UpdatePreorderCost` | js/main.js:250-277 | the warning computed from the preorder usage map is the reference check over the preorders: the usage counted is the sum over preorders less the edited order's quantity when that order is found and is on the selected item |
| `Availability.UpdateExtraCost` | js/main.js:433-460 | the same over the extra pool: the extra usage map, the extra stock, the edited extra order |
| `Availability.UsedCountsOtherOrders` | js/main.js:261-267 | with distinct order ids, the usage the check counts while order E is edited equals the usage of all orders other than E, so nothing is counted twice |
| `Availability.CheckMatchesSave` | js/main.js:261-276 | for a known item and a positive quantity, when the order is new or the edited order is still in the pool, the check accepts iff saving it (edit merged into the stored order, or a new order added) would leave the pool's usage of the item within its stock; the "stock after" figure is then the stock minus that usage |
| `Availability.CheckVanishedEdit` | js/main.js:263-267 | when the edited order is no longer in the pool, the check judges the quantity exactly as for a new order, while saving leaves the mirrored pool unchanged (the re-created document has no `createdAt` and the listeners at js/main.js:103 and 111 order by it) |
| `Availability.EditUnchangedNeverRejects` | js/main.js:237-276 | opening an order for edit with its own item and quantity (> 0), when the pool's usage fits the stock, gives "stock after" with `stock - usage`: editing without changing never self-rejects |
| `Dashboard.Remaining` | js/main.js:590-593 | the remaining total of a pool is never negative |
| `Dashboard.CountCoupons` | js/main.js:595-599 | a coupon count never exceeds the number of preorders |
| `Dashboard.UpdateDashboardStats` | js/main.js:581-603 | the item, preorder and extra counts are the collections' sizes; each pool's remaining total is the sum over items of `max(stock - usage, 0)`; the coupon counters are the numbers of preorders with each flag set |
| `Dashboard.RemainingAtMostStock` | js/main.js:590-593 | with non-negative stocks and quantities, a pool's remaining total is at most the pool's total stock |
| `Dashboard.RemainingAtLeastUnfloored` | js/main.js:591-592 | the floored total is at least the pool's total stock minus its total usage over the catalog |
| `Dashboard.RemainingZeroIffSoldOut` | js/main.js:590-593 | a pool's remaining total is 0 exactly when every item's usage has reached its stock in that pool |
| `Dashboard.ToggleMovesCount` | js/main.js:365-369 | toggling one preorder's coupon flag moves that flag's count by exactly one (down if it was set, up if not) and leaves the other count unchanged |
| `Records.NewPreorder` | js/main.js:304-306 | a new preorder has its given fields and both coupon flags false |
| `Records.EditPreorder` | js/main.js:290-303 | an edit replaces name, item and quantity, and keeps the id and both coupon flags |
| `Records.ToggleCoupon` | js/main.js:365-369 | the selected coupon flag is negated, the other flag and every other field are unchanged |
| `Records.ToggleCouponTwice` | js/main.js:365-369 | two toggles of the same flag give back the original record |
| `Records.ToggleKeepsLines` | js/main.js:365-369 | a coupon toggle does not change any order's item or quantity, so the stock usage is unchanged |
| `Records.NewExtraOrder` | js/main.js:486-487 | a new extra order has its given fields and `paid` false |
| `Records.EditExtraOrder` | js/main.js:473-485 | an edit replaces item, quantity and payment method, and keeps the id and `paid` |
| `Records.TogglePaid` | js/main.js:537 | `paid` is negated and every other field is unchanged |

## Left out

- Firestore collection setup, the `onSnapshot` listeners and ordering by `createdAt`: remote I/O. The three collections are inputs to every operation instead.
- All DOM work: navigation, sidebar, table rendering, the item selects, the dialogs, `alert` and `confirm`. These are presentation only. The items table's unfloored "remaining" column is such a display value.
- Prices, costs and revenue (`item.price * qty`, `formatCurrency`, `totalRevenue`): floating point and string formatting. `Availability.Outcome` carries the warning only, not the cost label.
- `parseInt`/`parseFloat` of form fields and the `NaN` cases. Quantities and stocks are integers that have already been parsed, and an absent quantity is 0.
- The asynchronous `set`/`add`/`delete` writes and their failures. `Availability.AfterSave` describes the pool the front end mirrors after a successful save. An edit of a vanished order writes a document without `createdAt` (js/main.js:302, 484), which the `orderBy("createdAt")` listeners do not deliver, so that pool is unchanged. The save path never consults the check, and the model does not claim it enforces stock.
- Records.EditPreorder: the edit writes `couponGiven: undefined` and `couponRedeemed: undefined` with merge. Whether the store drops such fields or rejects the write depends on store configuration that is not part of this model. The model takes the reading where they are dropped, so the flags are kept. With the store's default settings an `undefined` field makes the write fail, and then no edit of a preorder is saved.
- Records.EditExtraOrder: the edit writes `paid: undefined` with merge (js/main.js:478, 485). Whether the store drops that field or rejects the write depends on store configuration that is not part of this model. The model takes the reading where the field is dropped, so `paid` is kept. With the store's default settings the write fails, and then no edit of an extra order is saved.
- Item editing and deletion in the settings page (js/main.js:126-154, 185-202): plain store writes with no ledger logic.
- Multi-line orders and draft lines: `js/main.js` only knows the flat one-item order shape.
