# Bakery point-of-sale: bookkeeping core in Dafny

The original system is a React front-end for a bakery's point of sale. It
talks to a Supabase (PostgREST) backend. Beneath the screens sit a set of
small bookkeeping rules, and this project models them with the backend
tables held in memory:

- **Order totals.** An order's authoritative total is the sum of
  `cantidad × precio_unitario` over its detail rows. Every line-item add,
  update or delete rewrites the stored header total. A batch pass
  recomputes totals and writes a correction only for orders whose stored
  total drifts by more than 0.01. The order list starts that pass twice,
  concurrently, over the same snapshot of orders, so the pass must be
  idempotent (as written that snapshot is undefined; see "## Findings").
- **Payment ledger.** Payments are append-only. `paid_amount` is increased
  by read-modify-write. The detail screen accepts only amounts above 0 and
  shows `remaining = total − paid`, which is not floored at 0.
- **Stock ledger.** Active products are merged with the branch's stock rows.
  A product without a row gets a "virtual" entry with quantity 0, and saving
  an entry inserts a row or updates one depending on the id prefix. The
  dashboard sums sales and sold quantities over the branch's non-cancelled
  orders. Both screens classify quantities into bands.
- **Production sheet.** Quantities are summed per product name and items are
  grouped per order. A cursor with a page-break rule lays out the PDF.
- **Carts.** Add, remove and change-quantity keep the invariant "one entry
  per product, quantity at least 1". The detail screen has its own quantity
  guard.
- **Row and patch builders.** Insert rows use `||` and `??` defaults.
  Partial-update patches include a field only when it is present, where
  "present" means truthy for orders and `!== undefined` for products.
- **Queries as list functions.** Covers role-based branch visibility, the
  product search, category nesting, the order list's pagination and
  YYYY-MM-DD dates.

Layout:

- The shared modules are `Wrappers`, `Ordering`, `Text`, `Schema` and
  `LineItems`:
  - `Wrappers` holds Option and Result, a fetch outcome, and JS field
    presence.
  - `Ordering` holds a comparator-driven insertion sort and a lexicographic
    string order.
  - `Text` renders decimals.
  - `Schema` holds the table rows and a `Database` class whose fields are
    the tables.
  - `LineItems` holds the line-total sums.
- Every other module models one source file.
- Operations that write tables are methods on a `Database` object. They are
  specified against functions on the old tables.
- Operations that loop in place are methods with loops and invariants:
  - the per-order totals map;
  - the correction list;
  - the sold-quantity map;
  - the summary and grouping records;
  - the PDF cursor;
  - the patch builders.
- Pure rules are functions with lemmas.
- Values the backend or the browser supplies are parameters:
  - new ids, timestamps and the next folio;
  - success or failure of each request;
  - the uploaded image URL;
  - text line counts and table end positions on the PDF;
  - the current date.

## Model

| member | source | states |
|---|---|---|
| Reconcile.FetchedDetails | src/hooks/useRecalculateTotals.ts:18-21 | the fetched detail rows are exactly those whose order_id is one of the batch's ids |
| Reconcile.Ids | src/hooks/useRecalculateTotals.ts:15 | the id list has one entry per batch order, in order |
| Reconcile.RealTotals | src/hooks/useRecalculateTotals.ts:29-39 | the totals map has exactly the batch ids as keys, each mapped to Σ cantidad × precio_unitario over that order's fetched rows (missing values as 0, an order without rows at 0) |
| Reconcile.ZeroTotals | src/hooks/useRecalculateTotals.ts:29-32 | the map has exactly the batch ids as keys, each at 0 |
| Reconcile.CreditRows | src/hooks/useRecalculateTotals.ts:34-39 | crediting the fetched rows adds no key, and leaves each zero-seeded entry at the total of its order's rows |
| Reconcile.CreditRow | src/hooks/useRecalculateTotals.ts:35-38 | crediting one row to its order, when the order has an entry, keeps the keys and keeps every entry equal to its order's total over the rows seen so far |
| Reconcile.BatchTotals | src/hooks/useRecalculateTotals.ts:15-39 | every batch order has an entry holding its total over the whole detail table |
| Reconcile.Landed | src/hooks/useRecalculateTotals.ts:51-63 | the updates that land are queued ones, never more than were queued |
| Reconcile.ApplyAll | src/hooks/useRecalculateTotals.ts:51-63 | sending the queued updates one after another leaves the orders with every successful correction applied, in queue order; a failed request changes nothing |
| Reconcile.AllLandWithoutFailures | src/hooks/useRecalculateTotals.ts:51-63 | with no failed request every queued update lands |
| Reconcile.LandsUnlessFailed | src/hooks/useRecalculateTotals.ts:51-63 | an update whose own request succeeds lands |
| Reconcile.FailedWriteKeepsRow | src/hooks/useRecalculateTotals.ts:51-66 | an order none of whose updates succeeded keeps its stored row and total, though the pass counted it |
| Reconcile.NoneLandFor | src/hooks/useRecalculateTotals.ts:51-63 | when every update for an id failed, none for that id lands |
| Reconcile.FailedOrderIsRequeued | src/hooks/useRecalculateTotals.ts:45-63 | because failed writes are ignored, a drifting order whose writes all failed is queued again, with the same total, by the next pass |
| Reconcile.PlanCorrections | src/hooks/useRecalculateTotals.ts:42-59 | the loop queues exactly the corrections of drifting orders, in batch order, and counts them |
| Reconcile.Recalculate | src/hooks/useRecalculateTotals.ts:10-67 | an absent or empty batch or a failed fetch writes nothing and counts 0; otherwise the stored orders become the old ones with every correction whose request succeeded applied, the count is the number of queued corrections (failed writes included, since their errors are never read), and invalidation happens iff the count is positive |
| Reconcile.ApplyCorrections | src/hooks/useRecalculateTotals.ts:51-56 | an order with a queued correction gets the last queued total for its id; every other order is unchanged |
| Reconcile.ApplyOneMore | src/hooks/useRecalculateTotals.ts:51-56 | applying one more correction equals setting that order's total on the previous state |
| Reconcile.FetchedTotalIsComplete | src/hooks/useRecalculateTotals.ts:18-21 | for a batch order, the total over the fetched rows equals the total over the whole detail table |
| Reconcile.FetchedItemsAreComplete | src/hooks/useRecalculateTotals.ts:18-21 | for a batch order, its rows among the fetched rows equal its rows in the whole table |
| Reconcile.CorrectionsExact | src/hooks/useRecalculateTotals.ts:45-58 | each correction writes the computed total; an order gets one iff its stored total drifts by more than 0.01; there are at most as many corrections as orders |
| Reconcile.LastForSnoc | src/hooks/useRecalculateTotals.ts:51-56 | after one more queued correction, its id ends at its total and every other id at what it had |
| Reconcile.CorrectionsCarryComputed | src/hooks/useRecalculateTotals.ts:45-58 | every queued correction carries its order's computed total, and there are at most as many as orders |
| Reconcile.DriftingOrdersCorrected | src/hooks/useRecalculateTotals.ts:45-58 | every order that drifts ends at its computed total |
| Reconcile.CorrectedOrdersDrift | src/hooks/useRecalculateTotals.ts:45-58 | an id gets a write only when some batch order with that id drifts |
| Reconcile.ApplyTwice | src/hooks/useRecalculateTotals.ts:51-56 | applying the same corrections twice leaves the state of applying them once |
| Reconcile.SecondPassIsQuiet | src/hooks/useRecalculateTotals.ts:48 | after the corrections are applied, a second pass over the same details queues none |
| Reconcile.LastForIsQueued | src/hooks/useRecalculateTotals.ts:51-56 | the total an order is set to is one actually queued for that order |
| Reconcile.NoDriftNoCorrections | src/hooks/useRecalculateTotals.ts:48 | when no order drifts, no correction is queued |
| Reconcile.CorrectionsTouchOnlyTotals | src/hooks/useRecalculateTotals.ts:51-56 | corrections change only the total field, and leave an order with no correction unchanged |
| LineItems.ItemsOf | src/hooks/useOrderItems.ts:55 | an order's items are exactly the detail rows with its order_id |
| LineItems.ComputedTotalAppend | src/hooks/useOrderItems.ts:58 | the computed total of two row lists concatenated is the sum of their totals |
| LineItems.SingleRowTotal | src/hooks/useOrderItems.ts:58 | a single row contributes its subtotal to its own order and 0 to any other |
| LineItems.AppendRowTotal | src/hooks/useOrderItems.ts:58 | appending a row raises its own order's total by its subtotal and no other order's |
| LineItems.NoRowsComputesZero | src/hooks/useOrderItems.ts:57-58 | an order without rows computes 0 |
| LineItems.LineTotalPermutation | src/hooks/useOrderItems.ts:58 | the sum does not depend on the order of the rows |
| LineItems.LineTotalSplice | src/hooks/useOrderItems.ts:58 | inserting one row between two lists adds its subtotal to their sum |
| LineItems.SetTotal | src/hooks/useOrderItems.ts:60 | setting the total changes only the total of the rows with that id |
| LineItems.TwoLineScenario | src/hooks/useOrderItems.ts:58 | two lines, 2 × 10 and 1 × 5, give 25 |
| OrderItems.TotalAfterRefresh | src/hooks/useOrderItems.ts:53-61 | after a successful write, the order's total equals the sum over its current items, or 0 when the item read fails; other orders and other fields are untouched; a failed write changes nothing |
| OrderItems.UpdateOrderTotal | src/hooks/useOrderItems.ts:53-61 | the orders table becomes the refreshed one |
| OrderItems.AddItem | src/hooks/useOrderItems.ts:9-21 | a failed insert fails and changes nothing; otherwise exactly one detail row (order, product, quantity, price) is appended and the total is refreshed |
| OrderItems.UpdateItem | src/hooks/useOrderItems.ts:28-35 | a failed update changes nothing; otherwise only the cantidad of the rows with that id changes and the total is refreshed |
| OrderItems.DeleteItem | src/hooks/useOrderItems.ts:40-45 | a failed delete changes nothing; otherwise exactly the rows with that id are removed and the total is refreshed |
| OrderItems.SetCantidad | src/hooks/useOrderItems.ts:29-31 | only the rows with the item id get the new cantidad |
| OrderItems.RemoveDetail | src/hooks/useOrderItems.ts:41 | the remaining rows are exactly those with a different id |
| OrderItems.RowsWithId | src/hooks/useOrderItems.ts:41 | the rows the delete matches are exactly those with that id |
| OrderItems.DeleteItemLowersTotal | src/hooks/useOrderItems.ts:40-44 | deleting an item lowers the order's computed total by exactly that item's subtotal |
| OrderItems.UpdateItemLeavesOtherOrders | src/hooks/useOrderItems.ts:28-34 | changing an item of one order leaves every other order's computed total unchanged |
| OrderItems.SameItemsWhenOtherOrder | src/hooks/useOrderItems.ts:55 | tables that differ only in rows of other orders give the same item list |
| Payments.PaymentsOf | src/hooks/useOrderPayments.ts:26 | an order's payments are exactly the payment rows with its order_id |
| Payments.NewestFirstIsTotalPreorder | src/hooks/useOrderPayments.ts:27 | newest-first by created_at is a total preorder, so the sort is defined |
| Payments.FindProfile | src/hooks/useOrderPayments.ts:31-34 | the profile found has the creator's id, and none is found only when no profile has it |
| Payments.CreatorName | src/hooks/useOrderPayments.ts:31-34 | the creator name is never empty; it is "Desconocido" with no creator or no matching profile; when the creator's profile is found it is that profile's full name, or "Desconocido" when the name is null; any other name belongs to the creator's profile |
| Payments.Annotate | src/hooks/useOrderPayments.ts:31-34 | each listed payment keeps all its fields and gains the creator name |
| Payments.Rows | src/hooks/useOrderPayments.ts:31-34 | stripping the names gives the payments back |
| Payments.ListPayments | src/hooks/useOrderPayments.ts:19-37 | no order id means no query; a failed read is an error; otherwise exactly the order's payments, newest first, each with its creator name |
| Payments.OrdersWithId | src/hooks/useOrderPayments.ts:55-58 | the rows matching the id are exactly the orders with that id |
| Payments.SingleRow | src/hooks/useOrderPayments.ts:58 | a single-row read yields a row of the table with that id |
| Payments.SetPaid | src/hooks/useOrderPayments.ts:61 | only the rows with that id get the new paid_amount |
| Payments.AddPayment | src/hooks/useOrderPayments.ts:40-62 | a failed insert fails and changes nothing; otherwise exactly one payment row is appended and paid_amount is rewritten by the read-modify-write |
| Payments.NoMatchNoRows | src/hooks/useOrderPayments.ts:55-58 | an id that no order has matches no rows |
| Payments.UniqueRowIsSingle | src/hooks/useOrderPayments.ts:58 | a unique row is exactly what the single-row read returns |
| Payments.PaidIncrements | src/hooks/useOrderPayments.ts:58-61 | after a payment, the order's paid_amount is its old value (null as 0) plus the amount, and every other order is unchanged |
| Payments.FailedReadForgetsEarlierPayments | src/hooks/useOrderPayments.ts:58-61 | when the paid_amount read fails, the write stores just the new amount |
| Payments.PaidIsSumOfPayments | src/hooks/useOrderPayments.ts:42-61 | starting from 0, after a run of payments paid_amount is their sum, and nothing else on the order changes |
| Payments.LedgerIsAppendOnly | src/hooks/useOrderPayments.ts:42-46 | a new payment extends its own order's list at the end and leaves every other order's list unchanged |
| DashboardStats.Qualifying | src/hooks/useDashboardStats.ts:28-29 | the qualifying orders are exactly the branch's orders whose status is not cancelled |
| DashboardStats.SoldQtyAppend | src/hooks/useDashboardStats.ts:58-66 | sold quantity over concatenated items is the sum of the parts |
| DashboardStats.SoldQtySnoc | src/hooks/useDashboardStats.ts:58-66 | one more item raises its own product's sold quantity by its cantidad (missing as 0) and no other product's |
| DashboardStats.CreditItems | src/hooks/useDashboardStats.ts:60-65 | the inner loop adds each item's cantidad to its product's entry |
| DashboardStats.SoldPerProduct | src/hooks/useDashboardStats.ts:58-66 | the sold map gives each product the sum of cantidad over all items of the qualifying orders, and 0 for a product never sold |
| DashboardStats.FindProduct | src/hooks/useDashboardStats.ts:69-78 | the product found has the id, and none only when no product has it |
| DashboardStats.Overview | src/hooks/useDashboardStats.ts:69-78 | one row per stock row, in order: the joined product's name and packaging, both absent when no product matches, the row's quantity as initial stock, the sold quantity and remaining = quantity − sold |
| DashboardStats.LoadStats | src/hooks/useDashboardStats.ts:11-83 | no branch gives no result; a failed read is an error; absent data gives 0 sales and no rows; otherwise sales are the sum over qualifying orders and each stock row gets the name and packaging of its product (absent when none matches), its initial stock, its sold quantity and remaining = initial − sold (possibly negative) |
| DashboardStats.SalesTotalAppend | src/hooks/useDashboardStats.ts:54 | the sales sum over concatenated orders is the sum of the parts |
| DashboardStats.NewOrderEffect | src/hooks/useDashboardStats.ts:28-66 | a new qualifying order raises sales by its total and sold quantities by its items; a non-qualifying one changes nothing |
| DashboardStats.SalesTotalPermutation | src/hooks/useDashboardStats.ts:54 | the sales sum does not depend on row order |
| DashboardStats.SalesTotalSplice | src/hooks/useDashboardStats.ts:54 | inserting one order between two lists adds its sale to their sales |
| DashboardView.BandOf | src/features/dashboard/Dashboard.tsx:114-116 | red iff remaining ≤ 0, yellow iff 0 < remaining < 5, blue iff remaining ≥ 5 |
| DashboardView.BandsPartition | src/features/dashboard/Dashboard.tsx:114-119 | the alert icon shows exactly on red rows; the three bands are exhaustive and disjoint |
| DashboardView.OverviewRowBand | src/features/dashboard/Dashboard.tsx:114-116 | a row is red iff sold ≥ initial stock, and blue iff sold ≤ initial stock − 5 |
| DashboardView.FirstWord | src/features/dashboard/Dashboard.tsx:23 | the first word is a space-free prefix that stops at the first space |
| DashboardView.Greeting | src/features/dashboard/Dashboard.tsx:23 | the greeting is a non-empty word without spaces, and "Usuario" with no name |
| DashboardView.GreetingIsFirstName | src/features/dashboard/Dashboard.tsx:23 | "first rest" and "first" greet as first; a name starting with a space, or empty, greets as "Usuario" |
| DashboardView.SalesShown | src/features/dashboard/Dashboard.tsx:46 | the sales card shows totalSales, or 0 without stats |
| DashboardView.EmptyMessageIffNoStockRows | src/features/dashboard/Dashboard.tsx:86-87 | the empty-inventory message shows iff the branch has no stock rows |
| Stock.VirtualId | src/hooks/useStock.ts:46 | a virtual id starts with "virtual" |
| Stock.ActiveProducts | src/hooks/useStock.ts:26-29 | the products listed are exactly the active ones |
| Stock.BranchRows | src/hooks/useStock.ts:34-37 | the stock rows read are exactly the branch's; the dashboard's read of branch_stock (src/hooks/useDashboardStats.ts:46) is the same query |
| Stock.FindStock | src/hooks/useStock.ts:44 | the row found is the product's, and none only when no row is |
| Stock.LoadStock | src/hooks/useStock.ts:22-55 | no branch gives []; a failed read is an error; otherwise one entry per active product in product order, with the product's id and branch, and, when the branch has a row for it, the first such row's quantity (missing as 0), its updated_at and its id (a virtual id only when that id is empty); with no row, quantity 0, no updated_at and the virtual id |
| Stock.VirtualIffNoRow | src/hooks/useStock.ts:43-53 | an entry has a virtual id iff its product has no stock row |
| Stock.SetQuantity | src/hooks/useStock.ts:78-82 | only the row with that id gets the quantity and timestamp |
| Stock.UpdateStock | src/hooks/useStock.ts:62-84 | no branch fails with "No Branch Selected" and changes nothing; a failed write changes nothing; a virtual id inserts one row (product, branch, quantity); any other id updates only that row |
| Stock.SavedVirtualEntryIsFound | src/hooks/useStock.ts:43-53 | after saving a virtual entry, the next merge shows the new row with its quantity |
| Stock.FindStockSkips | src/hooks/useStock.ts:44 | the first matching row of a longer table comes from its tail when the head has none |
| Stock.SavedRowIsFound | src/hooks/useStock.ts:78-82 | after an update the row holds the new quantity and keeps its product and branch |
| ProductionSheet.FirstUnitIsFirst | src/utils/pdfGenerator.ts:153-155 | a name's unit is the empaque of the first item with that name, and it is absent iff no item has the name |
| ProductionSheet.SummaryTotals | src/utils/pdfGenerator.ts:148-157 | one entry per distinct name present; its qty is the sum of cantidad over items of that name and its unit the first one seen |
| ProductionSheet.SumOverSnoc | src/utils/pdfGenerator.ts:149-157 | adding an item raises the summary's grand total by its cantidad when its name is listed |
| ProductionSheet.SummaryConservesQuantity | src/utils/pdfGenerator.ts:149-157 | the summary's quantities add up to the sum of cantidad over all items |
| ProductionSheet.ZeroOver | src/utils/pdfGenerator.ts:148-157 | no items sum to 0 under any list of names |
| ProductionSheet.SummaryBody | src/utils/pdfGenerator.ts:186-190 | one summary row per name, in key order, carrying that name's summed quantity and unit |
| ProductionSheet.ItemsFor | src/utils/pdfGenerator.ts:160-164 | an order's group is exactly the items with its order_id |
| ProductionSheet.ItemsForAppend | src/utils/pdfGenerator.ts:160-164 | grouping distributes over concatenation, so a group keeps the fetch order and multiplicity of its items |
| ProductionSheet.ItemsForSingle | src/utils/pdfGenerator.ts:160-164 | a single item joins the group iff it has that order_id |
| ProductionSheet.GroupByOrder | src/utils/pdfGenerator.ts:160-164 | every order with items has a group holding exactly its items in fetched order, and no other order has one |
| ProductionSheet.SummaryStart | src/utils/pdfGenerator.ts:167-184 | the summary starts at 38 with a date range and at 30 without |
| ProductionSheet.HeaderY | src/utils/pdfGenerator.ts:212-215 | a header that would pass 216 moves to a new page at 20; otherwise it stays at the cursor; it always fits |
| ProductionSheet.HeaderYs | src/utils/pdfGenerator.ts:206-294 | one header position per order, each fitting on its page |
| ProductionSheet.LayOutOrders | src/utils/pdfGenerator.ts:206-294 | the cursor loop places the headers at the positions the page-break rule gives |
| ProductionSheet.EmptyOrderSpacing | src/utils/pdfGenerator.ts:227-236 | an order without items advances the cursor by 5 + 15 past its header, plus 4 per note line + 2 with notes |
| ProductionSheet.SingleTableStart | src/utils/pdfGenerator.ts:63-71 | the single-order table starts at 38, or at 36 + 4 per note line + 2 with notes |
| ProductionSheet.SingleSheetFor | src/utils/pdfGenerator.ts:123-137 | a failed read fails, no items aborts, otherwise the sheet lists the fetched items and its table starts at 38, or below the wrapped notes |
| ProductionSheet.GenerateBatch | src/utils/pdfGenerator.ts:140-301 | an empty batch does nothing; a failed read fails; otherwise one header per order, fitting its page and placed by the page-break rule starting 15 below the summary, each order's block counting its own items, and a summary of distinct names with their summed quantities and first units |
| Cart.FindLine | src/features/orders/NewOrder.tsx:38 | the line found is in the cart with the product's id, and none only when the product is not in the cart |
| Cart.TotalAmountLast | src/features/orders/NewOrder.tsx:64 | the total is the total of the other lines plus the last line's price × quantity |
| Cart.AddToCart | src/features/orders/NewOrder.tsx:36-48 | an existing product's line gains 1 and no line is added; a new product is appended with quantity 1; other lines are unchanged |
| Cart.RemoveFromCart | src/features/orders/NewOrder.tsx:50-52 | the remaining lines are exactly those of other products |
| Cart.RemoveFromCartAppend | src/features/orders/NewOrder.tsx:50-52 | the filter distributes over concatenation, so the kept lines keep their order and multiplicity |
| Cart.RemoveFromCartSingle | src/features/orders/NewOrder.tsx:50-52 | a single line is kept iff it is another product's |
| Cart.UpdateQuantity | src/features/orders/NewOrder.tsx:54-62 | the product's line gets max(1, quantity + delta); other lines are unchanged |
| Cart.Max1 | src/features/orders/NewOrder.tsx:57 | the clamp is at least 1 and at least the value, and equals one of them |
| Cart.FoundLineIsUnique | src/features/orders/NewOrder.tsx:38 | in a well-formed cart the line found for a product is its one line |
| Cart.BumpLine | src/features/orders/NewOrder.tsx:40-44 | changing one line by d changes the item count by d and only that product's quantity by d, and the total by that line's new amount minus its old amount |
| Cart.OneMoreUnit | src/features/orders/NewOrder.tsx:42 | one more unit on a line adds one unit price to the line's amount |
| Cart.OneMoreUnitTotal | src/features/orders/NewOrder.tsx:40-44 | one more unit on one line, all other lines unchanged, raises the cart total by that line's unit price |
| Cart.AddToExistingLine | src/features/orders/NewOrder.tsx:40-44 | adding a product already in a well-formed cart keeps it well-formed and raises that product's quantity and the count by 1, other quantities unchanged |
| Cart.AddToExistingLineTotal | src/features/orders/NewOrder.tsx:40-44 | adding a product already in the cart raises the total by the unit price on its existing line |
| Cart.AddToCartEffect | src/features/orders/NewOrder.tsx:36-48 | adding keeps the cart well-formed, adds a line only for a new product, raises that product's quantity and the count by 1, and the total by its price |
| Cart.AppendNewLine | src/features/orders/NewOrder.tsx:46 | appending a new product keeps the cart well-formed and adds 1 and its price |
| Cart.UpdateQuantityEffect | src/features/orders/NewOrder.tsx:54-62 | the change keeps the cart well-formed, sets that product's quantity to the clamp, keeps the others, moves the count by the actual change, and replaces the line's amount in the total by the amount at the clamped quantity |
| Cart.UpdateQuantityShape | src/features/orders/NewOrder.tsx:54-62 | in a well-formed cart every line but the product's own is unchanged |
| Cart.UpdateQuantityKeepsWellFormed | src/features/orders/NewOrder.tsx:54-62 | the change keeps one line per product and every quantity at least 1 |
| Cart.QuantityOfUniqueLine | src/features/orders/NewOrder.tsx:296 | a product's quantity in a well-formed cart is its line's quantity |
| Cart.NotInCartCountsZero | src/features/orders/NewOrder.tsx:64 | a product not in the cart counts 0 and adds 0 |
| Cart.RemoveFromCartKeepsWellFormed | src/features/orders/NewOrder.tsx:50-52 | removing keeps the cart well-formed |
| Cart.RemoveFromCartSums | src/features/orders/NewOrder.tsx:50-52 | removing lowers the count by the product's quantity and the total by its amount, and keeps the other products' quantities |
| Cart.RemoveFromCartEffect | src/features/orders/NewOrder.tsx:50-52 | after removal the product is gone, the cart is well-formed, and the sums drop by exactly its share |
| NewOrder.FilterProducts | src/features/orders/NewOrder.tsx:32-34 | no products gives none; otherwise exactly the products whose name contains the search, ignoring case |
| NewOrder.MatchingNames | src/features/orders/NewOrder.tsx:32-34 | the kept products are exactly those whose lower-cased name contains the lower-cased search |
| NewOrder.EmptySearchShowsAll | src/features/orders/NewOrder.tsx:32-34 | an empty search keeps every product |
| NewOrder.BranchOf | src/features/orders/NewOrder.tsx:87 | the branch is the role's, or "Sin Sucursal" when it is missing or empty |
| NewOrder.Blank | src/features/orders/NewOrder.tsx:81-82 | an empty date or time is sent as undefined, anything else as given |
| NewOrder.Submit | src/features/orders/NewOrder.tsx:66-91 | an empty name or cart raises its alert; no profile id does nothing; otherwise the order carries the cart, total = the cart total, the role's branch or "Sin Sucursal", and the form fields: name, phone, delivery date and time (empty as absent), delivery type, address, payment method and notes |
| NewOrder.AfterSubmit | src/features/orders/NewOrder.tsx:93-104 | on success the cart and the text fields are cleared and delivery type and payment method kept; on error nothing changes |
| NewOrder.SubmittedOrderIsConsistent | src/features/orders/NewOrder.tsx:78-91 | the order a submit creates has a header total equal to the computed total of the details it inserts |
| NewRequisition.PayloadItems | src/features/requisitions/NewRequisition.tsx:58-62 | one payload item per cart line, in order, with id, name and quantity copied |
| NewRequisition.Submit | src/features/requisitions/NewRequisition.tsx:50-62 | nothing is sent with an empty cart or no profile or role; otherwise branch or "Sin Sucursal", the profile's name and id, the role name as puesto, and the items |
| NewRequisition.CartAfter | src/features/requisitions/NewRequisition.tsx:64-72 | the cart is emptied on success and kept on error |
| NewRequisition.SubmittedCartIsStored | src/features/requisitions/NewRequisition.tsx:50-62 | the stored details match the cart line for line, name no product twice, and have quantities of at least 1 |
| CreateOrder.HeaderRow | src/hooks/useCreateOrder.ts:33-47 | the header has status "pending", payment_status as given or "pending" when empty, and the total, folio, creation time, customer, phone, delivery date, time, type and address, payment method, branch, creator and notes as supplied; no paid amount |
| CreateOrder.DetailRows | src/hooks/useCreateOrder.ts:54-59 | one detail per cart line, in order, with the header's id, the line's quantity and the product's current price |
| CreateOrder.CreateOrder | src/hooks/useCreateOrder.ts:29-68 | a header failure inserts nothing; a detail failure fails after the header is stored; success stores the header and all detail rows and returns the header |
| CreateOrder.DetailRowsTotal | src/hooks/useCreateOrder.ts:54-59 | the details' computed total equals the cart's total |
| CreateOrder.CreatedOrderTotalMatches | src/hooks/useCreateOrder.ts:43 | when the caller passes the cart total, the new order's stored total equals its computed total |
| CreateOrder.LineSubtotal | src/hooks/useCreateOrder.ts:57-58 | a detail row's subtotal equals its cart line's amount |
| CreateRequisition.HeaderRow | src/hooks/useCreateRequisition.ts:27-33 | the header has status "pending", created_by = userId, and the branch, name and puesto given |
| CreateRequisition.DetailRows | src/hooks/useCreateRequisition.ts:42-51 | one detail per item, in order, with the new header's id, product and quantity |
| CreateRequisition.CreateRequisition | src/hooks/useCreateRequisition.ts:23-60 | a header failure inserts nothing; a detail failure fails after the header is stored; success stores both and returns the header |
| CreateRequisition.DetailsOf | src/hooks/useCreateRequisition.ts:42-51 | a requisition's details are exactly the rows with its id |
| CreateRequisition.Requested | src/hooks/useCreateRequisition.ts:42-51 | the (product, quantity) pairs of the items, in order |
| CreateRequisition.Stored | src/hooks/useCreateRequisition.ts:42-51 | the (product, quantity) pairs of stored rows, in order |
| CreateRequisition.AllOwnRows | src/hooks/useCreateRequisition.ts:42-51 | rows all of one requisition are all its details |
| CreateRequisition.NoOwnRows | src/hooks/useCreateRequisition.ts:42-51 | rows of other requisitions contribute no details |
| CreateRequisition.DetailsOfAppend | src/hooks/useCreateRequisition.ts:53-55 | a requisition's details over appended rows are the concatenation |
| CreateRequisition.CreatedRequisitionReadsBack | src/hooks/useCreateRequisition.ts:42-55 | reading back the new requisition's details gives exactly the requested products and quantities, in order |
| CreateRequisition.NamesAreDropped | src/hooks/useCreateRequisition.ts:42-51 | items that differ only in productName produce the same rows |
| UpdateOrder.PatchOf | src/hooks/useUpdateOrder.ts:18-22 | status and payment_status enter iff truthy; paid_amount and notes enter whenever defined, including 0 and "" |
| UpdateOrder.BuildPatch | src/hooks/useUpdateOrder.ts:18-22 | the four conditional assignments build that patch |
| UpdateOrder.ApplyPatch | src/hooks/useUpdateOrder.ts:24-27 | the patched fields take the patch's values, the others are kept, and an empty patch changes nothing |
| UpdateOrder.PatchRows | src/hooks/useUpdateOrder.ts:24-27 | only the order with that id is patched |
| UpdateOrder.UpdateOrder | src/hooks/useUpdateOrder.ts:17-32 | a failed request or a non-single match changes nothing and is an error; otherwise the order is patched and returned |
| UpdateOrder.PatchIsIdempotent | src/hooks/useUpdateOrder.ts:24-27 | applying the same patch twice equals applying it once |
| UpdateOrder.StatusButtonSetsOnlyStatus | src/hooks/useUpdateOrder.ts:19 | a status button changes the status and nothing else |
| UpdateOrder.PaymentButtonSetsOnlyPaymentStatus | src/hooks/useUpdateOrder.ts:20 | a payment-status button changes payment_status and nothing else |
| UpdateOrder.PatchTouchesOnlyThatOrder | src/hooks/useUpdateOrder.ts:18-27 | other orders stay, ids are never patched, and total and created_by are untouched |
| CreateProduct.ImageUrl | src/hooks/useCreateProduct.ts:27-61 | the uploaded URL when a file is given, else the supplied URL when non-empty, else the placeholder |
| CreateProduct.Uploaded | src/hooks/useCreateProduct.ts:50-60 | an upload result yields its URL, and no file yields none |
| CreateProduct.NewRow | src/hooks/useCreateProduct.ts:65-78 | nombre, precio, empaque and campaign_id copied; descripcion defaults to nombre; the four category texts to their defaults; descripcion_venta to descripcion; is_active true unless false is given |
| CreateProduct.CreateProduct | src/hooks/useCreateProduct.ts:26-84 | an upload or insert failure adds nothing; otherwise exactly the new row is appended and returned |
| CreateProduct.CreatedProductIsListed | src/hooks/useCreateProduct.ts:77 | a product created without is_active false joins the active list at its end |
| CreateProduct.NewProductStartsAtZero | src/hooks/useCreateProduct.ts:65-78 | a new product shows in the stock screen with quantity 0 and a virtual id |
| UpdateProduct.PatchOf | src/hooks/useUpdateProduct.ts:28-91 | each field enters iff defined; imagen_url is the uploaded URL, else the given one; campaign_id null enters as a clear |
| UpdateProduct.BuildPatch | src/hooks/useUpdateProduct.ts:79-91 | the field-by-field assignments build that patch |
| UpdateProduct.IfDefined | src/hooks/useUpdateProduct.ts:80-91 | one `!== undefined` assignment copies a defined value and skips an undefined one |
| UpdateProduct.CampaignEntry | src/hooks/useUpdateProduct.ts:90 | an undefined campaign is skipped, null writes null, a value writes that value |
| UpdateProduct.Pick | src/hooks/useUpdateProduct.ts:93-96 | a patched field takes the patch's value, an unpatched one keeps the stored value |
| UpdateProduct.ApplyPatch | src/hooks/useUpdateProduct.ts:93-96 | the id is kept, an empty patch changes nothing, and each field takes the patch's value when present |
| UpdateProduct.ProductsWithId | src/hooks/useUpdateProduct.ts:96 | the rows matched are exactly the products with that id |
| UpdateProduct.PatchRows | src/hooks/useUpdateProduct.ts:93-96 | only the product with that id is patched |
| UpdateProduct.UpdateProduct | src/hooks/useUpdateProduct.ts:27-102 | an upload failure, a failed request or a non-single match changes nothing; otherwise that product is patched and returned |
| UpdateProduct.CampaignNullClearsUndefinedKeeps | src/hooks/useUpdateProduct.ts:90 | null clears the campaign; undefined keeps it |
| UpdateProduct.Resend | src/hooks/useUpdateProduct.ts:79-91 | resending a product's values targets its id and sends a missing campaign as null |
| UpdateProduct.ResendingValuesIsIdentity | src/hooks/useUpdateProduct.ts:79-96 | resending a product's own values leaves it unchanged |
| UpdateProduct.OtherProductsKept | src/hooks/useUpdateProduct.ts:93-96 | other products stay, and no product with the id appears or disappears |
| OrderDetail.ByIdAscending | src/features/orders/OrderDetail.tsx:50 | items are read in ascending id order |
| OrderDetail.ByIdAscendingIsTotalPreorder | src/features/orders/OrderDetail.tsx:50 | ascending id is a total preorder, so the sort is defined |
| OrderDetail.CreatorOf | src/features/orders/OrderDetail.tsx:30-37 | no creator or a failed profile read gives "Desconocido"; when the header names a creator whose profile is read, the result is that profile's full name, null included; any other name is the creator's full name |
| OrderDetail.LoadOrderDetail | src/features/orders/OrderDetail.tsx:15-55 | no id gives null; a failed read or a non-single order is an error; otherwise the order with its items by id and its creator |
| OrderDetail.CreatorDisplay | src/features/orders/OrderDetail.tsx:283 | the creator line is never empty |
| OrderDetail.CreatorDisplayAgreesWithPaymentList | src/features/orders/OrderDetail.tsx:283 | the order's creator line shows the same name the payment list gives that user |
| OrderDetail.CalculatedTotal | src/features/orders/OrderDetail.tsx:216 | absent or no items give 0 |
| OrderDetail.ShownTotalIsComputedTotal | src/features/orders/OrderDetail.tsx:216 | the shown total equals the order's computed total over the table |
| OrderDetail.QuantityRequest | src/features/orders/OrderDetail.tsx:210-213 | a request below 1 is ignored; any other is passed on |
| OrderDetail.ButtonsNeverGoBelowOne | src/features/orders/OrderDetail.tsx:210-213 | a ±1 button sets a quantity of at least 1, and at quantity 1 only + acts |
| OrderDetail.HandleAdd | src/features/orders/OrderDetail.tsx:64-69 | a payment is sent iff the parsed amount is a number above 0, and then with that amount |
| OrderDetail.InputAfterAdd | src/features/orders/OrderDetail.tsx:64-69 | the input is cleared iff a payment was sent |
| OrderDetail.Remaining | src/features/orders/OrderDetail.tsx:113 | remaining + paid (null as 0) = total, negative exactly when paid exceeds the total |
| OrderDetail.PaymentScenario | src/features/orders/OrderDetail.tsx:113 | lines 2 × 10 and 1 × 5 total 25; after paying 10 the screen shows 15 remaining, after a further 15 it shows 0 |
| OrderDetail.PaymentLowersRemaining | src/features/orders/OrderDetail.tsx:361 | an accepted payment lowers remaining by exactly its amount |
| OrderDetail.SelectProduct | src/features/orders/OrderDetail.tsx:125-131 | selecting a product adds quantity 1 at its current price |
| OrderDetail.SelectingRaisesTotalByPrice | src/features/orders/OrderDetail.tsx:125-131 | selecting raises the order's computed total by the product's price, stored as a price snapshot |
| OrderList.FormatLocalDate | src/features/orders/OrderList.tsx:25-30 | the date is year-month prefix plus the zero-padded day |
| OrderList.FormatReadsBack | src/features/orders/OrderList.tsx:25-30 | the text is YYYY-MM-DD whose parts read back as the year, the 1-based month and the day |
| OrderList.DaysInMonth | src/features/orders/OrderList.tsx:32-33 | 28 to 31 days, 29 exactly in a leap February, 28 in any other February |
| OrderList.DefaultRange | src/features/orders/OrderList.tsx:32-33 | the range runs from day 1 to the month's last day |
| OrderList.DefaultRangeCoversMonth | src/features/orders/OrderList.tsx:32-33 | every day of the month falls inside the default range in text order |
| OrderList.TotalPages | src/features/orders/OrderList.tsx:53 | the least page count whose pages of 10 hold every order |
| OrderList.ShownRange | src/features/orders/OrderList.tsx:237-240 | shown only when there are orders: from (page − 1)·10 + 1 to min(page·10, count) |
| OrderList.ShownRangeInBounds | src/features/orders/OrderList.tsx:237-240 | on a valid page the range lies within 1..count and spans at most 10 |
| OrderList.InitialState | src/features/orders/OrderList.tsx:18-36 | the list starts on page 1 with an empty search, status and payment filters at "all", and the date range set to the current month's first and last day |
| OrderList.Step | src/features/orders/OrderList.tsx:106-259 | a filter change stores the new value, resets to page 1 and leaves the rest of the state as it was; previous and next clamp to 1 and to the page count, and do nothing while disabled |
| OrderList.StepKeepsPageValid | src/features/orders/OrderList.tsx:106-259 | every event keeps the page valid, and after a filter change it is valid for any count |
| OrderList.NextWalkStaysInRange | src/features/orders/OrderList.tsx:246-259 | any number of next clicks stays on a valid page whose range ends within the count |
| OrderList.StatusColor | src/features/orders/OrderList.tsx:60-68 | an absent status is gray |
| OrderList.StatusColorIgnoresCase | src/features/orders/OrderList.tsx:60-68 | the colour ignores case and is the default exactly for unknown statuses |
| OrderList.AsWrittenShowsNoOrders | src/features/orders/OrderList.tsx:50-51 | as written, a non-empty result shows no orders, no range and no pages |
| OrderList.ListView | src/features/orders/OrderList.tsx:50-51 | the corrected view shows the result and counts it |
| OrderList.ListViewShowsAll | src/features/orders/OrderList.tsx:50-53 | the corrected view shows every order, a range, and enough pages |
| OrdersQuery.NewestFirst | src/hooks/useOrders.ts:41-44 | orders newest-first by created_at |
| OrdersQuery.NewestFirstIsTotalPreorder | src/hooks/useOrders.ts:41-44 | newest-first is a total preorder |
| OrdersQuery.OrdersOfBranch | src/hooks/useOrders.ts:46-51 | the branch filter keeps exactly the branch's orders |
| OrdersQuery.LoadOrders | src/hooks/useOrders.ts:34-62 | no user, no role or a failed read gives []; otherwise exactly the role's scope, newest first |
| OrdersQuery.VisibleIffInScope | src/hooks/useOrders.ts:46-51 | an order is listed iff it is in the table and, for an operative or branch admin with a branch, of that branch |
| OrdersQuery.UnscopedRolesSeeAll | src/hooks/useOrders.ts:46-47 | a super admin, or any role without a branch, sees every order |
| OrdersQuery.NewestComesFirst | src/hooks/useOrders.ts:41-44 | the first listed order is at least as new as any order in scope |
| RequisitionsQuery.NewestFirst | src/hooks/useRequisitions.ts:26-29 | requisitions newest-first by created_at |
| RequisitionsQuery.NewestFirstIsTotalPreorder | src/hooks/useRequisitions.ts:26-29 | newest-first is a total preorder |
| RequisitionsQuery.RequisitionsOfBranch | src/hooks/useRequisitions.ts:32-43 | the branch filter keeps exactly the branch's requisitions |
| RequisitionsQuery.SameVisibilityAsOrders | src/hooks/useRequisitions.ts:32-44 | the two role branches filter exactly when the order list does |
| RequisitionsQuery.LoadRequisitions | src/hooks/useRequisitions.ts:23-52 | no user, no role or a failed read gives []; otherwise exactly the role's scope, newest first |
| RequisitionsQuery.VisibleIffInScope | src/hooks/useRequisitions.ts:32-44 | a requisition is listed iff it is in the table and, for an operative or branch admin with a branch, of that branch |
| RequisitionsQuery.SuperAdminSeesAll | src/hooks/useRequisitions.ts:44 | a super admin sees every requisition |
| ProductsQuery.ByNombre | src/hooks/useProducts.ts:25 | products by name |
| ProductsQuery.Matching | src/hooks/useProducts.ts:24-30 | exactly the active products whose name contains a non-empty search, ignoring case |
| ProductsQuery.LoadProducts | src/hooks/useProducts.ts:20-38 | a failed read gives []; otherwise at most 1000 matching products by name, all of them when they fit, a full page when not |
| ProductsQuery.LimitDropsOnlyTheTail | src/hooks/useProducts.ts:25-26 | a matching product is left out only from a full list, and every listed name sorts no later than its name |
| ProductsQuery.EmptySearchIsActiveList | src/hooks/useProducts.ts:28-30 | an empty search lists the same products as the stock screen's active list |
| ProductsQuery.NarrowingSearch | src/hooks/useProducts.ts:28-30 | a product matching a longer search also matches any non-empty prefix of it |
| ProductCategories.CategoryByName | src/hooks/useProductCategories.ts:22-25 | categories by name |
| ProductCategories.SubcategoryByName | src/hooks/useProductCategories.ts:30-33 | subcategories by name |
| ProductCategories.SubcategoriesOf | src/hooks/useProductCategories.ts:40 | a category's subcategories are exactly those whose category_id is its id |
| ProductCategories.LoadCategories | src/hooks/useProductCategories.ts:20-43 | a failed read of either table is an error; otherwise one entry per category by name, each with exactly its own subcategories by name |
| ProductCategories.OrphanAppearsNowhere | src/hooks/useProductCategories.ts:40 | a subcategory pointing at no category is nested nowhere |
| ProductCategories.SubcategoryNestedUnderItsCategory | src/hooks/useProductCategories.ts:38-41 | a subcategory of a listed category is nested under that category's entry |
| StockManager.FlagsAreExclusive | src/features/stock/StockManager.tsx:329-330 | out-of-stock and low-stock never both hold, and one of them holds iff the quantity is 0 to 3 |
| StockManager.VirtualEntryIsOutOfStock | src/features/stock/StockManager.tsx:329 | a product without a stock row shows as out of stock |
| StockManager.SavedRowHidesButton | src/features/stock/StockManager.tsx:317 | after saving, the stored quantity equals the edit, so the save button hides |
| StockManager.Number | src/features/stock/StockManager.tsx:111 | a non-empty digit string reads as its value; anything else is not a number |
| StockManager.CampaignOptionReadsBack | src/features/stock/StockManager.tsx:111 | a campaign id shown in the select reads back as itself |
| StockManager.PayloadOf | src/features/stock/StockManager.tsx:100-114 | the payload copies the form with the parsed price; empty category ids become undefined; the campaign is Number of the text, or null when empty |
| StockManager.CampaignField | src/features/stock/StockManager.tsx:111 | a missing campaign is sent as null, a number as itself |
| StockManager.Submit | src/features/stock/StockManager.tsx:91-133 | an unparsable price raises its alert; otherwise create without an edited product, update of the edited product otherwise |
| StockManager.CreatedFromForm | src/features/stock/StockManager.tsx:91-133 | a created product has the form's name, price and activity, defaults an empty description to the name, and takes the campaign from the form |
| StockManager.UpdatedFromForm | src/features/stock/StockManager.tsx:91-133 | an edit writes the form's name, price and category texts, and keeps descripcion_venta and the image |
| StockManager.CategoryIdsAreDropped | src/features/stock/StockManager.tsx:108-109 | the category ids on the form do not change what is sent |
| StockManager.FindCategory | src/features/stock/StockManager.tsx:236 | the category found has the id, and none only when none has it |
| StockManager.FindSubcategory | src/features/stock/StockManager.tsx:264 | the subcategory found has the id, and none only when none has it |
| StockManager.ChangeCategory | src/features/stock/StockManager.tsx:234-246 | the category id is the chosen one and only the four category fields change |
| StockManager.ChangeCategorySelectsFirstSubcategory | src/features/stock/StockManager.tsx:234-246 | the category's name and first subcategory are selected, or empty text when missing |
| StockManager.ChosenSubcategoryBelongs | src/features/stock/StockManager.tsx:234-246 | a selected subcategory belongs to the chosen category |
| StockManager.ChangeSubcategory | src/features/stock/StockManager.tsx:261-270 | only the subcategory fields change; the name comes from the current category's list, or empty text when not found |
| StockManager.ByName | src/features/stock/StockManager.tsx:399 | catalogue rows by name |
| StockManager.RowsOf | src/features/stock/StockManager.tsx:400-404 | one row per entry with its id, name and price |
| StockManager.CatalogueRows | src/features/stock/StockManager.tsx:397-404 | one row per entry, sorted by name, holding exactly the entries' rows |
| StockManager.CatalogueListsEveryProduct | src/features/stock/StockManager.tsx:397-404 | every stock entry appears in the catalogue |
| StockManager.OthersAreDenied | src/features/stock/StockManager.tsx:418 | access needs branch_admin or super_admin; no role or an operative is denied |

## Left out

- JSX rendering, styling, dialogs, routing and the auth wrapper. Also
  RequisitionList and RequisitionDetail, which only display rows.
- The Supabase query builder, networking, error objects and PostgREST
  embedding shapes. Each request is modelled as a success flag plus the
  rows it returns; the correction pass's writes, whose errors the pass never
  reads, as the set of queue positions that fail. `.single()` failing on zero or several matches is
  modelled as an error that writes nothing.
- Image compression, storage upload, public URLs and random file names.
  The upload outcome and its URL are inputs.
- PDF drawing itself: fonts, tables, the logo and `splitTextToSize`. Note
  line counts and each table's `finalY` are inputs.
- Floating point. Money is `real`, so `toFixed` rounding and IEEE sums are
  not modelled.
- Number parsing. `parseFloat` results are an `Option<real>` input.
- `localeCompare` is modelled as plain lexicographic order on characters.
- Case-insensitive matching uses ASCII lower-casing only.
- ILIKE wildcards (`%`, `_`) inside search text.
- Concurrency and timing. Every operation is sequential:
  - the payment read-modify-write race;
  - `Promise.all` in the correction pass;
  - the `setTimeout` delay before it.
- react-query caching and `invalidateQueries`. The correction pass reports
  whether it would invalidate.
- JS `Date`. The current year and month are inputs, and month length uses
  an explicit days-in-month function.
- The order list's server-side filters and range query. The hook takes no
  arguments, so only the client-side page arithmetic is modelled.
- Pure-data or fetch-only files: the category constants, the profile hook,
  the user-role hook and the campaigns hook.
- StockManager.Number: reads only decimal digit strings. Other text
  (signs, spaces, decimals, exponents) is treated as NaN, and NaN is sent
  as null like an empty choice. The campaign select only offers numeric
  ids.
- StockManager.CatalogueRows: sorts the rows after mapping, not the entries
  before it. The result holds the same rows in name order, but entries with
  equal names may come out in a different order. The `item.productos`
  filter is always true here, because an entry always carries its product.
- StockManager.UpdatedFromForm: does not state the edit form's loading of
  an existing product. In particular, `precio || ''` shows a price of 0 as
  empty text.
- OrderList.StatusColor: states only the absent case directly. Case
  handling and the default colour are stated by
  OrderList.StatusColorIgnoresCase.
- OrderDetail.CalculatedTotal: states only the empty case directly. The
  sum is stated by OrderDetail.ShownTotalIsComputedTotal.

## Findings

| source | as written | input that shows it | evidently intended | confidence | as-written member | corrected member |
|---|---|---|---|---|---|---|
| src/features/orders/OrderList.tsx:50-51 | the list reads `queryData?.data` and `queryData?.count`, but the orders hook (src/hooks/useOrders.ts:61) returns a plain array, so both are undefined | any non-empty order list, e.g. one order | show the returned orders and count them | not executed | OrderList.AsWrittenShowsNoOrders | OrderList.ListViewShowsAll |
