# Dairy Distributor ERP: verified model of the service logic

The backend of the Dairy Distributor ERP keeps stock, dispatch trips, purchase receipts, money and crate
balances in database tables that several services write. This project models those services and proves what
holds over every run of them. Services that overwrite rows are classes whose methods are proved against
specification functions; the main results are lemmas about those functions and about whole runs.

| Files | Subject |
|---|---|
| `Wrappers.dfy`, `Sums.dfy`, `Sorting.dfy`, `Greedy.dfy`, `Tally.dfy` | results, sums, stable sorting, filling in order, Map-accumulating loops |
| `Stock.dfy`, `Fefo.dfy`, `Database.dfy` | the batch and movement tables, and first-expired-first-out consumption |
| `Inventory.dfy`, `Counting.dfy` | stock adjustments, and counting that restores the shelf |
| `GoodsReceipts.dfy`, `GoodsReceiptsHistory.dfy`, `Returns.dfy` | goods receipts, purchase-order status, sales and supplier returns |
| `Orders.dfy`, `Dispatch.dfy`, `Delivery.dfy`, `Rounding.dfy` | trips from planning to completion, and stop updates |
| `OperationsHistory.dfy`, `DeliveryHistory.dfy` | runs of all stock writers and trips together, and single delivered quantities |
| `TripHistory.dfy`, `BatchHistory.dfy` | how trips, their stops and batches end |
| `DocumentLogs.dfy`, `DocumentsHistory.dfy`, `Places.dfy` | when documents move stock, and the ledger per variant and warehouse |
| `Thresholds.dfy`, `ThresholdCache.dfy`, `SettingsService.dfy`, `CacheHistory.dfy` | retailer-note limits and their cache, interleaved |
| `Accounting.dfy`, `AccountingHistory.dfy` | postings, reversals, and reports that agree |
| `Demand.dfy` | demand consolidation |
| `PaymentAllocation.dfy`, `CreditControl.dfy`, `Wallet.dfy`, `Crates.dfy` | payments, credit, wallets and crates |

## Conventions

- Quantities are integers in thousandths and money is integers in paise, so `roundQty` and `roundMoney` are
  identities there and a 0.001 tolerance is exactly one thousandth. Where rounding is the point (line tax,
  percentages, accepted limits) it is written out, to nearest, over exact rationals.
- A row's id is its position in its table: ids are fresh, and ascending in creation order. Ties the queries
  leave open are resolved by it; `findFirst` without an order takes the first match. Ascending expiry puts
  batches without expiry last, as PostgreSQL does.
- A service call is one step. A Prisma transaction commits or leaves every table as it was; `start` may commit
  loading and challan before it fails. The threshold cache alone is interleaved, at its `await`.
- Stored statuses and master data are as the code writes them. Accounts, products, variants, the warehouse,
  route sequences and credit answers are parameters.
- Quantities the request validators keep non-negative are `nat`; those a driver reports may be negative.
- `item.loadedQty || item.orderedQty` depends on how a stored zero is represented; both readings are modelled
  (`zeroIsAbsent`) and every result holds for both.

## What the code does not promise

The model keeps these as the code has them, and each is both delimited exactly and shown by a concrete input:

- Supplier returns (`backend/src/operations/returns/returns.service.ts:248-322`) are a fifth writer of the
  batch tables. Their tolerance and floor let the log run ahead of the shelf; the excess is accounted for.
- `complete` does not ask for loading, so a trip can be completed with nothing issued.
- An invalidation is lost when a reader straddles it; staleness is still bounded by the time to live.
- A reversal restores an account over all stored entries, but not in a trial balance that covers its date.
- The balance sheet shows liabilities and equity without sign, so it adds up only if none stands in debit.
- A snapshot misses crates recorded late; a target counted twice is moved twice. A draft adjustment
  moved to another warehouse without new lines keeps the differences counted in the old one.
- A receipt status is recomputed only for the receipt's own purchase order, and an order without lines counts
  as received. A receipt line without a batch number is looked up under one number (the receipt's id) and
  created under another (its GRN number).
- Nothing compares the warehouse and variant a movement is logged under with those of the batch it moves: an
  adjustment or a return may name a batch of another variant, an adjustment one of another warehouse. Then
  stock and ledger disagree per variant and warehouse, though not per batch.
- A batch marked consumed is marked active again by a receipt or an adjustment, but not by a sales return, which
  leaves it with stock under that mark.
- An approved sales return can be rejected and then approved again, and restocks each time.
- Only the sum of a line's handled quantities is checked, and reported quantities may be negative; so a single
  one can exceed what was ordered.

## Model

| member | source | states |
|---|---|---|
| `OperationsHistory.LedgerOverRuns` | backend/src/operations/inventory/inventory.service.ts:441-568 | Over every run of goods-receipt posts, adjustment posts, sales-return approvals, supplier-return posts, trip planning, loading, starting, completing and stop updates from empty tables: every batch is non-negative, its received quantity is what its movements other than returns brought in, and available minus (in minus out) is exactly what supplier returns took beyond the batch |
| `OperationsHistory.ShelfAgreesWithLog` | backend/src/operations/goods-receipts/goods-receipts.service.ts:367-432 | available = in - out for a batch if and only if no supplier return overdrew it; the other two ledger facts always hold |
| `OperationsHistory.SupplierReturnCanOverdraw` | backend/src/operations/returns/returns.service.ts:278-287 | A concrete run where the 0.001 tolerance leaves the log ahead of the shelf |
| `Places.PlaceLedgerOverRuns` | backend/src/operations/inventory/inventory.service.ts:441-568 | Over every run the stock of a variant in a warehouse is what is logged under them, plus what supplier returns overdrew there, plus what was moved there but logged elsewhere less the reverse; stock and ledger agree if and only if the last two cancel |
| `Places.OwnBatchesAgree` | backend/src/operations/returns/returns.service.ts:270-309 | If documents name only batches of their own warehouse and variant, stock and ledger agree for a variant in a warehouse if and only if no supplier return overdrew a batch there |
| `Places.OnHandByLog` | backend/src/operations/claims/claims.service.ts:161-188 | The same identity in any state of the tables |
| `Places.OtherVariantsBatch` | backend/src/operations/inventory/inventory.service.ts:451-487 | A concrete run: an adjustment names a batch of another variant, and the ledger of its variant exceeds the stock |
| `OperationsHistory.StepBooks` | backend/src/operations/dispatch/dispatch.service.ts:408-528 | One step of any service keeps the books and moves the difference between shelf and log by its own overdraft only |
| `DocumentsHistory.DocumentsMoveOnce` | backend/src/operations/goods-receipts/goods-receipts.service.ts:347-439 | Over every run of receipts, adjustments, supplier returns, sales returns and trips: the log holds under a receipt exactly what it accepted once posted and nothing before, under an adjustment exactly what its lines add and take once posted and nothing before, under a supplier return nothing before it is posted |
| `DocumentsHistory.PostedIsFinal` | backend/src/operations/inventory/inventory.service.ts:374-410 | Between any two moments of a run a posted document keeps its row, and nothing more is moved under it |
| `DocumentsHistory.PostReturnKeeps` | backend/src/operations/returns/returns.service.ts:248-322 | Posting a supplier return moves out exactly its quantities on batches in the table |
| `DocumentsHistory.SalesReturnsOverRuns` | backend/src/operations/claims/claims.service.ts:144-246 | Over any run the log holds under a sales return exactly what its accepted approvals put back, and it is approved once plus once for every approval undone by a rejection |
| `DocumentsHistory.RestockedTwice` | backend/src/operations/claims/claims.service.ts:231-246 | A concrete sales return, approved and rejected, is approved again and puts its goods back again |
| `Returns.WithdrawItemsExcess` | backend/src/operations/returns/returns.service.ts:270-309 | A whole supplier return moves that difference by the sum of its per-item overdrafts, batch by batch, and touches no trip |
| `Returns.ExcessBounded` | backend/src/operations/returns/returns.service.ts:278-287 | A supplier return overdraws a batch by at most a thousandth per line |
| `BatchHistory.ConsumedIsEmptyExactly` | backend/src/operations/claims/claims.service.ts:161-188 | Over every run of all stock writers no batch marked consumed ever holds stock, if and only if no sales return puts goods back on a consumed batch |
| `BatchHistory.RefilledStaysConsumed` | backend/src/operations/claims/claims.service.ts:165-186 | A concrete run: goods received, taken by an adjustment and put back by a sales return lie on a batch marked consumed |
| `Stock.WithdrawLeavesExcess` | backend/src/operations/returns/returns.service.ts:278-287 | The floored write leaves exactly the part the batch did not hold |
| `Stock.ReceiveKeepsBooks` | backend/src/operations/goods-receipts/goods-receipts.service.ts:379-389 | Receiving into a batch keeps the books |
| `Stock.OpenKeepsBooks` | backend/src/operations/goods-receipts/goods-receipts.service.ts:390-407 | Creating a batch with what was received keeps the books |
| `Stock.RestockKeepsBooks` | backend/src/operations/claims/claims.service.ts:165-186 | A restock keeps the books although the received quantity does not move |
| `Stock.IssueKeepsBooks` | backend/src/operations/dispatch/dispatch.service.ts:441-466 | Issuing within a batch keeps the books |
| `Stock.DrainKeepsBooks` | backend/src/operations/dispatch/dispatch.service.ts:437-467 | The whole consuming loop keeps the books, and issues to no trip unless it is a dispatch |
| `Inventory.ApplyItemsKeepsBooks` | backend/src/operations/inventory/inventory.service.ts:390-402 | A posted adjustment keeps the books however its items target batches |
| `GoodsReceipts.PostItemsKeepsBooks` | backend/src/operations/goods-receipts/goods-receipts.service.ts:367-426 | A posted receipt keeps the books |
| `Returns.RestockItemsKeepsBooks` | backend/src/operations/claims/claims.service.ts:161-188 | An approved sales return keeps the books |
| `Fefo.FefoConsumption` | backend/src/operations/dispatch/dispatch.service.ts:412-467 | Consumption succeeds if and only if the stock on hand suffices; then it lowers it by exactly the quantity, takes only from batches there, and takes from one only if every other that expires before it, or with it and is older, ends empty; a batch without expiry waits for all that have one, and an emptied batch is marked consumed |
| `Fefo.FefoSplit` | backend/src/operations/dispatch/dispatch.service.ts:433-467 | Consuming p and then q succeeds together with consuming p + q and leaves the same batches, statuses included |
| `Fefo.DrainOnHand` | backend/src/operations/dispatch/dispatch.service.ts:437-448 | Consuming lowers the stock of the consumed variant and warehouse by what was taken and of no other |
| `Fefo.FefoShelfIsOnHand` | backend/src/operations/inventory/inventory.service.ts:522-529 | The batches the query lists hold together what the batch table holds of the variant |
| `Fefo.DrainInOrder` | backend/src/operations/dispatch/dispatch.service.ts:437-448 | A touched batch means every earlier batch on the list is empty |
| `Stock.FefoOrderIsSorted` | backend/src/operations/dispatch/dispatch.service.ts:412-420 | The query lists each batch of the warehouse and variant once: none before one of an earlier expiry, none without expiry before one with, and of equal expiries the older first |
| `Stock.DrainIsFill` | backend/src/operations/inventory/inventory.service.ts:535-547 | The loop takes from each listed batch its greedy share and touches no other row |
| `Stock.DrainLogs` | backend/src/operations/dispatch/dispatch.service.ts:450-466 | The log gains exactly the quantity consumed, all under the given cause |
| `Stock.DrainLive` | backend/src/operations/dispatch/dispatch.service.ts:412-420 | Looping over the non-empty batches only is looping over all of them |
| `Greedy.FillIsGreedy` | backend/src/operations/dispatch/dispatch.service.ts:433-448 | The greedy share respects each capacity, fills in order and totals the lesser of amount and capacity |
| `Greedy.FillUnique` | backend/src/operations/payments/payment-allocation.service.ts:62-75 | No other allocation within the capacities fills in order and spends as much |
| `Greedy.FillTwice` | backend/src/operations/payments/payment-allocation.service.ts:62-75 | Filling p, then q from what is left, is filling p + q, position by position |
| `Sorting.SortByStable` | backend/src/operations/dispatch/dispatch.service.ts:702-706 | Sorting keeps the order of rows that the comparison does not separate, whatever else is sorted with them |
| `Counting.CountingRestoresShelf` | backend/src/operations/inventory/inventory.service.ts:570-623 | Counts of distinct matching targets, prepared and posted with no stock step in between: posting succeeds if and only if no counted quantity is negative, and then every target stands at its counted quantity |
| `Counting.PostingPreparedCounts` | backend/src/operations/inventory/inventory.service.ts:298-410 | Counts prepared on one state and warehouse and posted on any other: posting succeeds if and only if no target would go below zero, each target moves by the difference found when it was prepared, and it meets its count if and only if what it moves is what was then counted as in the system |
| `Counting.MovedDraftMisses` | backend/src/operations/inventory/inventory.service.ts:307-335 | A concrete draft moved to another warehouse whose posting misses the count |
| `Counting.UnknownBatchOnlyAdds` | backend/src/operations/inventory/inventory.service.ts:451-487 | A line naming a batch that is not there succeeds if and only if it takes nothing away, and opens a batch in the adjustment warehouse |
| `Counting.CountedTwice` | backend/src/operations/inventory/inventory.service.ts:590-606 | The same target counted twice is moved twice: it ends at 2 x counted - system, and posting succeeds if and only if neither posting goes below zero |
| `Counting.CountedTwiceMisses` | backend/src/operations/inventory/inventory.service.ts:590-606 | A concrete count entered twice that ends beyond the counted quantity |
| `Counting.RepeatedBatches` | backend/src/operations/inventory/inventory.service.ts:389-402 | Lines that name batches, with any repeats: posting succeeds if and only if no line, with the earlier lines on its batch, goes below zero; then every batch ends at its start plus the sum of its differences |
| `Counting.ApplyItemEffect` | backend/src/operations/inventory/inventory.service.ts:390-402 | One item succeeds if and only if its target (the batch it names wherever that lies, or the variant in the warehouse) does not go below zero, moves it by the difference, and moves no target that does not overlap it |
| `Inventory.InventoryService.PrepareAdjustmentItems` | backend/src/operations/inventory/inventory.service.ts:570-623 | Fails only on an unknown variant; each line carries the counted quantity minus what the named batch holds, if that is of the variant and in the warehouse, and else minus what all batches of the variant there hold |
| `Inventory.InventoryService.WarehouseQty` | backend/src/operations/inventory/inventory.service.ts:898-910 | The summing query gives the stock on hand |
| `Inventory.InventoryService.CreateStockAdjustment` | backend/src/operations/inventory/inventory.service.ts:166-209 | Appends one draft with the prepared lines, or nothing |
| `Inventory.InventoryService.UpdateStockAdjustment` | backend/src/operations/inventory/inventory.service.ts:298-350 | Only drafts change; without new lines the old differences are kept even under another warehouse |
| `Inventory.InventoryService.ApproveStockAdjustment` | backend/src/operations/inventory/inventory.service.ts:352-372 | Only a draft becomes approved |
| `Inventory.InventoryService.PostStockAdjustment` | backend/src/operations/inventory/inventory.service.ts:374-410 | Posts an approved adjustment once, every item or none |
| `Inventory.InventoryService.PostItems` | backend/src/operations/inventory/inventory.service.ts:389-402 | The posting loop is the item-by-item transformation, and a failure restores every row |
| `Inventory.InventoryService.ApplyPositiveAdjustment` | backend/src/operations/inventory/inventory.service.ts:441-498 | The named batch, if it is in the table, is active and holds that much more, wherever it lies; else a new batch of the adjustment warehouse numbered ADJ-number-item holds it; one movement says so |
| `Inventory.InventoryService.ApplyNegativeAdjustment` | backend/src/operations/inventory/inventory.service.ts:500-568 | Fails without enough stock and changes nothing; without a named batch it takes from one of the warehouse and variant only if every other there of earlier expiry, or equal and older, ends empty |
| `Inventory.InventoryService.TakeFromBatches` | backend/src/operations/inventory/inventory.service.ts:535-567 | The consuming loop refines the shared consumption function |
| `OperationsHistory.TripsOverRuns` | backend/src/operations/dispatch/dispatch.service.ts:229-535 | Over every run, each trip status says exactly what was loaded and issued: nothing while planned, the plan once loaded or dispatched, one or the other when completed |
| `OperationsHistory.TripConservation` | backend/src/operations/dispatch/dispatch.service.ts:670-758 | Per variant: planned = ordered on the stops; issued = loaded on the stops; issued is zero while planned, the plan once loaded or dispatched, and never anything else |
| `OperationsHistory.TripStatusNeverFalls` | backend/src/operations/dispatch/dispatch.service.ts:229-348 | Between any two moments of a run no trip is lost and no status rank falls |
| `OperationsHistory.CompletionIssue` | backend/src/operations/dispatch/dispatch.service.ts:314-348 | Completing does not ask for loading: the trip was issued its plan if and only if it had been loaded or planned nothing |
| `OperationsHistory.CompletedWithoutIssue` | backend/src/operations/dispatch/dispatch.service.ts:314-348 | A concrete run, one order planned, its stop refused, the trip completed: nothing was issued of a positive plan |
| `OperationsHistory.HandledWithinOrdered` | backend/src/operations/delivery/delivery.service.ts:62-94 | Over every run, delivered + returned + damaged + refused stays within ordered + 0.001 on every line |
| `DeliveryHistory.SingleQuantitiesExactly` | backend/src/operations/delivery/delivery.service.ts:62-117 | Over every run each single quantity stays between zero and ordered + 0.001 at every moment if and only if every accepted update reports no negative quantity for a line of its stop |
| `DeliveryHistory.UpdateItemRange` | backend/src/operations/delivery/delivery.service.ts:71-94 | One accepted update keeps a line in that range if and only if what it uses of the report is not negative |
| `DeliveryHistory.NegativeReturnAccepted` | backend/src/operations/delivery/delivery.service.ts:91-94 | A concrete update that delivers more than was ordered and returns a negative quantity is accepted |
| `Dispatch.LoadItemsIssue` | backend/src/operations/dispatch/dispatch.service.ts:408-475 | Loading issues to the trip, variant by variant, exactly the plan, and nothing to other trips |
| `Dispatch.LoadsExactly` | backend/src/operations/dispatch/dispatch.service.ts:407-448 | A trip with one item per variant loads if and only if each planned quantity is in stock when loading starts: what is loaded for one item is never missing for another |
| `TripHistory.LoadingExactly` | backend/src/operations/dispatch/dispatch.service.ts:395-475 | A sound trip with items can be loaded if and only if it is loaded already, or is planned and every planned quantity is in stock |
| `OperationsHistory.PlannedTripBooks` | backend/src/operations/dispatch/dispatch.service.ts:681-744 | A new trip plans what its stops order, and nothing is loaded |
| `OperationsHistory.StepKeepsTrips` | backend/src/operations/dispatch/dispatch.service.ts:395-535 | Every step of every service keeps all trips sound and no status falls |
| `Dispatch.DispatchService.AggregateTripItems` | backend/src/operations/dispatch/dispatch.service.ts:747-758 | The map-accumulating loops give the grouped plan |
| `Dispatch.DispatchService.CreateTrip` | backend/src/operations/dispatch/dispatch.service.ts:632-744 | Succeeds if and only if no trip that is not cancelled stands for the cycle and route, some approved or packed order is on them, and there is a warehouse; then one planned trip is added, without challan, every stop pending; else the failure says which |
| `Dispatch.DispatchService.PlanStops` | backend/src/operations/dispatch/dispatch.service.ts:703-740 | One pending stop per order, one line per order item |
| `Dispatch.StopsInVisitingOrder` | backend/src/operations/dispatch/dispatch.service.ts:702-706 | Stops come by the route sequence, retailers without one last, and by order date within one place |
| `Dispatch.StopsKeepOrder` | backend/src/operations/dispatch/dispatch.service.ts:702-706 | Orders of one place and date keep the order they were read in |
| `Dispatch.StopLineOfOrder` | backend/src/operations/dispatch/dispatch.service.ts:719-738 | Every stop line is a line of its stop order: its variant, price, tax and total, the approved quantity if there is one, and nothing handled |
| `Dispatch.DispatchService.GenerateLoadingSheet` | backend/src/operations/dispatch/dispatch.service.ts:395-535 | Loads once: a loaded trip that is fully loaded is left alone, a failed load changes nothing |
| `Dispatch.DispatchService.LoadAll` | backend/src/operations/dispatch/dispatch.service.ts:407-475 | The loading loop is item-by-item consumption, and a failure restores every row |
| `Dispatch.DispatchService.ConsumeBatches` | backend/src/operations/dispatch/dispatch.service.ts:433-467 | The consuming loop refines the shared consumption function |
| `Dispatch.DispatchService.Start` | backend/src/operations/dispatch/dispatch.service.ts:229-312 | A start that goes through had credit and leaves a planned, loaded or under-way trip dispatched with its challan; a refused one leaves it as it stood or loaded, never dispatched anew; loading and challan already committed stay; no other trip changes |
| `Dispatch.DispatchService.IssuePlanned` | backend/src/operations/dispatch/dispatch.service.ts:407-448 | One item is issued whole or not at all, and from a batch only if every other of the warehouse and variant of earlier expiry, or equal and older, ends empty |
| `Dispatch.DispatchService.Complete` | backend/src/operations/dispatch/dispatch.service.ts:314-348 | Succeeds if and only if the trip is there, is not cancelled and has no stop pending; then it stands completed and nothing else changes |
| `TripHistory.StopsOverRuns` | backend/src/operations/dispatch/dispatch.service.ts:314-348 | Over every run a completed trip has no stop pending, no line of a refused stop counts as delivered, returned or damaged, and none of a failed stop as delivered, damaged or refused |
| `TripHistory.CompletedIsFinal` | backend/src/operations/dispatch/dispatch.service.ts:314-348 | Between any two moments of a run a completed trip keeps its status, items, stops and lines; at most its challan is still issued |
| `Delivery.DeliveryService.UpdateStopStatus` | backend/src/operations/delivery/delivery.service.ts:39-133 | Accepted if and only if the trip is not closed, the stop has lines and each of its lines accepts the report; then the stop alone takes the status, each of its lines records the report and adds up, and all else stays |
| `Delivery.DeliveryService.UpdateLine` | backend/src/operations/delivery/delivery.service.ts:63-117 | Without a report a delivered line records all that was loaded as delivered, a refused one as refused, a failed one as returned, and nothing else; a reported line records the report, the rest of a partial one as returned unless reported; it is accepted if and only if a partial one is reported and the quantities stay within loaded + 0.001; refused, failed, wholly delivered, and partial lines that report only what was delivered account for exactly the loaded quantity; the line total is the price of what was delivered plus tax, to a paisa |
| `Delivery.UpdatesExactly` | backend/src/operations/delivery/delivery.service.ts:39-133 | The same of the whole update as a transformation of trips, all lines or none |
| `Delivery.UpdatedTotal` | backend/src/operations/delivery/delivery.service.ts:96-117 | After any accepted update line total, delivered quantity and tax agree to within a paisa, although three values are rounded |
| `Rounding.Round2Nearest` | backend/src/operations/delivery/delivery.service.ts:529-534 | Money is rounded to whole hundredths, never down by half of one, alike for both signs |
| `Delivery.UpdateItemsKeeps` | backend/src/operations/delivery/delivery.service.ts:62-117 | An update leaves the lines of other stops as they are, keeps what was ordered and loaded, and stays within loaded + 0.001 |
| `Delivery.TaxReestimation` | backend/src/operations/delivery/delivery.service.ts:96-99 | On a full delivery the re-estimated tax is within 0.005 + 0.005 T/B + 0.00005 round(B) of the original tax T |
| `Delivery.TaxBound` | backend/src/operations/delivery/delivery.service.ts:529-534 | The same bound for every rounding to within half a paisa |
| `GoodsReceipts.ReceiptStatusNeverFalls` | backend/src/operations/goods-receipts/goods-receipts.service.ts:621-656 | Over every run of create, update, approve and post, no purchase order receipt status falls and none exceeds what the posted receipts justify; when it equals that is GoodsReceiptsHistory.AlwaysCurrentExactly |
| `GoodsReceiptsHistory.PostKeepsCurrentExactly` | backend/src/operations/goods-receipts/goods-receipts.service.ts:434-436 | After a post an order stored status is the one posted receipts justify if and only if it is the receipt own order, or it was so before and: it was received; or partial and the receipt leaves some line short; or approved and the receipt accepts nothing on its lines |
| `GoodsReceiptsHistory.AlwaysCurrentExactly` | backend/src/operations/goods-receipts/goods-receipts.service.ts:621-656 | Over a whole run every stored status is right at every moment if and only if every posted receipt, just before its post, meets that condition for every order |
| `GoodsReceiptsHistory.TidyRunsAreCurrent` | backend/src/operations/goods-receipts/goods-receipts.service.ts:521-582 | Requests that name order lines only under their order and move no draft without recounting it keep every status right throughout |
| `GoodsReceiptsHistory.UnsyncedOrder` | backend/src/operations/goods-receipts/goods-receipts.service.ts:567 | A concrete run: a receipt without an order names an order line, and the covered order still stands approved |
| `GoodsReceiptsHistory.ReceivedForNothing` | backend/src/operations/goods-receipts/goods-receipts.service.ts:644-646 | With nothing accepted on it, an order counts as received if and only if it orders nothing |
| `GoodsReceiptsHistory.LinelessOrderReceived` | backend/src/operations/goods-receipts/goods-receipts.service.ts:250-255 | A concrete run: a draft moved to an order without lines marks it received |
| `GoodsReceipts.UnnamedLineOpens` | backend/src/operations/goods-receipts/goods-receipts.service.ts:658-672 | A line without a batch number opens a batch if and only if none of its warehouse and variant is numbered by the receipt id |
| `GoodsReceipts.UnnamedLinesShare` | backend/src/operations/goods-receipts/goods-receipts.service.ts:390-397 | Two such lines of one variant end in one batch if and only if such a batch existed before or the receipt number equals its id |
| `GoodsReceipts.UnnamedLinesCanSplit` | backend/src/operations/goods-receipts/goods-receipts.service.ts:390-397 | A concrete receipt whose two unnamed lines end in two batches |
| `GoodsReceipts.GroupIsAccepted` | backend/src/operations/goods-receipts/goods-receipts.service.ts:626-644 | The accumulated map gives each order line the accepted total of posted receipts |
| `GoodsReceipts.SomeGroupPositive` | backend/src/operations/goods-receipts/goods-receipts.service.ts:646-649 | Some accumulated quantity is positive if and only if some line of the order has received any |
| `GoodsReceipts.StepAccepted` | backend/src/operations/goods-receipts/goods-receipts.service.ts:237-439 | No step lowers what posted receipts accepted on a line: posted receipts are frozen |
| `GoodsReceipts.PrepareItem` | backend/src/operations/goods-receipts/goods-receipts.service.ts:521-582 | Every prepared line has accepted + rejected = received, received + short = ordered + excess, and not both short and excess |
| `GoodsReceipts.PreparesExactly` | backend/src/operations/goods-receipts/goods-receipts.service.ts:492-583 | A line is accepted if and only if its product is known, an order that is given has a line for it (the one named, or else one of its variant), its quantities are positive and add up, and tracked batch number and expiry are there; it takes id and ordered quantity from the last such order line, and the rest as reported |
| `GoodsReceipts.PreparesAll` | backend/src/operations/goods-receipts/goods-receipts.service.ts:492-583 | Lines are prepared in order, all or none |
| `GoodsReceipts.MatchingBatch` | backend/src/operations/goods-receipts/goods-receipts.service.ts:658-672 | Finds a batch of the warehouse, variant and number, and None only if there is none |
| `GoodsReceipts.GoodsReceiptsService.PrepareGrnItems` | backend/src/operations/goods-receipts/goods-receipts.service.ts:492-583 | The mapping over lines is all or nothing |
| `GoodsReceipts.GoodsReceiptsService.CreateGrn` | backend/src/operations/goods-receipts/goods-receipts.service.ts:38-100 | Succeeds if and only if lines are given, the order named exists and every line is accepted; then one draft holds exactly the prepared lines |
| `GoodsReceipts.GoodsReceiptsService.UpdateGrn` | backend/src/operations/goods-receipts/goods-receipts.service.ts:237-317 | Succeeds if and only if the receipt is a draft, the order named exists and every new line is accepted; without new lines the old ones stay |
| `GoodsReceipts.GoodsReceiptsService.ApproveGrn` | backend/src/operations/goods-receipts/goods-receipts.service.ts:319-345 | Succeeds if and only if the receipt is a draft or approved, and changes its status only |
| `GoodsReceipts.GoodsReceiptsService.PostGrn` | backend/src/operations/goods-receipts/goods-receipts.service.ts:347-439 | Succeeds if and only if the receipt is approved and has lines; then its lines are in stock, it stands posted, and of the orders only its own may change, in status only |
| `GoodsReceipts.GoodsReceiptsService.PostToStock` | backend/src/operations/goods-receipts/goods-receipts.service.ts:367-426 | The posting loop is the line-by-line transformation |
| `GoodsReceipts.GoodsReceiptsService.PostLine` | backend/src/operations/goods-receipts/goods-receipts.service.ts:367-426 | A line that accepts nothing changes nothing; else one batch of the receipt warehouse and the line variant is active and holds that much more, under the line number and expiry if it has them, and one movement says so; it is a batch that was there if and only if one had the number looked for |
| `DocumentsHistory.PostedWasApproved` | backend/src/operations/goods-receipts/goods-receipts.service.ts:319-439 | Over every run a posted receipt stood approved before with the very row and lines it was posted with |
| `DocumentsHistory.StepEvolves` | backend/src/operations/goods-receipts/goods-receipts.service.ts:237-345 | No step of any service takes a receipt or an adjustment past its approval or changes what was approved; new ones are drafts |
| `GoodsReceipts.GoodsReceiptsService.SyncPurchaseOrderReceiptStatus` | backend/src/operations/goods-receipts/goods-receipts.service.ts:621-656 | received if and only if every line is covered, else partial if and only if some line has any, else approved |
| `Returns.ReturnsService.ApproveSalesReturn` | backend/src/operations/claims/claims.service.ts:144-229 | Restocks every restockable item once per approval and yields the sum of the credits |
| `Returns.ReturnsService.RestockAll` | backend/src/operations/claims/claims.service.ts:161-188 | The accumulating loop restocks item by item and sums the credits |
| `Returns.ReturnsService.PostSupplierReturn` | backend/src/operations/returns/returns.service.ts:248-322 | Posts once, every item or none, approved or not |
| `Returns.ReturnsService.WithdrawAll` | backend/src/operations/returns/returns.service.ts:270-309 | The withdrawing loop is item by item, and a shortage restores every row |
| `CacheHistory.BoundedStaleness` | backend/src/core/settings/retailer-note-thresholds.ts:64-118 | Under every interleaving, even without invalidations, a hit returns the limits of a database version that was still current less than the time to live ago |
| `CacheHistory.CoherentExactly` | backend/src/core/settings/retailer-note-thresholds.ts:64-118 | Every hit until the next commit is current if and only if the present hit is and no reader in flight holds outdated settings it could still store |
| `CacheHistory.InvalidationRestores` | backend/src/core/settings/settings.service.ts:94 | After an invalidation every hit until the next commit is current if and only if no reader in flight straddles it with outdated settings it could still store, or the time to live is zero |
| `CacheHistory.InvalidationCanMiss` | backend/src/core/settings/retailer-note-thresholds.ts:72-117 | A concrete interleaving in which an invalidation is lost |
| `CacheHistory.ConfiguredUpdateCanMiss` | backend/src/core/settings/settings.service.ts:44-94 | Under the configured limits every accepted update that changes an effective limit can be missed so, unless the time to live is zero |
| `CacheHistory.CachingIsOffExactly` | backend/src/core/settings/retailer-note-thresholds.ts:170-177 | No run ever answers from the cache if and only if the time to live is set to zero: unset, not a number and negative all fall back to the default |
| `CacheHistory.RunsAreSound` | backend/src/core/settings/retailer-note-thresholds.ts:60-133 | Every cached payload belongs to a version current at or after the moment its age is counted from |
| `ThresholdCache.RetailerNoteThresholdCache.BeginRead` | backend/src/core/settings/retailer-note-thresholds.ts:64-72 | A hit is an unexpired entry; exactly one counter moves |
| `ThresholdCache.RetailerNoteThresholdCache.FinishRead` | backend/src/core/settings/retailer-note-thresholds.ts:85-118 | The entry is stored if and only if the time to live is positive, its age counted from before the database read; other organizations keep theirs; every limit is positive |
| `ThresholdCache.RetailerNoteThresholdCache.BuildPayload` | backend/src/core/settings/retailer-note-thresholds.ts:89-112 | Each limit is the stored one, however it is written, if that is a positive number, else the one of the environment if that is, else a million; source and override say which |
| `Thresholds.LimitSource` | backend/src/core/settings/retailer-note-thresholds.ts:85-118 | The same of the payload as a function of stored settings and environment |
| `ThresholdCache.RetailerNoteThresholdCache.Invalidate` | backend/src/core/settings/retailer-note-thresholds.ts:122-127 | Drops one entry and counts it |
| `ThresholdCache.RetailerNoteThresholdCache.InvalidateAll` | backend/src/core/settings/retailer-note-thresholds.ts:129-133 | Drops every entry and counts each once |
| `ThresholdCache.RetailerNoteThresholdCache.BumpCounter` | backend/src/core/settings/retailer-note-thresholds.ts:179-188 | Moves the total and the organization counter together |
| `SettingsService.SettingsService.UpdateRetailerNoteThresholds` | backend/src/core/settings/settings.service.ts:44-94 | Accepted if and only if some limit is given and each is positive in whole hundredths; then all are written and the entry is dropped, else nothing changes |
| `SettingsService.SettingsService.WriteLimits` | backend/src/core/settings/settings.service.ts:64-92 | Overwrites the given fields and no other |
| `SettingsService.SettingsService.ResetRetailerNoteThresholds` | backend/src/core/settings/settings.service.ts:116-130 | Deletes the stored limits and drops the cached entry |
| `SettingsService.SettingsService.ReadBack` | backend/src/core/settings/retailer-note-thresholds.ts:60-118 | With nothing else running, a read returns the unexpired entry, else the stored limits |
| `SettingsService.SettingsService.AnswerUpdate` | backend/src/core/settings/settings.service.ts:44-101 | An accepted update answers with the given fields at their values from the database, and the others as before |
| `SettingsService.SettingsService.AnswerReset` | backend/src/core/settings/settings.service.ts:116-137 | A reset answers with no limit from the database |
| `AccountingHistory.JournalOverRuns` | backend/src/finance/accounting/accounting.service.ts:427-698 | Over every run: every entry is balanced and non-empty, each invoice and receipt is journaled once if on record, by the recorded entry, and never otherwise, an entry is reversed if and only if exactly one later entry, its lines swapped, reverses it |
| `AccountingHistory.InvoicePostsExactly` | backend/src/finance/accounting/accounting.service.ts:427-480 | An invoice posts if and only if it is on record or both accounts are found: its lines always balance |
| `AccountingHistory.ReceiptPostsExactly` | backend/src/finance/accounting/accounting.service.ts:482-573 | The same for a receipt in either direction |
| `AccountingHistory.InvoiceMoves` | backend/src/finance/accounting/accounting.service.ts:427-480 | A new invoice moves, in every period that covers its date, the receivable up and sales down by its total, and no other account in any period |
| `AccountingHistory.ReceiptMoves` | backend/src/finance/accounting/accounting.service.ts:482-573 | A new receipt moves funds up and the counter account down by its amount when inbound, the other way when not, in the same sense |
| `AccountingHistory.InvoiceThenReceipt` | backend/src/finance/accounting/accounting.service.ts:427-573 | An invoice and then an inbound receipt of its total leave the receivable where it was, with funds up and sales down by the total |
| `AccountingHistory.TrialBalanceBalances` | backend/src/finance/accounting/accounting.service.ts:297-331 | At every cut-off the trial balance has equal debits and credits |
| `AccountingHistory.AccountingEquation` | backend/src/finance/accounting/accounting.service.ts:340-425 | Net profit without a from-date is the sum of asset, liability and equity balances plus what stands on accounts of none of the five types; so the two agree if and only if that is zero |
| `AccountingHistory.BalanceSheetAddsUp` | backend/src/finance/accounting/accounting.service.ts:408-423 | When accounts of none of the five types net to zero, the printed totals satisfy assets = liabilities + equity + profit if and only if no liability or equity account stands in debit |
| `AccountingHistory.PrintedTotals` | backend/src/finance/accounting/accounting.service.ts:340-425 | Each printed total is the sum of the lines on accounts of its own type, with its own sign: income and, when none stands in debit, liabilities and equity as credits, expense and assets as debits |
| `AccountingHistory.DebitLiability` | backend/src/finance/accounting/accounting.service.ts:420-422 | A concrete run with a liability in debit whose printed balance sheet does not add up |
| `AccountingHistory.ReversalEffect` | backend/src/finance/accounting/accounting.service.ts:575-614 | Over all stored entries a reversal cancels the original on every account; in the posted view the original leaves too, so the account moves twice |
| `AccountingHistory.PostThenReverse` | backend/src/finance/accounting/accounting.service.ts:575-614 | Posting then reversing restores every account over stored entries; the trial balance of any period is restored for an account if and only if the period leaves out the reversal date or the entry nets to nothing on it |
| `AccountingHistory.ReversedAccountMoves` | backend/src/finance/accounting/accounting.service.ts:608-611 | A concrete entry posted and reversed whose account does not come back |
| `AccountingHistory.LedgerEndsAtTrialBalance` | backend/src/finance/accounting/accounting.service.ts:700-764 | In any listing order the last running balance of an account ledger is its trial-balance balance |
| `AccountingHistory.TrialBalanceRow` | backend/src/finance/accounting/accounting.service.ts:318-331 | A row holds exactly its account lines |
| `AccountingHistory.TypeTotalBy` | backend/src/finance/accounting/accounting.service.ts:766-789 | A report total for a type is the sum of the lines on accounts of that type |
| `AccountingHistory.PostedNetsToZero` | backend/src/finance/accounting/accounting.service.ts:297-312 | The posted lines of any run net to zero in every period |
| `AccountingHistory.ReverseKeepsSound` | backend/src/finance/accounting/accounting.service.ts:575-614 | Reversing a posted entry always succeeds and keeps the journal sound |
| `Accounting.AccountingService.CreateJournalEntry` | backend/src/finance/accounting/accounting.service.ts:634-698 | Rejects empty or unbalanced lines, else appends one posted entry |
| `Accounting.AccountingService.PostSalesInvoice` | backend/src/finance/accounting/accounting.service.ts:427-480 | Journals an invoice once, dated as the invoice, debiting the receivable and crediting sales by its total for its retailer; posting again only returns that entry |
| `Accounting.AccountingService.PostPaymentReceipt` | backend/src/finance/accounting/accounting.service.ts:482-573 | Journals a receipt once, dated as the receipt, debiting funds and crediting the counter account when inbound and the other way when not, for its retailer or supplier; posting again only returns that entry |
| `Accounting.AccountingService.ReverseJournalEntry` | backend/src/finance/accounting/accounting.service.ts:575-614 | Succeeds only on a posted entry; then one entry of that day with every line turned round, accounts and parties kept, follows, and the original stands reversed, so it cannot be reversed again |
| `Accounting.AccountingService.GetTrialBalance` | backend/src/finance/accounting/accounting.service.ts:318-331 | The map-accumulating loop gives the grouped totals |
| `Accounting.AccountingService.Grouped` | backend/src/finance/accounting/accounting.service.ts:766-789 | The filtered map-accumulating loop gives the grouped totals of the allowed types |
| `Accounting.AccountingService.GetProfitLoss` | backend/src/finance/accounting/accounting.service.ts:340-387 | The report of the posted lines of the period |
| `Accounting.AccountingService.GetBalanceSheet` | backend/src/finance/accounting/accounting.service.ts:389-425 | The report of the posted lines up to the cut-off |
| `Accounting.AccountingService.BuildLedgerTransactions` | backend/src/finance/accounting/accounting.service.ts:734-764 | Every running balance is the prefix sum |
| `Demand.GroupingExchange` | backend/src/operations/demand-consolidations/demand-consolidations.service.ts:515-659 | For any orders the ordered totals by variant, route and area are equal, so are the approved ones, and route and area order counts are the number of orders |
| `Demand.DemandSplitsIntoTrips` | backend/src/operations/dispatch/dispatch.service.ts:747-758 | The consolidated quantity of a variant is what one trip per route plans plus what orders those trips do not carry ask: off the routes, of another cycle, or neither approved nor packed; the two agree if and only if those ask none |
| `Demand.ConsolidatedIsAsked` | backend/src/operations/demand-consolidations/demand-consolidations.service.ts:738-776 | A consolidated row holds exactly what the orders ask |
| `Demand.ConsolidatedRow` | backend/src/operations/demand-consolidations/demand-consolidations.service.ts:738-776 | A consolidated row has what the orders order of the variant, what they ask of it, the same to procure, and no buffer |
| `Demand.RouteRowExactly` | backend/src/operations/demand-consolidations/demand-consolidations.service.ts:515-557 | A route row counts and sums exactly the orders of that route, the unassigned row those without one |
| `Demand.AreaRowExactly` | backend/src/operations/demand-consolidations/demand-consolidations.service.ts:633-659 | An area row counts and sums exactly the route rows of that area, the unassigned row those of routes without one |
| `Demand.AggregateDemandItems` | backend/src/operations/demand-consolidations/demand-consolidations.service.ts:738-776 | The nested loops give the grouped demand |
| `Demand.BuildDemandTotals` | backend/src/operations/demand-consolidations/demand-consolidations.service.ts:822-848 | The reduction gives the four sums |
| `Demand.RouteWiseSummary` | backend/src/operations/demand-consolidations/demand-consolidations.service.ts:516-546 | The loop gives the grouping by route |
| `Demand.AreaWiseSummary` | backend/src/operations/demand-consolidations/demand-consolidations.service.ts:633-659 | The loop over route rows gives the grouping by area |
| `Tally.GroupSum` | backend/src/operations/demand-consolidations/demand-consolidations.service.ts:738-776 | Exchange law of the accumulate-into-a-Map loops: any selection of keys sums to the selected source rows |
| `PaymentAllocation.PreviewConserves` | backend/src/operations/payments/payment-allocation.service.ts:62-90 | Proposed plus remaining is the amount; the closed forms for what remains and what stays owed hold if and only if the amount is not negative |
| `PaymentAllocation.ShownByInvoice` | backend/src/operations/payments/payment-allocation.service.ts:76-88 | The proposals shown under an invoice id come to what invoices of that id are allocated, and none shows nothing |
| `PaymentAllocation.PreviewIsTheFifoAllocation` | backend/src/operations/payments/payment-allocation.service.ts:62-75 | An allocation is the previewed one if and only if it respects each invoice, settles invoices in order and spends what it can |
| `PaymentAllocation.PayingTwice` | backend/src/operations/payments/payment-allocation.service.ts:16-90 | Paying a, then b on the invoices still open, is paying a + b: per invoice, in the remainder and in what stays owed |
| `PaymentAllocation.OpenPreview` | backend/src/operations/payments/payment-allocation.service.ts:20-29 | Dropping settled invoices from the query changes no preview |
| `PaymentAllocation.PreviewPayment` | backend/src/operations/payments/payment-allocation.service.ts:41-91 | Advance mode allocates nothing; other modes give the first-in-first-out preview |
| `PaymentAllocation.AllocateInOrder` | backend/src/operations/payments/payment-allocation.service.ts:62-75 | The mapping with its running remainder is the greedy fill |
| `CreditControl.EvaluateCreditDecision` | backend/src/operations/payments/credit-control.service.ts:362-450 | The order-dependent overwrites come to the strictest of four independent verdicts; an override is required if and only if manager approval is; each reason appears if and only if its verdict speaks; the order may proceed if and only if the account is active and neither overdue nor excess asks more than a warning |
| `CreditControl.DecisionNeverLoosens` | backend/src/operations/payments/credit-control.service.ts:362-430 | The decision never loosens as amount, outstanding or overdue grows |
| `CreditControl.DecisionExactly` | backend/src/operations/payments/credit-control.service.ts:362-430 | An order is blocked, left to a manager or warned about if and only if the stated conditions on activity, standing overdue, standing excess, manager approval, blocking and usage hold, an override counting only if it is the first of its kind and covers the excess by its approved, else its requested amount |
| `CreditControl.UsageNearest` | backend/src/operations/payments/credit-control.service.ts:362-380 | Usage is the projected share of the limit to the nearest hundredth of a percent, and all or nothing without a limit |
| `CreditControl.StricterTerms` | backend/src/operations/payments/credit-control.service.ts:362-430 | Closing the account, blocking on excess, withdrawing dispatch with overdue money, or warning earlier never loosens the decision |
| `Wallet.BalanceOverRuns` | backend/src/operations/payments/advance-wallet.service.ts:228-277 | Over any run the balance is credits minus debits, is the last running balance, and is not negative |
| `Wallet.AtMostOnce` | backend/src/operations/payments/advance-wallet.service.ts:143-205 | The credit and the reversal of a receipt each move the balance at most once, however often and in whatever order |
| `Wallet.CreditThenReversalNets` | backend/src/operations/payments/advance-wallet.service.ts:143-205 | With one amount throughout, a receipt nets to that amount if only its credit took effect, minus it if only its reversal did, else to nothing; taking effect means a positive amount, no row of that mark yet and, for a reversal, a balance that covers it |
| `Wallet.AdvanceWallet.PostTransaction` | backend/src/operations/payments/advance-wallet.service.ts:228-277 | Refuses a negative balance, else appends a row carrying the new balance |
| `Wallet.AdvanceWallet.CreditFromReceipt` | backend/src/operations/payments/advance-wallet.service.ts:143-173 | Credits a receipt unless it is already credited |
| `Wallet.AdvanceWallet.ReverseReceiptAdvance` | backend/src/operations/payments/advance-wallet.service.ts:175-205 | Reverses a receipt unless it is already reversed |
| `Wallet.AdvanceWallet.AdjustWallet` | backend/src/operations/payments/advance-wallet.service.ts:93-119 | Succeeds if and only if it moves something and leaves no debt; then one row and the balance carry credit minus debit |
| `Crates.SnapshotLag` | backend/src/operations/crates/crates.service.ts:269-333 | In any order of days a stored counter falls short of the ledger by exactly what was recorded late, so it never exceeds it and is exact if and only if nothing came late |
| `Crates.LedgerByDay` | backend/src/operations/crates/crates.service.ts:269-333 | A counter of the ledger is nothing before the first recorded day and grows from one day to the next by exactly what was recorded of that kind on that day |
| `Crates.LateCrateMissed` | backend/src/operations/crates/crates.service.ts:269-333 | A concrete run: a crate recorded late for an earlier day, and the stored snapshot misses it |
| `Crates.InOrderSnapshotsAreExact` | backend/src/operations/crates/crates.service.ts:164-254 | If transactions come no earlier than any transaction or recalculated day before them, every stored snapshot is exact; earlier days may be recalculated at any time |
| `Crates.SyncRestores` | backend/src/operations/crates/crates.service.ts:220-254 | Recomputing a snapshot makes it exact |
| `Crates.CratesService.CreateTransaction` | backend/src/operations/crates/crates.service.ts:164-218 | Appends the transaction and recomputes its own snapshot only |
| `Crates.CratesService.SyncSnapshotForDate` | backend/src/operations/crates/crates.service.ts:269-333 | The four counters are the ledger sums up to the day, the closing balance is floored at zero |
| `Crates.CratesService.RecalculateBalances` | backend/src/operations/crates/crates.service.ts:220-254 | The nested loops recompute one snapshot per retailer and crate type |

## Left out

- Transport and display: controllers, authorization, paging, search, joins for display, exports, notifications.
- Document numbers, timestamps, remarks, user ids, manufacturing dates, unit costs and reserved or damaged quantities.
- Lost updates between concurrent database transactions: calls run one after another except in the cache.
- Binary floating point: arithmetic is exact, so representation error inside a tolerance is not modelled.
- Trip items' `inventoryBatchId` (the first batch used), resources, challan and loading-sheet numbers beyond "issued".
- Sales-order status changes and their history, and the credit note that approving a sales return creates.
- Invoice recomputation and cancellation after a stop update: `SalesInvoicesService` is not part of this model.
- Supplier matching and warehouse lookups of goods receipts; purchase-order editing (ordered quantities are fixed).
- Adjustment item ids: the six characters that go into a new batch number are a parameter.
- Resolution of default accounts by code: each account a posting uses is an optional parameter.
- The two writes of a reversal are one step here; the code runs them outside a common transaction.
- Customer and supplier ledgers as receivables and payables: both lines of an entry carry the retailer.
- Retailer counts in summaries, buffer edits, and status of consolidations (create, rebuild, update, approve).
- Payment allocation other than the preview, wallet balance application, credit profiles and override records.
- Cache debug counters' reset and display; a changed environment or time to live while the process runs; other processes.
- Crate opening balances and deposits, time zones of day boundaries, and crate entries made at delivery stops, which do not refresh snapshots.
- Reminders, analytics, dashboards, files, backups, lookups, synchronization: little state of their own.
- OperationsHistory.TripsOverRuns: statuses in transit, reconciled and cancelled are guarded against in the steps but never written by the code, so no run reaches them.
- Counting.PostingPreparedCounts: the batches counts name are in the table; a line naming another is covered one at a time by UnknownBatchOnlyAdds.
- Delivery.TaxReestimation: the bound is for the tax stored before the update; repeated updates start from the overwritten tax.
