# FIFO lot-queue ledger

The project models the inventory ledger of the SKU dashboard. It is written in Dafny and its properties are proved.

Every variant of the ledger keeps a dictionary from item name to a deque of lots `{date, qty, price}`, oldest first.
- **Receipt (입고):** appends one lot at the tail.
- **Issue (출고):** consumes lots from the head. A head lot whose quantity is no more than what is still needed is used up and popped. Otherwise its quantity is reduced, it stays at the head and the issue ends. Each lot touched adds `use_qty * price` to the cost of goods sold (매출원가). A shortage is reported as data, never raised.
- **Read-outs:** the stock level is the sum of the quantities; the stock value is the sum of quantity times price.

The four variants in the repository are modelled module by module:

| module | file | source |
|---|---|---|
| `Lots` | lots.dfy | the queue itself: `Consume` (the costed issue loop as a function), `Drain` (the cost-free replay step), and the shared loops `IssueFromQueue` and `DrainFromQueue` proved equal to them |
| `History` | history.dfy | `sort_values(by='날짜')`, modelled as a stable sort by date |
| `Ledger` | ledger.dfy | one transaction's effect on the queues (`Apply`), and `reconstruct_queues` as a replay of a history (`Replay`) with its loop (`ReplayAll`) |
| `Calculator` | calculator.dfy | `FIFOCostCalculator` of main.py, as a class |
| `SecureLedger` | secure_ledger.dfy | `process_secure_transaction` (landed cost on receipt, per-lot breakdown on issue, CRM row for sales) and `get_inventory_summary` of new_streamlit_main.py |
| `LegacyTracker` | tracking_legacy.dfy | `reconstruct_queues`, `process_transaction`, the dedup filter and loop of `handle_excel_upload`, `get_inventory_summary` (with average unit cost) and `get_next_out_schedule` of streamlit_main_legacy.py |
| `Tracker` | tracking.dfy | `reconstruct_queues` (replay in stored order) and `process_transaction` (history re-sorted after each row) of steamlit_main.py |

Modelling choices:
- Quantities are `int` and prices and costs are `real`. The source does no rounding while accumulating, so none is modelled.
- Dates are integers ordered like the source's timestamps.
- The `비고` texts and the `fifo_breakdown` / `batch_status` tables are structured data, not formatted strings. One `Line(date, used, price, left)` per lot touched carries a breakdown entry (its cost is `used * price`) together with the lot's status after the issue (`left`, 0 for a popped lot).
- The session state of each Streamlit page is a class whose fields the handlers update: the queues, the history, and the latest detail tables.
- pandas `sort_values` is called without a stable sort kind, so the order of rows with the same date is not fixed by the source. This model fixes it: rows of the same date keep their insertion order (`History.SortBy`).

The central facts proved:
- **Costed issue loops.** Every costed issue loop equals `Consume`. `Consume` takes min(request, stock) and lowers the level by exactly that. It charges the sum of its lines' costs and lowers the stock value by exactly the cost. It reads the lots strictly head-first. Only the last line can be partial, and that lot stays at the head with the leftover.
- **Rebuild.** The cost-free rebuild leaves exactly the queue the costed loop leaves.
- **Handlers and replay.** The session handlers (`ProcessSecureTransaction` and both `ProcessTransaction` methods) change the queues exactly as one replay step would. main.py's `calculate_out_cost` is the exception for an item never received: it returns before creating a queue, whereas a replay step adds an empty one. So a history processed in date order gives the same queues as a rebuild from it. A back-dated receipt does not, and a two-row example shows the difference.

## Model

| member | source | states |
|---|---|---|
| `Lots.Consume` | main.py:41-56 | the costed issue as a function of the queue and the request: an issue never adds lots to the queue; its accounting is carried by `ConsumeLines`, `ConsumeValue`, `ConsumeConserves`, `ConsumeFollowsQueue`, `OnlyLastLinePartial` and `ConsumeLeavesTail` |
| `Lots.IssueFromQueue` | main.py:41-56 | the costed head-first loop returns the queue afterwards, the accumulated cost, one line per lot touched and the quantity still needed, all equal to `Consume` of the queue and the request |
| `Lots.IssueFromHead` | new_streamlit_main.py:122-141 | one turn of the costed loop: a head lot no larger than the need is popped with a line left 0, a larger one is decremented in place with its leftover on the line and ends the loop; the loop invariant is kept |
| `Lots.ConsumeLines` | new_streamlit_main.py:126-143 | the cost equals the sum of the lines' costs, the lines' quantities add up to request minus shortfall, and there is at most one line per lot |
| `Lots.ConsumeValue` | main.py:45-56 | the stock value drops by exactly the cost charged |
| `Lots.ConsumeConserves` | main.py:41-56 | over positive lots and a non-negative request: quantity taken = min(request, level), the level drops by that, the shortfall is non-negative and zero exactly when the level covered the request, and every lot left is positive |
| `Lots.ConsumeKeepsPositive` | main.py:45-56 | an issue of any quantity leaves only positive lots when it started with positive lots |
| `Lots.ConsumeFollowsQueue` | main.py:43-58 | head-first order: the k lines describe the first k lots of the queue, in order, with their dates and prices |
| `Lots.OnlyLastLinePartial` | new_streamlit_main.py:126-141 | every line except the last used its whole lot and shows 0 left |
| `Lots.ConsumeLeavesTail` | steamlit_main.py:96-115 | if the last line leaves something, that lot stays at the head with the leftover, used + leftover is its old quantity and nothing is still needed; otherwise the queue afterwards is exactly what lay behind the lots touched |
| `Lots.FullyCovered` | main.py:60 | with positive lots, a request no larger than the level leaves no shortfall |
| `Lots.ConsumeAllEmpties` | main.py:41-56 | issuing the whole level of positive lots empties the queue, leaves no shortfall and charges the whole stock value |
| `Lots.Drain` | streamlit_main_legacy.py:58-67 | the replay's issue step as a function: the queue afterwards is no longer than before; `DrainIsConsume` proves it leaves exactly `Consume`'s queue |
| `Lots.DrainFromQueue` | streamlit_main_legacy.py:58-67 | the replay's issue loop returns `Drain` of the queue and quantity (shortfall dropped, no cost) |
| `Lots.DrainIsConsume` | streamlit_main_legacy.py:61-67 | the cost-free replay step leaves exactly the queue the costed issue loop leaves |
| `Lots.Level` | main.py:71-73 | the stock level, Σ qty over the lots (also new_streamlit_main.py:221 and streamlit_main_legacy.py:205); it has no contract of its own, and its facts are carried by `LevelNonNegative`, `LevelAppend` and `ConsumeConserves` |
| `Lots.Value` | streamlit_main_legacy.py:206 | the stock value, Σ qty × price over the lots (also new_streamlit_main.py:222); it has no contract of its own, and its facts are carried by `ValueAppend`, `ConsumeValue` and `ConsumeAllEmpties` |
| `Lots.LevelNonNegative` | main.py:71-73 | over positive lots the level is not negative and is at least the head lot's quantity |
| `Lots.LevelAppend` | main.py:23-27 | a receipt raises the level by its quantity |
| `Lots.ValueAppend` | new_streamlit_main.py:109 | a receipt raises the stock value by quantity times unit cost |
| `History.SortBy` | steamlit_main.py:126 | `sort_values(by='날짜')` (also new_streamlit_main.py:157 and streamlit_main_legacy.py:53, 156, 162) as a stable insertion sort by date: the result has as many rows as the input; `SortBySorted`, `SortByPermutes` and `SortByStable` prove it sorted, a permutation and stable |
| `History.SortBySorted` | steamlit_main.py:126 | the re-sorted history is in non-decreasing date order |
| `History.SortByPermutes` | new_streamlit_main.py:157 | re-sorting is a permutation: the same rows with the same multiplicities |
| `History.SortByStable` | streamlit_main_legacy.py:162 | for every date, the rows of that date keep their order (the stable-sort choice) |
| `History.InsertBySorted` | steamlit_main.py:126 | placing one row into a sorted history keeps it sorted |
| `History.InsertByPermutes` | steamlit_main.py:125-126 | placing one row adds exactly that row |
| `History.InsertByStable` | steamlit_main.py:126 | a placed row goes after every row of its own date |
| `History.SortByAppendLatest` | steamlit_main.py:125-126 | a row dated no earlier than a sorted history lands last: the history is that history plus the row |
| `History.SortedIsFixed` | steamlit_main.py:25 | re-sorting an already sorted history changes nothing |
| `History.SortByMembers` | streamlit_main_legacy.py:53 | the sorted history holds exactly the rows of the unsorted one |
| `History.SortByAppendMax` | streamlit_main_legacy.py:53 | a row dated no earlier than any history row sorts last, whether or not the history was sorted |
| `Ledger.Apply` | streamlit_main_legacy.py:55-67 | one transaction on the queue map: the item's queue exists afterwards, and an issue or other action never lengthens it; `ReplayStep`, `ApplyKeepsPositive` and the handlers' `Apply` postconditions carry the rest |
| `Ledger.Replay` | streamlit_main_legacy.py:48-68 | reconstruct_queues as a function of the history: every item a row names has a queue in the result; `ReplayKeys`, `ReplayIsIncremental` and `ReplayKeepsPositive` carry the rest |
| `Ledger.ReplayMovement` | streamlit_main_legacy.py:55-67 | one row of the replay loop, with the item's queue present: a receipt appends, an issue drains head-first, anything else is skipped; the result is `Apply` |
| `Ledger.ReplayAll` | streamlit_main_legacy.py:54-67 | the replay loop over a map holding every item's queue returns the fold of all the rows |
| `Ledger.FoldStep` | streamlit_main_legacy.py:54-67 | one step of the replay loop: the item's queue is still present and the next prefix is one more `Apply` |
| `Ledger.FoldKeys` | streamlit_main_legacy.py:50-51 | folding gives a queue for every item named, and removes none |
| `Ledger.FoldAgrees` | streamlit_main_legacy.py:60 | maps that give every item the same queue (absent meaning empty) still do after the same rows |
| `Ledger.ReplayIsIncremental` | streamlit_main_legacy.py:48-68 | rebuilding with an empty queue per item up front gives the map built transaction by transaction from an empty map |
| `Ledger.ReplayStep` | streamlit_main_legacy.py:48-68 | replaying one more row is applying it to the replayed queues |
| `Ledger.ReplayKeys` | streamlit_main_legacy.py:50-51 | the rebuilt map has a queue for exactly the items of the history |
| `Ledger.ApplyKeepsPositive` | main.py:45-56 | a transaction keeps every lot positive when a receipt's quantity is positive |
| `Ledger.FoldKeepsPositive` | streamlit_main_legacy.py:54-67 | with positive receipt quantities, folding keeps every lot positive |
| `Ledger.ReplayKeepsPositive` | streamlit_main_legacy.py:48-68 | with positive receipt quantities, every lot of a rebuilt map is positive |
| `Calculator.StatusOf` | main.py:60 | the status is 정상 exactly when nothing is still needed, and otherwise reports the missing quantity |
| `Calculator.FifoCostCalculator.constructor` | main.py:12-16 | no queues and no sales records |
| `Calculator.FifoCostCalculator.AddStock` | main.py:18-27 | exactly one lot `{qty, price, date}` at the tail of the item's queue, created empty first for a new item; no other queue and no record changes; the level rises by qty; positivity is kept for a positive qty |
| `Calculator.FifoCostCalculator.CalculateOutCost` | main.py:29-61 | an unknown item or empty queue: no queue changes and the record has cost 0 and 재고없음; otherwise the item's queue becomes `Consume`'s queue and the record carries `Consume`'s cost, status and lines; exactly one record is appended; positive lots stay positive |
| `Calculator.FifoCostCalculator.RecordSale` | main.py:63-69 | the record appended is the one returned; the queues do not change |
| `Calculator.FifoCostCalculator.GetCurrentStockLevel` | main.py:71-73 | 0 for an unknown item; with positive lots, not negative, and positive for a non-empty queue |
| `Calculator.IssueAccounting` | main.py:41-60 | taken = min(request, stock), the level drops by that, the cost is the sum of the line costs, and the status is 정상 exactly when the stock covered the request |
| `SecureLedger.LandedUnitCost` | new_streamlit_main.py:104-109 | for qty > 0, landed cost × qty = base × qty + fee; for qty ≤ 0 the fee share is 0 and the landed cost is the base price |
| `SecureLedger.IssueNote` | new_streamlit_main.py:143-144 | 정상출고 with the sub-type exactly when nothing was left unissued, otherwise 재고부족 with the missing count |
| `SecureLedger.LandedLotCost` | new_streamlit_main.py:104-112 | a landed lot is valued at base × qty + fee, and issuing it whole charges exactly that and empties the queue |
| `SecureLedger.IssueOfUnknownItem` | new_streamlit_main.py:94-95 | an issue of an item never received creates an empty queue, costs 0, lists no lot and reports the whole qty as shortfall |
| `SecureLedger.SecureSession.constructor` | new_streamlit_main.py:38-46 | a fresh session: empty queues, history, CRM history and latest detail |
| `SecureLedger.SecureSession.ProcessSecureTransaction` | new_streamlit_main.py:86-157 | receipt: the row keeps base price, fee and landed cost, and the lot is stored at landed cost; issue: the row has the sale price, `Consume`'s cost and the 비고 of its shortfall, the latest detail is its lines, and a CRM row is added exactly for 매출; other actions: a blank row; the queues change as one `Apply`; the history is the old one plus the row, re-sorted |
| `SecureLedger.SecureSession.AppendToHistory` | new_streamlit_main.py:156-157 | the history gains exactly the row and is sorted by date; nothing else changes |
| `SecureLedger.GetInventorySummary` | new_streamlit_main.py:218-225 | each row gives an item's level and value at landed cost; an item is listed exactly when its level is not negative; no item twice |
| `SecureLedger.SummaryListsAll` | new_streamlit_main.py:223 | with positive lots every item is listed |
| `LegacyTracker.IssueNote` | streamlit_main_legacy.py:125-130 | 출고완료 with the lots used exactly when nothing was left unissued, otherwise 재고부족 with the lots used and the missing count |
| `LegacyTracker.NewRows` | streamlit_main_legacy.py:149-150 | an upload row is selected exactly when its key is not already recorded, and no more rows come out than went in |
| `LegacyTracker.NewRowsCounts` | streamlit_main_legacy.py:149-150 | every copy of a row whose key is recorded is dropped and every copy of any other row is kept, duplicates within the upload included |
| `LegacyTracker.NewRowsAppend` | streamlit_main_legacy.py:150 | filtering keeps upload order: filtering two consecutive parts and joining them is filtering the whole |
| `LegacyTracker.NothingNewTwice` | streamlit_main_legacy.py:149-154 | once every key of an upload is recorded, the same upload selects nothing |
| `LegacyTracker.LegacySession.constructor` | streamlit_main_legacy.py:39-40 | a session without a data file: empty queues and history |
| `LegacyTracker.LegacySession.ReconstructQueues` | streamlit_main_legacy.py:48-68 | the queues become the replay of the date-sorted history and nothing else changes, so rebuilding twice gives the same queues |
| `LegacyTracker.LegacySession.ProcessTransaction` | streamlit_main_legacy.py:74-133 | receipt: 단가 = price and the lot is appended; issue: 단가 0, `Consume`'s cost and the 비고 of its lines and shortfall; other: a blank row; the queues change as one `Apply`; the row is appended unsorted |
| `LegacyTracker.UploadedRow` | streamlit_main_legacy.py:84-133 | the row process_transaction records for an upload row carries the row's date, item, action, sub-type, qty and key, and its 단가 for a receipt, 0 otherwise |
| `LegacyTracker.LegacySession.ProcessRows` | streamlit_main_legacy.py:158-159 | each selected row is processed in turn: the j-th added row is exactly the row process_transaction records for the j-th upload row against the queues the earlier rows left (its 단가, 매출원가 and 비고 included), and the queues are the fold of the rows added |
| `LegacyTracker.LegacySession.HandleExcelUpload` | streamlit_main_legacy.py:149-162 | nothing changes when no row is new; otherwise the new rows are processed in date order, each added row being exactly the row process_transaction records against the queues the earlier rows left, and the history is re-sorted; afterwards every key of the upload is recorded |
| `LegacyTracker.RebuildQueues` | streamlit_main_legacy.py:48-68 | an empty queue per history item, then every row in date order: the replay of the sorted history |
| `LegacyTracker.RebuildStart` | streamlit_main_legacy.py:50-51 | `{item: deque() for item in unique items}` is the replay's empty start and holds every item the replay meets |
| `LegacyTracker.FoldMovesAppend` | streamlit_main_legacy.py:158-159 | processing one more upload row is one more `Apply` |
| `LegacyTracker.KeepsConsistent` | streamlit_main_legacy.py:53 | a transaction dated no earlier than the history changes the queues exactly as a rebuild from the longer history would |
| `LegacyTracker.UploadRecordsKeys` | streamlit_main_legacy.py:149-162 | after an upload, every key of the upload is in the history |
| `LegacyTracker.AveragePrice` | streamlit_main_legacy.py:205-207 | average × level = value when the level is positive, otherwise 0 |
| `LegacyTracker.ValueAtLeast` | streamlit_main_legacy.py:206 | over positive lots priced at least lo, the value is at least lo × level |
| `LegacyTracker.ValueAtMost` | streamlit_main_legacy.py:206 | over positive lots priced at most hi, the value is at most hi × level |
| `LegacyTracker.AveragePriceWithin` | streamlit_main_legacy.py:204-207 | the average unit cost of a non-empty queue of positive lots lies between its cheapest and dearest lot price |
| `LegacyTracker.GetInventorySummary` | streamlit_main_legacy.py:200-217 | each row gives an item's level, average unit cost and value; an item is listed exactly when its level is not negative; no item twice |
| `LegacyTracker.EntryFor` | streamlit_main_legacy.py:229-242 | the row of a non-empty queue: its own item name, head lot's date, qty and price, the second lot's date and qty exactly when there is one, and the number of lots |
| `LegacyTracker.NextOutScheduleAsWritten` | streamlit_main_legacy.py:221-245 | get_next_out_schedule as written: when it succeeds it has at most one row per visited item; `AsWrittenFailsOnSingleLot` proves when it fails |
| `LegacyTracker.NextOutSchedule` | streamlit_main_legacy.py:221-245 | get_next_out_schedule as intended: at most one row per visited item; `NextOutScheduleLists` proves which rows |
| `LegacyTracker.NextOutScheduleLists` | streamlit_main_legacy.py:221-245 | the corrected schedule lists exactly the items with a non-empty queue, each with its own queue's row |
| `LegacyTracker.AsWrittenFailsOnSingleLot` | streamlit_main_legacy.py:233-241 | the schedule as written fails exactly when a visited queue holds one lot, and otherwise equals the corrected schedule |
| `LegacyTracker.SingleLotCounterexample` | streamlit_main_legacy.py:241 | one item with one lot makes the schedule as written fail, while the corrected schedule reports no second lot |
| `Tracker.IssueNote` | steamlit_main.py:118 | 출고 완료 exactly when nothing was left unissued, otherwise 재고 부족 발생 |
| `Tracker.Session.constructor` | steamlit_main.py:26-33 | a session without a data file: empty history, the empty rebuild of it, and no latest detail |
| `Tracker.Session.ReconstructQueues` | steamlit_main.py:36-53 | the queues become the replay of the history in stored order; nothing else changes; a sorted history is then consistent |
| `Tracker.Session.ProcessTransaction` | steamlit_main.py:57-126 | receipt: 단가 = price, the lot is appended, and the latest detail is cleared; issue: 단가 0, `Consume`'s cost and 비고, and the latest detail is its lines; other: a blank row with the detail untouched; the queues change as one `Apply`; the history is the old one plus the row, re-sorted |
| `Tracker.Session.AppendToHistory` | steamlit_main.py:125-126 | the history gains exactly the row and is sorted by date; nothing else changes |
| `Tracker.RebuildQueues` | steamlit_main.py:36-53 | an empty queue per history item, then every row in stored order: the replay of the history |
| `Tracker.RebuildStart` | steamlit_main.py:38-39 | the empty start is the replay's and holds every item the replay meets |
| `Tracker.KeepsConsistent` | steamlit_main.py:125-126 | a transaction dated no earlier than a sorted, consistent history keeps it sorted with the row last, and changes the queues exactly as the replay of the longer history would |
| `Tracker.ReplaySingleReceipt` | steamlit_main.py:41-43 | replaying one receipt gives its item a one-lot queue |
| `Tracker.SortBackdated` | steamlit_main.py:126 | a back-dated row is sorted in front of the newer row |
| `Tracker.BackdatedReceiptDiverges` | steamlit_main.py:68-69 | two receipts of one item, the second back-dated: the handler queues the lots in arrival order, a rebuild in date order, and the two differ |

## Left out

- The Streamlit UI and session plumbing (`st.*`, forms, metrics, charts) are left out. Each page's session state is an explicit class.
- Login, the audit log and its text are left out. They are I/O with no effect on the queues.
- The CRM row's constant 비고 '정상판매' and the history row's constant 상태 '정상' are not modelled. The CRM row keeps date, customer, item and sale price.
- Excel and CSV I/O, the required-column check and `st.rerun` are not modelled. An upload is a sequence of rows with the six required columns.
- `InventorySystem.run` in main.py is file I/O and console output.
- MD5 row hashing is a foreign library. The dedup key is the parameter `key` of the upload, and a row's hash is a parameter of the handlers. The MD5 fallback for a missing `row_hash` is therefore not modelled.
- `calculate_sales_metrics` and reorder thresholds depend on the clock and floating-point averages.
- Floating-point rounding and text formatting are not modelled. Prices and costs are `real`. 비고 texts and breakdown tables are structured data (`Line`, `Note`).
- `pd.to_datetime` is not modelled: dates are already integers.
- Dictionary iteration order is left unspecified. The summaries are built by picking the remaining keys in an unspecified order. `get_next_out_schedule` takes the visiting order as the parameter `order`.
- pandas' default sort is not guaranteed to be stable. The model fixes a stable sort by date.
- `Tracker.Session.ProcessTransaction`, `LegacyTracker.LegacySession.ProcessTransaction`: the postconditions do not state the consistency invariant (queues equal to a rebuild from the history) themselves. Preserving it for transactions not dated before the history is the separate lemma `KeepsConsistent` of each module, stated over exactly the new queues and history these methods ensure.
- `SecureLedger.SecureSession.ProcessSecureTransaction`, `Tracker.Session.ProcessTransaction`, `LegacyTracker.LegacySession.ProcessTransaction`: positivity of the lots after a transaction follows from the `Apply` postcondition and `Ledger.ApplyKeepsPositive`. The handlers' own contracts do not restate it.
- `LegacyTracker.LegacySession.ProcessRows`, `LegacyTracker.LegacySession.HandleExcelUpload`: positivity of the lots after an upload follows from the `Fold` postcondition and `Ledger.FoldKeepsPositive`. The methods' own contracts do not restate it.
- `Lots.Level`, `Lots.Value`: these read-outs carry no contract of their own. Any ensures on them makes the solver's real arithmetic in `LegacyTracker.ValueAtLeast`, `ValueAtMost` and `AveragePriceWithin` run out of resource. Their facts are stated as the lemmas named in their rows.
- Aliasing of deques between the session and the handlers is not modelled. A queue is a value stored back into the map, so updating it in place is modelled as replacing the map entry.

## Findings

| source | as written | input that shows it | evidently intended | confidence | as-written member | corrected member |
|---|---|---|---|---|---|---|
| streamlit_main_legacy.py:241 | `second_batch['qty']` is read without the `if second_batch` guard that line 240 has, so a queue of exactly one lot makes `get_next_out_schedule` raise and no schedule is shown | inventory `{"A": [one lot of 5 at 100 on day 1]}` | 2순위 대기수량 is empty (None) when there is no second lot, like 2순위 출고예정일 | high (not executed) | `LegacyTracker.NextOutScheduleAsWritten`, `LegacyTracker.SingleLotCounterexample` | `LegacyTracker.NextOutSchedule`, `LegacyTracker.NextOutScheduleLists` |
