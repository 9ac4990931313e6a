/**
 * process_secure_transaction and get_inventory_summary of
 * new_streamlit_main.py.  A receipt spreads the customs and logistics fee
 * over the received units, so the lot is stored at its landed unit cost; an
 * issue is costed head-first and leaves a per-lot breakdown and the lots'
 * status after the issue; every transaction appends one history row and the
 * history is re-sorted by date.
 */
module SecureLedger {
  import opened Lots
  import opened History
  import opened Ledger

  /** `비고` of a history row. */
  datatype Note =
    | Blank                          // no branch handled the action
    | CostsDistributed(kind: string) // "[세부구분] 제비용 분배완료"
    | Shipped(kind: string)          // "[세부구분] 정상출고"
    | Shortfall(missing: int)        // "재고부족(n개)"

  /**
   * A row of the session history.  `unitPrice` is `순수단가`: the base
   * price for a receipt, the sale price for an issue.  `fee` is `통관물류비`
   * and `landedCost` is `최종매입원가`, both set on receipts only; `cogs` is
   * `매출원가`, set on issues only.
   */
  datatype Row = Row(date: Date, customer: string, item: string, action: Action, kind: string, qty: int,
                     unitPrice: real, fee: real, landedCost: real, cogs: real, note: Note, hash: string)

  /** A row of the CRM history, appended for every issue whose sub-type is a sale (매출). */
  datatype CrmRow = CrmRow(date: Date, customer: string, item: string, salePrice: real)

  /** The sort key of the history, `날짜`. */
  function RowDate(r: Row): int { r.date }

  /**
   * The landed unit cost of a receipt: the base price plus the fee's share
   * per unit.  A receipt of no units gets no fee share rather than an error.
   */
  function LandedUnitCost(basePrice: real, fee: real, qty: int): (cost: real)
    ensures qty > 0 ==> cost * qty as real == basePrice * qty as real + fee
    ensures qty <= 0 ==> cost == basePrice
  {
    if qty > 0 then basePrice + fee / qty as real else basePrice
  }

  /** The 비고 of an issue: shipped exactly when nothing was left unissued. */
  function IssueNote(kind: string, remaining: int): (note: Note)
    ensures note.Shipped? <==> remaining == 0
    ensures note.Shipped? ==> note.kind == kind
    ensures !note.Shipped? ==> note == Shortfall(remaining)
  {
    if remaining == 0 then Shipped(kind) else Shortfall(remaining)
  }

  /**
   * The fee is fully absorbed by the stock: a landed lot of positive
   * quantity is valued at base price times quantity plus the fee, and
   * issuing all of it charges exactly that amount to cost of goods sold.
   */
  lemma LandedLotCost(date: Date, basePrice: real, fee: real, qty: int)
    requires qty > 0
    ensures var lot := Lot(date, qty, LandedUnitCost(basePrice, fee, qty));
      && Value([lot]) == basePrice * qty as real + fee
      && Consume([lot], qty).cost == basePrice * qty as real + fee
      && Consume([lot], qty).queue == []
  {
    var lot := Lot(date, qty, LandedUnitCost(basePrice, fee, qty));
    assert AllPositive([lot]);
    ConsumeAllEmpties([lot]);
  }

  /**
   * An issue of an item never received: the item gets an empty queue, the
   * row's 매출원가 is 0, no lot is listed, and the whole quantity is
   * reported as the shortfall.
   */
  lemma IssueOfUnknownItem(m: Queues, date: Date, item: string, kind: string, qty: int)
    requires item !in m && qty > 0
    ensures Apply(m, Movement(date, item, Issue, qty, 0.0)) == m[item := []]
    ensures Consume(QueueOf(m, item), qty) == Consumption([], 0.0, [], qty)
    ensures IssueNote(kind, Consume(QueueOf(m, item), qty).remaining) == Shortfall(qty)
  {
  }

  class SecureSession {
    /** `inventory_queues`: item name -> lots at landed unit cost, oldest first. */
    var inventoryQueues: Queues
    /** `history`, kept sorted by date. */
    var history: seq<Row>
    /** `crm_history`. */
    var crmHistory: seq<CrmRow>
    /** `latest_fifo_detail` and `latest_batch_status` of the last issue, one line per lot touched. */
    var latestLines: seq<Line>

    constructor ()
      ensures inventoryQueues == map[] && history == [] && crmHistory == [] && latestLines == []
    {
      inventoryQueues := map[];
      history := [];
      crmHistory := [];
      latestLines := [];
    }

    /**
     * process_secure_transaction.  The item's queue exists afterwards
     * whatever the action.  A receipt appends one lot at its landed unit
     * cost and its row keeps both the base price and the landed cost.  An
     * issue is costed head-first: the row's 매출원가 is the issue's cost and
     * its 비고 tells whether the stock covered it; the breakdown lines become
     * the latest detail, and a sale is also logged in the CRM history.  Any
     * other action records a blank row.  The history gains exactly the new
     * row and is re-sorted by date.
     */
    method ProcessSecureTransaction(date: Date, item: string, action: Action, kind: string, qty: int,
                                    customer: string, basePrice: real, fee: real, salePrice: real, rowHash: string)
      returns (row: Row)
      modifies this
      ensures action == Receipt ==>
        var landed := LandedUnitCost(basePrice, fee, qty);
        && row == Row(date, customer, item, Receipt, kind, qty, basePrice, fee, landed, 0.0, CostsDistributed(kind), rowHash)
        && crmHistory == old(crmHistory) && latestLines == old(latestLines)
      ensures action == Issue ==>
        var c := Consume(QueueOf(old(inventoryQueues), item), qty);
        && row == Row(date, customer, item, Issue, kind, qty, salePrice, 0.0, 0.0, c.cost, IssueNote(kind, c.remaining), rowHash)
        && latestLines == c.lines
        && crmHistory == old(crmHistory) + (if kind == "매출" then [CrmRow(date, customer, item, salePrice)] else [])
      ensures action == Other ==>
        && row == Row(date, customer, item, Other, kind, qty, 0.0, 0.0, 0.0, 0.0, Blank, rowHash)
        && crmHistory == old(crmHistory) && latestLines == old(latestLines)
      ensures inventoryQueues == Apply(old(inventoryQueues), Movement(date, item, action, qty, row.landedCost))
      ensures history == SortBy(old(history) + [row], RowDate)
      ensures SortedBy(history, RowDate) && multiset(history) == multiset(old(history)) + multiset{row}
    {
      if item !in inventoryQueues {
        inventoryQueues := inventoryQueues[item := []];
      }
      assert inventoryQueues == old(inventoryQueues)[item := QueueOf(old(inventoryQueues), item)];
      row := Row(date, customer, item, action, kind, qty, 0.0, 0.0, 0.0, 0.0, Blank, rowHash);

      if action == Receipt {
        var unitExtra := if qty > 0 then fee / qty as real else 0.0;
        var finalUnitCost := basePrice + unitExtra;
        inventoryQueues := inventoryQueues[item := inventoryQueues[item] + [Lot(date, qty, finalUnitCost)]];
        assert finalUnitCost == LandedUnitCost(basePrice, fee, qty);
        assert inventoryQueues == Apply(old(inventoryQueues), Movement(date, item, action, qty, finalUnitCost));
        row := row.(unitPrice := basePrice, fee := fee, landedCost := finalUnitCost, note := CostsDistributed(kind));
      } else if action == Issue {
        var queue, totalCogs, lines, remaining := IssueFromQueue(inventoryQueues[item], qty);
        inventoryQueues := inventoryQueues[item := queue];
        row := row.(unitPrice := salePrice, cogs := totalCogs,
                    note := if remaining == 0 then Shipped(kind) else Shortfall(remaining));
        if kind == "매출" {
          crmHistory := crmHistory + [CrmRow(date, customer, item, salePrice)];
        }
        latestLines := lines;
        assert inventoryQueues == Apply(old(inventoryQueues), Movement(date, item, action, qty, 0.0)) by {
          DrainIsConsume(QueueOf(old(inventoryQueues), item), qty);
        }
      }

      assert history == old(history);
      AppendToHistory(row);
    }

    /** The history gains the row and is re-sorted by date (stable for equal dates). */
    method AppendToHistory(row: Row)
      modifies this
      ensures history == SortBy(old(history) + [row], RowDate)
      ensures SortedBy(history, RowDate) && multiset(history) == multiset(old(history)) + multiset{row}
      ensures inventoryQueues == old(inventoryQueues) && crmHistory == old(crmHistory) && latestLines == old(latestLines)
    {
      history := SortBy(history + [row], RowDate);
      SortBySorted(old(history) + [row], RowDate);
      SortByPermutes(old(history) + [row], RowDate);
    }
  }

  /** A row of the inventory summary: `품목명`, `현재고`, `자산금액`. */
  datatype SummaryRow = SummaryRow(item: string, qty: int, value: real)

  /** The items a summary lists. */
  function Listed(summary: seq<SummaryRow>): set<string>
  {
    set r | r in summary :: r.item
  }

  /**
   * get_inventory_summary: one row per item whose stock level is not
   * negative, with the stock level and the stock value at landed cost.  The
   * rows come in an unspecified order and no item is listed twice.
   */
  method GetInventorySummary(queues: Queues) returns (summary: seq<SummaryRow>)
    ensures forall r :: r in summary ==>
      r.item in queues && r.qty == Level(queues[r.item]) && r.value == Value(queues[r.item]) && r.qty >= 0
    ensures forall item :: item in queues ==> (item in Listed(summary) <==> Level(queues[item]) >= 0)
    ensures forall i, j :: 0 <= i < j < |summary| ==> summary[i].item != summary[j].item
  {
    summary := [];
    var pending := queues.Keys;
    while pending != {}
      invariant pending <= queues.Keys
      invariant forall r :: r in summary ==>
        r.item in queues && r.item !in pending && r.qty == Level(queues[r.item]) && r.value == Value(queues[r.item]) && r.qty >= 0
      invariant forall item :: item in queues && item !in pending ==> (item in Listed(summary) <==> Level(queues[item]) >= 0)
      invariant forall i, j :: 0 <= i < j < |summary| ==> summary[i].item != summary[j].item
      decreases pending
    {
      var item :| item in pending;
      var totalQty := Level(queues[item]);
      var totalValue := Value(queues[item]);
      if totalQty >= 0 {
        summary := summary + [SummaryRow(item, totalQty, totalValue)];
      }
      pending := pending - {item};
    }
  }

  /** With every lot positive, the summary lists every item held. */
  lemma SummaryListsAll(queues: Queues, summary: seq<SummaryRow>)
    requires LotsPositive(queues)
    requires forall item :: item in queues ==> (item in Listed(summary) <==> Level(queues[item]) >= 0)
    ensures Listed(summary) >= queues.Keys
  {
    forall item | item in queues ensures item in Listed(summary) {
      LevelNonNegative(queues[item]);
    }
  }
}
