/**
 * FIFOCostCalculator of main.py: the standalone lot-queue object.  Receipts
 * append a lot, `calculate_out_cost` costs an issue against the oldest lots
 * and appends one sales record, and the stock level is the sum of the lots.
 */
module Calculator {
  import opened Lots
  import Ledger

  /** `상태` of a sales record: 정상, 재고부족(n개), or 재고없음. */
  datatype Status = Normal | Shortage(missing: int) | NoStock

  /**
   * A row of `sales_records`: date, item, issued quantity, cost of goods
   * sold, status, and the lots used (the `비고` text, kept as lines).
   */
  datatype SaleRecord = SaleRecord(date: Date, item: string, qty: int, cost: real, status: Status, details: seq<Line>)

  /** The status of an issue that reached the loop: normal exactly when nothing is still needed. */
  function StatusOf(remaining: int): (s: Status)
    ensures s == Normal <==> remaining == 0
    ensures s != NoStock
    ensures s.Shortage? ==> s.missing == remaining
  {
    if remaining == 0 then Normal else Shortage(remaining)
  }

  class FifoCostCalculator {
    /** `_inventory_queues`: item name -> lots, oldest first. */
    var inventoryQueues: Queues
    /** `sales_records`: one record per `calculate_out_cost` call. */
    var salesRecords: seq<SaleRecord>

    /** Every lot held has a positive quantity. */
    ghost predicate LotsPositive()
      reads this
    {
      Ledger.LotsPositive(inventoryQueues)
    }

    constructor ()
      ensures inventoryQueues == map[] && salesRecords == []
    {
      inventoryQueues := map[];
      salesRecords := [];
    }

    /** add_stock: one lot at the tail of the item's queue, created empty first for a new item. */
    method AddStock(itemName: string, qty: int, unitPrice: real, date: Date)
      modifies this
      ensures inventoryQueues == old(inventoryQueues)[itemName := QueueOf(old(inventoryQueues), itemName) + [Lot(date, qty, unitPrice)]]
      ensures salesRecords == old(salesRecords)
      ensures GetCurrentStockLevel(itemName) == old(GetCurrentStockLevel(itemName)) + qty
      ensures old(LotsPositive()) && qty > 0 ==> LotsPositive()
    {
      if itemName !in inventoryQueues {
        inventoryQueues := inventoryQueues[itemName := []];
      }
      inventoryQueues := inventoryQueues[itemName := inventoryQueues[itemName] + [Lot(date, qty, unitPrice)]];
      LevelAppend(old(QueueOf(inventoryQueues, itemName)), Lot(date, qty, unitPrice));
    }

    /**
     * calculate_out_cost: an unknown item or an empty queue records cost 0
     * and 재고없음 and changes no queue; otherwise the issue is costed
     * head-first against the item's queue.  Exactly one record is appended
     * and returned.
     */
    method CalculateOutCost(itemName: string, qtyToSell: int, date: Date) returns (record: SaleRecord)
      modifies this
      ensures salesRecords == old(salesRecords) + [record]
      ensures itemName !in old(inventoryQueues) || old(inventoryQueues)[itemName] == [] ==>
        && inventoryQueues == old(inventoryQueues)
        && record == SaleRecord(date, itemName, qtyToSell, 0.0, NoStock, [])
      ensures itemName in old(inventoryQueues) && old(inventoryQueues)[itemName] != [] ==>
        var c := Consume(old(inventoryQueues)[itemName], qtyToSell);
        && inventoryQueues == old(inventoryQueues)[itemName := c.queue]
        && record == SaleRecord(date, itemName, qtyToSell, c.cost, StatusOf(c.remaining), c.lines)
      ensures old(LotsPositive()) ==> LotsPositive()
    {
      if itemName !in inventoryQueues || inventoryQueues[itemName] == [] {
        record := RecordSale(date, itemName, qtyToSell, 0.0, NoStock, []);
        return;
      }

      // the item's deque, consumed head-first and stored back
      var queue, totalCogs, batchesUsed, remainingNeeded := IssueFromQueue(inventoryQueues[itemName], qtyToSell);
      inventoryQueues := inventoryQueues[itemName := queue];

      var status := if remainingNeeded == 0 then Normal else Shortage(remainingNeeded);
      record := RecordSale(date, itemName, qtyToSell, totalCogs, status, batchesUsed);
      if old(LotsPositive()) {
        ConsumeKeepsPositive(old(inventoryQueues)[itemName], qtyToSell);
      }
    }

    /** _record_sale: append one record and return it. */
    method RecordSale(date: Date, item: string, qty: int, cost: real, status: Status, details: seq<Line>)
      returns (record: SaleRecord)
      modifies this
      ensures record == SaleRecord(date, item, qty, cost, status, details)
      ensures salesRecords == old(salesRecords) + [record]
      ensures inventoryQueues == old(inventoryQueues)
    {
      record := SaleRecord(date, item, qty, cost, status, details);
      salesRecords := salesRecords + [record];
    }

    /** get_current_stock_level: the sum of the item's lot quantities, 0 for an unknown item. */
    function GetCurrentStockLevel(itemName: string): (level: int)
      reads this
      ensures itemName !in inventoryQueues ==> level == 0
      ensures LotsPositive() ==> level >= 0
      ensures LotsPositive() && itemName in inventoryQueues && inventoryQueues[itemName] != [] ==> level > 0
    {
      if itemName in inventoryQueues then
        LevelBound(inventoryQueues, itemName);
        Level(inventoryQueues[itemName])
      else 0
    }
  }

  lemma LevelBound(m: Queues, item: string)
    requires item in m
    ensures Ledger.LotsPositive(m) ==> Level(m[item]) >= 0
    ensures Ledger.LotsPositive(m) && m[item] != [] ==> Level(m[item]) > 0
  {
    if Ledger.LotsPositive(m) {
      LevelNonNegative(m[item]);
    }
  }

  /**
   * The issue's bookkeeping as main.py reports it: over lots of positive
   * quantity, the quantity taken is min(request, stock before), the stock
   * level drops by that, the record's cost is the sum of its lines' costs,
   * and the status is 정상 exactly when the stock covered the request.
   */
  lemma IssueAccounting(q: seq<Lot>, qtyToSell: int)
    requires AllPositive(q) && q != [] && qtyToSell >= 0
    ensures var c := Consume(q, qtyToSell);
      && qtyToSell - c.remaining == Min(qtyToSell, Level(q))
      && Level(c.queue) == Level(q) - Min(qtyToSell, Level(q))
      && c.cost == TotalCost(c.lines)
      && (StatusOf(c.remaining) == Normal <==> qtyToSell <= Level(q))
  {
    ConsumeConserves(q, qtyToSell);
  }
}
