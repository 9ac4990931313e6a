/**
 * The session engine of steamlit_main.py: a history kept sorted by date,
 * the per-item lot queues rebuilt by replaying that history in its stored
 * order, and the costed transaction handler whose last issue's breakdown is
 * kept as the latest detail.
 */
module Tracker {
  import opened Lots
  import opened History
  import opened Ledger

  /** `비고` of a history row. */
  datatype Note =
    | Blank             // no branch handled the action
    | ReceiptDone(qty: int) // "n개 입고 완료"
    | IssueDone         // "출고 완료"
    | ShortageOccurred  // "재고 부족 발생"

  /** A history row: `날짜, 품목명, 구분, 수량, 단가, 매출원가, 비고`. */
  datatype Row = Row(date: Date, item: string, action: Action, qty: int, price: real, cogs: real, note: Note)

  /** The sort key of the history, `날짜`. */
  function RowDate(r: Row): int { r.date }

  /** What the rebuild reads from a row: date, item, kind, quantity and 단가. */
  function Move(r: Row): Movement
  {
    Movement(r.date, r.item, r.action, r.qty, r.price)
  }

  /** The movements the rebuild reads from a history, row by row. */
  function Moves(rows: seq<Row>): seq<Movement>
  {
    seq(|rows|, i requires 0 <= i < |rows| => Move(rows[i]))
  }

  /** `history['품목명'].unique()`: the items named in a history. */
  function HistoryItems(rows: seq<Row>): set<string>
  {
    set r | r in rows :: r.item
  }

  /** The 비고 of an issue: done exactly when nothing was left unissued. */
  function IssueNote(remaining: int): (note: Note)
    ensures note == IssueDone <==> remaining == 0
    ensures note != IssueDone ==> note == ShortageOccurred
  {
    if remaining == 0 then IssueDone else ShortageOccurred
  }

  class Session {
    /** `inventory_queues`: item name -> lots, oldest first. */
    var inventoryQueues: Queues
    /** `history`: every transaction row, kept sorted by date. */
    var history: seq<Row>
    /** `latest_fifo_detail` and `latest_batch_status` of the last issue, one line per lot touched. */
    var latestLines: seq<Line>

    constructor ()
      ensures inventoryQueues == map[] && history == [] && latestLines == []
    {
      inventoryQueues := map[];
      history := [];
      latestLines := [];
    }

    /** The history is sorted by date and the queues are what a rebuild from it gives. */
    ghost predicate Consistent()
      reads this
    {
      SortedBy(history, RowDate) && inventoryQueues == Replay(Moves(history))
    }

    /**
     * reconstruct_queues: the queues are discarded and replaced by a replay
     * of the history in its stored order, which is the date order as long
     * as the history is kept sorted.
     */
    method ReconstructQueues()
      modifies this
      ensures inventoryQueues == Replay(Moves(history))
      ensures history == old(history) && latestLines == old(latestLines)
      ensures SortedBy(history, RowDate) ==> Consistent()
    {
      inventoryQueues := RebuildQueues(history);
    }

    /**
     * process_transaction.  The item's queue exists afterwards whatever the
     * action.  A receipt appends one lot, records its price and clears the
     * latest detail; an issue is costed head-first, records 단가 0, the cost
     * of goods sold and whether the stock covered it, and its breakdown
     * becomes the latest detail; any other action records a blank row.  The
     * history gains exactly the new row and is re-sorted by date.
     */
    method ProcessTransaction(date: Date, item: string, action: Action, qty: int, price: real)
      returns (row: Row)
      modifies this
      ensures action == Receipt ==>
        row == Row(date, item, Receipt, qty, price, 0.0, ReceiptDone(qty)) && latestLines == []
      ensures action == Issue ==>
        var c := Consume(QueueOf(old(inventoryQueues), item), qty);
        row == Row(date, item, Issue, qty, 0.0, c.cost, IssueNote(c.remaining)) && latestLines == c.lines
      ensures action == Other ==>
        row == Row(date, item, Other, qty, 0.0, 0.0, Blank) && latestLines == old(latestLines)
      ensures inventoryQueues == Apply(old(inventoryQueues), Move(row))
      ensures history == SortBy(old(history) + [row], RowDate)
      ensures SortedBy(history, RowDate) && multiset(history) == multiset(old(history)) + multiset{row}
    {
      if item !in inventoryQueues {
        inventoryQueues := inventoryQueues[item := []];
      }
      assert inventoryQueues == old(inventoryQueues)[item := QueueOf(old(inventoryQueues), item)];
      row := Row(date, item, action, qty, if action == Receipt then price else 0.0, 0.0, Blank);

      if action == Receipt {
        inventoryQueues := inventoryQueues[item := inventoryQueues[item] + [Lot(date, qty, price)]];
        row := row.(note := ReceiptDone(qty));
        latestLines := [];
        assert inventoryQueues == Apply(old(inventoryQueues), Move(row));
      } else if action == Issue {
        var queue, totalCogs, lines, remaining := IssueFromQueue(inventoryQueues[item], qty);
        inventoryQueues := inventoryQueues[item := queue];
        row := row.(cogs := totalCogs, note := if remaining == 0 then IssueDone else ShortageOccurred);
        latestLines := lines;
        assert inventoryQueues == Apply(old(inventoryQueues), Move(row)) by {
          DrainIsConsume(QueueOf(old(inventoryQueues), item), qty);
        }
      }

      assert history == old(history);
      AppendToHistory(row);
    }

    /** The history gains the row and is re-sorted by date (stable for equal dates). */
    method AppendToHistory(row: Row)
      modifies this
      ensures history == SortBy(old(history) + [row], RowDate)
      ensures SortedBy(history, RowDate) && multiset(history) == multiset(old(history)) + multiset{row}
      ensures inventoryQueues == old(inventoryQueues) && latestLines == old(latestLines)
    {
      history := SortBy(history + [row], RowDate);
      SortBySorted(old(history) + [row], RowDate);
      SortByPermutes(old(history) + [row], RowDate);
    }
  }

  /**
   * The body of reconstruct_queues: an empty queue per item of the history,
   * then every row in stored order -- a receipt appends its lot, an issue
   * consumes head-first and drops any shortfall.
   */
  method RebuildQueues(history: seq<Row>) returns (queues: Queues)
    ensures queues == Replay(Moves(history))
  {
    var start := map item | item in HistoryItems(history) :: [];
    RebuildStart(history);
    queues := ReplayAll(start, Moves(history));
  }

  /**
   * `{item: deque() for item in history['품목명'].unique()}` is the empty
   * start of the replay of the history, with a queue for every item the
   * replay will meet.
   */
  lemma RebuildStart(history: seq<Row>)
    ensures var ms := Moves(history);
      var start: Queues := map item | item in HistoryItems(history) :: [];
      && start == Fresh(ms)
      && forall i :: 0 <= i < |ms| ==> ms[i].item in start
  {
    var ms := Moves(history);
    var items := HistoryItems(history);
    forall item | item in Items(ms) ensures item in items {
      var i :| 0 <= i < |ms| && ms[i].item == item;
      assert history[i] in history;
    }
    forall item | item in items ensures item in Items(ms) {
      var r :| r in history && r.item == item;
      var i :| 0 <= i < |history| && history[i] == r;
      assert ms[i].item == item;
    }
  }

  /**
   * A transaction dated no earlier than anything in a consistent history
   * keeps it consistent: the re-sort leaves the new row last, and its effect
   * on the queues is the last step of the replay.
   */
  lemma KeepsConsistent(history: seq<Row>, queues: Queues, row: Row)
    requires SortedBy(history, RowDate) && queues == Replay(Moves(history))
    requires forall r :: r in history ==> r.date <= row.date
    ensures SortBy(history + [row], RowDate) == history + [row]
    ensures SortedBy(history + [row], RowDate)
    ensures Apply(queues, Move(row)) == Replay(Moves(history + [row]))
  {
    forall i | 0 <= i < |history| ensures RowDate(history[i]) <= RowDate(row) {
      assert history[i] in history;
    }
    SortByAppendLatest(history, row, RowDate);
    SortBySorted(history + [row], RowDate);
    assert Moves(history + [row]) == Moves(history) + [Move(row)];
    ReplayStep(Moves(history), Move(row));
  }

  /** The lot a receipt row adds to its item's queue. */
  function ReceivedLot(r: Row): Lot
  {
    Lot(r.date, r.qty, r.price)
  }

  /** Replaying a single receipt gives its item a one-lot queue. */
  lemma ReplaySingleReceipt(r: Row)
    requires r.action == Receipt
    ensures Replay(Moves([r])) == map[r.item := [ReceivedLot(r)]]
  {
    var none: seq<Movement> := [];
    var empty: seq<Lot> := [];
    assert Items(none) == {};
    assert Replay(none) == map[];
    assert Moves([r]) == none + [Move(r)];
    ReplayStep(none, Move(r));
    assert empty + [ReceivedLot(r)] == [ReceivedLot(r)];
  }

  /** Re-sorting puts a back-dated row in front of the row it follows. */
  lemma SortBackdated(older: Row, row: Row)
    requires row.date < older.date
    ensures SortBy([older] + [row], RowDate) == [row, older]
  {
    assert [older][..0] == [];
    assert SortBy([older], RowDate) == [older];
    assert InsertBy([older], row, RowDate) == [row, older] by {
      assert InsertBy([], row, RowDate) == [row];
    }
    assert ([older] + [row])[..1] == [older];
  }

  /**
   * A back-dated receipt breaks consistency: the handler appends its lot
   * behind the newer one, while a rebuild from the re-sorted history puts
   * it first, so the two queues differ.
   */
  lemma BackdatedReceiptDiverges(older: Row, row: Row)
    requires older.action == Receipt && row.action == Receipt && older.item == row.item
    requires row.date < older.date
    ensures Apply(Replay(Moves([older])), Move(row)) == map[row.item := [ReceivedLot(older), ReceivedLot(row)]]
    ensures Replay(Moves(SortBy([older] + [row], RowDate))) == map[row.item := [ReceivedLot(row), ReceivedLot(older)]]
    ensures Apply(Replay(Moves([older])), Move(row)) != Replay(Moves(SortBy([older] + [row], RowDate)))
  {
    ReplaySingleReceipt(older);
    ReplaySingleReceipt(row);
    assert [ReceivedLot(older)] + [ReceivedLot(row)] == [ReceivedLot(older), ReceivedLot(row)];
    SortBackdated(older, row);
    assert Moves([row, older]) == Moves([row]) + [Move(older)];
    ReplayStep(Moves([row]), Move(older));
    assert [ReceivedLot(row)] + [ReceivedLot(older)] == [ReceivedLot(row), ReceivedLot(older)];
    var incremental := Apply(Replay(Moves([older])), Move(row));
    assert incremental[row.item][0] != Replay(Moves([row, older]))[row.item][0];
  }
}
