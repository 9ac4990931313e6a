/**
 * The session engine of streamlit_main_legacy.py: the history of rows with
 * their dedup keys, the per-item lot queues rebuilt from the date-sorted
 * history, the costed transaction handler, the spreadsheet upload that
 * skips rows already recorded, and the two read-outs over the queues (the
 * inventory summary with average unit cost and the next-out schedule).
 */
module LegacyTracker {
  import opened Lots
  import opened History
  import opened Ledger

  /** `비고` of a history row; the lots consumed are kept as breakdown lines. */
  datatype Note =
    | Blank                                  // no branch handled the action
    | Received(kind: string, qty: int)       // "[세부구분] n개 입고 완료"
    | Shipped(kind: string, lines: seq<Line>) // "[세부구분] 출고완료 (...)"
    | Short(lines: seq<Line>, missing: int)  // "⚠️재고부족 (일부출고: ... or 재고 없음, 미출고: n개)"

  /** A history row: `날짜, 품목명, 구분, 세부구분, 수량, 단가, 매출원가, 비고, hash`. */
  datatype Row = Row(date: Date, item: string, action: Action, kind: string, qty: int,
                     price: real, cogs: real, note: Note, hash: string)

  /** The sort key of the history, `날짜`. */
  function RowDate(r: Row): int { r.date }

  /** What the rebuild reads from a row: date, item, kind, quantity and 단가. */
  function Move(r: Row): Movement
  {
    Movement(r.date, r.item, r.action, r.qty, r.price)
  }

  /** The movements the rebuild reads from a history, row by row. */
  function Moves(rows: seq<Row>): seq<Movement>
  {
    seq(|rows|, i requires 0 <= i < |rows| => Move(rows[i]))
  }

  /** The 비고 of an issue: shipped exactly when nothing was left unissued. */
  function IssueNote(kind: string, lines: seq<Line>, remaining: int): (note: Note)
    ensures note.Shipped? <==> remaining == 0
    ensures note.Shipped? ==> note == Shipped(kind, lines)
    ensures !note.Shipped? ==> note == Short(lines, remaining)
  {
    if remaining == 0 then Shipped(kind, lines) else Short(lines, remaining)
  }

  /** A spreadsheet row: the six required columns. */
  datatype Upload = Upload(date: Date, item: string, action: Action, kind: string, qty: int, price: real)

  function UploadDate(u: Upload): int { u.date }

  /** `history['품목명'].unique()`: the items named in a history. */
  function HistoryItems(rows: seq<Row>): set<string>
  {
    set r | r in rows :: r.item
  }

  /** The dedup keys already recorded in a history. */
  function Hashes(rows: seq<Row>): set<string>
  {
    set r | r in rows :: r.hash
  }

  /**
   * The rows of an upload whose key is not among the recorded ones, in
   * upload order.  Duplicates inside the same upload are not filtered.
   */
  function NewRows(upload: seq<Upload>, key: Upload -> string, existing: set<string>): (selected: seq<Upload>)
    ensures forall u :: u in selected <==> u in upload && key(u) !in existing
    ensures |selected| <= |upload|
  {
    if upload == [] then []
    else
      var rest := NewRows(upload[1..], key, existing);
      if key(upload[0]) in existing then rest else [upload[0]] + rest
  }

  /**
   * The filter drops every copy of a row whose key is recorded and keeps
   * every copy of any other row, duplicates inside the upload included.
   */
  lemma {:induction false} NewRowsCounts(upload: seq<Upload>, key: Upload -> string, existing: set<string>)
    ensures forall u :: multiset(NewRows(upload, key, existing))[u] == if key(u) in existing then 0 else multiset(upload)[u]
    decreases |upload|
  {
    if upload != [] {
      NewRowsCounts(upload[1..], key, existing);
      assert upload == [upload[0]] + upload[1..];
    }
  }

  /**
   * The filter keeps upload order: filtering two consecutive parts of an
   * upload and joining the results is filtering the whole upload.
   */
  lemma {:induction false} NewRowsAppend(a: seq<Upload>, b: seq<Upload>, key: Upload -> string, existing: set<string>)
    ensures NewRows(a + b, key, existing) == NewRows(a, key, existing) + NewRows(b, key, existing)
    decreases |a|
  {
    if a == [] {
      assert a + b == b;
    } else {
      var ab := a + b;
      assert ab[0] == a[0] && ab[1..] == a[1..] + b;
      NewRowsAppend(a[1..], b, key, existing);
    }
  }

  /** Once every key of an upload is recorded, uploading it again selects nothing. */
  lemma {:induction false} NothingNewTwice(upload: seq<Upload>, key: Upload -> string, existing: set<string>)
    requires forall u :: u in upload ==> key(u) in existing
    ensures NewRows(upload, key, existing) == []
    decreases |upload|
  {
    if upload != [] {
      assert upload[0] in upload;
      NothingNewTwice(upload[1..], key, existing);
    }
  }

  /**
   * A history row carries its upload row's columns and the upload row's key;
   * the 단가 is the uploaded one for a receipt and 0 otherwise.
   */
  ghost predicate FromUpload(r: Row, u: Upload, key: Upload -> string)
  {
    && r.date == u.date && r.item == u.item && r.action == u.action && r.kind == u.kind && r.qty == u.qty
    && r.price == (if u.action == Receipt then u.price else 0.0)
    && r.hash == key(u)
  }

  /**
   * The row process_transaction records for an upload row when the queues
   * are `m`: a receipt keeps its 단가 and notes the quantity received; an
   * issue records the cost of goods sold and the 비고 of the head-first
   * consumption of the item's queue; any other action records a blank row.
   */
  function UploadedRow(m: Queues, u: Upload, key: Upload -> string): (r: Row)
    ensures FromUpload(r, u, key)
  {
    match u.action
    case Receipt => Row(u.date, u.item, Receipt, u.kind, u.qty, u.price, 0.0, Received(u.kind, u.qty), key(u))
    case Issue =>
      var c := Consume(QueueOf(m, u.item), u.qty);
      Row(u.date, u.item, Issue, u.kind, u.qty, 0.0, c.cost, IssueNote(u.kind, c.lines, c.remaining), key(u))
    case Other => Row(u.date, u.item, Other, u.kind, u.qty, 0.0, 0.0, Blank, key(u))
  }

  class LegacySession {
    /** `inventory_queues`: item name -> lots, oldest first. */
    var inventoryQueues: Queues
    /** `history`: every transaction row with its dedup key. */
    var history: seq<Row>

    constructor ()
      ensures inventoryQueues == map[] && history == []
    {
      inventoryQueues := map[];
      history := [];
    }

    /**
     * reconstruct_queues: the queues are discarded and replaced by a
     * rebuild from the history alone.  The result depends on nothing but
     * the history, so rebuilding twice gives the same queues.
     */
    method ReconstructQueues()
      modifies this
      ensures inventoryQueues == Replay(Moves(SortBy(history, RowDate)))
      ensures history == old(history)
    {
      inventoryQueues := RebuildQueues(history);
    }

    /**
     * process_transaction: the item's queue exists afterwards whatever the
     * action.  A receipt appends one lot and records its price; an issue is
     * costed head-first, records 단가 0 and the cost of goods sold, and its
     * 비고 lists the lots used and any quantity not issued; any other action
     * records a blank row.  The queues change exactly as one step of the
     * rebuild would change them, and the row is appended without re-sorting.
     */
    method ProcessTransaction(date: Date, item: string, action: Action, kind: string, qty: int, price: real, rowHash: string)
      returns (row: Row)
      modifies this
      ensures action == Receipt ==> row == Row(date, item, Receipt, kind, qty, price, 0.0, Received(kind, qty), rowHash)
      ensures action == Issue ==>
        var c := Consume(QueueOf(old(inventoryQueues), item), qty);
        row == Row(date, item, Issue, kind, qty, 0.0, c.cost, IssueNote(kind, c.lines, c.remaining), rowHash)
      ensures action == Other ==> row == Row(date, item, Other, kind, qty, 0.0, 0.0, Blank, rowHash)
      ensures inventoryQueues == Apply(old(inventoryQueues), Move(row))
      ensures history == old(history) + [row]
    {
      row := Row(date, item, action, kind, qty, if action == Receipt then price else 0.0, 0.0, Blank, rowHash);
      if item !in inventoryQueues {
        inventoryQueues := inventoryQueues[item := []];
      }
      var queue := inventoryQueues[item];

      if action == Receipt {
        inventoryQueues := inventoryQueues[item := queue + [Lot(date, qty, price)]];
        row := row.(note := Received(kind, qty));
      } else if action == Issue {
        var rest, totalCogs, details, remaining := IssueFromQueue(queue, qty);
        inventoryQueues := inventoryQueues[item := rest];
        row := row.(cogs := totalCogs, note := if remaining == 0 then Shipped(kind, details) else Short(details, remaining));
        assert inventoryQueues == Apply(old(inventoryQueues), Move(row)) by {
          DrainIsConsume(QueueOf(old(inventoryQueues), item), qty);
        }
      }

      history := history + [row];
    }

    /**
     * The upload loop: every selected row through `process_transaction`, in
     * the given order; each row is costed against the queues left by the
     * rows before it.
     */
    method ProcessRows(newData: seq<Upload>, key: Upload -> string) returns (added: seq<Row>)
      modifies this
      ensures |added| == |newData|
      ensures history == old(history) + added
      ensures inventoryQueues == Fold(old(inventoryQueues), Moves(added))
      ensures forall j :: 0 <= j < |added| ==>
        added[j] == UploadedRow(Fold(old(inventoryQueues), Moves(added[..j])), newData[j], key)
      ensures forall j :: 0 <= j < |added| ==> FromUpload(added[j], newData[j], key)
    {
      added := [];
      var i := 0;
      while i < |newData|
        invariant 0 <= i <= |newData|
        invariant |added| == i
        invariant history == old(history) + added
        invariant inventoryQueues == Fold(old(inventoryQueues), Moves(added))
        invariant forall j :: 0 <= j < i ==>
          added[j] == UploadedRow(Fold(old(inventoryQueues), Moves(added[..j])), newData[j], key)
      {
        var u := newData[i];
        var row := ProcessTransaction(u.date, u.item, u.action, u.kind, u.qty, u.price, key(u));
        assert row == UploadedRow(Fold(old(inventoryQueues), Moves(added)), u, key);
        FoldMovesAppend(old(inventoryQueues), added, row);
        UploadStep(old(inventoryQueues), newData, key, added, row);
        added := added + [row];
        i := i + 1;
      }
    }

    /**
     * handle_excel_upload, after the columns are checked: every upload row
     * gets its key, the rows whose key is already recorded are dropped, and
     * if none is left nothing changes.  Otherwise the new rows are processed
     * in date order, each costed against the queues the rows before it left,
     * and the history is re-sorted by date.  Afterwards every key of the
     * upload is recorded, so the same upload selects nothing a second time.
     */
    method HandleExcelUpload(upload: seq<Upload>, key: Upload -> string) returns (added: seq<Row>)
      modifies this
      ensures var selected := NewRows(upload, key, Hashes(old(history)));
        && |added| == |selected|
        && (forall j :: 0 <= j < |added| ==>
             added[j] == UploadedRow(Fold(old(inventoryQueues), Moves(added[..j])), SortBy(selected, UploadDate)[j], key))
        && (selected == [] ==> history == old(history))
        && (selected != [] ==> history == SortBy(old(history) + added, RowDate))
      ensures inventoryQueues == Fold(old(inventoryQueues), Moves(added))
      ensures forall u :: u in upload ==> key(u) in Hashes(history)
    {
      var existingHashes := Hashes(history);
      var newData := NewRows(upload, key, existingHashes);
      if newData == [] {
        added := [];
        assert forall u :: u in upload ==> key(u) in Hashes(history);
        return;
      }
      newData := SortBy(newData, UploadDate);
      SortByPermutes(NewRows(upload, key, existingHashes), UploadDate);
      added := ProcessRows(newData, key);
      history := SortBy(history, RowDate);
      UploadRecordsKeys(upload, key, old(history), added, newData);
    }
  }

  /**
   * The body of reconstruct_queues: an empty queue per item of the history,
   * then every row in date order -- a receipt appends its lot, an issue
   * consumes head-first and drops any shortfall.
   */
  method RebuildQueues(history: seq<Row>) returns (queues: Queues)
    ensures queues == Replay(Moves(SortBy(history, RowDate)))
  {
    var sortedHist := SortBy(history, RowDate);
    var start := map item | item in HistoryItems(history) :: [];
    RebuildStart(history);
    queues := ReplayAll(start, Moves(sortedHist));
  }

  /**
   * `{item: deque() for item in history['품목명'].unique()}` is the empty
   * start of the replay of the date-sorted history, with a queue for every
   * item the replay will meet.
   */
  lemma RebuildStart(history: seq<Row>)
    ensures var ms := Moves(SortBy(history, RowDate));
      var start: Queues := map item | item in HistoryItems(history) :: [];
      && start == Fresh(ms)
      && forall i :: 0 <= i < |ms| ==> ms[i].item in start
  {
    var sorted := SortBy(history, RowDate);
    var ms := Moves(sorted);
    var items := HistoryItems(history);
    SortByMembers(history, RowDate);
    forall item | item in Items(ms) ensures item in items {
      var i :| 0 <= i < |ms| && ms[i].item == item;
      assert sorted[i] in sorted;
    }
    forall item | item in items ensures item in Items(ms) {
      var r :| r in history && r.item == item;
      var i :| 0 <= i < |sorted| && sorted[i] == r;
      assert ms[i].item == item;
    }
  }

  /** Folding one more row is one more `Apply`. */
  lemma FoldMovesAppend(m: Queues, rows: seq<Row>, row: Row)
    ensures Fold(m, Moves(rows + [row])) == Apply(Fold(m, Moves(rows)), Move(row))
  {
    assert Moves(rows + [row])[..|rows|] == Moves(rows);
  }

  /** Appending the row of the next upload row extends the row-by-row description of the rows added. */
  lemma UploadStep(m: Queues, newData: seq<Upload>, key: Upload -> string, added: seq<Row>, row: Row)
    requires |added| < |newData|
    requires forall j :: 0 <= j < |added| ==> added[j] == UploadedRow(Fold(m, Moves(added[..j])), newData[j], key)
    requires row == UploadedRow(Fold(m, Moves(added)), newData[|added|], key)
    ensures forall j :: 0 <= j <= |added| ==>
      (added + [row])[j] == UploadedRow(Fold(m, Moves((added + [row])[..j])), newData[j], key)
  {
    forall j | 0 <= j <= |added|
      ensures (added + [row])[j] == UploadedRow(Fold(m, Moves((added + [row])[..j])), newData[j], key)
    {
      if j < |added| {
        assert (added + [row])[..j] == added[..j];
      } else {
        assert (added + [row])[..j] == added;
      }
    }
  }

  /**
   * A transaction dated no earlier than anything in the history keeps the
   * queues equal to a rebuild from the history: the rebuild sorts the new
   * row last, and its last step is the transaction's own effect.
   */
  lemma KeepsConsistent(history: seq<Row>, row: Row, queues: Queues)
    requires queues == Replay(Moves(SortBy(history, RowDate)))
    requires forall r :: r in history ==> r.date <= row.date
    ensures Apply(queues, Move(row)) == Replay(Moves(SortBy(history + [row], RowDate)))
  {
    forall i | 0 <= i < |history| ensures RowDate(history[i]) <= RowDate(row) {
      assert history[i] in history;
    }
    SortByAppendMax(history, row, RowDate);
    var sorted := SortBy(history, RowDate);
    assert Moves(sorted + [row]) == Moves(sorted) + [Move(row)];
    ReplayStep(Moves(sorted), Move(row));
  }

  /** After an upload, the history holds the key of every upload row. */
  lemma UploadRecordsKeys(upload: seq<Upload>, key: Upload -> string, before: seq<Row>, added: seq<Row>, ordered: seq<Upload>)
    requires multiset(ordered) == multiset(NewRows(upload, key, Hashes(before)))
    requires |added| == |ordered|
    requires forall j :: 0 <= j < |added| ==> FromUpload(added[j], ordered[j], key)
    ensures forall u :: u in upload ==> key(u) in Hashes(SortBy(before + added, RowDate))
  {
    SortByMembers(before + added, RowDate);
    forall u | u in upload ensures key(u) in Hashes(SortBy(before + added, RowDate)) {
      if key(u) in Hashes(before) {
        var r :| r in before && r.hash == key(u);
        assert r in before + added;
      } else {
        assert u in NewRows(upload, key, Hashes(before));
        assert u in multiset(ordered);
        var j :| 0 <= j < |ordered| && ordered[j] == u;
        assert added[j] in before + added;
      }
    }
  }

  /** The average unit cost of a queue, 0 when it holds nothing. */
  function AveragePrice(q: seq<Lot>): (avg: real)
    ensures Level(q) > 0 ==> avg * Level(q) as real == Value(q)
    ensures Level(q) <= 0 ==> avg == 0.0
  {
    if Level(q) > 0 then Value(q) / Level(q) as real else 0.0
  }

  /** Over lots of positive quantity priced at least `lo`, the value is at least `lo` per unit. */
  lemma {:induction false} ValueAtLeast(q: seq<Lot>, lo: real)
    requires AllPositive(q)
    requires forall i :: 0 <= i < |q| ==> lo <= q[i].price
    ensures lo * Level(q) as real <= Value(q)
  {
    if q != [] {
      var rest := q[1..];
      assert AllPositive(rest) by {
        forall i | 0 <= i < |rest| ensures rest[i].qty > 0 { assert rest[i] == q[i + 1]; }
      }
      assert forall i :: 0 <= i < |rest| ==> lo <= rest[i].price by {
        forall i | 0 <= i < |rest| ensures lo <= rest[i].price { assert rest[i] == q[i + 1]; }
      }
      ValueAtLeast(rest, lo);
      var k, p, l := q[0].qty as real, q[0].price, Level(rest) as real;
      ScaleBelow(lo, p, k);
      calc {
        lo * Level(q) as real;
        == lo * (k + l);
        == lo * k + lo * l;
        <= k * p + lo * l;
        <= k * p + Value(rest);
        == Value(q);
      }
    }
  }

  /** Over lots of positive quantity priced at most `hi`, the value is at most `hi` per unit. */
  lemma {:induction false} ValueAtMost(q: seq<Lot>, hi: real)
    requires AllPositive(q)
    requires forall i :: 0 <= i < |q| ==> q[i].price <= hi
    ensures Value(q) <= hi * Level(q) as real
  {
    if q != [] {
      var rest := q[1..];
      assert AllPositive(rest) by {
        forall i | 0 <= i < |rest| ensures rest[i].qty > 0 { assert rest[i] == q[i + 1]; }
      }
      assert forall i :: 0 <= i < |rest| ==> rest[i].price <= hi by {
        forall i | 0 <= i < |rest| ensures rest[i].price <= hi { assert rest[i] == q[i + 1]; }
      }
      ValueAtMost(rest, hi);
      var k, p, l := q[0].qty as real, q[0].price, Level(rest) as real;
      ScaleBelow(p, hi, k);
      calc {
        Value(q);
        == k * p + Value(rest);
        <= k * p + hi * l;
        <= hi * k + hi * l;
        == hi * (k + l);
        == hi * Level(q) as real;
      }
    }
  }

  lemma ScaleBelow(a: real, b: real, k: real)
    requires a <= b && k >= 0.0
    ensures a * k <= k * b
  {
  }

  /** The average unit cost of a non-empty queue lies between its cheapest and its dearest lot price. */
  lemma AveragePriceWithin(q: seq<Lot>, lo: real, hi: real)
    requires AllPositive(q) && q != []
    requires forall i :: 0 <= i < |q| ==> lo <= q[i].price <= hi
    ensures lo <= AveragePrice(q) <= hi
  {
    LevelNonNegative(q);
    ValueAtLeast(q, lo);
    ValueAtMost(q, hi);
    var l := Level(q) as real;
    var avg := AveragePrice(q);
    assert avg * l == Value(q);
    CancelPositive(lo, avg, l);
    CancelPositive(avg, hi, l);
  }

  lemma CancelPositive(a: real, b: real, k: real)
    requires k > 0.0 && a * k <= b * k
    ensures a <= b
  {
  }

  /** A row of the summary: `품목명, 현재고 수량, 평균 매입단가, 재고 자산금액`. */
  datatype SummaryRow = SummaryRow(item: string, qty: int, averagePrice: real, value: real)

  function Listed(summary: seq<SummaryRow>): set<string>
  {
    set r | r in summary :: r.item
  }

  /**
   * get_inventory_summary: one row per item whose stock level is not
   * negative, with the level, the average unit cost and the stock value.
   * The rows come in an unspecified order and no item is listed twice.
   */
  method GetInventorySummary(queues: Queues) returns (summary: seq<SummaryRow>)
    ensures forall r :: r in summary ==>
      && r.item in queues && r.qty == Level(queues[r.item]) && r.qty >= 0
      && r.value == Value(queues[r.item]) && r.averagePrice == AveragePrice(queues[r.item])
    ensures forall item :: item in queues ==> (item in Listed(summary) <==> Level(queues[item]) >= 0)
    ensures forall i, j :: 0 <= i < j < |summary| ==> summary[i].item != summary[j].item
  {
    summary := [];
    var pending := queues.Keys;
    while pending != {}
      invariant pending <= queues.Keys
      invariant forall r :: r in summary ==>
        && r.item in queues && r.item !in pending && r.qty == Level(queues[r.item]) && r.qty >= 0
        && r.value == Value(queues[r.item]) && r.averagePrice == AveragePrice(queues[r.item])
      invariant forall item :: item in queues && item !in pending ==> (item in Listed(summary) <==> Level(queues[item]) >= 0)
      invariant forall i, j :: 0 <= i < j < |summary| ==> summary[i].item != summary[j].item
      decreases pending
    {
      var item :| item in pending;
      var queue := queues[item];
      var totalQty := Level(queue);
      var totalValue := Value(queue);
      var avgPrice := if totalQty > 0 then totalValue / totalQty as real else 0.0;
      if totalQty >= 0 {
        summary := summary + [SummaryRow(item, totalQty, avgPrice, totalValue)];
      }
      pending := pending - {item};
    }
  }

  datatype Option<T> = None | Some(value: T)

  /** `get_next_out_schedule` either returns its table or raises. */
  datatype Outcome<T> = Success(value: T) | Failure

  /**
   * A row of the next-out schedule: the head lot (1순위), the second lot
   * (2순위) when there is one, and the number of lots.
   */
  datatype Entry = Entry(item: string, firstDate: Date, firstQty: int, firstPrice: real,
                         secondDate: Option<Date>, secondQty: Option<int>, layers: int)

  /** The intended row for a non-empty queue. */
  function EntryFor(item: string, q: seq<Lot>): (e: Entry)
    requires q != []
    ensures e.item == item
    ensures e.layers == |q| && e.firstDate == q[0].date && e.firstQty == q[0].qty && e.firstPrice == q[0].price
    ensures e.secondDate.Some? <==> |q| > 1
    ensures e.secondQty.Some? <==> |q| > 1
    ensures |q| > 1 ==> e.secondDate == Some(q[1].date) && e.secondQty == Some(q[1].qty)
  {
    var second := if |q| > 1 then Some(q[1]) else None;
    Entry(item, q[0].date, q[0].qty, q[0].price,
          if second.Some? then Some(second.value.date) else None,
          if second.Some? then Some(second.value.qty) else None,
          |q|)
  }

  /**
   * get_next_out_schedule as written: the items are visited in `order` (the
   * dictionary's order) and empty queues are skipped; for a queue of exactly
   * one lot, the 2순위 quantity is read from the missing second lot, which
   * raises and ends the whole read-out.
   */
  function NextOutScheduleAsWritten(queues: Queues, order: seq<string>): (r: Outcome<seq<Entry>>)
    requires forall i :: 0 <= i < |order| ==> order[i] in queues
    ensures r.Success? ==> |r.value| <= |order|
  {
    if order == [] then Success([])
    else
      var q := queues[order[0]];
      if q == [] then NextOutScheduleAsWritten(queues, order[1..])
      else if |q| == 1 then Failure
      else
        match NextOutScheduleAsWritten(queues, order[1..])
        case Failure => Failure
        case Success(rest) => Success([EntryFor(order[0], q)] + rest)
  }

  /**
   * get_next_out_schedule as intended: one row per non-empty queue, in
   * `order`, with no second lot reported when the queue has only one.
   */
  function NextOutSchedule(queues: Queues, order: seq<string>): (schedule: seq<Entry>)
    requires forall i :: 0 <= i < |order| ==> order[i] in queues
    ensures |schedule| <= |order|
  {
    if order == [] then []
    else
      var q := queues[order[0]];
      var rest := NextOutSchedule(queues, order[1..]);
      if q == [] then rest else [EntryFor(order[0], q)] + rest
  }

  /** The intended schedule lists exactly the items with a non-empty queue, each with its own queue's row. */
  lemma {:induction false} NextOutScheduleLists(queues: Queues, order: seq<string>)
    requires forall i :: 0 <= i < |order| ==> order[i] in queues
    ensures forall e :: e in NextOutSchedule(queues, order) ==>
      e.item in order && queues[e.item] != [] && e == EntryFor(e.item, queues[e.item])
    ensures forall item :: item in order && queues[item] != [] ==>
      EntryFor(item, queues[item]) in NextOutSchedule(queues, order)
  {
    if order != [] {
      NextOutScheduleLists(queues, order[1..]);
      forall item | item in order && queues[item] != []
        ensures EntryFor(item, queues[item]) in NextOutSchedule(queues, order)
      {
        if item != order[0] {
          var i :| 0 <= i < |order| && order[i] == item;
          assert order[1..][i - 1] == item;
        }
      }
    }
  }

  /**
   * The read-out as written fails exactly when some visited queue holds a
   * single lot, and otherwise returns the intended schedule.
   */
  lemma {:induction false} AsWrittenFailsOnSingleLot(queues: Queues, order: seq<string>)
    requires forall i :: 0 <= i < |order| ==> order[i] in queues
    ensures NextOutScheduleAsWritten(queues, order).Failure? <==> exists i :: 0 <= i < |order| && |queues[order[i]]| == 1
    ensures NextOutScheduleAsWritten(queues, order).Success? ==>
      NextOutScheduleAsWritten(queues, order).value == NextOutSchedule(queues, order)
  {
    if order != [] {
      AsWrittenFailsOnSingleLot(queues, order[1..]);
      if exists i :: 0 <= i < |order[1..]| && |queues[order[1..][i]]| == 1 {
        var i :| 0 <= i < |order[1..]| && |queues[order[1..][i]]| == 1;
        assert order[i + 1] == order[1..][i];
      }
      if exists i :: 0 <= i < |order| && |queues[order[i]]| == 1 {
        var i :| 0 <= i < |order| && |queues[order[i]]| == 1;
        if i > 0 {
          assert order[1..][i - 1] == order[i];
        }
      }
    }
  }

  /** A single item holding one lot is enough to make the read-out as written fail. */
  lemma SingleLotCounterexample()
    ensures NextOutScheduleAsWritten(map["A" := [Lot(1, 5, 100.0)]], ["A"]) == Failure
    ensures NextOutSchedule(map["A" := [Lot(1, 5, 100.0)]], ["A"]) == [Entry("A", 1, 5, 100.0, None, None, 1)]
  {
  }
}
