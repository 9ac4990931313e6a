/**
 * The per-item FIFO lot queue shared by every variant of the ledger.
 *
 * A queue is a sequence of lots, oldest first.  A receipt appends a lot at
 * the tail; an issue consumes lots from the head: a head lot whose quantity
 * is no more than what is still needed is used up and removed, otherwise its
 * quantity is reduced and it stays at the head.  A shortage is a result, not
 * an error.
 */
module Lots {

  /** A timestamp, ordered like the source's pandas datetimes. */
  type Date = int

  /** One receipt of stock not yet fully consumed (`{date, qty, price}`). */
  datatype Lot = Lot(date: Date, qty: int, price: real)

  /** The item-name -> queue dictionary every variant keeps. */
  type Queues = map<string, seq<Lot>>

  /**
   * One lot touched by an issue: the fifo_breakdown entry (date, quantity
   * used, unit cost, line cost) together with the batch_status entry (date,
   * quantity left in the lot afterwards; 0 for a lot that was popped).
   */
  datatype Line = Line(date: Date, used: int, price: real, left: int) {
    /** The line's cost, `use_qty * price`. */
    function Cost(): real { used as real * price }
    /** The value still held by the lot afterwards (batch_status amount). */
    function LeftValue(): real { left as real * price }
  }

  /**
   * The outcome of an issue against a queue: the queue afterwards, the
   * accumulated cost of goods sold, the breakdown lines in consumption order
   * and the quantity still needed when the loop stopped.
   */
  datatype Consumption = Consumption(queue: seq<Lot>, cost: real, lines: seq<Line>, remaining: int)

  /** `dict.get(item, [])`: an unknown item has an empty queue. */
  function QueueOf(m: Queues, item: string): seq<Lot>
  {
    if item in m then m[item] else []
  }

  /** Stock level: the sum of the lots' quantities. */
  function Level(q: seq<Lot>): int
  {
    if q == [] then 0 else q[0].qty + Level(q[1..])
  }

  /** Stock value: the sum of quantity times unit cost over the lots. */
  function Value(q: seq<Lot>): real
  {
    if q == [] then 0.0 else q[0].qty as real * q[0].price + Value(q[1..])
  }

  /** Every lot holds a positive quantity. */
  ghost predicate AllPositive(q: seq<Lot>)
  {
    forall i :: 0 <= i < |q| ==> q[i].qty > 0
  }

  /** Sum of the quantities used over breakdown lines. */
  function TotalUsed(lines: seq<Line>): int
  {
    if lines == [] then 0 else lines[0].used + TotalUsed(lines[1..])
  }

  /** Sum of the line costs over breakdown lines. */
  function TotalCost(lines: seq<Line>): real
  {
    if lines == [] then 0.0 else lines[0].Cost() + TotalCost(lines[1..])
  }

  function Min(a: int, b: int): int { if a <= b then a else b }

  /**
   * The costed issue loop: consume `n` from the head of `q`.  Whole lots
   * no larger than what is still needed are used up and popped; the first
   * larger lot is decremented in place and ends the issue; what the queue
   * cannot cover is left as `remaining`.
   */
  function Consume(q: seq<Lot>, n: int): (c: Consumption)
    ensures |c.queue| <= |q|
    decreases |q|
  {
    if n <= 0 || q == [] then
      Consumption(q, 0.0, [], n)
    else if q[0].qty <= n then
      var line := Line(q[0].date, q[0].qty, q[0].price, 0);
      var c := Consume(q[1..], n - q[0].qty);
      Consumption(c.queue, line.Cost() + c.cost, [line] + c.lines, c.remaining)
    else
      var line := Line(q[0].date, n, q[0].price, q[0].qty - n);
      Consumption([q[0].(qty := q[0].qty - n)] + q[1..], line.Cost(), [line], 0)
  }

  /**
   * The breakdown accounts for the issue: the cost is the sum of the line
   * costs, the quantities on the lines add up to what was taken, and there
   * is at most one line per lot.
   */
  lemma {:induction false} ConsumeLines(q: seq<Lot>, n: int)
    ensures var c := Consume(q, n);
      && c.cost == TotalCost(c.lines)
      && TotalUsed(c.lines) == n - c.remaining
      && |c.lines| <= |q|
    decreases |q|
  {
    if n > 0 && q != [] && q[0].qty <= n {
      ConsumeLines(q[1..], n - q[0].qty);
    }
  }

  /** The stock value drops by exactly the cost charged. */
  lemma {:induction false} ConsumeValue(q: seq<Lot>, n: int)
    ensures Value(q) == Value(Consume(q, n).queue) + Consume(q, n).cost
    decreases |q|
  {
    if n > 0 && q != [] {
      if q[0].qty <= n {
        ConsumeValue(q[1..], n - q[0].qty);
        var line := Line(q[0].date, q[0].qty, q[0].price, 0);
        var c := Consume(q[1..], n - q[0].qty);
        assert Consume(q, n) == Consumption(c.queue, line.Cost() + c.cost, [line] + c.lines, c.remaining);
        assert Value(q) == line.Cost() + Value(q[1..]);
      } else {
        var head := q[0].(qty := q[0].qty - n);
        var rest := [head] + q[1..];
        assert Consume(q, n).queue == rest;
        assert Consume(q, n).cost == n as real * q[0].price;
        assert rest != [] && rest[0] == head && rest[1..] == q[1..];
        assert Value(rest) == head.qty as real * head.price + Value(q[1..]);
        SplitProduct(q[0].qty, n, q[0].price);
      }
    }
  }

  lemma SplitProduct(k: int, n: int, p: real)
    ensures (k - n) as real * p + n as real * p == k as real * p
  {
  }

  /**
   * The loop invariant of every costed issue loop: issuing `n0` from `q0`
   * is the same as having charged `cost` and written `lines` so far, then
   * issuing `n` from what is left of the queue, `q`.
   */
  ghost predicate ConsumedSoFar(q0: seq<Lot>, n0: int, q: seq<Lot>, n: int, cost: real, lines: seq<Line>)
  {
    var c := Consume(q, n);
    Consume(q0, n0) == Consumption(c.queue, cost + c.cost, lines + c.lines, c.remaining)
  }

  lemma ConsumedSoFarStart(q: seq<Lot>, n: int)
    ensures ConsumedSoFar(q, n, q, n, 0.0, [])
  {
    assert [] + Consume(q, n).lines == Consume(q, n).lines;
  }

  /** A head lot no larger than the need is used up and popped. */
  lemma ConsumedSoFarPop(q0: seq<Lot>, n0: int, q: seq<Lot>, n: int, cost: real, lines: seq<Line>)
    requires ConsumedSoFar(q0, n0, q, n, cost, lines)
    requires n > 0 && q != [] && q[0].qty <= n
    ensures ConsumedSoFar(q0, n0, q[1..], n - q[0].qty, cost + q[0].qty as real * q[0].price,
                          lines + [Line(q[0].date, q[0].qty, q[0].price, 0)])
  {
    var line := Line(q[0].date, q[0].qty, q[0].price, 0);
    var c := Consume(q[1..], n - q[0].qty);
    assert Consume(q, n) == Consumption(c.queue, line.Cost() + c.cost, [line] + c.lines, c.remaining);
    assert (lines + [line]) + c.lines == lines + ([line] + c.lines);
  }

  /** A head lot larger than the need is decremented, stays at the head, and the loop ends. */
  lemma ConsumedSoFarPartial(q0: seq<Lot>, n0: int, q: seq<Lot>, n: int, cost: real, lines: seq<Line>)
    requires ConsumedSoFar(q0, n0, q, n, cost, lines)
    requires n > 0 && q != [] && q[0].qty > n
    ensures ConsumedSoFar(q0, n0, [q[0].(qty := q[0].qty - n)] + q[1..], 0, cost + n as real * q[0].price,
                          lines + [Line(q[0].date, n, q[0].price, q[0].qty - n)])
  {
    var rest := [q[0].(qty := q[0].qty - n)] + q[1..];
    assert Consume(rest, 0) == Consumption(rest, 0.0, [], 0);
  }

  /** When the loop stops, the accumulated values are the result of the whole issue. */
  lemma ConsumedSoFarDone(q0: seq<Lot>, n0: int, q: seq<Lot>, n: int, cost: real, lines: seq<Line>)
    requires ConsumedSoFar(q0, n0, q, n, cost, lines)
    requires n <= 0 || q == []
    ensures Consume(q0, n0) == Consumption(q, cost, lines, n)
  {
    assert lines + [] == lines;
  }

  /**
   * The costed issue loop the session variants share, on the item's queue:
   * a head lot no larger than what is still needed is used up and popped,
   * otherwise it is decremented in place and the loop ends.  Every lot
   * touched adds its cost and one breakdown line (with the quantity the lot
   * still holds afterwards).
   */
  method IssueFromQueue(q: seq<Lot>, n: int) returns (queue: seq<Lot>, cost: real, lines: seq<Line>, remaining: int)
    ensures Consumption(queue, cost, lines, remaining) == Consume(q, n)
  {
    queue, cost, lines, remaining := q, 0.0, [], n;
    ConsumedSoFarStart(q, n);
    while remaining > 0 && queue != []
      invariant ConsumedSoFar(q, n, queue, remaining, cost, lines)
      decreases |queue|, if remaining > 0 then 1 else 0
    {
      queue, cost, lines, remaining := IssueFromHead(q, n, queue, cost, lines, remaining);
    }
    ConsumedSoFarDone(q, n, queue, remaining, cost, lines);
  }

  /**
   * One turn of the costed issue loop on a non-empty queue with something
   * still needed: the head lot is popped whole or decremented in place, its
   * cost is added and its breakdown line written.
   */
  method IssueFromHead(ghost q0: seq<Lot>, ghost n0: int, queue: seq<Lot>, cost: real, lines: seq<Line>, remaining: int)
    returns (queue': seq<Lot>, cost': real, lines': seq<Line>, remaining': int)
    requires remaining > 0 && queue != []
    requires ConsumedSoFar(q0, n0, queue, remaining, cost, lines)
    ensures ConsumedSoFar(q0, n0, queue', remaining', cost', lines')
    ensures |queue'| < |queue| || (|queue'| == |queue| && remaining' == 0)
  {
    var batch := queue[0];
    if batch.qty <= remaining {
      queue', remaining', cost', lines' :=
        queue[1..], remaining - batch.qty, cost + batch.qty as real * batch.price,
        lines + [Line(batch.date, batch.qty, batch.price, 0)];
      assert ConsumedSoFar(q0, n0, queue', remaining', cost', lines') by {
        ConsumedSoFarPop(q0, n0, queue, remaining, cost, lines);
      }
    } else {
      queue', remaining', cost', lines' :=
        [batch.(qty := batch.qty - remaining)] + queue[1..], 0, cost + remaining as real * batch.price,
        lines + [Line(batch.date, remaining, batch.price, batch.qty - remaining)];
      assert ConsumedSoFar(q0, n0, queue', remaining', cost', lines') by {
        ConsumedSoFarPartial(q0, n0, queue, remaining, cost, lines);
      }
    }
  }

  /**
   * The cost-free replay loop of reconstruct_queues: the same head-first rule,
   * keeping only the queue.
   */
  function Drain(q: seq<Lot>, n: int): (r: seq<Lot>)
    ensures |r| <= |q|
    decreases |q|
  {
    if n <= 0 || q == [] then q
    else if q[0].qty <= n then Drain(q[1..], n - q[0].qty)
    else [q[0].(qty := q[0].qty - n)] + q[1..]
  }

  /**
   * The cost-free issue loop of the rebuild, on the item's queue: the same
   * head-first rule, keeping only the queue and dropping any shortfall.
   */
  method DrainFromQueue(q: seq<Lot>, n: int) returns (queue: seq<Lot>)
    ensures queue == Drain(q, n)
  {
    queue := q;
    var qty := n;
    while qty > 0 && queue != []
      invariant Drain(queue, qty) == Drain(q, n)
      decreases |queue|, if qty > 0 then 1 else 0
    {
      if queue[0].qty <= qty {
        qty := qty - queue[0].qty;
        queue := queue[1..];
      } else {
        queue := [queue[0].(qty := queue[0].qty - qty)] + queue[1..];
        qty := 0;
      }
    }
  }

  /** The replay step leaves exactly the queue the costed issue loop leaves. */
  lemma {:induction false} DrainIsConsume(q: seq<Lot>, n: int)
    ensures Drain(q, n) == Consume(q, n).queue
    decreases |q|
  {
    if n > 0 && q != [] && q[0].qty <= n {
      DrainIsConsume(q[1..], n - q[0].qty);
    }
  }

  /** Over lots of positive quantity the level is not negative and covers the head lot. */
  lemma {:induction false} LevelNonNegative(q: seq<Lot>)
    requires AllPositive(q)
    ensures Level(q) >= 0
    ensures q != [] ==> Level(q) >= q[0].qty
  {
    if q != [] {
      assert AllPositive(q[1..]) by {
        forall i | 0 <= i < |q[1..]| ensures q[1..][i].qty > 0 { assert q[1..][i] == q[i + 1]; }
      }
      LevelNonNegative(q[1..]);
    }
  }

  /** A receipt raises the level by its quantity. */
  lemma {:induction false} LevelAppend(q: seq<Lot>, lot: Lot)
    ensures Level(q + [lot]) == Level(q) + lot.qty
  {
    if q != [] {
      assert (q + [lot])[1..] == q[1..] + [lot];
      LevelAppend(q[1..], lot);
    }
  }

  /** A receipt raises the stock value by quantity times unit cost. */
  lemma {:induction false} ValueAppend(q: seq<Lot>, lot: Lot)
    ensures Value(q + [lot]) == Value(q) + lot.qty as real * lot.price
  {
    if q != [] {
      assert (q + [lot])[1..] == q[1..] + [lot];
      ValueAppend(q[1..], lot);
    }
  }

  /**
   * Conservation: over lots of positive quantity, an issue of n >= 0 takes
   * min(n, level), lowers the level by exactly that, reports the rest as the
   * shortfall (zero exactly when the stock sufficed) and leaves only lots of
   * positive quantity.
   */
  lemma {:induction false} ConsumeConserves(q: seq<Lot>, n: int)
    requires AllPositive(q) && n >= 0
    ensures var c := Consume(q, n);
      && n - c.remaining == Min(n, Level(q))
      && Level(c.queue) == Level(q) - (n - c.remaining)
      && c.remaining >= 0
      && (c.remaining == 0 <==> n <= Level(q))
      && AllPositive(c.queue)
    decreases |q|
  {
    LevelNonNegative(q);
    if n > 0 && q != [] {
      assert AllPositive(q[1..]) by {
        forall i | 0 <= i < |q[1..]| ensures q[1..][i].qty > 0 { assert q[1..][i] == q[i + 1]; }
      }
      LevelNonNegative(q[1..]);
      if q[0].qty <= n {
        ConsumeConserves(q[1..], n - q[0].qty);
      } else {
        var head := q[0].(qty := q[0].qty - n);
        assert Level([head] + q[1..]) == head.qty + Level(q[1..]);
      }
    }
  }

  /** Issues never create a lot of non-positive quantity (any n). */
  lemma {:induction false} ConsumeKeepsPositive(q: seq<Lot>, n: int)
    requires AllPositive(q)
    ensures AllPositive(Consume(q, n).queue)
  {
    if n > 0 {
      ConsumeConserves(q, n);
    }
  }

  /**
   * Head-first order, first part: with k breakdown lines, the lines describe
   * the first k lots of the queue, in order, with their dates and unit costs.
   */
  lemma {:induction false} ConsumeFollowsQueue(q: seq<Lot>, n: int)
    ensures var c := Consume(q, n);
      && |c.lines| <= |q|
      && (forall i :: 0 <= i < |c.lines| ==> c.lines[i].date == q[i].date && c.lines[i].price == q[i].price)
    decreases |q|
  {
    if n > 0 && q != [] && q[0].qty <= n {
      ConsumeFollowsQueue(q[1..], n - q[0].qty);
      var c' := Consume(q[1..], n - q[0].qty);
      var c := Consume(q, n);
      forall i | 1 <= i < |c.lines|
        ensures c.lines[i].date == q[i].date && c.lines[i].price == q[i].price
      {
        assert c.lines[i] == c'.lines[i - 1] && q[i] == q[1..][i - 1];
      }
    }
  }

  /**
   * Head-first order, second part: only the last breakdown line can be a
   * partial consumption; every earlier line used up its whole lot (left 0).
   */
  lemma {:induction false} OnlyLastLinePartial(q: seq<Lot>, n: int)
    ensures var c := Consume(q, n);
      forall i :: 0 <= i < |c.lines| - 1 ==> i < |q| && c.lines[i].used == q[i].qty && c.lines[i].left == 0
    decreases |q|
  {
    if n > 0 && q != [] && q[0].qty <= n {
      OnlyLastLinePartial(q[1..], n - q[0].qty);
      ConsumeLines(q[1..], n - q[0].qty);
      var c' := Consume(q[1..], n - q[0].qty);
      var c := Consume(q, n);
      assert c.lines == [Line(q[0].date, q[0].qty, q[0].price, 0)] + c'.lines;
      forall i | 0 <= i < |c.lines| - 1
        ensures i < |q| && c.lines[i].used == q[i].qty && c.lines[i].left == 0
      {
        if i > 0 {
          assert c.lines[i] == c'.lines[i - 1] && q[i] == q[1..][i - 1];
        }
      }
    }
  }

  /**
   * Head-first order, third part: what the queue looks like afterwards.
   * Either the last line is a partial consumption -- that lot stays at the
   * head holding the leftover and nothing is still needed -- or every lot
   * touched was popped whole and the queue is what lay behind them.
   */
  lemma {:induction false} ConsumeLeavesTail(q: seq<Lot>, n: int)
    ensures var c := Consume(q, n); var k := |c.lines|;
      && k <= |q|
      && if k > 0 && c.lines[k - 1].left > 0 then
           && c.lines[k - 1].used > 0
           && c.lines[k - 1].used + c.lines[k - 1].left == q[k - 1].qty
           && c.queue == [q[k - 1].(qty := c.lines[k - 1].left)] + q[k..]
           && c.remaining == 0
         else
           && c.queue == q[k..]
           && (k > 0 ==> c.lines[k - 1].used == q[k - 1].qty && c.lines[k - 1].left == 0)
    decreases |q|
  {
    if n > 0 && q != [] && q[0].qty <= n {
      ConsumeLeavesTail(q[1..], n - q[0].qty);
      var c' := Consume(q[1..], n - q[0].qty);
      var k' := |c'.lines|;
      if k' > 0 {
        assert q[1..][k' - 1] == q[k'];
        assert q[1..][k'..] == q[k' + 1..];
      }
    }
  }

  /** Stock on hand covers the request: nothing is left unissued. */
  lemma FullyCovered(q: seq<Lot>, n: int)
    requires AllPositive(q) && 0 <= n <= Level(q)
    ensures Consume(q, n).remaining == 0
  {
    ConsumeConserves(q, n);
  }

  /** Issuing the whole stock empties the queue. */
  lemma {:induction false} ConsumeAllEmpties(q: seq<Lot>)
    requires AllPositive(q)
    ensures Consume(q, Level(q)).queue == []
    ensures Consume(q, Level(q)).remaining == 0
    ensures Consume(q, Level(q)).cost == Value(q)
    decreases |q|
  {
    LevelNonNegative(q);
    if q != [] {
      assert AllPositive(q[1..]) by {
        forall i | 0 <= i < |q[1..]| ensures q[1..][i].qty > 0 { assert q[1..][i] == q[i + 1]; }
      }
      LevelNonNegative(q[1..]);
      ConsumeAllEmpties(q[1..]);
    }
  }
}
