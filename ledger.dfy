/**
 * The effect of one transaction on the item queues, and the rebuild of all
 * queues by replaying a transaction history from scratch
 * (reconstruct_queues).  The costed transaction handlers of the variants are
 * proved to have the same effect on the queues as one replay step, so that
 * replaying a history processed in order gives back the queues that were
 * built incrementally.
 */
module Ledger {
  import opened Lots

  /** `구분`: 입고 (receipt), 출고 (issue), or any other label, which no branch handles. */
  datatype Action = Receipt | Issue | Other

  /** What a history row tells the replay: date, item, kind, quantity and unit cost. */
  datatype Movement = Movement(date: Date, item: string, action: Action, qty: int, price: real)

  /**
   * One transaction applied to the queues.  The item's queue exists
   * afterwards whatever the kind; a receipt appends one lot at the tail, an
   * issue consumes head-first and drops any shortfall.
   */
  function Apply(m: Queues, mv: Movement): (r: Queues)
    ensures mv.item in r
    ensures mv.action != Receipt ==> |r[mv.item]| <= |QueueOf(m, mv.item)|
  {
    var q := QueueOf(m, mv.item);
    match mv.action
    case Receipt => m[mv.item := q + [Lot(mv.date, mv.qty, mv.price)]]
    case Issue => m[mv.item := Drain(q, mv.qty)]
    case Other => m[mv.item := q]
  }

  /**
   * One row of the replay loop of reconstruct_queues, on a map that already
   * holds the item's queue: a receipt appends, an issue drains head-first,
   * anything else is skipped.
   */
  method ReplayMovement(m: Queues, mv: Movement) returns (r: Queues)
    requires mv.item in m
    ensures r == Apply(m, mv)
  {
    r := m;
    if mv.action == Receipt {
      r := m[mv.item := m[mv.item] + [Lot(mv.date, mv.qty, mv.price)]];
    } else if mv.action == Issue {
      var q := DrainFromQueue(m[mv.item], mv.qty);
      r := m[mv.item := q];
    }
  }

  /**
   * The replay loop of reconstruct_queues, row after row, over a map that
   * already holds a queue for every item the rows name.
   */
  method ReplayAll(start: Queues, ms: seq<Movement>) returns (queues: Queues)
    requires forall i :: 0 <= i < |ms| ==> ms[i].item in start
    ensures queues == Fold(start, ms)
  {
    queues := start;
    var i := 0;
    while i < |ms|
      invariant 0 <= i <= |ms|
      invariant queues == Fold(start, ms[..i])
    {
      FoldStep(start, ms, i);
      queues := ReplayMovement(queues, ms[i]);
      i := i + 1;
    }
    assert ms[..|ms|] == ms;
  }

  /** The movements applied one after the other, starting from `m`. */
  function Fold(m: Queues, ms: seq<Movement>): Queues
    decreases |ms|
  {
    if ms == [] then m else Apply(Fold(m, ms[..|ms| - 1]), ms[|ms| - 1])
  }

  /** The items named anywhere in the history. */
  function Items(ms: seq<Movement>): set<string>
  {
    set i | 0 <= i < |ms| :: ms[i].item
  }

  /** `{item: deque() for item in items}`: an empty queue per item of the history. */
  function Fresh(ms: seq<Movement>): Queues
  {
    map item | item in Items(ms) :: []
  }

  /** reconstruct_queues: discard the queues and rebuild them from the history alone. */
  function Replay(ms: seq<Movement>): (r: Queues)
    ensures forall i :: 0 <= i < |ms| ==> ms[i].item in r
  {
    FoldKeys(Fresh(ms), ms);
    Fold(Fresh(ms), ms)
  }

  /** Two queue maps that give every item the same queue (absent meaning empty). */
  ghost predicate Agree(m1: Queues, m2: Queues)
  {
    forall item :: QueueOf(m1, item) == QueueOf(m2, item)
  }

  /** Folding adds a queue for every item the movements name, and removes none. */
  lemma {:induction false} FoldKeys(m: Queues, ms: seq<Movement>)
    ensures Fold(m, ms).Keys == m.Keys + Items(ms)
    decreases |ms|
  {
    if ms != [] {
      var init, mv := ms[..|ms| - 1], ms[|ms| - 1];
      FoldKeys(m, init);
      ItemsSplit(ms);
      assert Apply(Fold(m, init), mv).Keys == Fold(m, init).Keys + {mv.item};
    }
  }

  /** The items of a history are those of all rows but the last, and the last row's. */
  lemma ItemsSplit(ms: seq<Movement>)
    requires ms != []
    ensures Items(ms) == Items(ms[..|ms| - 1]) + {ms[|ms| - 1].item}
  {
    var init := ms[..|ms| - 1];
    forall item | item in Items(ms) ensures item in Items(init) + {ms[|ms| - 1].item} {
      var i :| 0 <= i < |ms| && ms[i].item == item;
      if i < |init| {
        assert init[i] == ms[i];
      }
    }
    forall item | item in Items(init) ensures item in Items(ms) {
      var i :| 0 <= i < |init| && init[i].item == item;
      assert ms[i] == init[i];
    }
  }

  /** Maps that give every item the same queue still do after the same movements. */
  lemma {:induction false} FoldAgrees(m1: Queues, m2: Queues, ms: seq<Movement>)
    requires Agree(m1, m2)
    ensures Agree(Fold(m1, ms), Fold(m2, ms))
    decreases |ms|
  {
    if ms != [] {
      var init, mv := ms[..|ms| - 1], ms[|ms| - 1];
      FoldAgrees(m1, m2, init);
      var f1, f2 := Fold(m1, init), Fold(m2, init);
      assert QueueOf(f1, mv.item) == QueueOf(f2, mv.item);
      forall item ensures QueueOf(Apply(f1, mv), item) == QueueOf(Apply(f2, mv), item) {
        assert QueueOf(f1, item) == QueueOf(f2, item);
      }
    }
  }

  /**
   * One step of the replay loop: the map built so far still holds a queue
   * for the next movement's item, and the next prefix of the fold is that
   * map with the movement applied.
   */
  lemma FoldStep(start: Queues, ms: seq<Movement>, i: nat)
    requires i < |ms|
    requires forall j :: 0 <= j < |ms| ==> ms[j].item in start
    ensures ms[i].item in Fold(start, ms[..i])
    ensures Fold(start, ms[..i + 1]) == Apply(Fold(start, ms[..i]), ms[i])
  {
    assert ms[..i + 1][..i] == ms[..i];
    FoldKeys(start, ms[..i]);
  }

  /**
   * Rebuilding with an empty queue per history item up front gives exactly
   * the map obtained by applying the history transaction by transaction to
   * an empty map, which is how the costed handlers build it.
   */
  lemma ReplayIsIncremental(ms: seq<Movement>)
    ensures Replay(ms) == Fold(map[], ms)
  {
    var m1: Queues := Fresh(ms);
    var m2: Queues := map[];
    assert m1.Keys == Items(ms);
    assert Agree(m1, m2) && Agree(m2, m1);
    FoldAgrees(m1, m2, ms);
    FoldKeys(m1, ms);
    FoldKeys(m2, ms);
    var r1, r2 := Fold(m1, ms), Fold(m2, ms);
    assert r1.Keys == r2.Keys;
    forall item | item in r1 ensures r1[item] == r2[item] {
      assert QueueOf(r1, item) == QueueOf(r2, item);
    }
  }

  /** Replaying one more transaction is applying it to the replayed queues. */
  lemma ReplayStep(ms: seq<Movement>, mv: Movement)
    ensures Replay(ms + [mv]) == Apply(Replay(ms), mv)
  {
    ReplayIsIncremental(ms);
    ReplayIsIncremental(ms + [mv]);
    assert (ms + [mv])[..|ms + [mv]| - 1] == ms;
  }

  /** The rebuilt map has a queue for exactly the items of the history. */
  lemma ReplayKeys(ms: seq<Movement>)
    ensures Replay(ms).Keys == Items(ms)
  {
    FoldKeys(Fresh(ms), ms);
  }

  /** Every receipt in the history has a positive quantity. */
  ghost predicate PositiveReceipts(ms: seq<Movement>)
  {
    forall i :: 0 <= i < |ms| && ms[i].action == Receipt ==> ms[i].qty > 0
  }

  /** Every queue of the map holds only lots of positive quantity. */
  ghost predicate LotsPositive(m: Queues)
  {
    forall item :: item in m ==> AllPositive(m[item])
  }

  /** A transaction keeps every lot positive when a receipt's quantity is positive. */
  lemma ApplyKeepsPositive(m: Queues, mv: Movement)
    requires LotsPositive(m)
    requires mv.action == Receipt ==> mv.qty > 0
    ensures LotsPositive(Apply(m, mv))
  {
    var q := QueueOf(m, mv.item);
    if mv.action == Issue {
      DrainIsConsume(q, mv.qty);
      ConsumeKeepsPositive(q, mv.qty);
    }
  }

  /** With positive receipt quantities, every lot left after a replay is positive. */
  lemma {:induction false} FoldKeepsPositive(m: Queues, ms: seq<Movement>)
    requires LotsPositive(m) && PositiveReceipts(ms)
    ensures LotsPositive(Fold(m, ms))
    decreases |ms|
  {
    if ms != [] {
      var init := ms[..|ms| - 1];
      assert PositiveReceipts(init) by {
        forall i | 0 <= i < |init| && init[i].action == Receipt ensures init[i].qty > 0 {
          assert init[i] == ms[i];
        }
      }
      FoldKeepsPositive(m, init);
      ApplyKeepsPositive(Fold(m, init), ms[|ms| - 1]);
    }
  }

  /** With positive receipt quantities, every lot of a rebuilt map is positive. */
  lemma ReplayKeepsPositive(ms: seq<Movement>)
    requires PositiveReceipts(ms)
    ensures LotsPositive(Replay(ms))
  {
    FoldKeepsPositive(Fresh(ms), ms);
  }
}
