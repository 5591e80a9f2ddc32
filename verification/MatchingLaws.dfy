/** Matching in plain prices and arrival order: who trades with whom, at what price, and what is left. */
module MatchingLaws {
  import opened Types
  import opened BookSpec
  import opened BookLaws

  /** A price a taker with this limit may trade at: not above a buyer's, not below a seller's. */
  predicate Within(side: Side, limit: Option<I64>, price: int) {
    limit.Some? ==> if side.Buy? then price <= limit.value else limit.value <= price
  }

  /** Quantity resting at prices within a limit. */
  function DepthWithin(queue: seq<Order>, side: Side, limit: Option<I64>): nat {
    if queue == [] then 0
    else (if Within(side, limit, queue[0].Price()) then queue[0].qty else 0) + DepthWithin(queue[1..], side, limit)
  }

  // ------------------------------------------------------------------ one queue

  /** Highest bid first, lowest ask first. */
  lemma {:induction false} PricesInOrder(side: Side, queue: seq<Order>, i: nat, j: nat)
    requires GoodQueue(side, queue) && i < j < |queue|
    ensures queue[i].limit.Some? && queue[j].limit.Some?
    ensures if side.Buy? then queue[i].limit.value >= queue[j].limit.value
            else queue[i].limit.value <= queue[j].limit.value
  {
    MembersRestOn(side, queue);
    assert queue[i] in queue && queue[j] in queue;
    if i == 0 {
      assert queue[j] == queue[1..][j - 1] && queue[j] in queue[1..];
    } else {
      PricesInOrder(side, queue[1..], i - 1, j - 1);
    }
  }

  /** A fill of `taker` with `maker`, at the maker's price. */
  predicate FillOf(f: Fill, taker: Order, maker: Order) {
    && f.takerId == taker.id && f.takerSide == taker.side && f.timestamp == taker.timestamp
    && f.makerId == maker.id && maker.limit == Some(f.price) && 0 < f.qty <= maker.qty
  }

  /** Makers trade from the front, each in full before the next, at their own prices and within the taker's limit. */
  ghost predicate InTurn(fills: seq<Fill>, queue: seq<Order>, taker: Order) {
    && |fills| <= |queue|
    && (forall i :: 0 <= i < |fills| ==> FillOf(fills[i], taker, queue[i]))
    && (forall i :: 0 <= i < |fills| ==> Within(taker.side, taker.limit, fills[i].price))
    && (forall i :: 0 <= i < |fills| - 1 ==> fills[i].qty == queue[i].qty)
  }

  lemma InTurnNext(fill: Fill, fills: seq<Fill>, queue: seq<Order>, taker: Order)
    requires queue != [] && FillOf(fill, taker, queue[0]) && Within(taker.side, taker.limit, fill.price)
    requires fill.qty == queue[0].qty && InTurn(fills, queue[1..], taker)
    ensures InTurn([fill] + fills, queue, taker)
  {
    var all := [fill] + fills;
    forall i | 0 <= i < |all| ensures FillOf(all[i], taker, queue[i]) && Within(taker.side, taker.limit, all[i].price) {
      assert i > 0 ==> all[i] == fills[i - 1] && queue[i] == queue[1..][i - 1];
    }
    forall i | 0 <= i < |all| - 1 ensures all[i].qty == queue[i].qty {
      assert i > 0 ==> all[i] == fills[i - 1] && queue[i] == queue[1..][i - 1];
    }
  }

  lemma LastInTurn(fill: Fill, queue: seq<Order>, taker: Order)
    requires queue != [] && FillOf(fill, taker, queue[0]) && Within(taker.side, taker.limit, fill.price)
    ensures InTurn([fill], queue, taker)
  {
  }

  /** What is left of a queue once its orders have traded in turn: the last one may be left in part. */
  function LeftOf(queue: seq<Order>, fills: seq<Fill>): seq<Order>
    requires |fills| <= |queue|
    requires fills != [] ==> fills[|fills| - 1].qty <= queue[|fills| - 1].qty
  {
    if fills == [] then queue
    else
      var last := |fills| - 1;
      if fills[last].qty == queue[last].qty then queue[last + 1..]
      else [queue[last].(qty := queue[last].qty - fills[last].qty)] + queue[last + 1..]
  }

  lemma {:induction false} SweepInTurn(side: Side, queue: seq<Order>, taker: Order, want: U64)
    requires GoodQueue(side, queue)
    ensures var s := Sweep(queue, taker, want);
      && InTurn(s.fills, queue, taker) && s.queue == LeftOf(queue, s.fills)
      && (s.fills != [] && s.fills[|s.fills| - 1].qty < queue[|s.fills| - 1].qty ==> s.left == 0)
  {
    if want != 0 && queue != [] && taker.Accepts(queue[0].Price()) {
      var fill := Trade(taker, want, queue[0]);
      if fill.qty == queue[0].qty {
        SweepInTurn(side, queue[1..], taker, want - fill.qty);
        var rest := Sweep(queue[1..], taker, want - fill.qty);
        InTurnNext(fill, rest.fills, queue, taker);
        LeftOfNext(queue, fill, rest.fills);
      } else {
        LastInTurn(fill, queue, taker);
      }
    }
  }

  lemma LeftOfNext(queue: seq<Order>, fill: Fill, fills: seq<Fill>)
    requires queue != [] && fill.qty == queue[0].qty && |fills| < |queue|
    requires fills != [] ==> fills[|fills| - 1].qty <= queue[|fills|].qty
    ensures LeftOf(queue, [fill] + fills) == LeftOf(queue[1..], fills)
  {
    if fills != [] {
      assert ([fill] + fills)[|fills|] == fills[|fills| - 1];
      assert queue[1..][|fills| - 1] == queue[|fills|] && queue[1..][|fills|..] == queue[|fills| + 1..];
    }
  }

  /** Priced strictly beyond a limit: no market order leaves anything. */
  predicate Beyond(side: Side, limit: Option<I64>, price: int) {
    limit.Some? && if side.Buy? then price > limit.value else price < limit.value
  }

  /** Where the taker is left wanting, everything left is priced beyond its limit. */
  lemma {:induction false} LeftIsBeyond(side: Side, queue: seq<Order>, taker: Order, want: U64)
    requires GoodQueue(side, queue) && taker.side == side.Opposite()
    ensures var s := Sweep(queue, taker, want);
      s.left > 0 ==> forall o :: o in s.queue ==> Beyond(taker.side, taker.limit, o.Price())
  {
    if want == 0 || queue == [] {
    } else if !taker.Accepts(queue[0].Price()) {
      forall o | o in queue ensures Beyond(taker.side, taker.limit, o.Price()) {
        assert o == queue[0] || o in queue[1..];
      }
    } else if queue[0].qty <= want {
      LeftIsBeyond(side, queue[1..], taker, want - queue[0].qty);
    }
  }

  lemma {:induction false} DepthIsAvailable(queue: seq<Order>, taker: Order)
    ensures DepthWithin(queue, taker.side, taker.limit) == Available(queue, taker)
  {
    if queue != [] {
      DepthIsAvailable(queue[1..], taker);
    }
  }

  /** Where an order joins its queue: behind every price at least as good, ahead of every worse one. */
  lemma {:induction false} InsertPlace(side: Side, queue: seq<Order>, o: Order) returns (k: nat)
    requires GoodQueue(side, queue)
    ensures k <= |queue| && Insert(side, queue, o) == queue[..k] + [o] + queue[k..]
    ensures forall x :: x in queue[..k] ==> if side.Buy? then x.Price() >= o.Price() else x.Price() <= o.Price()
    ensures forall x :: x in queue[k..] ==> if side.Buy? then x.Price() < o.Price() else x.Price() > o.Price()
  {
    if queue == [] || Before(side, o.Price(), queue[0].Price()) {
      k := 0;
      forall x | x in queue ensures if side.Buy? then x.Price() < o.Price() else x.Price() > o.Price() {
        assert x == queue[0] || x in queue[1..];
      }
    } else {
      var j := InsertPlace(side, queue[1..], o);
      k := j + 1;
      assert queue[..k] == [queue[0]] + queue[1..][..j] && queue[k..] == queue[1..][j..];
    }
  }

  // ------------------------------------------------------------------ one submit

  /** What an accepted order found: how much was within its limit on the other side. */
  function Found(book: Book, order: Order): nat {
    DepthWithin(book.Of(order.side.Opposite()), order.side, order.limit)
  }

  /**
   * An accepted order trades all there is within its limit, up to its size: best price first, and earliest first
   * at a price; unless it must be filled whole and there is too little, when it trades nothing.
   */
  lemma SubmitTrades(book: Book, order: Order)
    requires WellFormed(book) && Submit(book, order).1.Ok?
    ensures var (after, r) := Submit(book, order);
      var against, killed := order.side.Opposite(), order.tif.FOK? && Found(book, order) < order.qty;
      && (r.value.outcome.Killed? <==> killed)
      && r.value.filledQty == (if killed then 0 else Min(order.qty, Found(book, order)))
      && FilledQty(r.value.fills) == r.value.filledQty
      && InTurn(r.value.fills, book.Of(against), order)
      && after.Of(against) == LeftOf(book.Of(against), r.value.fills)
  {
    var against := order.side.Opposite();
    DepthIsAvailable(book.Of(against), order);
    SweepTakesAvailable(against, book.Of(against), order, order.qty);
    SweepConserves(book.Of(against), order, order.qty);
    SweepInTurn(against, book.Of(against), order, order.qty);
  }

  /** An order left wanting leaves nothing on the other side that it could have traded with. */
  lemma SubmitLeavesBeyond(book: Book, order: Order)
    requires WellFormed(book) && Submit(book, order).1.Ok?
    ensures var (after, r) := Submit(book, order);
      r.value.outcome.Resting? || r.value.outcome.Cancelled? ==>
        forall o :: o in after.Of(order.side.Opposite()) ==> Beyond(order.side, order.limit, o.Price())
  {
    LeftIsBeyond(order.side.Opposite(), book.Of(order.side.Opposite()), order, order.qty);
  }

  /** What rests is the order itself with what is left of it, last in line at its price; nothing else joins its side. */
  lemma RestsInLine(book: Book, order: Order) returns (k: nat)
    requires WellFormed(book) && Submit(book, order).1.Ok?
    ensures var (after, r) := Submit(book, order);
      var own := book.Of(order.side);
      if r.value.outcome.Resting? then
        && k <= |own| && order.limit.Some?
        && after.Of(order.side) == own[..k] + [order.(qty := order.qty - r.value.filledQty)] + own[k..]
        && (forall x :: x in own[..k] ==>
              if order.side.Buy? then x.Price() >= order.limit.value else x.Price() <= order.limit.value)
        && (forall x :: x in own[k..] ==>
              if order.side.Buy? then x.Price() < order.limit.value else x.Price() > order.limit.value)
      else after.Of(order.side) == own
  {
    var s := Sweep(book.Of(order.side.Opposite()), order, order.qty);
    SweepBound(book.Of(order.side.Opposite()), order, order.qty);
    k := InsertPlace(order.side, book.Of(order.side), order.(qty := s.left));
  }

  /** Which orders are rejected, and that rejecting one changes nothing. */
  lemma RejectsExactly(book: Book, order: Order)
    ensures var (after, r) := Submit(book, order);
      var rests := order.tif.GTC?;
      && (r.Err? ==> after == book)
      && (r.Err? <==>
            || order.qty == 0
            || (order.limit.Some? && order.limit.value <= 0)
            || (order.limit.None? && rests)
            || order.id in Ids(book.bids) || order.id in Ids(book.asks)
            || (order.limit.Some? && rests
                && QtyAt(book.Of(order.side), order.limit.value) + order.qty >= 0x1_0000_0000_0000_0000))
  {
  }

  /** A fill-or-kill order is filled whole exactly when there is enough within its limit, and else leaves no trace. */
  lemma FillOrKillByDepth(book: Book, order: Order)
    requires WellFormed(book) && order.tif.FOK? && Submit(book, order).1.Ok?
    ensures var (after, r) := Submit(book, order);
      if order.qty <= Found(book, order) then r.value.outcome.Filled? && r.value.filledQty == order.qty
      else r.value == SubmitResult([], 0, Killed) && after == book
  {
    SubmitTrades(book, order);
    FillOrKill(book, order);
    DepthIsAvailable(book.Of(order.side.Opposite()), order);
  }
}
