/** The order book as the source keeps it: price levels, cached totals and an id index, changed in place. */
module OrderBooks {
  import opened Types
  import opened BookSpec
  import opened BookLaws
  import opened BestPrices
  import opened Levels
  import opened BookInvariant
  import Reference = ReferenceBook

  /** Matching only takes ids out of the index. */
  lemma IndexAfterMatch(index: Index, book: Book, taker: Order, after: Index)
    requires IndexExact(index, book)
    requires forall id :: id in after ==> id in index && after[id] == index[id]
    requires var against := taker.side.Opposite();
             after.Keys == Ids(book.Of(taker.side)) + Ids(Sweep(book.Of(against), taker, taker.qty).queue)
    ensures var against := taker.side.Opposite();
            IndexExact(after, book.With(against, Sweep(book.Of(against), taker, taker.qty).queue))
  {
    var against := taker.side.Opposite();
    SweepMembers(book.Of(against), taker, taker.qty);
    MembersHaveIds(Sweep(book.Of(against), taker, taker.qty).queue);
    MembersHaveIds(book.Of(taker.side));
  }

  /** The index, narrowed to the untouched side and the orders still queued on the other. */
  ghost predicate Narrowed(index: Index, start: Index, own: set<nat>, queue: seq<Order>) {
    && Unique(queue) && Ids(queue) !! own && index.Keys == own + Ids(queue)
    && forall id :: id in index ==> id in start && index[id] == start[id]
  }

  lemma NarrowLevel(index: Index, start: Index, own: set<nat>,
                    orders: seq<Order>, kept: seq<Order>, rest: seq<Order>)
    requires Narrowed(index, start, own, orders + rest)
    ensures Unique(orders) && Ids(orders) <= index.Keys
    ensures Unique(kept) && Ids(kept) <= Ids(orders) ==>
      Narrowed(index - (Ids(orders) - Ids(kept)), start, own, kept + rest)
  {
    UniqueConcat(orders, rest);
    IdsConcat(orders, rest);
    UniqueConcat(kept, rest);
    IdsConcat(kept, rest);
  }

  /** A level in the middle of trading: in order, but possibly empty. */
  ghost predicate LevelLeft(side: Side, price: int, level: Level) {
    && level.totalQty == TotalQty(level.orders) && Unique(level.orders)
    && forall o :: o in level.orders ==> RestsOn(o, side) && o.Price() == price
  }

  lemma TradedLevel(side: Side, price: int, level: Level, qty: nat)
    requires LevelLeft(side, price, level) && level.orders != [] && 0 < qty <= level.orders[0].qty
    ensures qty <= level.totalQty && LevelLeft(side, price, Level(Traded(level.orders, qty), level.totalQty - qty))
    ensures Ids(Traded(level.orders, qty)) ==
      if qty < level.orders[0].qty then Ids(level.orders) else Ids(level.orders) - {level.orders[0].id}
    ensures level.orders[0].id in Ids(level.orders) && RestsOn(level.orders[0], side)
      && level.orders[0].Price() == price
  {
    assert level.orders[0] in level.orders;
    TradedQueue(side, price, level.orders, qty);
  }

  /** Where trading one level stands: what was filled, what is left of the level, and of the taker. */
  ghost predicate Trading(start: seq<Order>, taker: Order, want: U64, price: int,
                          fills: seq<Fill>, level: Level, left: U64) {
    && MatchedSoFar(start, taker, want, fills, level.orders, left)
    && LevelLeft(taker.side.Opposite(), price, level) && Ids(level.orders) <= Ids(start)
  }

  lemma TradingStep(start: seq<Order>, taker: Order, want: U64, price: int, fills: seq<Fill>, level: Level, left: U64)
    requires Trading(start, taker, want, price, fills, level, left) && taker.Accepts(price)
    requires left > 0 && level.orders != []
    ensures var maker, fill := level.orders[0], Trade(taker, left, level.orders[0]);
      && 0 < fill.qty <= maker.qty && fill.qty <= level.totalQty && fill.qty <= left && maker.id in Ids(level.orders)
      && Trading(start, taker, want, price, fills + [fill],
                 Level(Traded(level.orders, fill.qty), level.totalQty - fill.qty), left - fill.qty)
      && Ids(Traded(level.orders, fill.qty))
         == (if fill.qty < maker.qty then Ids(level.orders) else Ids(level.orders) - {maker.id})
  {
    assert level.orders[0] in level.orders;
    TradedLevel(taker.side.Opposite(), price, level, Min(left, level.orders[0].qty));
    MatchingTrades(start, taker, want, fills, level.orders, left);
  }

  lemma TradedQueue(side: Side, price: int, queue: seq<Order>, qty: nat)
    requires queue != [] && 0 < qty <= queue[0].qty && Unique(queue)
    requires forall o :: o in queue ==> RestsOn(o, side) && o.Price() == price
    ensures TotalQty(Traded(queue, qty)) == TotalQty(queue) - qty
    ensures forall o :: o in Traded(queue, qty) ==> RestsOn(o, side) && o.Price() == price
    ensures Unique(Traded(queue, qty))
    ensures Ids(Traded(queue, qty)) == if qty < queue[0].qty then Ids(queue) else Ids(queue) - {queue[0].id}
  {
    var next := Traded(queue, qty);
    assert queue == [queue[0]] + queue[1..];
    if qty < queue[0].qty {
      assert next[1..] == queue[1..];
      forall o | o in next ensures RestsOn(o, side) && o.Price() == price {
        assert queue[0] in queue && (o == next[0] || (o in queue[1..] && o in queue));
      }
    }
  }

  lemma ForgetOne(start: Index, all: set<nat>, before: set<nat>, id: nat)
    requires id in before && before <= all
    ensures start - (all - before) - {id} == start - (all - (before - {id}))
  {
  }

  /** Equal as far as an order of this size can tell. */
  ghost predicate Covers(size: nat, a: nat, b: nat) {
    Min(size, a) == Min(size, b)
  }

  /** Where matching `book` with `taker` stands: the levels still queued, what was filled, and the index. */
  ghost predicate Matching(book: Book, start: Index, taker: Order,
                           levels: Levels, fills: seq<Fill>, left: U64, index: Index) {
    var side := taker.side.Opposite();
    && GoodLevels(side, levels)
    && MatchedSoFar(book.Of(side), taker, taker.qty, fills, Queue(side, levels), left)
    && Narrowed(index, start, Ids(book.Of(taker.side)), Queue(side, levels))
  }

  lemma ReadyForLevel(book: Book, start: Index, taker: Order,
                      levels: Levels, fills: seq<Fill>, left: U64, index: Index)
    requires Matching(book, start, taker, levels, fills, left, index) && levels != map[]
    ensures var side := taker.side.Opposite();
            var price := BestPrice(side, levels.Keys);
      && GoodLevel(side, price, levels[price])
      && Unique(levels[price].orders) && Ids(levels[price].orders) <= index.Keys
  {
    var side := taker.side.Opposite();
    var price := BestPrice(side, levels.Keys);
    var orders, rest := levels[price].orders, Queue(side, levels - {price});
    NarrowLevel(index, start, Ids(book.Of(taker.side)), orders, orders, rest);
  }

  /** One pass over the best level keeps the fills, the levels and the index in step. */
  lemma LevelMatched(book: Book, start: Index, taker: Order,
                     levels: Levels, fills: seq<Fill>, left: U64, index: Index,
                     level: Level, more: seq<Fill>, stillLeft: U64)
    requires Matching(book, start, taker, levels, fills, left, index) && levels != map[] && left > 0
    requires var side := taker.side.Opposite();
             var price := BestPrice(side, levels.Keys);
             var orders := levels[price].orders;
      && taker.Accepts(price) && Sweep(orders, taker, left) == Swept(more, level.orders, stillLeft)
      && (level.orders != [] ==> GoodLevel(side, price, level))
      && Unique(level.orders) && Ids(level.orders) <= Ids(orders)
    ensures var price := BestPrice(taker.side.Opposite(), levels.Keys);
            Matching(book, start, taker, if level.orders == [] then levels - {price} else levels[price := level],
                     fills + more, stillLeft, index - (Ids(levels[price].orders) - Ids(level.orders)))
    ensures stillLeft < left
  {
    var side := taker.side.Opposite();
    var price := BestPrice(side, levels.Keys);
    var orders, rest := levels[price].orders, Queue(side, levels - {price});
    assert GoodLevel(side, price, levels[price]);
    MatchingInParts(book.Of(side), taker, taker.qty, fills, orders, rest, left);
    NarrowLevel(index, start, Ids(book.Of(taker.side)), orders, level.orders, rest);
    BestLevelChanges(side, levels, level);
  }

  lemma MatchingDone(book: Book, start: Index, taker: Order,
                     levels: Levels, fills: seq<Fill>, left: U64, index: Index)
    requires WellFormed(book) && IndexExact(start, book)
    requires Matching(book, start, taker, levels, fills, left, index)
    requires left == 0 || levels == map[] || !taker.Accepts(BestPrice(taker.side.Opposite(), levels.Keys))
    ensures var side := taker.side.Opposite();
            var after := book.With(side, Queue(side, levels));
      && Sweep(book.Of(side), taker, taker.qty) == Swept(fills, Queue(side, levels), left)
      && WellFormed(after) && IndexExact(index, after)
  {
    var side := taker.side.Opposite();
    QueueMembers(side, levels);
    MatchingStops(book.Of(side), taker, taker.qty, fills, Queue(side, levels), left);
    MatchKeepsWellFormed(book, side, taker);
    IndexAfterMatch(start, book, taker, index);
  }

  lemma IndexAfterRest(index: Index, book: Book, o: Order)
    requires IndexExact(index, book) && o.id !in book.AllIds()
    ensures IndexExact(index[o.id := (o.side, o.Price())], book.With(o.side, Insert(o.side, book.Of(o.side), o)))
  {
    InsertAdds(o.side, book.Of(o.side), o);
    StillIndexed(index, o, Buy, book.bids);
    StillIndexed(index, o, Sell, book.asks);
    NowIndexed(index, o, book.Of(o.side));
    var after := index[o.id := (o.side, o.Price())];
    assert after.Keys == index.Keys + {o.id};
  }

  lemma NowIndexed(index: Index, o: Order, queue: seq<Order>)
    requires Indexed(index, o.side, queue) && o.id !in index
    ensures Indexed(index[o.id := (o.side, o.Price())], o.side, Insert(o.side, queue, o))
  {
    InsertAdds(o.side, queue, o);
  }

  lemma StillIndexed(index: Index, o: Order, side: Side, queue: seq<Order>)
    requires Indexed(index, side, queue) && o.id !in index
    ensures Indexed(index[o.id := (o.side, o.Price())], side, queue)
  {
  }

  lemma IndexAfterCancel(index: Index, book: Book, id: nat)
    requires WellFormed(book) && IndexExact(index, book) && id in index
    ensures IndexExact(index - {id}, Cancel(book, id).0)
  {
    RemoveKeepsGood(Buy, book.bids, id);
    RemoveKeepsGood(Sell, book.asks, id);
  }

  /** Where the index says an order rests, there it rests. */
  lemma Located(index: Index, book: Book, id: nat) returns (resting: Order)
    requires IndexExact(index, book) && id in index
    ensures var (side, price) := index[id];
            resting in book.Of(side) && resting.id == id && resting.Price() == price
  {
    if id in Ids(book.bids) {
      resting := IdHasOrder(book.bids, id);
    } else {
      resting := IdHasOrder(book.asks, id);
    }
  }

  /** Cancelling a resting order returns it and takes it out of its own side only. */
  lemma CancelTakes(book: Book, side: Side, order: Order)
    requires WellFormed(book) && order in book.Of(side)
    ensures Cancel(book, order.id) == (book.With(side, Rewrite(book.Of(side), Without(order.id))), Some(order))
  {
    MembersHaveIds(book.Of(side));
    RemoveTakesOne(book.bids, order.id);
    RemoveTakesOne(book.asks, order.id);
    UniqueOrder(book.Of(side), order, Find(book.Of(side), order.id).value);
  }

  lemma RemoveOnly(side: Side, levels: Levels, price: int, position: nat)
    requires GoodLevels(side, levels) && Unique(Queue(side, levels))
    requires price in levels && position < |levels[price].orders|
    ensures levels[price].orders[position].qty <= levels[price].totalQty
    ensures var changed := Remove(levels, price, position);
            GoodLevels(side, changed)
            && Queue(side, changed) == Rewrite(Queue(side, levels), Without(levels[price].orders[position].id))
  {
    OnlyPosition(side, levels, price, position);
    RemoveKeepsLevels(side, levels, price, position);
    RemoveFromLevel(side, levels, price, position, levels[price].orders[position].id);
  }

  lemma CancelAtPosition(book: Book, side: Side, levels: Levels, price: int, position: nat, id: nat)
    requires WellFormed(book) && GoodLevels(side, levels) && book.Of(side) == Queue(side, levels)
    requires price in levels && position < |levels[price].orders| && levels[price].orders[position].id == id
    ensures levels[price].orders[position].qty <= levels[price].totalQty
    ensures var changed := Remove(levels, price, position);
            GoodLevels(side, changed) && WellFormed(book.With(side, Queue(side, changed)))
            && Cancel(book, id) == (book.With(side, Queue(side, changed)), Some(levels[price].orders[position]))
  {
    var order := levels[price].orders[position];
    RemoveOnly(side, levels, price, position);
    assert order in book.Of(side) by {
      QueueMembers(side, levels);
      assert GoodLevel(side, price, levels[price]);
    }
    CancelTakes(book, side, order);
    CancelKeepsWellFormed(book, id);
  }

  /** What is left of the taker after matching may rest on its own side. */
  lemma LeftMayRest(book: Book, order: Order)
    requires WellFormed(book) && Check(book, order).None?
    ensures var against := order.side.Opposite();
      var s := Sweep(book.Of(against), order, order.qty);
      var matched := book.With(against, s.queue);
      && s.left <= order.qty
      && (s.left > 0 && order.tif.GTC? ==>
            var rest := order.(qty := s.left);
            && RestsOn(rest, order.side) && rest.id !in matched.AllIds()
            && QtyAt(matched.Of(order.side), rest.Price()) + rest.qty <= U64_MAX
            && (matched.Of(against) == [] || !rest.Accepts(matched.Of(against)[0].Price())))
  {
    var against := order.side.Opposite();
    SweepBound(book.Of(against), order, order.qty);
    SweepExhausts(book.Of(against), order, order.qty);
    SweepKeepsGood(against, book.Of(against), order, order.qty);
  }

  class OrderBook {
    var bids: Levels
    var asks: Levels
    var index: Index

    /** The book these levels stand for. */
    ghost function View(): Book
      reads this
    {
      BookOf(bids, asks)
    }

    ghost predicate Valid()
      reads this
    {
      InStep(bids, asks, index)
    }

    constructor ()
      ensures Valid() && View() == EMPTY
    {
      bids, asks, index := map[], map[], map[];
    }

    // ------------------------------------------------------------ queries

    function LevelQty(side: Side, price: int): (qty: nat)
      requires Valid()
      reads this
      ensures qty == QtyAt(View().Of(side), price)
    {
      var levels := if side.Buy? then bids else asks;
      CachedTotals(side, levels, price);
      if price in levels then levels[price].totalQty else 0
    }

    function BestBid(): (best: Option<int>)
      requires Valid()
      reads this
      ensures best == if View().bids == [] then None else Some(View().bids[0].Price())
    {
      QueueMembers(Buy, bids);
      if bids == map[] then None else Some(BestPrice(Buy, bids.Keys))
    }

    function BestAsk(): (best: Option<int>)
      requires Valid()
      reads this
      ensures best == if View().asks == [] then None else Some(View().asks[0].Price())
    {
      QueueMembers(Sell, asks);
      if asks == map[] then None else Some(BestPrice(Sell, asks.Keys))
    }

    function Mid(): (mid: Option<I64>)
      requires Valid()
      reads this
      ensures mid == View().Mid()
    {
      if BestBid().None? || BestAsk().None? then None else Some((BestBid().value + BestAsk().value) / 2)
    }

    function Validate(order: Order): (error: Option<OrderError>)
      requires Valid()
      reads this
      ensures error == Check(View(), order)
    {
      if order.qty == 0 then Some(ZeroQuantity)
      else if order.limit.Some? && order.limit.value <= 0 then Some(NonPositivePrice(order.limit.value))
      else if order.limit.Some? && order.tif.GTC?
              && LevelQty(order.side, order.limit.value) + order.qty > U64_MAX then
        Some(LevelQuantityOverflow)
      else if order.limit.None? && order.tif.GTC? then Some(MarketOrderCannotRest)
      else if order.id in index then Some(DuplicateOrderId(order.id))
      else None
    }

    /** Sums level totals from the best price, saturating, until the order is covered or refuses a price. */
    method ExecutableQty(order: Order) returns (qty: U64)
      requires Valid()
      ensures qty == Min(order.qty, Available(View().Of(order.side.Opposite()), order))
    {
      var side := order.side.Opposite();
      var levels := if side.Buy? then bids else asks;
      var available: U64 := 0;
      ghost var whole := Available(Queue(side, levels), order);
      while levels != map[] && available < order.qty
        invariant GoodLevels(side, levels)
        invariant Covers(order.qty, available + Available(Queue(side, levels), order), whole)
        decreases levels.Keys
      {
        var price := BestPrice(side, levels.Keys);
        ghost var queue, rest := Queue(side, levels), Queue(side, levels - {price});
        QueueMembers(side, levels);
        if !order.Accepts(price) {
          QueueIsGood(side, levels);
          NothingAcceptable(side, queue, order);
          break;
        }
        assert GoodLevel(side, price, levels[price]);
        AvailableInLevel(levels[price].orders, rest, order);
        available := Min(available + levels[price].totalQty, U64_MAX);
        levels := levels - {price};
      }
      qty := Min(available, order.qty);
    }

    // ----------------------------------------------------------- matching

    /** Trades `taker` against one level, front first, forgetting the ids of the orders it uses up. */
    method TradeAtLevel(taker: Order, want: U64, price: int, start: Level)
      returns (fills: seq<Fill>, left: U64, level: Level)
      requires GoodLevel(taker.side.Opposite(), price, start) && taker.Accepts(price)
      requires Unique(start.orders) && Ids(start.orders) <= index.Keys
      modifies this`index
      ensures Sweep(start.orders, taker, want) == Swept(fills, level.orders, left)
      ensures level.orders != [] ==> GoodLevel(taker.side.Opposite(), price, level)
      ensures Unique(level.orders) && Ids(level.orders) <= Ids(start.orders)
      ensures index == old(index) - (Ids(start.orders) - Ids(level.orders))
    {
      fills, left, level := [], want, start;
      MatchingStarts(start.orders, taker, want);
      while left != 0 && level.orders != []
        invariant Trading(start.orders, taker, want, price, fills, level, left)
        invariant index == old(index) - (Ids(start.orders) - Ids(level.orders))
        decreases left
      {
        var maker := level.orders[0];
        TradingStep(start.orders, taker, want, price, fills, level, left);
        ForgetOne(old(index), Ids(start.orders), Ids(level.orders), maker.id);
        var fill := Trade(taker, left, maker);
        left := left - fill.qty;
        fills := fills + [fill];
        ghost var next := Level(Traded(level.orders, fill.qty), level.totalQty - fill.qty);
        if fill.qty < maker.qty {
          level := Level([maker.(qty := maker.qty - fill.qty)] + level.orders[1..], level.totalQty - fill.qty);
        } else {
          level := Level(level.orders[1..], level.totalQty - fill.qty);
          index := index - {maker.id};
        }
        assert level == next;
      }
      MatchingStops(start.orders, taker, want, fills, level.orders, left);
    }

    method MatchAgainstBook(taker: Order) returns (fills: seq<Fill>, left: U64)
      requires Valid()
      modifies this
      ensures Valid()
      ensures var against := taker.side.Opposite();
              var s := Sweep(old(View()).Of(against), taker, taker.qty);
              fills == s.fills && left == s.left && View() == old(View()).With(against, s.queue)
    {
      var side := taker.side.Opposite();
      var levels := if side.Buy? then bids else asks;
      ghost var book, start := View(), index;
      fills, left := [], taker.qty;
      MatchingStarts(book.Of(side), taker, taker.qty);
      while left != 0 && levels != map[]
        invariant Matching(book, start, taker, levels, fills, left, index)
        invariant bids == old(bids) && asks == old(asks)
        decreases left
      {
        var price := BestPrice(side, levels.Keys);
        if !taker.Accepts(price) {
          break;
        }
        ReadyForLevel(book, start, taker, levels, fills, left, index);
        ghost var narrowed := index;
        var more, stillLeft, level := TradeAtLevel(taker, left, price, levels[price]);
        LevelMatched(book, start, taker, levels, fills, left, narrowed, level, more, stillLeft);
        levels := if level.orders == [] then levels - {price} else levels[price := level];
        fills, left := fills + more, stillLeft;
      }
      MatchingDone(book, start, taker, levels, fills, left, index);
      if side.Buy? { bids := levels; } else { asks := levels; }
    }

    // --------------------------------------------------- submit and cancel

    /** Appends `order` to the back of the queue at its price. */
    method Rest(order: Order)
      requires Valid() && RestsOn(order, order.side) && order.id !in View().AllIds()
      requires QtyAt(View().Of(order.side), order.Price()) + order.qty <= U64_MAX
      requires var against := View().Of(order.side.Opposite()); against == [] || !order.Accepts(against[0].Price())
      modifies this
      ensures Valid()
      ensures View() == old(View()).With(order.side, Insert(order.side, old(View()).Of(order.side), order))
    {
      ghost var book := View();
      var levels := if order.side.Buy? then bids else asks;
      CachedTotals(order.side, levels, order.Price());
      AppendKeepsGood(order.side, levels, order);
      AppendInserts(order.side, levels, order);
      RestKeepsWellFormed(book, order);
      IndexAfterRest(index, book, order);
      levels := Append(levels, order);
      index := index[order.id := (order.side, order.Price())];
      if order.side.Buy? { bids := levels; } else { asks := levels; }
    }

    /** Matches an accepted order against the other side, then rests or cancels what it could not trade. */
    method MatchAndRest(order: Order) returns (r: SubmitResult)
      requires Valid() && Check(View(), order).None?
      requires order.tif.FOK? ==> order.qty <= Available(View().Of(order.side.Opposite()), order)
      modifies this
      ensures Valid() && (View(), Ok(r)) == Submit(old(View()), order)
    {
      LeftMayRest(View(), order);
      var fills, left := MatchAgainstBook(order);
      var filled := order.qty - left;
      if left == 0 {
        r := SubmitResult(fills, filled, Filled);
      } else if order.tif.GTC? {
        Rest(order.(qty := left));
        r := SubmitResult(fills, filled, Resting(left));
      } else {
        r := SubmitResult(fills, filled, Cancelled(left));
      }
    }

    /** Validates an order and matches it, or kills an all-or-nothing order the book cannot fill. */
    method SubmitOrder(order: Order) returns (r: Result<SubmitResult, OrderError>)
      requires Valid()
      modifies this
      ensures Valid() && (View(), r) == Submit(old(View()), order)
    {
      var error := Validate(order);
      if error.Some? {
        return Err(error.value);
      }
      if order.tif.FOK? {
        var executable := ExecutableQty(order);
        if executable < order.qty {
          return Ok(SubmitResult([], 0, Killed));
        }
      }
      var result := MatchAndRest(order);
      r := Ok(result);
    }

    method Position(orders: seq<Order>, id: nat) returns (position: nat)
      requires exists o :: o in orders && o.id == id
      ensures position < |orders| && orders[position].id == id
    {
      position := 0;
      while position < |orders| && orders[position].id != id
        invariant position <= |orders|
        invariant forall i :: 0 <= i < position ==> orders[i].id != id
      {
        position := position + 1;
      }
    }

    /** Cancels a resting order and returns it with its remaining quantity. */
    method CancelOrder(id: nat) returns (cancelled: Option<Order>)
      requires Valid()
      modifies this
      ensures Valid() && (View(), cancelled) == Cancel(old(View()), id)
    {
      ghost var book := View();
      if id !in index {
        CancelRemovesExactlyOne(book, id);
        return None;
      }
      var (side, price) := index[id];
      var levels := if side.Buy? then bids else asks;
      ghost var resting := Located(index, book, id);
      QueueMembers(side, levels);
      assert resting in levels[price].orders;
      var position := Position(levels[price].orders, id);
      cancelled := Some(levels[price].orders[position]);
      CancelAtPosition(book, side, levels, price, position, id);
      IndexAfterCancel(index, book, id);
      index := index - {id};
      levels := Remove(levels, price, position);
      if side.Buy? { bids := levels; } else { asks := levels; }
    }

    // ---------------------------------------------------------- invariants

    /** Checks the whole book, whatever state it is in: it passes exactly when the invariant holds. */
    method CheckInvariants() returns (ok: bool)
      ensures ok <==> Valid()
    {
      ChecksDecide(bids, asks, index);
      var bidsOk, seen, restingBids := CheckLevels(bids, Buy, index, {});
      if !bidsOk {
        return false;
      }
      assert seen == Ids(Queue(Buy, bids));
      var asksOk, _, restingAsks := CheckLevels(asks, Sell, index, seen);
      ok := asksOk && restingBids + restingAsks == |index| && BestUncrossed(bids, asks);
    }

    // -------------------------------------------------------------- depth

    /** Top `n` levels of a side as `(price, total quantity)`, best price first. */
    method TopLevels(side: Side, n: nat) returns (top: seq<(int, nat)>)
      requires Valid()
      ensures var depth := Reference.Grouped(View().Of(side)); top == depth[..Min(n, |depth|)]
    {
      var levels := if side.Buy? then bids else asks;
      ghost var depth := Reference.Grouped(Queue(side, levels));
      top := [];
      while levels != map[] && |top| < n
        invariant GoodLevels(side, levels) && |top| <= n
        invariant depth == top + Reference.Grouped(Queue(side, levels))
        decreases levels.Keys
      {
        var price := BestPrice(side, levels.Keys);
        LevelGrouped(side, levels, top);
        top := top + [(price, levels[price].totalQty)];
        levels := levels - {price};
      }
      ghost var rest := Reference.Grouped(Queue(side, levels));
      assert levels == map[] ==> rest == [];
      assert (top + rest)[..|top|] == top;
    }
  }

  lemma {:induction false} GroupOfOne(orders: seq<Order>, rest: seq<Order>, price: int)
    requires orders != [] && forall o :: o in orders ==> o.Price() == price
    requires rest != [] ==> rest[0].Price() != price
    ensures Reference.Grouped(orders + rest) == [(price, TotalQty(orders))] + Reference.Grouped(rest)
  {
    assert orders[0] in orders;
    assert orders + rest == [orders[0]] + (orders[1..] + rest);
    Reference.GroupedCons(orders[0], orders[1..] + rest);
    if orders[1..] == [] {
      assert orders[1..] + rest == rest;
    } else {
      assert orders[1..][0] in orders;
      GroupOfOne(orders[1..], rest, price);
      Reference.MergeSame(price, orders[0].qty, TotalQty(orders[1..]), Reference.Grouped(rest));
    }
  }

  /** A level is one entry of the depth. */
  lemma LevelGrouped(side: Side, levels: Levels, shown: seq<(int, nat)>)
    requires GoodLevels(side, levels) && levels != map[]
    ensures var p := BestPrice(side, levels.Keys);
            shown + Reference.Grouped(Queue(side, levels))
            == shown + [(p, levels[p].totalQty)] + Reference.Grouped(Queue(side, levels - {p}))
  {
    var p := BestPrice(side, levels.Keys);
    QueueMembers(side, levels - {p});
    assert GoodLevel(side, p, levels[p]);
    GroupOfOne(levels[p].orders, Queue(side, levels - {p}), p);
    var entry: seq<(int, nat)> := [(p, levels[p].totalQty)];
    var rest := Reference.Grouped(Queue(side, levels - {p}));
    assert shown + (entry + rest) == shown + entry + rest;
  }

  // ------------------------------------------------------------------- runs

  /**
   * Refinement: run against any sequence of submits and cancels, the book reports, shows and holds
   * exactly what the flat list does.
   */
  method Replay(ops: seq<Reference.Op>) returns (book: OrderBook, seen: seq<Reference.Observation>)
    ensures fresh(book) && book.Valid()
    ensures seen == Reference.Replay(ops).1 && Reference.Simulates(book.View(), Reference.Replay(ops).0)
  {
    book := new OrderBook();
    seen := [];
    assert ops[..0] == [];
    for i := 0 to |ops|
      invariant fresh(book) && book.Valid()
      invariant seen == Reference.Replay(ops[..i]).1 && Reference.Simulates(book.View(), Reference.Replay(ops[..i]).0)
    {
      assert ops[..i + 1][..i] == ops[..i];
      ghost var list := Reference.Replay(ops[..i]).0;
      var reply := Step(book, ops[i], list);
      var observed := Look(book, reply, Reference.Apply(list, ops[i]).0);
      seen := seen + [observed];
    }
    assert ops[..|ops|] == ops;
  }

  method Step(book: OrderBook, op: Reference.Op, ghost list: seq<Order>) returns (reply: Reference.Reply)
    requires book.Valid() && Reference.Simulates(book.View(), list)
    modifies book
    ensures book.Valid()
    ensures var (after, expected) := Reference.Apply(list, op);
            reply == expected && Reference.Simulates(book.View(), after)
  {
    match op
    case SubmitOp(order) =>
      Reference.SubmitReportsAgree(book.View(), list, order);
      Reference.SubmitSimulates(book.View(), list, order);
      var r := book.SubmitOrder(order);
      reply := Reference.Submitted(r);
    case CancelOp(id) =>
      Reference.CancelSimulates(book.View(), list, id);
      var cancelled := book.CancelOrder(id);
      reply := Reference.Removed(cancelled);
  }

  method Look(book: OrderBook, reply: Reference.Reply, ghost list: seq<Order>) returns (o: Reference.Observation)
    requires book.Valid() && Reference.Simulates(book.View(), list)
    ensures o == Reference.Observe(list, reply)
  {
    var bids := LookAt(book, Buy, list);
    var asks := LookAt(book, Sell, list);
    Reference.IdsAgree(list);
    CountIds(list);
    o := Reference.Observation(reply, bids, asks, |book.index|);
  }

  method LookAt(book: OrderBook, side: Side, ghost list: seq<Order>) returns (depth: seq<(int, nat)>)
    requires book.Valid() && Reference.Simulates(book.View(), list)
    ensures depth == Reference.Depth(list, side)
  {
    Reference.DepthAgrees(list, side);
    Reference.DepthBound(book.View().Of(side), book.index.Keys);
    depth := book.TopLevels(side, |book.index|);
    ghost var whole := Reference.Depth(list, side);
    assert whole[..|whole|] == whole;
  }
}
