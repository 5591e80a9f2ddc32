/** The invariant of the whole order book, and the walk over levels, orders and index that decides it. */
module BookInvariant {
  import opened Types
  import opened BookSpec
  import opened BookLaws
  import opened BestPrices
  import opened Levels

  type Index = map<nat, (Side, int)>

  ghost predicate Indexed(index: Index, side: Side, queue: seq<Order>) {
    forall o :: o in queue ==> o.id in index && index[o.id] == (side, o.Price())
  }

  /** The index names exactly the resting orders and where each one rests. */
  ghost predicate IndexExact(index: Index, book: Book) {
    index.Keys == book.AllIds() && Indexed(index, Buy, book.bids) && Indexed(index, Sell, book.asks)
  }

  ghost function BookOf(bids: Levels, asks: Levels): Book {
    Book(Queue(Buy, bids), Queue(Sell, asks))
  }

  /** The levels, their cached totals and the index are kept in step, and the book is in order. */
  ghost predicate InStep(bids: Levels, asks: Levels, index: Index) {
    && GoodLevels(Buy, bids) && GoodLevels(Sell, asks)
    && WellFormed(BookOf(bids, asks)) && IndexExact(index, BookOf(bids, asks))
  }

  // ---------------------------------------------------- deciding the invariant

  /** One resting order, where it was found. */
  predicate OrderOk(o: Order, side: Side, price: int, index: Index, seen: set<nat>) {
    && o.qty > 0 && o.side == side && o.limit == Some(price) && o.tif.GTC?
    && o.id !in seen && o.id in index && index[o.id] == (side, price)
  }

  predicate OrdersOk(orders: seq<Order>, side: Side, price: int, index: Index, seen: set<nat>) {
    orders == [] || (OrderOk(orders[0], side, price, index, seen)
                     && OrdersOk(orders[1..], side, price, index, seen + {orders[0].id}))
  }

  predicate LevelOk(level: Level, side: Side, price: int, index: Index, seen: set<nat>) {
    price > 0 && level.orders != [] && OrdersOk(level.orders, side, price, index, seen)
      && TotalQty(level.orders) == level.totalQty
  }

  predicate LevelsOk(levels: Levels, side: Side, index: Index, seen: set<nat>)
    decreases levels.Keys
  {
    levels == map[] ||
      var p := BestPrice(side, levels.Keys);
      LevelOk(levels[p], side, p, index, seen) && LevelsOk(levels - {p}, side, index, seen + Ids(levels[p].orders))
  }

  lemma {:induction false} OrdersOkMeans(orders: seq<Order>, side: Side, price: int, index: Index, seen: set<nat>)
    requires price > 0
    ensures OrdersOk(orders, side, price, index, seen) <==>
      (forall o :: o in orders ==> RestsOn(o, side) && o.Price() == price)
      && Unique(orders) && Ids(orders) !! seen && Indexed(index, side, orders)
  {
    if orders != [] {
      var first, rest := orders[0], orders[1..];
      assert first in orders && forall o :: o in orders <==> o == first || o in rest;
      OrdersOkMeans(rest, side, price, index, seen + {first.id});
    }
  }

  lemma {:induction false} LevelsOkMeans(levels: Levels, side: Side, index: Index, seen: set<nat>)
    ensures LevelsOk(levels, side, index, seen) <==>
      GoodLevels(side, levels) && Unique(Queue(side, levels)) && Ids(Queue(side, levels)) !! seen
      && Indexed(index, side, Queue(side, levels))
    decreases levels.Keys
  {
    if levels != map[] {
      var p := BestPrice(side, levels.Keys);
      var level, others := levels[p], levels - {p};
      if p > 0 {
        OrdersOkMeans(level.orders, side, p, index, seen);
      }
      LevelsOkMeans(others, side, index, seen + Ids(level.orders));
      UniqueConcat(level.orders, Queue(side, others));
      IdsConcat(level.orders, Queue(side, others));
      GoodLevelsSplit(side, levels, p);
    }
  }

  lemma GoodLevelsSplit(side: Side, levels: Levels, p: int)
    requires p in levels
    ensures GoodLevels(side, levels) <==> GoodLevel(side, p, levels[p]) && GoodLevels(side, levels - {p})
  {
    if GoodLevel(side, p, levels[p]) && GoodLevels(side, levels - {p}) {
      forall q | q in levels ensures GoodLevel(side, q, levels[q]) {
        assert q != p ==> q in levels - {p};
      }
    }
    if GoodLevels(side, levels) {
      assert GoodLevel(side, p, levels[p]);
    }
  }

  /** Counting is enough: an index that covers unique resting orders and is no larger names nothing else. */
  lemma CountDecidesIndex(index: Index, book: Book)
    requires Unique(book.bids) && Unique(book.asks) && Ids(book.bids) !! Ids(book.asks)
    requires Indexed(index, Buy, book.bids) && Indexed(index, Sell, book.asks)
    ensures |book.bids| + |book.asks| == |index| <==> IndexExact(index, book)
  {
    CountIds(book.bids);
    CountIds(book.asks);
    IdsIndexed(index, Buy, book.bids);
    IdsIndexed(index, Sell, book.asks);
    assert |book.AllIds()| == |book.bids| + |book.asks|;
    SameSize(book.AllIds(), index.Keys);
    assert |index| == |index.Keys|;
  }

  lemma {:induction false} IdsIndexed(index: Index, side: Side, queue: seq<Order>)
    requires Indexed(index, side, queue)
    ensures Ids(queue) <= index.Keys
  {
    if queue != [] {
      IdsIndexed(index, side, queue[1..]);
    }
  }

  lemma LevelsWellFormed(side: Side, levels: Levels)
    requires GoodLevels(side, levels)
    ensures GoodQueue(side, Queue(side, levels)) && LevelsFit(Queue(side, levels))
  {
    QueueIsGood(side, levels);
    forall price ensures QtyAt(Queue(side, levels), price) <= U64_MAX {
      CachedTotals(side, levels, price);
    }
  }

  predicate BestUncrossed(bids: Levels, asks: Levels) {
    bids != map[] && asks != map[] ==> BestPrice(Buy, bids.Keys) < BestPrice(Sell, asks.Keys)
  }

  lemma BestDecidesCrossing(bids: Levels, asks: Levels)
    requires GoodLevels(Buy, bids) && GoodLevels(Sell, asks)
    ensures BestUncrossed(bids, asks) <==> Uncrossed(BookOf(bids, asks))
  {
    QueueMembers(Buy, bids);
    QueueMembers(Sell, asks);
  }

  /** The checks find every violation of the invariant, and nothing else. */
  lemma ChecksDecide(bids: Levels, asks: Levels, index: Index)
    ensures InStep(bids, asks, index) <==>
      && LevelsOk(bids, Buy, index, {}) && LevelsOk(asks, Sell, index, Ids(Queue(Buy, bids)))
      && |Queue(Buy, bids)| + |Queue(Sell, asks)| == |index| && BestUncrossed(bids, asks)
  {
    LevelsOkMeans(bids, Buy, index, {});
    LevelsOkMeans(asks, Sell, index, Ids(Queue(Buy, bids)));
    if LevelsOk(bids, Buy, index, {}) && LevelsOk(asks, Sell, index, Ids(Queue(Buy, bids))) {
      LevelsWellFormed(Buy, bids);
      LevelsWellFormed(Sell, asks);
      CountDecidesIndex(index, BookOf(bids, asks));
      BestDecidesCrossing(bids, asks);
    }
  }

  // ------------------------------------------------------------------ the walk

  method CheckLevel(level: Level, side: Side, price: int, index: Index, seen: set<nat>)
    returns (ok: bool, after: set<nat>)
    ensures ok <==> LevelOk(level, side, price, index, seen)
    ensures ok ==> after == seen + Ids(level.orders)
  {
    after := seen;
    if price <= 0 || level.orders == [] {
      return false, after;
    }
    var total: U64, rest := 0, level.orders;
    while rest != []
      invariant OrdersOk(level.orders, side, price, index, seen) <==> OrdersOk(rest, side, price, index, after)
      invariant total + TotalQty(rest) == TotalQty(level.orders)
      invariant seen + Ids(level.orders) == after + Ids(rest)
      decreases |rest|
    {
      var order := rest[0];
      if !OrderOk(order, side, price, index, after) || total + order.qty > U64_MAX {
        return false, after;
      }
      after := after + {order.id};
      total := total + order.qty;
      rest := rest[1..];
    }
    ok := total == level.totalQty;
  }

  method CheckLevels(levels: Levels, side: Side, index: Index, seen: set<nat>)
    returns (ok: bool, after: set<nat>, resting: nat)
    ensures ok <==> LevelsOk(levels, side, index, seen)
    ensures ok ==> after == seen + Ids(Queue(side, levels)) && resting == |Queue(side, levels)|
  {
    after, resting := seen, 0;
    var rest := levels;
    while rest != map[]
      invariant LevelsOk(levels, side, index, seen) <==> LevelsOk(rest, side, index, after)
      invariant resting + |Queue(side, rest)| == |Queue(side, levels)|
      invariant after + Ids(Queue(side, rest)) == seen + Ids(Queue(side, levels))
      decreases rest.Keys
    {
      var price := BestPrice(side, rest.Keys);
      IdsConcat(rest[price].orders, Queue(side, rest - {price}));
      var good, next := CheckLevel(rest[price], side, price, index, after);
      if !good {
        return false, after, resting;
      }
      after, resting := next, resting + |rest[price].orders|;
      rest := rest - {price};
    }
    ok := true;
  }
}
