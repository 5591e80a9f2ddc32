/** One side of the book as price levels, and the priority queue those levels stand for. */
module Levels {
  import opened Types
  import opened BookSpec
  import opened BookLaws
  import opened BestPrices

  /** Orders resting at one price in arrival order, with their cached total. */
  datatype Level = Level(orders: seq<Order>, totalQty: U64)

  type Levels = map<int, Level>

  /** All resting orders, level by level from the best price. */
  function Queue(side: Side, levels: Levels): seq<Order>
    decreases levels.Keys
  {
    if levels == map[] then []
    else
      var p := BestPrice(side, levels.Keys);
      levels[p].orders + Queue(side, levels - {p})
  }

  ghost predicate GoodLevel(side: Side, price: int, level: Level) {
    && price > 0 && level.orders != [] && level.totalQty == TotalQty(level.orders)
    && forall o :: o in level.orders ==> RestsOn(o, side) && o.Price() == price
  }

  ghost predicate GoodLevels(side: Side, levels: Levels) {
    forall p :: p in levels ==> GoodLevel(side, p, levels[p])
  }

  // -------------------------------------------------- levels and the queue

  lemma {:induction false} LevelThenRest(side: Side, price: int, orders: seq<Order>, rest: seq<Order>)
    requires forall o :: o in orders ==> RestsOn(o, side) && o.Price() == price
    requires GoodQueue(side, rest) && forall o :: o in rest ==> !Before(side, o.Price(), price)
    ensures GoodQueue(side, orders + rest)
  {
    if orders == [] {
      assert orders + rest == rest;
    } else {
      assert (orders + rest)[1..] == orders[1..] + rest;
      LevelThenRest(side, price, orders[1..], rest);
    }
  }

  lemma {:induction false} QueueMembers(side: Side, levels: Levels)
    requires GoodLevels(side, levels)
    ensures forall o :: o in Queue(side, levels) <==> o.Price() in levels && o in levels[o.Price()].orders
    ensures levels != map[] ==>
      Queue(side, levels) != [] && Queue(side, levels)[0].Price() == BestPrice(side, levels.Keys)
    decreases levels.Keys
  {
    if levels != map[] {
      var p := BestPrice(side, levels.Keys);
      QueueMembers(side, levels - {p});
      assert GoodLevel(side, p, levels[p]);
      assert levels[p].orders[0] in levels[p].orders;
    }
  }

  lemma {:induction false} QueueIsGood(side: Side, levels: Levels)
    requires GoodLevels(side, levels)
    ensures GoodQueue(side, Queue(side, levels))
    decreases levels.Keys
  {
    if levels != map[] {
      var p := BestPrice(side, levels.Keys);
      QueueIsGood(side, levels - {p});
      QueueMembers(side, levels - {p});
      assert GoodLevel(side, p, levels[p]);
      LevelThenRest(side, p, levels[p].orders, Queue(side, levels - {p}));
    }
  }

  lemma {:induction false} QtyAtOnePrice(queue: seq<Order>, price: int, at: int)
    requires forall o :: o in queue ==> o.Price() == price
    ensures QtyAt(queue, at) == if at == price then TotalQty(queue) else 0
  {
    if queue != [] {
      assert queue[0] in queue;
      QtyAtOnePrice(queue[1..], price, at);
    }
  }

  /** The cached totals are the quantities resting at each price. */
  lemma {:induction false} CachedTotals(side: Side, levels: Levels, at: int)
    requires GoodLevels(side, levels)
    ensures QtyAt(Queue(side, levels), at) == if at in levels then levels[at].totalQty else 0
    decreases levels.Keys
  {
    if levels != map[] {
      var p := BestPrice(side, levels.Keys);
      CachedTotals(side, levels - {p}, at);
      assert GoodLevel(side, p, levels[p]);
      QtyAtConcat(levels[p].orders, Queue(side, levels - {p}), at);
      QtyAtOnePrice(levels[p].orders, p, at);
    }
  }

  // ------------------------------------------------- changing one level

  /** Replacing or dropping the best level changes the front of the queue only. */
  lemma BestLevelChanges(side: Side, levels: Levels, level: Level)
    requires GoodLevels(side, levels) && levels != map[]
    requires level.orders != [] ==> GoodLevel(side, BestPrice(side, levels.Keys), level)
    ensures var p := BestPrice(side, levels.Keys);
            var changed := if level.orders == [] then levels - {p} else levels[p := level];
            GoodLevels(side, changed) && Queue(side, changed) == level.orders + Queue(side, levels - {p})
  {
    var p := BestPrice(side, levels.Keys);
    if level.orders == [] {
      assert [] + Queue(side, levels - {p}) == Queue(side, levels - {p});
    } else {
      var changed := levels[p := level];
      assert changed.Keys == levels.Keys;
      assert changed - {p} == levels - {p};
    }
  }

  lemma {:induction false} InsertSkips(side: Side, ahead: seq<Order>, rest: seq<Order>, o: Order)
    requires forall x :: x in ahead ==> !Before(side, o.Price(), x.Price())
    ensures Insert(side, ahead + rest, o) == ahead + Insert(side, rest, o)
  {
    if ahead == [] {
      assert ahead + rest == rest;
      assert ahead + Insert(side, rest, o) == Insert(side, rest, o);
    } else {
      assert ahead[0] in ahead;
      assert (ahead + rest)[1..] == ahead[1..] + rest;
      InsertSkips(side, ahead[1..], rest, o);
      assert ahead + Insert(side, rest, o) == [ahead[0]] + (ahead[1..] + Insert(side, rest, o));
    }
  }

  /** The level an order joins: the existing one, or an empty one at a new price. */
  function LevelAt(levels: Levels, price: int): Level {
    if price in levels then levels[price] else Level([], 0)
  }

  function Append(levels: Levels, o: Order): Levels
    requires LevelAt(levels, o.Price()).totalQty + o.qty <= U64_MAX
  {
    var level := LevelAt(levels, o.Price());
    levels[o.Price() := Level(level.orders + [o], level.totalQty + o.qty)]
  }

  lemma AppendKeepsGood(side: Side, levels: Levels, o: Order)
    requires GoodLevels(side, levels) && RestsOn(o, side)
    requires LevelAt(levels, o.Price()).totalQty + o.qty <= U64_MAX
    ensures GoodLevels(side, Append(levels, o))
  {
    var level := LevelAt(levels, o.Price());
    TotalQtyConcat(level.orders, [o]);
    assert o.Price() in levels ==> GoodLevel(side, o.Price(), level);
  }

  /** Appending to the level at its price is joining the queue behind equal or better prices. */
  lemma {:induction false} AppendInserts(side: Side, levels: Levels, o: Order)
    requires GoodLevels(side, levels) && RestsOn(o, side)
    requires LevelAt(levels, o.Price()).totalQty + o.qty <= U64_MAX
    ensures Queue(side, Append(levels, o)) == Insert(side, Queue(side, levels), o)
    decreases levels.Keys
  {
    var changed := Append(levels, o);
    QueueMembers(side, levels);
    if levels == map[] || Before(side, o.Price(), BestPrice(side, levels.Keys)) {
      assert changed.Keys == levels.Keys + {o.Price()};
      SameBest(side, changed.Keys, o.Price());
      assert changed - {o.Price()} == levels;
    } else {
      var p := BestPrice(side, levels.Keys);
      var rest := levels - {p};
      assert changed.Keys == levels.Keys + {o.Price()};
      SameBest(side, changed.Keys, p);
      assert GoodLevel(side, p, levels[p]);
      InsertSkips(side, levels[p].orders, Queue(side, rest), o);
      if o.Price() == p {
        assert changed - {p} == rest;
        AppendsBehindLevel(side, levels[p].orders, rest, o, p);
      } else {
        assert changed - {p} == Append(rest, o);
        AppendInserts(side, rest, o);
      }
    }
  }

  lemma AppendsBehindLevel(side: Side, orders: seq<Order>, rest: Levels, o: Order, p: int)
    requires GoodLevels(side, rest) && o.Price() == p && forall q :: q in rest ==> Before(side, p, q)
    ensures orders + [o] + Queue(side, rest) == orders + Insert(side, Queue(side, rest), o)
  {
    QueueMembers(side, rest);
    assert orders + [o] + Queue(side, rest) == orders + ([o] + Queue(side, rest));
  }

  // -------------------------------------------------------- cancelling

  lemma {:induction false} NothingToRemove(queue: seq<Order>, id: nat)
    requires forall o :: o in queue ==> o.id != id
    ensures Rewrite(queue, Without(id)) == queue
  {
    if queue != [] {
      assert queue[0] in queue;
      NothingToRemove(queue[1..], id);
    }
  }

  /** The level left behind when one order leaves it; an emptied level goes. */
  function Remove(levels: Levels, price: int, position: nat): Levels
    requires price in levels && position < |levels[price].orders|
    requires levels[price].orders[position].qty <= levels[price].totalQty
  {
    var level := levels[price];
    var left := level.orders[..position] + level.orders[position + 1..];
    if left == [] then levels - {price}
    else levels[price := Level(left, level.totalQty - level.orders[position].qty)]
  }

  lemma RemoveKeepsLevels(side: Side, levels: Levels, price: int, position: nat)
    requires GoodLevels(side, levels) && price in levels && position < |levels[price].orders|
    ensures levels[price].orders[position].qty <= levels[price].totalQty
    ensures GoodLevels(side, Remove(levels, price, position))
  {
    var orders := levels[price].orders;
    assert GoodLevel(side, price, levels[price]);
    assert orders == orders[..position] + ([orders[position]] + orders[position + 1..]);
    TotalQtyConcat(orders[..position], [orders[position]] + orders[position + 1..]);
    assert ([orders[position]] + orders[position + 1..])[1..] == orders[position + 1..];
    TotalQtyConcat(orders[..position], orders[position + 1..]);
  }

  lemma {:induction false} RemoveOne(orders: seq<Order>, position: nat, id: nat)
    requires position < |orders| && orders[position].id == id
    requires forall i :: 0 <= i < |orders| && i != position ==> orders[i].id != id
    ensures Rewrite(orders, Without(id)) == orders[..position] + orders[position + 1..]
  {
    var a, b := orders[..position], orders[position + 1..];
    assert orders == a + ([orders[position]] + b);
    RewriteConcat(a, [orders[position]] + b, Without(id));
    RewriteConcat([orders[position]], b, Without(id));
    NothingToRemove(a, id);
    NothingToRemove(b, id);
  }

  lemma RemoveFromBest(side: Side, levels: Levels, position: nat, id: nat)
    requires GoodLevels(side, levels) && levels != map[]
    requires var orders := levels[BestPrice(side, levels.Keys)].orders;
      && position < |orders| && orders[position].id == id
      && orders[position].qty <= levels[BestPrice(side, levels.Keys)].totalQty
      && forall i :: 0 <= i < |orders| && i != position ==> orders[i].id != id
    requires forall o :: o in Queue(side, levels - {BestPrice(side, levels.Keys)}) ==> o.id != id
    ensures var p := BestPrice(side, levels.Keys);
            Queue(side, Remove(levels, p, position)) == Rewrite(Queue(side, levels), Without(id))
  {
    var p := BestPrice(side, levels.Keys);
    var rest := levels - {p};
    var orders := levels[p].orders;
    RewriteConcat(orders, Queue(side, rest), Without(id));
    RemoveOne(orders, position, id);
    NothingToRemove(Queue(side, rest), id);
    RemoveKeepsLevels(side, levels, p, position);
    var left := orders[..position] + orders[position + 1..];
    BestLevelChanges(side, levels, Level(left, if left == [] then 0 else Remove(levels, p, position)[p].totalQty));
  }

  lemma RemoveBehindBest(side: Side, levels: Levels, price: int, position: nat)
    requires price in levels && position < |levels[price].orders| && BestPrice(side, levels.Keys) != price
    requires levels[price].orders[position].qty <= levels[price].totalQty
    ensures var p, changed := BestPrice(side, levels.Keys), Remove(levels, price, position);
      && p in changed && changed[p] == levels[p] && BestPrice(side, changed.Keys) == p
      && changed - {p} == Remove(levels - {p}, price, position)
  {
    var p, changed := BestPrice(side, levels.Keys), Remove(levels, price, position);
    assert changed.Keys <= levels.Keys;
    SameBest(side, changed.Keys, p);
  }

  /** Taking an order out of its level takes it out of the queue. */
  lemma {:induction false} RemoveFromLevel(side: Side, levels: Levels, price: int, position: nat, id: nat)
    requires GoodLevels(side, levels) && price in levels && position < |levels[price].orders|
    requires levels[price].orders[position].qty <= levels[price].totalQty
    requires levels[price].orders[position].id == id
    requires forall i :: 0 <= i < |levels[price].orders| && i != position ==> levels[price].orders[i].id != id
    requires forall p, o :: p in levels && p != price && o in levels[p].orders ==> o.id != id
    ensures Queue(side, Remove(levels, price, position)) == Rewrite(Queue(side, levels), Without(id))
    decreases levels.Keys
  {
    var p := BestPrice(side, levels.Keys);
    var rest := levels - {p};
    if p == price {
      QueueMembers(side, rest);
      RemoveFromBest(side, levels, position, id);
    } else {
      RemoveBehindBest(side, levels, price, position);
      RemoveFromLevel(side, rest, price, position, id);
      RewriteConcat(levels[p].orders, Queue(side, rest), Without(id));
      NothingToRemove(levels[p].orders, id);
    }
  }

  // ------------------------------------------------------ finding an order

  /** An id rests once: in one level, and once within it. */
  lemma {:induction false} LevelsAreUnique(side: Side, levels: Levels, price: int)
    requires GoodLevels(side, levels) && Unique(Queue(side, levels)) && price in levels
    ensures Unique(levels[price].orders)
    decreases levels.Keys
  {
    var p := BestPrice(side, levels.Keys);
    UniqueConcat(levels[p].orders, Queue(side, levels - {p}));
    if p != price {
      LevelsAreUnique(side, levels - {p}, price);
    }
  }

  lemma {:induction false} UniquePositions(orders: seq<Order>, i: nat, j: nat)
    requires Unique(orders) && i < j < |orders|
    ensures orders[i].id != orders[j].id
  {
    if i == 0 {
      MembersHaveIds(orders[1..]);
      assert orders[1..][j - 1] in orders[1..];
    } else {
      UniquePositions(orders[1..], i - 1, j - 1);
    }
  }

  lemma {:induction false} IdHasOrder(queue: seq<Order>, id: nat) returns (o: Order)
    requires id in Ids(queue)
    ensures o in queue && o.id == id
  {
    if queue[0].id == id {
      o := queue[0];
    } else {
      o := IdHasOrder(queue[1..], id);
    }
  }

  /** The one position of an id in the levels of its side. */
  lemma OnlyPosition(side: Side, levels: Levels, price: int, position: nat)
    requires GoodLevels(side, levels) && Unique(Queue(side, levels))
    requires price in levels && position < |levels[price].orders|
    ensures var id := levels[price].orders[position].id;
      && (forall i :: 0 <= i < |levels[price].orders| && i != position ==> levels[price].orders[i].id != id)
      && (forall p, o :: p in levels && p != price && o in levels[p].orders ==> o.id != id)
  {
    var orders := levels[price].orders;
    var id := orders[position].id;
    LevelsAreUnique(side, levels, price);
    forall i | 0 <= i < |orders| && i != position ensures orders[i].id != id {
      if i < position {
        UniquePositions(orders, i, position);
      } else {
        UniquePositions(orders, position, i);
      }
    }
    QueueMembers(side, levels);
    forall p, o | p in levels && p != price && o in levels[p].orders ensures o.id != id {
      assert GoodLevel(side, p, levels[p]) && GoodLevel(side, price, levels[price]);
      assert o in Queue(side, levels) && orders[position] in Queue(side, levels);
      if o.id == id {
        UniqueOrder(Queue(side, levels), o, orders[position]);
      }
    }
  }
}
