/** Laws of the book: what every submit and cancel keeps, and what matching achieves. */
module BookLaws {
  import opened Types
  import opened BookSpec

  // ---------------------------------------------------------- concatenation

  lemma {:induction false} QtyAtConcat(a: seq<Order>, b: seq<Order>, price: int)
    ensures QtyAt(a + b, price) == QtyAt(a, price) + QtyAt(b, price)
  {
    if a == [] {
      assert a + b == b;
    } else {
      assert (a + b)[1..] == a[1..] + b;
      QtyAtConcat(a[1..], b, price);
    }
  }

  lemma {:induction false} TotalQtyConcat(a: seq<Order>, b: seq<Order>)
    ensures TotalQty(a + b) == TotalQty(a) + TotalQty(b)
  {
    if a == [] {
      assert a + b == b;
    } else {
      assert (a + b)[1..] == a[1..] + b;
      TotalQtyConcat(a[1..], b);
    }
  }

  lemma {:induction false} IdsConcat(a: seq<Order>, b: seq<Order>)
    ensures Ids(a + b) == Ids(a) + Ids(b)
  {
    if a == [] {
      assert a + b == b;
    } else {
      assert (a + b)[1..] == a[1..] + b;
      IdsConcat(a[1..], b);
    }
  }

  lemma {:induction false} RewriteConcat(a: seq<Order>, b: seq<Order>, f: Order -> Option<Order>)
    ensures Rewrite(a + b, f) == Rewrite(a, f) + Rewrite(b, f)
  {
    if a == [] {
      assert a + b == b;
    } else {
      assert (a + b)[1..] == a[1..] + b;
      RewriteConcat(a[1..], b, f);
    }
  }

  lemma {:induction false} MembersHaveIds(list: seq<Order>)
    ensures forall o :: o in list ==> o.id in Ids(list)
  {
    if list != [] {
      MembersHaveIds(list[1..]);
      assert list == [list[0]] + list[1..];
    }
  }

  lemma {:induction false} UniqueOrder(list: seq<Order>, a: Order, b: Order)
    requires Unique(list) && a in list && b in list && a.id == b.id
    ensures a == b
  {
    assert list == [list[0]] + list[1..];
    MembersHaveIds(list[1..]);
    if a in list[1..] && b in list[1..] {
      UniqueOrder(list[1..], a, b);
    }
  }

  // ------------------------------------------------------------ rest and match

  lemma {:induction false} InsertAdds(side: Side, queue: seq<Order>, o: Order)
    ensures forall x :: x in Insert(side, queue, o) <==> x == o || x in queue
    ensures Ids(Insert(side, queue, o)) == Ids(queue) + {o.id}
    ensures TotalQty(Insert(side, queue, o)) == TotalQty(queue) + o.qty
    ensures forall price ::
      QtyAt(Insert(side, queue, o), price) == QtyAt(queue, price) + (if o.Price() == price then o.qty else 0)
  {
    if queue != [] && !Before(side, o.Price(), queue[0].Price()) {
      InsertAdds(side, queue[1..], o);
      assert queue == [queue[0]] + queue[1..];
    } else {
      assert ([o] + queue)[1..] == queue;
    }
  }

  lemma {:induction false} InsertKeepsGood(side: Side, queue: seq<Order>, o: Order)
    requires GoodQueue(side, queue) && RestsOn(o, side)
    ensures GoodQueue(side, Insert(side, queue, o))
    ensures Unique(queue) && o.id !in Ids(queue) ==> Unique(Insert(side, queue, o))
  {
    if queue != [] && !Before(side, o.Price(), queue[0].Price()) {
      InsertKeepsGood(side, queue[1..], o);
      InsertAdds(side, queue[1..], o);
    } else {
      assert ([o] + queue)[1..] == queue;
      assert queue != [] ==> queue == [queue[0]] + queue[1..];
    }
  }

  lemma {:induction false} SweepKeepsGood(side: Side, queue: seq<Order>, taker: Order, want: U64)
    requires GoodQueue(side, queue)
    ensures var s := Sweep(queue, taker, want);
      && GoodQueue(side, s.queue)
      && Ids(s.queue) <= Ids(queue)
      && (Unique(queue) ==> Unique(s.queue))
      && (s.queue != [] ==> queue != [] && !Before(side, s.queue[0].Price(), queue[0].Price()))
  {
    if want != 0 && queue != [] && taker.Accepts(queue[0].Price()) {
      if want < queue[0].qty {
      } else {
        SweepKeepsGood(side, queue[1..], taker, want - queue[0].qty);
        assert queue[1..] != [] ==> queue[1..][0] in queue[1..];
      }
    }
  }

  lemma MatchKeepsWellFormed(book: Book, side: Side, taker: Order)
    requires WellFormed(book)
    ensures WellFormed(book.With(side, Sweep(book.Of(side), taker, taker.qty).queue))
  {
    SweepKeepsGood(side, book.Of(side), taker, taker.qty);
    SweepConserves(book.Of(side), taker, taker.qty);
  }

  /** A remainder the opposite side refuses does not cross it. */
  lemma RestKeepsWellFormed(book: Book, o: Order)
    requires WellFormed(book) && RestsOn(o, o.side) && o.id !in book.AllIds()
    requires QtyAt(book.Of(o.side), o.Price()) + o.qty <= U64_MAX
    requires var against := book.Of(o.side.Opposite()); against == [] || !o.Accepts(against[0].Price())
    ensures WellFormed(book.With(o.side, Insert(o.side, book.Of(o.side), o)))
  {
    InsertKeepsGood(o.side, book.Of(o.side), o);
    InsertAdds(o.side, book.Of(o.side), o);
  }

  // ----------------------------------------------------- the book invariant

  /** Every submit keeps the whole book invariant. */
  lemma SubmitKeepsWellFormed(book: Book, order: Order)
    requires WellFormed(book)
    ensures WellFormed(Submit(book, order).0)
  {
    var against := order.side.Opposite();
    if Check(book, order).None? && !(order.tif.FOK? && Available(book.Of(against), order) < order.qty) {
      var s := Sweep(book.Of(against), order, order.qty);
      MatchKeepsWellFormed(book, against, order);
      SweepKeepsGood(against, book.Of(against), order, order.qty);
      SweepBound(book.Of(against), order, order.qty);
      SweepExhausts(book.Of(against), order, order.qty);
      if s.left > 0 && order.tif.GTC? {
        RestKeepsWellFormed(book.With(against, s.queue), order.(qty := s.left));
      }
    }
  }

  lemma {:induction false} RemoveKeepsGood(side: Side, queue: seq<Order>, id: nat)
    requires GoodQueue(side, queue)
    ensures var r := Rewrite(queue, Without(id));
      && GoodQueue(side, r)
      && (forall x :: x in r <==> x in queue && x.id != id)
      && Ids(r) == Ids(queue) - {id}
      && (Unique(queue) ==> Unique(r))
      && (forall price :: QtyAt(r, price) <= QtyAt(queue, price))
      && (r != [] ==> queue != [] && !Before(side, r[0].Price(), queue[0].Price()))
  {
    if queue != [] {
      RemoveKeepsGood(side, queue[1..], id);
      assert queue == [queue[0]] + queue[1..];
      var tail := Rewrite(queue[1..], Without(id));
      assert ([queue[0]] + tail)[1..] == tail;
      assert queue[1..] != [] ==> queue[1..][0] in queue[1..];
    }
  }

  /** Every cancel keeps the whole book invariant. */
  lemma CancelKeepsWellFormed(book: Book, id: nat)
    requires WellFormed(book)
    ensures WellFormed(Cancel(book, id).0)
  {
    RemoveKeepsGood(Buy, book.bids, id);
    RemoveKeepsGood(Sell, book.asks, id);
  }

  // ------------------------------------------------------ conserved quantity

  /** The taker is filled or rests; the other side loses what was filled; its own side gains what rests. */
  lemma SubmitConserves(book: Book, order: Order)
    requires Submit(book, order).1.Ok?
    ensures var (after, r) := Submit(book, order);
      && FilledQty(r.value.fills) == r.value.filledQty
      && TotalQty(after.Of(order.side.Opposite())) == TotalQty(book.Of(order.side.Opposite())) - r.value.filledQty
      && TotalQty(after.Of(order.side)) ==
           TotalQty(book.Of(order.side)) + (if r.value.outcome.Resting? then r.value.outcome.remaining else 0)
      && match r.value.outcome
         case Filled => r.value.filledQty == order.qty
         case Resting(n) => 0 < n && order.tif.GTC? && r.value.filledQty + n == order.qty
         case Cancelled(n) => 0 < n && !order.tif.GTC? && r.value.filledQty + n == order.qty
         case Killed => order.tif.FOK? && r.value.fills == [] && after == book
  {
    var against := order.side.Opposite();
    SweepConserves(book.Of(against), order, order.qty);
    InsertAdds(order.side, book.Of(order.side), order.(qty := Sweep(book.Of(against), order, order.qty).left));
  }

  lemma {:induction false} RemoveTakesOne(queue: seq<Order>, id: nat)
    requires Unique(queue)
    ensures Find(queue, id).Some? <==> id in Ids(queue)
    ensures Find(queue, id).None? ==> Rewrite(queue, Without(id)) == queue
    ensures Find(queue, id).Some? ==>
      && Find(queue, id).value in queue && Find(queue, id).value.id == id
      && TotalQty(Rewrite(queue, Without(id))) == TotalQty(queue) - Find(queue, id).value.qty
  {
    if queue != [] {
      RemoveTakesOne(queue[1..], id);
      var tail := Rewrite(queue[1..], Without(id));
      assert ([queue[0]] + tail)[1..] == tail;
      assert queue[0].id != id ==> Rewrite(queue, Without(id)) == [queue[0]] + tail;
    }
  }

  /** A cancel returns a resting order and removes its quantity, or changes nothing. */
  lemma CancelRemovesExactlyOne(book: Book, id: nat)
    requires WellFormed(book)
    ensures var (after, removed) := Cancel(book, id);
      && (removed.None? <==> id !in book.AllIds())
      && (removed.None? ==> after == book)
      && (removed.Some? ==>
            var o := removed.value;
            && o.id == id && o in book.Of(o.side)
            && after.AllIds() == book.AllIds() - {id}
            && after.Of(o.side.Opposite()) == book.Of(o.side.Opposite())
            && TotalQty(after.Of(o.side)) == TotalQty(book.Of(o.side)) - o.qty)
  {
    RemoveTakesOne(book.bids, id);
    RemoveTakesOne(book.asks, id);
    RemoveKeepsGood(Buy, book.bids, id);
    RemoveKeepsGood(Sell, book.asks, id);
    MembersRestOn(Buy, book.bids);
    MembersRestOn(Sell, book.asks);
  }

  lemma {:induction false} MembersRestOn(side: Side, queue: seq<Order>)
    requires GoodQueue(side, queue)
    ensures forall o :: o in queue ==> RestsOn(o, side) && o.id in Ids(queue)
  {
    if queue != [] {
      MembersRestOn(side, queue[1..]);
      assert queue == [queue[0]] + queue[1..];
    }
  }

  // ------------------------------------------------------------ fill or kill

  lemma {:induction false} NothingAcceptable(side: Side, queue: seq<Order>, taker: Order)
    requires GoodQueue(side, queue) && taker.side == side.Opposite()
    requires queue != [] ==> !taker.Accepts(queue[0].Price())
    ensures Available(queue, taker) == 0
  {
    if queue != [] {
      assert queue[1..] != [] ==> queue[1..][0] in queue[1..];
      NothingAcceptable(side, queue[1..], taker);
    }
  }

  /** Matching trades all the acceptable quantity there is, up to the taker's size. */
  lemma {:induction false} SweepTakesAvailable(side: Side, queue: seq<Order>, taker: Order, want: U64)
    requires GoodQueue(side, queue) && taker.side == side.Opposite()
    ensures Sweep(queue, taker, want).left == Max(0, want - Available(queue, taker))
  {
    if want == 0 || queue == [] {
    } else if !taker.Accepts(queue[0].Price()) {
      NothingAcceptable(side, queue, taker);
    } else if queue[0].qty <= want {
      SweepTakesAvailable(side, queue[1..], taker, want - queue[0].qty);
    }
  }

  /** A FOK order fills completely or leaves the book unchanged, and which of the two depends on depth alone. */
  lemma FillOrKill(book: Book, order: Order)
    requires WellFormed(book) && order.tif.FOK? && Check(book, order).None?
    ensures var (after, r) := Submit(book, order);
      if order.qty <= Available(book.Of(order.side.Opposite()), order)
      then r == Ok(SubmitResult(Sweep(book.Of(order.side.Opposite()), order, order.qty).fills, order.qty, Filled))
           && FilledQty(r.value.fills) == order.qty
      else r == Ok(SubmitResult([], 0, Killed)) && after == book
  {
    var against := order.side.Opposite();
    SweepTakesAvailable(against, book.Of(against), order, order.qty);
    SweepConserves(book.Of(against), order, order.qty);
  }

  // -------------------------------------------------------- walking the book

  /** Price of the `n`-th unit, counted from 0, that a taker buying down the queue pays. */
  function UnitPrice(queue: seq<Order>, n: nat): int
    requires n < TotalQty(queue)
  {
    if n < queue[0].qty then queue[0].Price() else UnitPrice(queue[1..], n - queue[0].qty)
  }

  /** Value of the first `n` units of a queue. */
  ghost function Value(queue: seq<Order>, n: nat): int
    requires n <= TotalQty(queue)
  {
    if n == 0 then 0 else Value(queue, n - 1) + UnitPrice(queue, n - 1)
  }

  lemma {:induction false} UnitPriceFromHead(side: Side, queue: seq<Order>, n: nat)
    requires GoodQueue(side, queue) && n < TotalQty(queue)
    ensures queue != [] && !Before(side, UnitPrice(queue, n), queue[0].Price())
  {
    if n >= queue[0].qty {
      UnitPriceFromHead(side, queue[1..], n - queue[0].qty);
      assert queue[1..][0] in queue[1..];
    }
  }

  /** Later units never trade at a better price for the taker. */
  lemma {:induction false} UnitPricesWorsen(side: Side, queue: seq<Order>, m: nat, n: nat)
    requires GoodQueue(side, queue) && m <= n < TotalQty(queue)
    ensures !Before(side, UnitPrice(queue, n), UnitPrice(queue, m))
  {
    if queue[0].qty <= m {
      UnitPricesWorsen(side, queue[1..], m - queue[0].qty, n - queue[0].qty);
    } else {
      UnitPriceFromHead(side, queue, n);
    }
  }

  /** The first units all come from the head of the queue, the rest from its tail. */
  lemma {:induction false} ValueSplits(queue: seq<Order>, n: nat)
    requires queue != [] && n <= TotalQty(queue)
    ensures Value(queue, n) ==
      if n <= queue[0].qty then queue[0].Price() * n
      else queue[0].Price() * queue[0].qty + Value(queue[1..], n - queue[0].qty)
  {
    if n > 0 {
      ValueSplits(queue, n - 1);
    }
  }

  lemma {:induction false} SweepPaysValue(queue: seq<Order>, taker: Order, want: U64)
    requires want <= TotalQty(queue)
    requires Sweep(queue, taker, want).left == 0
    ensures Notional(Sweep(queue, taker, want).fills) == Value(queue, want)
  {
    if want > 0 {
      var maker, fill := queue[0], Trade(taker, want, queue[0]);
      ValueSplits(queue, want);
      if fill.qty < maker.qty {
        assert Notional([fill]) == fill.price * fill.qty;
      } else {
        var rest := Sweep(queue[1..], taker, want - fill.qty);
        SweepPaysValue(queue[1..], taker, want - fill.qty);
        assert ([fill] + rest.fills)[1..] == rest.fills;
      }
    }
  }

  lemma {:induction false} ValueIsSuperadditive(side: Side, queue: seq<Order>, a: nat, b: nat)
    requires GoodQueue(side, queue) && a + b <= TotalQty(queue)
    ensures if side.Sell? then Value(queue, a + b) >= Value(queue, a) + Value(queue, b)
            else Value(queue, a + b) <= Value(queue, a) + Value(queue, b)
  {
    if b > 0 {
      ValueIsSuperadditive(side, queue, a, b - 1);
      UnitPricesWorsen(side, queue, b - 1, a + b - 1);
    }
  }

  /**
   * Trading two quantities at once never beats trading each on a fresh book: a buyer pays at least
   * as much and a seller receives at most as much. Holds whenever the side is deep enough.
   */
  lemma WalkingTheBookIsSuperadditive(side: Side, queue: seq<Order>, taker: Order, a: U64, b: U64)
    requires GoodQueue(side, queue) && taker.side == side.Opposite() && a + b <= U64_MAX
    requires a + b <= Available(queue, taker)
    ensures var both := Notional(Sweep(queue, taker, a + b).fills);
            var apart := Notional(Sweep(queue, taker, a).fills) + Notional(Sweep(queue, taker, b).fills);
            if taker.side.Buy? then both >= apart else both <= apart
  {
    AvailableAtMostTotal(queue, taker);
    forall n: U64 | n in {a, b, a + b}
      ensures Notional(Sweep(queue, taker, n).fills) == Value(queue, n)
    {
      SweepTakesAvailable(side, queue, taker, n);
      SweepPaysValue(queue, taker, n);
    }
    ValueIsSuperadditive(side, queue, a, b);
  }

  lemma {:induction false} AvailableAtMostTotal(queue: seq<Order>, taker: Order)
    ensures Available(queue, taker) <= TotalQty(queue)
  {
    if queue != [] {
      AvailableAtMostTotal(queue[1..], taker);
    }
  }

  // ------------------------------------------------- matching level by level

  lemma {:induction false} UniqueConcat(a: seq<Order>, b: seq<Order>)
    ensures Unique(a + b) <==> Unique(a) && Unique(b) && Ids(a) !! Ids(b)
  {
    if a == [] {
      assert a + b == b;
    } else {
      assert (a + b)[1..] == a[1..] + b;
      UniqueConcat(a[1..], b);
      IdsConcat(a[1..], b);
    }
  }

  lemma {:induction false} AvailableInLevel(orders: seq<Order>, rest: seq<Order>, taker: Order)
    requires forall o :: o in orders ==> taker.Accepts(o.Price())
    ensures Available(orders + rest, taker) == TotalQty(orders) + Available(rest, taker)
  {
    if orders == [] {
      assert orders + rest == rest;
    } else {
      assert orders[0] in orders;
      assert (orders + rest)[1..] == orders[1..] + rest;
      AvailableInLevel(orders[1..], rest, taker);
    }
  }

  /** Matching `whole` has produced `fills`, and goes on like matching `queue` with `left` still wanted. */
  ghost predicate MatchedSoFar(whole: seq<Order>, taker: Order, want: U64, fills: seq<Fill>, queue: seq<Order>,
                               left: U64) {
    var s := Sweep(queue, taker, left);
    left <= want && Sweep(whole, taker, want) == Swept(fills + s.fills, s.queue, s.left)
  }

  lemma MatchingStarts(whole: seq<Order>, taker: Order, want: U64)
    ensures MatchedSoFar(whole, taker, want, [], whole, want)
  {
    var s := Sweep(whole, taker, want);
    assert [] + s.fills == s.fills;
  }

  lemma MatchingStops(whole: seq<Order>, taker: Order, want: U64, fills: seq<Fill>, queue: seq<Order>, left: U64)
    requires MatchedSoFar(whole, taker, want, fills, queue, left)
    requires left == 0 || queue == [] || !taker.Accepts(queue[0].Price())
    ensures Sweep(whole, taker, want) == Swept(fills, queue, left)
  {
    assert fills + [] == fills;
  }

  /** One trade with the front order. */
  lemma MatchingTrades(whole: seq<Order>, taker: Order, want: U64, fills: seq<Fill>, queue: seq<Order>, left: U64)
    requires MatchedSoFar(whole, taker, want, fills, queue, left)
    requires left > 0 && queue != [] && taker.Accepts(queue[0].Price())
    ensures var fill := Trade(taker, left, queue[0]);
            MatchedSoFar(whole, taker, want, fills + [fill], Traded(queue, fill.qty), left - fill.qty)
  {
    var maker, fill := queue[0], Trade(taker, left, queue[0]);
    if fill.qty < maker.qty {
      assert fills + [fill] + [] == fills + [fill];
    } else {
      var rest := Sweep(queue[1..], taker, left - fill.qty);
      assert fills + ([fill] + rest.fills) == fills + [fill] + rest.fills;
    }
  }

  lemma {:induction false} CountIds(queue: seq<Order>)
    requires Unique(queue)
    ensures |Ids(queue)| == |queue|
  {
    if queue != [] {
      CountIds(queue[1..]);
    }
  }

  /** Two stages of matching in a row are one. */
  lemma Chain(whole: Swept, fills: seq<Fill>, second: Swept, more: seq<Fill>, last: Swept)
    requires whole == Swept(fills + second.fills, second.queue, second.left)
    requires second == Swept(more + last.fills, last.queue, last.left)
    ensures whole == Swept(fills + more + last.fills, last.queue, last.left)
  {
    assert fills + (more + last.fills) == fills + more + last.fills;
  }

  /** Matching the front of a queue in full detail, then going on with what is left of it. */
  lemma {:induction false} SweepInParts(orders: seq<Order>, rest: seq<Order>, taker: Order, want: U64)
    requires forall o :: o in orders ==> taker.Accepts(o.Price()) && o.qty > 0
    ensures var a := Sweep(orders, taker, want);
            var s := Sweep(a.queue + rest, taker, a.left);
      && a.left <= want && (want > 0 && orders != [] ==> a.left < want)
      && Sweep(orders + rest, taker, want) == Swept(a.fills + s.fills, s.queue, s.left)
  {
    if want == 0 || orders == [] {
      var s := Sweep(orders + rest, taker, want);
      assert [] + s.fills == s.fills;
    } else {
      assert orders[0] in orders;
      var fill := Trade(taker, want, orders[0]);
      assert (orders + rest)[1..] == orders[1..] + rest;
      if fill.qty < orders[0].qty {
        CutFront(orders, rest, taker, want);
      } else {
        SweepInParts(orders[1..], rest, taker, want - fill.qty);
        var a := Sweep(orders[1..], taker, want - fill.qty);
        var s := Sweep(a.queue + rest, taker, a.left);
        Chain(Sweep(orders + rest, taker, want), [fill], Sweep(orders[1..] + rest, taker, want - fill.qty), a.fills, s);
      }
    }
  }

  lemma CutFront(orders: seq<Order>, rest: seq<Order>, taker: Order, want: U64)
    requires orders != [] && 0 < want < orders[0].qty && taker.Accepts(orders[0].Price())
    ensures var a := Sweep(orders, taker, want);
            var s := Sweep(a.queue + rest, taker, a.left);
      Sweep(orders + rest, taker, want) == Swept(a.fills + s.fills, s.queue, s.left) && a.left == 0
  {
    var fill := Trade(taker, want, orders[0]);
    var cut := [orders[0].(qty := orders[0].qty - fill.qty)];
    assert (orders + rest)[1..] == orders[1..] + rest;
    assert cut + (orders[1..] + rest) == cut + orders[1..] + rest;
    assert [fill] + [] == [fill];
  }

  lemma MatchingInParts(whole: seq<Order>, taker: Order, want: U64, fills: seq<Fill>, orders: seq<Order>,
                        rest: seq<Order>, left: U64)
    requires MatchedSoFar(whole, taker, want, fills, orders + rest, left)
    requires forall o :: o in orders ==> taker.Accepts(o.Price()) && o.qty > 0
    ensures var a := Sweep(orders, taker, left);
      && MatchedSoFar(whole, taker, want, fills + a.fills, a.queue + rest, a.left)
      && (left > 0 && orders != [] ==> a.left < left)
  {
    SweepInParts(orders, rest, taker, left);
    var a := Sweep(orders, taker, left);
    Chain(Sweep(whole, taker, want), fills, Sweep(orders + rest, taker, left), a.fills,
          Sweep(a.queue + rest, taker, a.left));
  }

  /** Whatever is left of the queue rested in it before, at the same price. */
  lemma {:induction false} SweepMembers(queue: seq<Order>, taker: Order, want: U64)
    ensures forall o :: o in Sweep(queue, taker, want).queue ==>
      exists x :: x in queue && x.id == o.id && x.Price() == o.Price()
  {
    if want != 0 && queue != [] && taker.Accepts(queue[0].Price()) {
      if queue[0].qty <= want {
        SweepMembers(queue[1..], taker, want - queue[0].qty);
      } else {
        var r := Sweep(queue, taker, want).queue;
        forall o | o in r ensures exists x :: x in queue && x.id == o.id && x.Price() == o.Price() {
          assert o == r[0] || o in queue[1..];
          assert queue[0] in queue;
        }
      }
    }
  }
}
