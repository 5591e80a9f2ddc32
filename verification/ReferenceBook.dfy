/**
 * The deliberately naive book: one list of resting orders in arrival order, no levels, no index,
 * no cached totals. The priority queues of `BookSpec` are shown to be exactly this list, sorted.
 */
module ReferenceBook {
  import opened Types
  import opened BookSpec
  import opened BookLaws

  /** Orders of one side, best price first and arrival order within a price (an insertion sort). */
  function Prioritised(list: seq<Order>, side: Side): seq<Order> {
    if list == [] then []
    else
      var last := list[|list| - 1];
      var earlier := Prioritised(list[..|list| - 1], side);
      if last.side == side then Insert(side, earlier, last) else earlier
  }

  /** Keeps the orders `taker` is willing to trade with. */
  function TradableWith(taker: Order): Order -> Option<Order> {
    (o: Order) => if o.side != taker.side && taker.Accepts(o.Price()) then Some(o) else None
  }

  /** Every willing maker, best price first, then arrival order. */
  function Candidates(list: seq<Order>, taker: Order): seq<Order> {
    Prioritised(Rewrite(list, TradableWith(taker)), taker.side.Opposite())
  }

  /** One pass over the candidates. */
  function TradeThrough(candidates: seq<Order>, taker: Order, want: U64): seq<Fill> {
    if candidates == [] || want == 0 then []
    else
      var fill := Trade(taker, want, candidates[0]);
      [fill] + TradeThrough(candidates[1..], taker, want - fill.qty)
  }

  /** How much the fills took from one maker. */
  function TakenFrom(fills: seq<Fill>, id: nat): nat {
    if fills == [] then 0
    else (if fills[0].makerId == id then fills[0].qty else 0) + TakenFrom(fills[1..], id)
  }

  /** Takes the filled quantity off each maker, dropping the makers that are used up. */
  function After(fills: seq<Fill>): Order -> Option<Order> {
    (o: Order) =>
      var taken := TakenFrom(fills, o.id);
      if taken < o.qty then Some(o.(qty := o.qty - taken)) else None
  }

  function SumAt(list: seq<Order>, side: Side, price: int): nat {
    if list == [] then 0
    else
      var last := list[|list| - 1];
      SumAt(list[..|list| - 1], side, price) + (if last.side == side && last.Price() == price then last.qty else 0)
  }

  function Check(list: seq<Order>, order: Order): Option<OrderError> {
    if order.qty == 0 then Some(ZeroQuantity)
    else if order.limit.Some? && order.limit.value <= 0 then Some(NonPositivePrice(order.limit.value))
    else if order.limit.Some? && order.tif.GTC?
            && SumAt(list, order.side, order.limit.value) + order.qty > U64_MAX then
      Some(LevelQuantityOverflow)
    else if order.limit.None? && order.tif.GTC? then Some(MarketOrderCannotRest)
    else if order.id in Ids(list) then Some(DuplicateOrderId(order.id))
    else None
  }

  function Submit(list: seq<Order>, order: Order): (r: (seq<Order>, Result<SubmitResult, OrderError>)) {
    var error := Check(list, order);
    if error.Some? then (list, Err(error.value))
    else
      var candidates := Candidates(list, order);
      if order.tif.FOK? && TotalQty(candidates) < order.qty then (list, Ok(SubmitResult([], 0, Killed)))
      else
        TradeThroughBound(candidates, order, order.qty);
        var fills := TradeThrough(candidates, order, order.qty);
        var filled := FilledQty(fills);
        var left := order.qty - filled;
        var makers := Rewrite(list, After(fills));
        if left == 0 then (makers, Ok(SubmitResult(fills, filled, Filled)))
        else if order.tif.GTC? then
          (makers + [order.(qty := left)], Ok(SubmitResult(fills, filled, Resting(left))))
        else (makers, Ok(SubmitResult(fills, filled, Cancelled(left))))
  }

  function Cancel(list: seq<Order>, id: nat): (seq<Order>, Option<Order>) {
    (Rewrite(list, Without(id)), Find(list, id))
  }

  /** Aggregated `(price, quantity)` pairs of one side, best price first. */
  function Depth(list: seq<Order>, side: Side): seq<(int, nat)> {
    if list == [] then []
    else
      var last := list[|list| - 1];
      var earlier := Depth(list[..|list| - 1], side);
      if last.side == side then AddToDepth(side, earlier, last.Price(), last.qty) else earlier
  }

  function AddToDepth(side: Side, depth: seq<(int, nat)>, price: int, qty: nat): seq<(int, nat)> {
    if depth == [] || Before(side, price, depth[0].0) then [(price, qty)] + depth
    else if depth[0].0 == price then [(price, depth[0].1 + qty)] + depth[1..]
    else [depth[0]] + AddToDepth(side, depth[1..], price, qty)
  }

  lemma {:induction false} TradeThroughBound(candidates: seq<Order>, taker: Order, want: U64)
    ensures FilledQty(TradeThrough(candidates, taker, want)) <= want
  {
    if candidates != [] && want != 0 {
      var fill := Trade(taker, want, candidates[0]);
      var rest := TradeThrough(candidates[1..], taker, want - fill.qty);
      TradeThroughBound(candidates[1..], taker, want - fill.qty);
      assert ([fill] + rest)[1..] == rest;
    }
  }

  // --------------------------- sorting commutes with rewriting in place

  /** `f` may drop orders or change their size, but not move them. */
  ghost predicate KeepsPlace(f: Order -> Option<Order>) {
    forall o: Order :: f(o).Some? ==> f(o).value.Price() == o.Price() && f(o).value.side == o.side
  }

  lemma {:induction false} RewriteKeepsOrder(side: Side, queue: seq<Order>, f: Order -> Option<Order>)
    requires KeepsPlace(f)
    ensures forall x :: x in Rewrite(queue, f) ==> exists o :: o in queue && o.Price() == x.Price()
  {
    if queue != [] {
      RewriteKeepsOrder(side, queue[1..], f);
    }
  }

  lemma {:induction false} InsertCommutes(side: Side, queue: seq<Order>, o: Order, f: Order -> Option<Order>)
    requires KeepsPlace(f) && SortedByPrice(side, queue)
    ensures Rewrite(Insert(side, queue, o), f) ==
      match f(o) case None => Rewrite(queue, f) case Some(x) => Insert(side, Rewrite(queue, f), x)
  {
    if queue != [] && !Before(side, o.Price(), queue[0].Price()) {
      InsertCommutes(side, queue[1..], o, f);
      assert ([queue[0]] + Insert(side, queue[1..], o))[1..] == Insert(side, queue[1..], o);
      var tail := Rewrite(queue[1..], f);
      assert f(queue[0]).Some? ==> ([f(queue[0]).value] + tail)[1..] == tail;
    } else {
      assert ([o] + queue)[1..] == queue;
      RewriteKeepsOrder(side, queue, f);
      var r := Rewrite(queue, f);
      assert r != [] ==> r[0] in r;
      assert queue != [] ==> queue == [queue[0]] + queue[1..];
    }
  }

  predicate SortedByPrice(side: Side, queue: seq<Order>) {
    queue == [] ||
    ((forall o :: o in queue[1..] ==> !Before(side, o.Price(), queue[0].Price())) && SortedByPrice(side, queue[1..]))
  }

  lemma {:induction false} InsertSorts(side: Side, queue: seq<Order>, o: Order)
    requires SortedByPrice(side, queue)
    ensures SortedByPrice(side, Insert(side, queue, o))
  {
    if queue != [] && !Before(side, o.Price(), queue[0].Price()) {
      InsertSorts(side, queue[1..], o);
      InsertAdds(side, queue[1..], o);
    } else {
      assert ([o] + queue)[1..] == queue;
      assert queue != [] ==> queue == [queue[0]] + queue[1..];
    }
  }

  lemma {:induction false} PrioritisedIsSorted(list: seq<Order>, side: Side)
    ensures SortedByPrice(side, Prioritised(list, side))
    ensures forall o :: o in Prioritised(list, side) <==> o in list && o.side == side
    ensures Ids(Prioritised(list, side)) <= Ids(list)
  {
    if list != [] {
      var last, init := list[|list| - 1], list[..|list| - 1];
      PrioritisedIsSorted(init, side);
      assert list == init + [last];
      IdsConcat(init, [last]);
      if last.side == side {
        InsertSorts(side, Prioritised(init, side), last);
        InsertAdds(side, Prioritised(init, side), last);
      }
    }
  }

  /** Rewriting the arrival list and then sorting gives the same as sorting and then rewriting. */
  lemma {:induction false} SortingCommutes(list: seq<Order>, side: Side, f: Order -> Option<Order>)
    requires KeepsPlace(f)
    ensures Prioritised(Rewrite(list, f), side) == Rewrite(Prioritised(list, side), f)
  {
    if list != [] {
      var last, init := list[|list| - 1], list[..|list| - 1];
      SortingCommutes(init, side, f);
      assert list == init + [last];
      RewriteConcat(init, [last], f);
      assert Rewrite([last], f) == match f(last) case None => [] case Some(x) => [x];
      var r := Rewrite(init, f);
      assert r + [] == r;
      assert f(last).Some? ==> (r + [f(last).value])[..|r|] == r;
      if last.side == side {
        PrioritisedIsSorted(init, side);
        InsertCommutes(side, Prioritised(init, side), last, f);
      }
    }
  }

  // ------------------------------------------------------------ simulation

  /** The two books hold the same resting orders in the same priority. */
  predicate Simulates(book: Book, list: seq<Order>) {
    book.bids == Prioritised(list, Buy) && book.asks == Prioritised(list, Sell) && Unique(list)
  }

  lemma {:induction false} SumsAgree(list: seq<Order>, side: Side, price: int)
    ensures SumAt(list, side, price) == QtyAt(Prioritised(list, side), price)
  {
    if list != [] {
      SumsAgree(list[..|list| - 1], side, price);
      InsertAdds(side, Prioritised(list[..|list| - 1], side), list[|list| - 1]);
    }
  }

  lemma {:induction false} IdsAgree(list: seq<Order>)
    ensures Ids(list) == Ids(Prioritised(list, Buy)) + Ids(Prioritised(list, Sell))
  {
    if list != [] {
      var last, init := list[|list| - 1], list[..|list| - 1];
      IdsAgree(init);
      assert list == init + [last];
      IdsConcat(init, [last]);
      InsertAdds(last.side, Prioritised(init, last.side), last);
    }
  }

  lemma {:induction false} CandidateQtyAgrees(queue: seq<Order>, taker: Order)
    requires GoodQueue(taker.side.Opposite(), queue)
    ensures TotalQty(Rewrite(queue, TradableWith(taker))) == Available(queue, taker)
  {
    if queue != [] {
      CandidateQtyAgrees(queue[1..], taker);
      var tail := Rewrite(queue[1..], TradableWith(taker));
      assert ([queue[0]] + tail)[1..] == tail;
    }
  }

  /** Sweeping the whole queue trades as one pass over the willing makers alone. */
  lemma {:induction false} CandidatesAgree(queue: seq<Order>, taker: Order, want: U64)
    requires GoodQueue(taker.side.Opposite(), queue)
    ensures TradeThrough(Rewrite(queue, TradableWith(taker)), taker, want) == Sweep(queue, taker, want).fills
  {
    if queue == [] || want == 0 {
    } else if !taker.Accepts(queue[0].Price()) {
      NoCandidates(queue, taker);
    } else {
      var tail := Rewrite(queue[1..], TradableWith(taker));
      assert ([queue[0]] + tail)[1..] == tail;
      CandidatesAgree(queue[1..], taker, want - Trade(taker, want, queue[0]).qty);
    }
  }

  lemma {:induction false} NoCandidates(queue: seq<Order>, taker: Order)
    requires GoodQueue(taker.side.Opposite(), queue)
    requires queue != [] ==> !taker.Accepts(queue[0].Price())
    ensures Rewrite(queue, TradableWith(taker)) == []
  {
    if queue != [] {
      assert queue[1..] != [] ==> queue[1..][0] in queue[1..];
      NoCandidates(queue[1..], taker);
    }
  }

  lemma {:induction false} SameRewrite(queue: seq<Order>, f: Order -> Option<Order>, g: Order -> Option<Order>)
    requires forall o :: o in queue ==> f(o) == g(o)
    ensures Rewrite(queue, f) == Rewrite(queue, g)
  {
    if queue != [] {
      assert queue[0] in queue;
      SameRewrite(queue[1..], f, g);
    }
  }

  /** Fills name makers of the queue only. */
  lemma {:induction false} MakersAreResting(queue: seq<Order>, taker: Order, want: U64, id: nat)
    requires id !in Ids(queue)
    ensures TakenFrom(Sweep(queue, taker, want).fills, id) == 0
  {
    if want != 0 && queue != [] && taker.Accepts(queue[0].Price()) {
      var fill := Trade(taker, want, queue[0]);
      if queue[0].qty <= want {
        var rest := Sweep(queue[1..], taker, want - fill.qty);
        MakersAreResting(queue[1..], taker, want - fill.qty, id);
        assert ([fill] + rest.fills)[1..] == rest.fills;
      } else {
        assert [fill][1..] == [];
      }
    }
  }

  lemma {:induction false} UntouchedByFills(side: Side, queue: seq<Order>, fills: seq<Fill>)
    requires GoodQueue(side, queue)
    requires forall id :: id in Ids(queue) ==> TakenFrom(fills, id) == 0
    ensures Rewrite(queue, After(fills)) == queue
  {
    if queue != [] {
      assert queue[0].id in Ids(queue);
      UntouchedByFills(side, queue[1..], fills);
    }
  }

  lemma {:induction false} OthersUntouched(queue: seq<Order>, fill: Fill, fills: seq<Fill>)
    requires fill.makerId !in Ids(queue)
    ensures Rewrite(queue, After([fill] + fills)) == Rewrite(queue, After(fills))
  {
    MembersHaveIds(queue);
    assert ([fill] + fills)[1..] == fills;
    SameRewrite(queue, After([fill] + fills), After(fills));
  }

  lemma {:induction false} FrontCut(side: Side, queue: seq<Order>, fill: Fill)
    requires GoodQueue(side, queue) && Unique(queue) && queue != []
    requires fill.makerId == queue[0].id && fill.qty < queue[0].qty
    ensures Rewrite(queue, After([fill])) == [queue[0].(qty := queue[0].qty - fill.qty)] + queue[1..]
  {
    assert [fill] + [] == [fill];
    OthersUntouched(queue[1..], fill, []);
    UntouchedByFills(side, queue[1..], []);
  }

  lemma {:induction false} FrontUsedUp(queue: seq<Order>, fill: Fill, fills: seq<Fill>)
    requires queue != [] && Unique(queue) && fill.makerId == queue[0].id && fill.qty == queue[0].qty
    requires TakenFrom(fills, queue[0].id) == 0
    ensures Rewrite(queue, After([fill] + fills)) == Rewrite(queue[1..], After(fills))
  {
    assert ([fill] + fills)[1..] == fills;
    OthersUntouched(queue[1..], fill, fills);
  }

  /** Matching takes off each maker exactly what the fills report, and nothing off the others. */
  lemma {:induction false} SweepIsAfter(side: Side, queue: seq<Order>, taker: Order, want: U64)
    requires GoodQueue(side, queue) && Unique(queue)
    ensures Sweep(queue, taker, want).queue == Rewrite(queue, After(Sweep(queue, taker, want).fills))
  {
    if want == 0 || queue == [] || !taker.Accepts(queue[0].Price()) {
      UntouchedByFills(side, queue, []);
    } else {
      var maker, fill := queue[0], Trade(taker, want, queue[0]);
      if fill.qty < maker.qty {
        FrontCut(side, queue, fill);
      } else {
        SweepIsAfter(side, queue[1..], taker, want - fill.qty);
        MakersAreResting(queue[1..], taker, want - fill.qty, maker.id);
        FrontUsedUp(queue, fill, Sweep(queue[1..], taker, want - fill.qty).fills);
      }
    }
  }

  /** Makers of a match lose what was filled on the flat list too; sorting it gives the swept book. */
  lemma MatchSimulates(book: Book, list: seq<Order>, taker: Order)
    requires WellFormed(book) && Simulates(book, list)
    ensures var against := taker.side.Opposite();
            var s := Sweep(book.Of(against), taker, taker.qty);
            Simulates(book.With(against, s.queue), Rewrite(list, After(s.fills)))
  {
    var against := taker.side.Opposite();
    var s := Sweep(book.Of(against), taker, taker.qty);
    SortingCommutes(list, Buy, After(s.fills));
    SortingCommutes(list, Sell, After(s.fills));
    SweepIsAfter(against, book.Of(against), taker, taker.qty);
    AfterKeepsUnique(list, s.fills);
    forall id | id in Ids(book.Of(taker.side)) ensures TakenFrom(s.fills, id) == 0 {
      MakersAreResting(book.Of(against), taker, taker.qty, id);
    }
    UntouchedByFills(taker.side, book.Of(taker.side), s.fills);
  }

  /** Both books reject an order for the same reason. */
  lemma ChecksAgree(book: Book, list: seq<Order>, order: Order)
    requires Simulates(book, list)
    ensures BookSpec.Check(book, order) == Check(list, order)
  {
    SumsAgree(list, order.side, order.Price());
    IdsAgree(list);
  }

  /** Both books kill and fill an order alike. */
  lemma TradesAgree(book: Book, list: seq<Order>, order: Order)
    requires WellFormed(book) && Simulates(book, list)
    ensures var queue := book.Of(order.side.Opposite());
      && TotalQty(Candidates(list, order)) == Available(queue, order)
      && TradeThrough(Candidates(list, order), order, order.qty) == Sweep(queue, order, order.qty).fills
      && FilledQty(Sweep(queue, order, order.qty).fills) == order.qty - Sweep(queue, order, order.qty).left
  {
    var queue := book.Of(order.side.Opposite());
    SortingCommutes(list, order.side.Opposite(), TradableWith(order));
    CandidatesAgree(queue, order, order.qty);
    CandidateQtyAgrees(queue, order);
    SweepConserves(queue, order, order.qty);
  }

  lemma {:induction false} AfterKeepsUnique(list: seq<Order>, fills: seq<Fill>)
    requires Unique(list)
    ensures Unique(Rewrite(list, After(fills))) && Ids(Rewrite(list, After(fills))) <= Ids(list)
  {
    if list != [] {
      AfterKeepsUnique(list[1..], fills);
      var tail := Rewrite(list[1..], After(fills));
      assert forall o :: ([o] + tail)[1..] == tail;
    }
  }

  lemma {:induction false} AppendKeepsUnique(list: seq<Order>, o: Order)
    requires Unique(list) && o.id !in Ids(list)
    ensures Unique(list + [o])
  {
    if list != [] {
      AppendKeepsUnique(list[1..], o);
      assert (list + [o])[1..] == list[1..] + [o];
      IdsConcat(list[1..], [o]);
    }
  }

  lemma {:induction false} WithoutKeepsUnique(list: seq<Order>, id: nat)
    requires Unique(list)
    ensures Unique(Rewrite(list, Without(id))) && Ids(Rewrite(list, Without(id))) <= Ids(list)
  {
    if list != [] {
      WithoutKeepsUnique(list[1..], id);
      var tail := Rewrite(list[1..], Without(id));
      assert ([list[0]] + tail)[1..] == tail;
    }
  }

  lemma RestSimulates(book: Book, list: seq<Order>, o: Order)
    requires Simulates(book, list) && o.id !in Ids(list)
    ensures Simulates(book.With(o.side, Insert(o.side, book.Of(o.side), o)), list + [o])
  {
    assert (list + [o])[..|list|] == list;
    AppendKeepsUnique(list, o);
  }

  /** What the flat list reports for a given outcome of the trading pass. */
  lemma ReportFromTrades(list: seq<Order>, order: Order, s: Swept, available: nat)
    requires Check(list, order).None? && s.left <= order.qty
    requires TotalQty(Candidates(list, order)) == available
    requires TradeThrough(Candidates(list, order), order, order.qty) == s.fills
    requires FilledQty(s.fills) == order.qty - s.left
    ensures Submit(list, order).1 == Ok(
      if order.tif.FOK? && available < order.qty then SubmitResult([], 0, Killed)
      else SubmitResult(s.fills, order.qty - s.left,
                        if s.left == 0 then Filled else if order.tif.GTC? then Resting(s.left) else Cancelled(s.left)))
  {
  }

  /** One submit on the book and on the flat list gives the same report. */
  lemma SubmitReportsAgree(book: Book, list: seq<Order>, order: Order)
    requires WellFormed(book) && Simulates(book, list)
    ensures BookSpec.Submit(book, order).1 == Submit(list, order).1
  {
    ChecksAgree(book, list, order);
    if Check(list, order).None? {
      var queue := book.Of(order.side.Opposite());
      TradesAgree(book, list, order);
      SweepBound(queue, order, order.qty);
      ReportFromTrades(list, order, Sweep(queue, order, order.qty), Available(queue, order));
    }
  }

  /** After one submit on both, the books still agree. */
  lemma SubmitSimulates(book: Book, list: seq<Order>, order: Order)
    requires WellFormed(book) && Simulates(book, list)
    ensures Simulates(BookSpec.Submit(book, order).0, Submit(list, order).0)
  {
    ChecksAgree(book, list, order);
    TradesAgree(book, list, order);
    var against := order.side.Opposite();
    var s := Sweep(book.Of(against), order, order.qty);
    if Check(list, order).None? && !(order.tif.FOK? && Available(book.Of(against), order) < order.qty) {
      MatchSimulates(book, list, order);
      if s.left > 0 && order.tif.GTC? {
        AfterKeepsUnique(list, s.fills);
        RestSimulates(book.With(against, s.queue), Rewrite(list, After(s.fills)), order.(qty := s.left));
      }
    }
  }

  /** One cancel on both: same result, and the books still agree. */
  lemma CancelSimulates(book: Book, list: seq<Order>, id: nat)
    requires WellFormed(book) && Simulates(book, list)
    ensures BookSpec.Cancel(book, id).1 == Cancel(list, id).1
    ensures Simulates(BookSpec.Cancel(book, id).0, Cancel(list, id).0)
  {
    SortingCommutes(list, Buy, Without(id));
    SortingCommutes(list, Sell, Without(id));
    WithoutKeepsUnique(list, id);
    IdsAgree(list);
    RemoveTakesOne(list, id);
    RemoveTakesOne(book.bids, id);
    RemoveTakesOne(book.asks, id);
    PrioritisedIsSorted(list, Buy);
    PrioritisedIsSorted(list, Sell);
    if id in Ids(list) {
      var o := if Find(book.bids, id).Some? then Find(book.bids, id).value else Find(book.asks, id).value;
      UniqueOrder(list, o, Find(list, id).value);
    }
  }

  // ------------------------------------------------------------------ depth

  /** Puts a quantity in front of a depth, into its first entry if the price is the same. */
  function Merge(price: int, qty: nat, depth: seq<(int, nat)>): seq<(int, nat)> {
    if depth != [] && depth[0].0 == price then [(price, qty + depth[0].1)] + depth[1..] else [(price, qty)] + depth
  }

  /** Consecutive orders at one price added up. */
  function Grouped(queue: seq<Order>): seq<(int, nat)> {
    if queue == [] then [] else Merge(queue[0].Price(), queue[0].qty, Grouped(queue[1..]))
  }

  lemma GroupedCons(o: Order, queue: seq<Order>)
    ensures Grouped([o] + queue) == Merge(o.Price(), o.qty, Grouped(queue))
    ensures queue != [] ==> Grouped(queue) != [] && Grouped(queue)[0].0 == queue[0].Price()
  {
    assert ([o] + queue)[1..] == queue;
  }

  lemma {:induction false} MergeSame(price: int, qty: nat, total: nat, rest: seq<(int, nat)>)
    ensures Merge(price, qty, [(price, total)] + rest) == [(price, qty + total)] + rest
  {
    assert ([(price, total)] + rest)[1..] == rest;
  }

  lemma MergeCommutes(side: Side, first: int, firstQty: nat, depth: seq<(int, nat)>, price: int, qty: nat)
    requires !Before(side, price, first)
    requires depth != [] ==> !Before(side, depth[0].0, first)
    ensures AddToDepth(side, Merge(first, firstQty, depth), price, qty)
      == Merge(first, firstQty, AddToDepth(side, depth, price, qty))
  {
    if depth != [] && depth[0].0 == first {
      assert Merge(first, firstQty, depth)[1..] == depth[1..];
    } else {
      assert Merge(first, firstQty, depth)[1..] == depth;
    }
  }

  lemma {:induction false} GroupedInsert(side: Side, queue: seq<Order>, o: Order)
    requires SortedByPrice(side, queue)
    ensures Grouped(Insert(side, queue, o)) == AddToDepth(side, Grouped(queue), o.Price(), o.qty)
  {
    if queue == [] || Before(side, o.Price(), queue[0].Price()) {
      GroupedCons(o, queue);
    } else {
      var first, tail := queue[0], queue[1..];
      GroupedInsert(side, tail, o);
      GroupedCons(first, tail);
      GroupedCons(first, Insert(side, tail, o));
      assert tail != [] ==> tail[0] in tail;
      MergeCommutes(side, first.Price(), first.qty, Grouped(tail), o.Price(), o.qty);
    }
  }

  lemma {:induction false} DepthAgrees(list: seq<Order>, side: Side)
    ensures Grouped(Prioritised(list, side)) == Depth(list, side)
  {
    if list != [] {
      var last, init := list[|list| - 1], list[..|list| - 1];
      DepthAgrees(init, side);
      if last.side == side {
        PrioritisedIsSorted(init, side);
        GroupedInsert(side, Prioritised(init, side), last);
      }
    }
  }

  /** A side shows no more levels than there are resting ids. */
  lemma DepthBound(queue: seq<Order>, ids: set<nat>)
    requires Unique(queue) && Ids(queue) <= ids
    ensures |Grouped(queue)| <= |ids|
  {
    CountIds(queue);
    SameSize(Ids(queue), ids);
    GroupedShrinks(queue);
  }

  lemma {:induction false} GroupedShrinks(queue: seq<Order>)
    ensures |Grouped(queue)| <= |queue|
  {
    if queue != [] {
      GroupedShrinks(queue[1..]);
    }
  }

  // ------------------------------------------------------------------- runs

  datatype Op = SubmitOp(order: Order) | CancelOp(id: nat)

  datatype Reply = Submitted(result: Result<SubmitResult, OrderError>) | Removed(order: Option<Order>)

  /** Everything a caller can see after one operation. */
  datatype Observation = Observation(reply: Reply, bids: seq<(int, nat)>, asks: seq<(int, nat)>, count: nat)

  function Apply(list: seq<Order>, op: Op): (seq<Order>, Reply) {
    match op
    case SubmitOp(order) => var r := Submit(list, order); (r.0, Submitted(r.1))
    case CancelOp(id) => var r := Cancel(list, id); (r.0, Removed(r.1))
  }

  function Observe(list: seq<Order>, reply: Reply): Observation {
    Observation(reply, Depth(list, Buy), Depth(list, Sell), |list|)
  }

  /** The flat list after a whole run, and what was seen after each of its operations. */
  function Replay(ops: seq<Op>): (seq<Order>, seq<Observation>) {
    if ops == [] then ([], [])
    else
      var (list, seen) := Replay(ops[..|ops| - 1]);
      var (after, reply) := Apply(list, ops[|ops| - 1]);
      (after, seen + [Observe(after, reply)])
  }
}
