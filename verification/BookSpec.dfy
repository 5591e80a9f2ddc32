/** What the limit order book means: each side is one queue in price-time priority. */
module BookSpec {
  import opened Types

  /** `limit` is absent for a market order. Ids are the source's `u64`, taken not to wrap. */
  datatype Order = Order(id: nat, side: Side, limit: Option<I64>, qty: U64, timestamp: U64, tif: TimeInForce) {
    /** Limit price in ticks; resting orders always have one. */
    function Price(): I64 {
      if limit.Some? then limit.value else 0
    }

    predicate Accepts(price: int) {
      match (side, limit)
      case (_, None) => true
      case (Buy, Some(l)) => price <= l
      case (Sell, Some(l)) => price >= l
    }
  }

  datatype Fill = Fill(takerId: nat, makerId: nat, takerSide: Side, price: I64, qty: U64, timestamp: U64)

  datatype Outcome = Filled | Resting(remaining: U64) | Cancelled(remaining: U64) | Killed

  datatype SubmitResult = SubmitResult(fills: seq<Fill>, filledQty: U64, outcome: Outcome)

  datatype OrderError =
    | ZeroQuantity
    | NonPositivePrice(ticks: int)
    | MarketOrderCannotRest
    | DuplicateOrderId(id: nat)
    | LevelQuantityOverflow

  /** Both sides of the book, best price first and earliest arrival first within a price. */
  datatype Book = Book(bids: seq<Order>, asks: seq<Order>) {
    function Of(side: Side): seq<Order> {
      if side.Buy? then bids else asks
    }

    function With(side: Side, queue: seq<Order>): Book {
      if side.Buy? then Book(queue, asks) else Book(bids, queue)
    }

    function AllIds(): set<nat> {
      Ids(bids) + Ids(asks)
    }

    /** Best prices of both sides, if quoted, meet in the middle: rounded down to a whole tick. */
    function Mid(): Option<I64> {
      if bids == [] || asks == [] then None else Some((bids[0].Price() + asks[0].Price()) / 2)
    }
  }

  const EMPTY: Book := Book([], [])

  // ------------------------------------------------------------- priority

  /** Whether price `p` has strict priority over `q` among orders resting on `side`. */
  predicate Before(side: Side, p: int, q: int) {
    if side.Buy? then p > q else p < q
  }

  /** `order` joins behind every order whose price is at least as good. */
  function Insert(side: Side, queue: seq<Order>, order: Order): seq<Order> {
    if queue == [] || Before(side, order.Price(), queue[0].Price()) then [order] + queue
    else [queue[0]] + Insert(side, queue[1..], order)
  }

  function QtyAt(queue: seq<Order>, price: int): nat {
    if queue == [] then 0
    else (if queue[0].Price() == price then queue[0].qty else 0) + QtyAt(queue[1..], price)
  }

  function TotalQty(queue: seq<Order>): nat {
    if queue == [] then 0 else queue[0].qty + TotalQty(queue[1..])
  }

  /** Quantity in `queue` at prices the order accepts, wherever it stands. */
  function Available(queue: seq<Order>, order: Order): nat {
    if queue == [] then 0
    else (if order.Accepts(queue[0].Price()) then queue[0].qty else 0) + Available(queue[1..], order)
  }

  function Ids(queue: seq<Order>): set<nat> {
    if queue == [] then {} else {queue[0].id} + Ids(queue[1..])
  }

  predicate Unique(queue: seq<Order>) {
    queue == [] || (queue[0].id !in Ids(queue[1..]) && Unique(queue[1..]))
  }

  // ------------------------------------------------------------- matching

  /** Matching of a taker: its fills, what is left of the queue, and its own unfilled quantity. */
  datatype Swept = Swept(fills: seq<Fill>, queue: seq<Order>, left: U64)

  function Trade(taker: Order, want: U64, maker: Order): Fill {
    Fill(taker.id, maker.id, taker.side, maker.Price(), Min(want, maker.qty), taker.timestamp)
  }

  /** The queue once its front order has traded. */
  function Traded(queue: seq<Order>, qty: nat): seq<Order>
    requires queue != [] && qty <= queue[0].qty
  {
    if qty < queue[0].qty then [queue[0].(qty := queue[0].qty - qty)] + queue[1..] else queue[1..]
  }

  /**
   * Trades up to `want` units for `taker` from the front of the queue, until it has them all or
   * meets a price it refuses.
   */
  function Sweep(queue: seq<Order>, taker: Order, want: U64): Swept {
    if want == 0 || queue == [] || !taker.Accepts(queue[0].Price()) then Swept([], queue, want)
    else
      var maker := queue[0];
      var fill := Trade(taker, want, maker);
      if fill.qty < maker.qty then
        Swept([fill], [maker.(qty := maker.qty - fill.qty)] + queue[1..], 0)
      else
        var rest := Sweep(queue[1..], taker, want - fill.qty);
        Swept([fill] + rest.fills, rest.queue, rest.left)
  }

  function FilledQty(fills: seq<Fill>): nat {
    if fills == [] then 0 else fills[0].qty + FilledQty(fills[1..])
  }

  function FilledAt(fills: seq<Fill>, price: int): nat {
    if fills == [] then 0 else (if fills[0].price == price then fills[0].qty else 0) + FilledAt(fills[1..], price)
  }

  function Notional(fills: seq<Fill>): int {
    if fills == [] then 0 else fills[0].price * fills[0].qty + Notional(fills[1..])
  }

  // ----------------------------------------------------------- operations

  function Check(book: Book, order: Order): Option<OrderError> {
    if order.qty == 0 then Some(ZeroQuantity)
    else if order.limit.Some? && order.limit.value <= 0 then Some(NonPositivePrice(order.limit.value))
    else if order.limit.Some? && order.tif.GTC?
            && QtyAt(book.Of(order.side), order.limit.value) + order.qty > U64_MAX then
      Some(LevelQuantityOverflow)
    else if order.limit.None? && order.tif.GTC? then Some(MarketOrderCannotRest)
    else if order.id in book.AllIds() then Some(DuplicateOrderId(order.id))
    else None
  }

  function Submit(book: Book, order: Order): (r: (Book, Result<SubmitResult, OrderError>)) {
    var error := Check(book, order);
    var against := order.side.Opposite();
    if error.Some? then (book, Err(error.value))
    else if order.tif.FOK? && Available(book.Of(against), order) < order.qty then
      (book, Ok(SubmitResult([], 0, Killed)))
    else
      SweepBound(book.Of(against), order, order.qty);
      var s := Sweep(book.Of(against), order, order.qty);
      var matched := book.With(against, s.queue);
      var filled := order.qty - s.left;
      if s.left == 0 then (matched, Ok(SubmitResult(s.fills, filled, Filled)))
      else if order.tif.GTC? then
        var queue := Insert(order.side, matched.Of(order.side), order.(qty := s.left));
        (matched.With(order.side, queue), Ok(SubmitResult(s.fills, filled, Resting(s.left))))
      else (matched, Ok(SubmitResult(s.fills, filled, Cancelled(s.left))))
  }

  // --------------------------------------- dropping or rewriting orders in place

  /** Rewrites each order with `f`, dropping those it maps to `None`. */
  function Rewrite(queue: seq<Order>, f: Order -> Option<Order>): seq<Order> {
    if queue == [] then []
    else
      var tail := Rewrite(queue[1..], f);
      match f(queue[0]) case None => tail case Some(o) => [o] + tail
  }

  function Without(id: nat): Order -> Option<Order> {
    (o: Order) => if o.id == id then None else Some(o)
  }

  /** The order with this id, and the queue without it. */
  function Find(queue: seq<Order>, id: nat): Option<Order> {
    if queue == [] then None else if queue[0].id == id then Some(queue[0]) else Find(queue[1..], id)
  }

  function Cancel(book: Book, id: nat): (Book, Option<Order>) {
    var bid := Find(book.bids, id);
    (Book(Rewrite(book.bids, Without(id)), Rewrite(book.asks, Without(id))),
     if bid.Some? then bid else Find(book.asks, id))
  }

  // ------------------------------------------------------------ invariant

  predicate RestsOn(o: Order, side: Side) {
    o.side == side && o.limit.Some? && o.limit.value > 0 && o.qty > 0 && o.tif.GTC?
  }

  /** Positive GTC limit orders of one side, best price first. */
  predicate GoodQueue(side: Side, queue: seq<Order>) {
    queue == [] ||
    (RestsOn(queue[0], side)
     && (forall o :: o in queue[1..] ==> !Before(side, o.Price(), queue[0].Price()))
     && GoodQueue(side, queue[1..]))
  }

  ghost predicate LevelsFit(queue: seq<Order>) {
    forall price :: QtyAt(queue, price) <= U64_MAX
  }

  predicate Uncrossed(book: Book) {
    book.bids != [] && book.asks != [] ==> book.bids[0].Price() < book.asks[0].Price()
  }

  ghost predicate WellFormed(book: Book) {
    && GoodQueue(Buy, book.bids) && GoodQueue(Sell, book.asks)
    && LevelsFit(book.bids) && LevelsFit(book.asks)
    && Unique(book.bids) && Unique(book.asks) && Ids(book.bids) !! Ids(book.asks)
    && Uncrossed(book)
  }

  // --------------------------------------------------------------- lemmas

  lemma {:induction false} SweepBound(queue: seq<Order>, taker: Order, want: U64)
    ensures Sweep(queue, taker, want).left <= want
  {
    if want != 0 && queue != [] && taker.Accepts(queue[0].Price()) && queue[0].qty <= want {
      SweepBound(queue[1..], taker, want - queue[0].qty);
    }
  }

  /** Unfilled quantity remains only where the taker refuses the best price left. */
  lemma {:induction false} SweepExhausts(queue: seq<Order>, taker: Order, want: U64)
    ensures var s := Sweep(queue, taker, want); s.left > 0 ==> s.queue == [] || !taker.Accepts(s.queue[0].Price())
  {
    if want != 0 && queue != [] && taker.Accepts(queue[0].Price()) && queue[0].qty <= want {
      SweepExhausts(queue[1..], taker, want - queue[0].qty);
    }
  }

  /** Matching never creates or destroys quantity: taker and queue lose exactly what was filled. */
  lemma {:induction false} SweepConserves(queue: seq<Order>, taker: Order, want: U64)
    ensures FilledQty(Sweep(queue, taker, want).fills) == want - Sweep(queue, taker, want).left
    ensures TotalQty(Sweep(queue, taker, want).queue) == TotalQty(queue) - FilledQty(Sweep(queue, taker, want).fills)
    ensures forall price ::
      QtyAt(Sweep(queue, taker, want).queue, price) + FilledAt(Sweep(queue, taker, want).fills, price)
        == QtyAt(queue, price)
  {
    if want != 0 && queue != [] && taker.Accepts(queue[0].Price()) {
      var maker := queue[0];
      var fill := Trade(taker, want, maker);
      if fill.qty < maker.qty {
        assert FilledQty([fill]) == fill.qty;
      } else {
        var rest := Sweep(queue[1..], taker, want - fill.qty);
        SweepConserves(queue[1..], taker, want - fill.qty);
        assert ([fill] + rest.fills)[1..] == rest.fills;
      }
    }
  }
}
