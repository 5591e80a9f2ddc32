/** What an order does in its turn, in plain terms: what it owes by now is sent, and what the book has is taken. */
module ConductLaws {
  import opened Types
  import opened DivMod
  import opened Schedule
  import opened BookSpec
  import opened MatchingLaws
  import opened VenueSpec
  import opened VenueLaws
  import opened ParentOrders
  import opened EngineSpec
  import opened DeskLaws
  import opened TurnLaws

  // ------------------------------------------------------------------- releasing

  /** Another slice has come due. */
  predicate NextDue(p: Parent, now: nat) {
    p.nextSlice < |p.schedule| && p.schedule[p.nextSlice].time <= now
  }

  lemma DueSlices(p: Parent, now: nat)
    requires Ledger(p) && NextDue(p, now)
    ensures var n := DueEnd(p.schedule, p.nextSlice, now);
      && p.nextSlice < n <= |p.schedule|
      && (forall i :: 0 <= i < n ==> p.schedule[i].time <= now)
      && (forall i :: n <= i < |p.schedule| ==> p.schedule[i].time > now)
  {
    GoodScheduleMeans(p.schedule, p.quantity, p.start, p.end);
    DueEndSplits(p.schedule, p.nextSlice, now);
  }

  lemma {:induction false} SomeQty(children: seq<Child>)
    requires children != [] && forall c :: c in children ==> c.qty > 0
    ensures Schedule.TotalQty(children) > 0
  {
  }

  /** Once a slice comes due, all due by now is released, and what is not filled is to be sent; else nothing. */
  lemma ReleaseMeans(p: Parent, now: nat)
    requires Ledger(p)
    ensures var (q, qty) := ReleaseDue(p, now);
      if NextDue(p, now) then
        && q == p.(nextSlice := q.nextSlice, released := DueQty(p.schedule, now))
        && p.released < q.released && qty == DueQty(p.schedule, now) - p.filled > 0
      else q == p && qty == 0
  {
    if NextDue(p, now) {
      var k, n := p.nextSlice, DueEnd(p.schedule, p.nextSlice, now);
      DueSlices(p, now);
      DueQtyIsPrefix(p.schedule, n, now);
      PrefixQty(p.schedule, p.quantity, p.start, p.end, k, n);
      GoodScheduleMeans(p.schedule, p.quantity, p.start, p.end);
      SomeQty(p.schedule[k..n]);
    }
  }

  // --------------------------------------------------------------- taking the fills

  lemma {:induction false} NotionalLast(fills: seq<Fill>)
    requires fills != []
    ensures Notional(fills) == Notional(fills[..|fills| - 1]) + fills[|fills| - 1].price * fills[|fills| - 1].qty
  {
    if |fills| == 1 {
      assert fills[..0] == [] && fills[1..] == [];
    } else {
      NotionalLast(fills[1..]);
      assert fills[1..][..|fills| - 2] == fills[..|fills| - 1][1..];
    }
  }

  /** Money is added up, cut at the largest amount there is. */
  predicate PaidFor(before: int, after: int, amount: int) {
    before >= 0 ==> 0 <= before + amount && after == Min(before + amount, I128_MAX)
  }

  /** `q` is `p` after these fills of its latest child. */
  ghost predicate FilledBy(p: Parent, q: Parent, fills: seq<Fill>)
    requires p.children != []
  {
    var last := |p.children| - 1;
    && q == p.(filled := p.filled + FilledQty(fills), notional := q.notional, children := q.children)
    && PaidFor(p.notional, q.notional, Notional(fills))
    && q.children == p.children[last := p.children[last].(filled := p.children[last].filled + FilledQty(fills))]
  }

  function ReportOf(id: nat, childId: nat, s: Symbol, side: Side, now: U64, f: Fill): FillReport {
    FillReport(id, childId, s, side, f.price, f.qty, now)
  }

  function Reports(id: nat, childId: nat, s: Symbol, side: Side, now: U64, fills: seq<Fill>): (reports: seq<FillReport>)
    ensures |reports| == |fills|
    ensures forall i :: 0 <= i < |fills| ==> reports[i] == ReportOf(id, childId, s, side, now, fills[i])
  {
    seq(|fills|, i requires 0 <= i < |fills| => ReportOf(id, childId, s, side, now, fills[i]))
  }

  lemma NextFill(p: Parent, q: Parent, fills: seq<Fill>, fill: Fill)
    requires p.children != [] && FilledBy(p, q, fills) && fill.price > 0
    ensures FilledBy(p, RecordFill(q, fill.price, fill.qty), fills + [fill])
  {
    assert (fills + [fill])[..|fills|] == fills;
    FilledQtyLast(fills + [fill]);
    NotionalLast(fills + [fill]);
    MulMono(0, fill.price, fill.qty);
  }

  /** The order and the reports after these fills. */
  ghost predicate Taken(d: Desk, r: Desk, id: nat, childId: nat, now: U64, taken: seq<Fill>)
    requires d.parent.children != []
  {
    && FilledBy(d.parent, r.parent, taken)
    && r.fills == d.fills + Reports(id, childId, d.parent.symbol, d.parent.side, now, taken)
  }

  lemma OneMoreTaken(d: Desk, earlier: Desk, id: nat, childId: nat, now: U64, taken: seq<Fill>, last: Fill)
    requires d.parent.children != [] && Taken(d, earlier, id, childId, now, taken) && last.price > 0
    ensures var r := TakeFill(earlier, id, childId, now, last);
      Taken(d, r, id, childId, now, if r.failure.None? then taken + [last] else taken)
  {
    var r := TakeFill(earlier, id, childId, now, last);
    if r.failure.None? {
      NextFill(d.parent, earlier.parent, taken, last);
      var s, side := d.parent.symbol, d.parent.side;
      assert Reports(id, childId, s, side, now, taken + [last])
        == Reports(id, childId, s, side, now, taken) + [ReportOf(id, childId, s, side, now, last)];
    }
  }

  /** Fills are taken, recorded and reported one by one, up to the first the accounting refuses. */
  lemma {:induction false} FillsTaken(d: Desk, id: nat, childId: nat, now: U64, fills: seq<Fill>)
    returns (taken: seq<Fill>)
    requires d.failure.None? && d.parent.children != [] && forall f :: f in fills ==> f.price > 0
    ensures taken <= fills
    ensures var r := TakeFills(d, id, childId, now, fills);
      Taken(d, r, id, childId, now, taken) && (r.failure.None? ==> taken == fills)
  {
    if fills == [] {
      taken := [];
    } else {
      var init, last := fills[..|fills| - 1], fills[|fills| - 1];
      taken := FillsTaken(d, id, childId, now, init);
      var earlier := TakeFills(d, id, childId, now, init);
      if earlier.failure.None? {
        OneMoreTaken(d, earlier, id, childId, now, taken, last);
        if TakeFill(earlier, id, childId, now, last).failure.None? {
          taken := taken + [last];
          assert fills == taken;
        }
      }
    }
  }

  // ------------------------------------------------------------------ the whole turn

  /** How an order stands after its turn: filled, or over with its window, or still working. */
  predicate Stands(q: Parent, now: nat) {
    q.phase == if q.filled == q.quantity then Phase.Filled else if now >= q.end then Expired else Working
  }

  /** All that is due was sent as one new child, and these fills came back for it. */
  ghost predicate SentDue(p: Parent, q: Parent, childId: nat, now: nat, fills: seq<Fill>) {
    && q.released == DueQty(p.schedule, now) > p.released >= p.filled
    && q.filled == p.filled + FilledQty(fills)
    && q.children == p.children + [ChildView(childId, now, DueQty(p.schedule, now) - p.filled, FilledQty(fills))]
    && PaidFor(p.notional, q.notional, Notional(fills))
  }

  /** Nothing came due, so nothing was sent. */
  ghost predicate SentNothing(p: Parent, q: Parent) {
    q == p.(phase := q.phase)
  }

  /** The fills keep to the order's limit, at the prices of the book from its front. */
  ghost predicate FillsOfBook(fills: seq<Fill>, queue: seq<Order>, side: Side, limit: Option<I64>) {
    && |fills| <= |queue|
    && forall i :: 0 <= i < |fills| ==>
         && 0 < fills[i].qty <= queue[i].qty && queue[i].limit == Some(fills[i].price) && fills[i].price > 0
         && Within(side, limit, fills[i].price)
  }

  lemma InTurnOfBook(fills: seq<Fill>, queue: seq<Order>, child: Order)
    requires InTurn(fills, queue, child) && forall f :: f in fills ==> f.price > 0
    ensures FillsOfBook(fills, queue, child.side, child.limit)
  {
  }

  lemma ChildFinds(book: Book, child: Order, done: SubmitResult)
    requires WellFormed(book) && Submit(book, child).1 == Ok(done) && child.tif.IOC?
    requires forall f :: f in done.fills ==> f.price > 0
    ensures FillsOfBook(done.fills, book.Of(child.side.Opposite()), child.side, child.limit)
    ensures FilledQty(done.fills)
      == Min(child.qty, DepthWithin(book.Of(child.side.Opposite()), child.side, child.limit))
  {
    SubmitTrades(book, child);
    InTurnOfBook(done.fills, book.Of(child.side.Opposite()), child);
  }

  /** A child sent to its book: what it fills is what the book has within its limit, up to what is asked. */
  lemma ChildTrades(r: Round, id: nat, p: Parent, qty: nat, now: U64) returns (venue: Venue, done: SubmitResult)
    requires VenueOk(r.engine.venue) && r.engine.nextChildId < QUOTE_ID_BASE
    requires p.symbol in r.engine.venue.markets && 0 < qty <= U64_MAX && (p.limit.Some? ==> p.limit.value > 0)
    ensures Send(r, id, p, qty, now)
      == Received(r, id, RecordChild(p, r.engine.nextChildId, now, qty), now, venue, Ok(done))
    ensures var queue := r.engine.venue.markets[p.symbol].book.Of(p.side.Opposite());
      && FillsOfBook(done.fills, queue, p.side, p.limit)
      && FilledQty(done.fills) == Min(qty, DepthWithin(queue, p.side, p.limit))
    ensures forall f :: f in done.fills ==> f.price > 0
  {
    var book, child := r.engine.venue.markets[p.symbol].book,
      ChildOrder(r.engine.nextChildId, p.side, p.limit, qty, now);
    ExecuteChild(r.engine.venue, p.symbol, child);
    var answer := Execute(r.engine.venue, p.symbol, child);
    venue, done := answer.0, answer.1.value;
    ChildFinds(book, child, done);
  }

  lemma PrefixOfBook(taken: seq<Fill>, fills: seq<Fill>, queue: seq<Order>, side: Side, limit: Option<I64>)
    requires taken <= fills && FillsOfBook(fills, queue, side, limit)
    ensures FillsOfBook(taken, queue, side, limit)
  {
  }

  lemma ClosedStands(q: Parent, now: nat)
    requires q.phase.Working?
    ensures Stands(Closed(FinishIfFilled(q), now), now)
  {
  }

  /** The child an order sends for what it owes, on record before any fill. */
  function OnTheWire(p: Parent, childId: nat, now: nat, nextSlice: nat): Parent
    requires p.filled <= DueQty(p.schedule, now)
  {
    RecordChild(p.(nextSlice := nextSlice, released := DueQty(p.schedule, now)), childId, now,
                DueQty(p.schedule, now) - p.filled)
  }

  lemma ReleasedGoesOut(p: Parent, childId: nat, now: U64) returns (released: Parent, qty: nat, sent: Parent)
    requires Settled(p) && p.phase.Working? && NextDue(p, now)
    ensures p.filled <= p.released < DueQty(p.schedule, now)
    ensures (released, qty) == ReleaseDue(p, now) && sent == RecordChild(released, childId, now, qty)
    ensures 0 < qty <= U64_MAX && sent == OnTheWire(p, childId, now, released.nextSlice)
    ensures released == p.(nextSlice := released.nextSlice, released := released.released)
      && qty == DueQty(p.schedule, now) - p.filled
  {
    ReleaseMeans(p, now);
    SendOpens(p, childId, now);
    released, qty := ReleaseDue(p, now).0, ReleaseDue(p, now).1;
    sent := RecordChild(released, childId, now, qty);
  }

  /** A turn with something due: one child for all that is owed, and the fills that came back for it. */
  lemma TurnTakes(r: Round, id: nat, now: U64, p: Parent)
    returns (fills: seq<Fill>, d: Desk, venue: Venue, sent: Parent)
    requires MayWork(r.engine, id) && VenueOk(r.engine.venue) && r.engine.nextChildId < QUOTE_ID_BASE && r.failure.None?
    requires p == r.engine.parents[id] && NextDue(p, now)
    ensures p.filled <= p.released < DueQty(p.schedule, now)
    ensures sent == OnTheWire(p, r.engine.nextChildId, now, sent.nextSlice)
    ensures Taken(Desk(sent, r.engine.positions, r.fills, None), d, id, r.engine.nextChildId, now, fills)
    ensures WorkOne(r, id, now) == AfterTurn(r, id, now, venue, r.engine.nextChildId + 1, d)
    ensures var queue := r.engine.venue.markets[p.symbol].book.Of(p.side.Opposite());
      && FillsOfBook(fills, queue, p.side, p.limit)
      && (d.failure.None? ==>
            FilledQty(fills) == Min(DueQty(p.schedule, now) - p.filled, DepthWithin(queue, p.side, p.limit)))
  {
    var released, qty, done;
    released, qty, sent := ReleasedGoesOut(p, r.engine.nextChildId, now);
    venue, done := ChildTrades(r, id, released, qty, now);
    var start := Desk(sent, r.engine.positions, r.fills, None);
    fills := FillsTaken(start, id, r.engine.nextChildId, now, done.fills);
    d := TakeFills(start, id, r.engine.nextChildId, now, done.fills);
    TurnSends(r, id, now, released, qty);
    CloseReceived(r, id, sent, now, venue, done, d);
    PrefixOfBook(fills, done.fills, r.engine.venue.markets[p.symbol].book.Of(p.side.Opposite()), p.side, p.limit);
  }

  lemma LastChildFilled(p: Parent, sent: Parent, q: Parent, childId: nat, now: nat, fills: seq<Fill>)
    requires p.filled <= p.released < DueQty(p.schedule, now) && sent == OnTheWire(p, childId, now, sent.nextSlice)
    requires FilledBy(sent, q, fills)
    ensures SentDue(p, Closed(FinishIfFilled(q), now), childId, now, fills)
  {
  }

  /** An order with something due sends all it owes as one child, and takes what its book has if it can be booked. */
  lemma TurnSendsDue(r: Round, id: nat, now: U64, p: Parent) returns (fills: seq<Fill>)
    requires MayWork(r.engine, id) && VenueOk(r.engine.venue) && r.engine.nextChildId < QUOTE_ID_BASE && r.failure.None?
    requires p == r.engine.parents[id] && NextDue(p, now)
    ensures var after := WorkOne(r, id, now);
      && id in after.engine.parents && SentDue(p, after.engine.parents[id], r.engine.nextChildId, now, fills)
      && Stands(after.engine.parents[id], now) && after.engine.nextChildId == r.engine.nextChildId + 1
      && after.fills == r.fills + Reports(id, r.engine.nextChildId, p.symbol, p.side, now, fills)
    ensures var queue := r.engine.venue.markets[p.symbol].book.Of(p.side.Opposite());
      && FillsOfBook(fills, queue, p.side, p.limit)
      && (WorkOne(r, id, now).failure.None? ==>
            FilledQty(fills) == Min(DueQty(p.schedule, now) - p.filled, DepthWithin(queue, p.side, p.limit)))
  {
    var d, venue, sent;
    fills, d, venue, sent := TurnTakes(r, id, now, p);
    LastChildFilled(p, sent, d.parent, r.engine.nextChildId, now, fills);
    ClosedStands(d.parent, now);
  }

  /** An order with nothing newly due sends nothing; its turn may only end it. */
  lemma TurnWaits(r: Round, id: nat, now: U64, p: Parent)
    requires MayWork(r.engine, id) && r.failure.None? && p == r.engine.parents[id] && !NextDue(p, now)
    ensures var after := WorkOne(r, id, now);
      && id in after.engine.parents && SentNothing(p, after.engine.parents[id]) && Stands(after.engine.parents[id], now)
      && after.fills == r.fills && after.engine.nextChildId == r.engine.nextChildId && after.failure.None?
      && after.engine.venue == r.engine.venue && after.engine.positions == r.engine.positions
  {
    ReleaseMeans(p, now);
    TurnWithoutChild(r, id, now, p);
    ClosedStands(p, now);
  }
}
