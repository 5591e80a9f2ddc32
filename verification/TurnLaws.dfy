/** One order's turn in a tick: what it sends, what it fills, and how it may end. */
module TurnLaws {
  import opened Types
  import opened BookSpec
  import opened VenueSpec
  import opened VenueLaws
  import opened ParentOrders
  import opened EngineSpec
  import opened DeskLaws

  /** The same order as the client asked for it, whatever became of it. */
  ghost predicate SameRequest(p: Parent, q: Parent) {
    q == p.(phase := q.phase, nextSlice := q.nextSlice, released := q.released,
            filled := q.filled, notional := q.notional, children := q.children)
  }

  /** An order the engine may work: at rest, open, in a listed symbol. */
  ghost predicate MayWork(e: Engine, id: nat) {
    && id in e.parents && Settled(e.parents[id]) && e.parents[id].phase.Working?
    && e.parents[id].symbol in e.venue.markets
    && (e.parents[id].limit.Some? ==> e.parents[id].limit.value > 0)
  }

  function Closed(p: Parent, now: nat): Parent {
    if p.phase.Working? && now >= p.end then FinishWindow(p) else p
  }

  /** The round after a turn whose fills left the desk at `d`. */
  function AfterTurn(r: Round, id: nat, now: nat, venue: Venue, nextChildId: nat, d: Desk): Round {
    var p := Closed(FinishIfFilled(d.parent), now);
    Round(r.engine.(venue := venue, nextChildId := nextChildId, positions := d.positions,
                    parents := r.engine.parents[id := p]),
          d.fills, if p.phase.Working? then r.finished else r.finished + [id], d.failure, r.refused)
  }

  /** How an order stands when its fills come in: released by now, with a child for `open` units on the wire. */
  ghost predicate Opened(p: Parent, start: Parent, now: nat, open: nat) {
    && SameRequest(p, start) && Ledger(start) && start.filled == p.filled && start.phase == p.phase
    && start.nextSlice == ReleaseDue(p, now).0.nextSlice
    && (now >= p.end ==> start.nextSlice == |start.schedule|)
    && (open > 0 ==> Awaits(start, open))
  }

  /** A child sent to the book is never refused and comes back with fair fills of at most what it asked for. */
  lemma SendIsReceived(r: Round, id: nat, p: Parent, qty: nat, now: U64) returns (venue: Venue, done: SubmitResult)
    requires VenueOk(r.engine.venue) && r.engine.nextChildId < QUOTE_ID_BASE
    requires p.symbol in r.engine.venue.markets && 0 < qty <= U64_MAX && (p.limit.Some? ==> p.limit.value > 0)
    ensures VenueOk(venue) && SameListing(r.engine.venue, venue)
    ensures FairFills(done.fills, p.side, r.engine.venue.markets[p.symbol].config.reference)
      && FilledQty(done.fills) <= qty
    ensures Send(r, id, p, qty, now)
      == Received(r, id, RecordChild(p, r.engine.nextChildId, now, qty), now, venue, Ok(done))
  {
    var child := ChildOrder(r.engine.nextChildId, p.side, p.limit, qty, now);
    ExecuteChild(r.engine.venue, p.symbol, child);
    var answer := Execute(r.engine.venue, p.symbol, child);
    venue, done := answer.0, answer.1.value;
  }

  lemma SendOpens(p: Parent, childId: nat, now: U64)
    requires Settled(p) && p.phase.Working?
    ensures var (released, qty) := ReleaseDue(p, now);
      && 0 <= qty <= U64_MAX
      && Opened(p, released, now, 0)
      && (qty > 0 ==> Opened(p, RecordChild(released, childId, now, qty), now, qty))
  {
    ReleaseKeepsLedger(p, now);
    var (released, qty) := ReleaseDue(p, now);
    if qty > 0 {
      ChildKeepsLedger(released, childId, now, qty);
    }
  }

  /** A turn that sends nothing. */
  lemma TurnWithoutChild(r: Round, id: nat, now: U64, released: Parent)
    requires id in r.engine.parents && ReleaseDue(r.engine.parents[id], now) == (released, 0) && r.failure.None?
    requires FinishIfFilled(released) == released
    ensures WorkOne(r, id, now)
      == AfterTurn(r, id, now, r.engine.venue, r.engine.nextChildId, Desk(released, r.engine.positions, r.fills, None))
  {
    var parents := r.engine.parents;
    UpdateTwice(parents, id, released, Closed(released, now));
  }

  /** Closing a round in which a child's fills left the desk at `d`. */
  lemma CloseReceived(r: Round, id: nat, sent: Parent, now: U64, venue: Venue, done: SubmitResult, d: Desk)
    requires d == TakeFills(Desk(sent, r.engine.positions, r.fills, None), id, r.engine.nextChildId, now, done.fills)
    ensures Close(Received(r, id, sent, now, venue, Ok(done)), id, now)
      == AfterTurn(r, id, now, venue, r.engine.nextChildId + 1, d)
  {
    UpdateTwice(r.engine.parents, id, FinishIfFilled(d.parent), Closed(FinishIfFilled(d.parent), now));
  }

  lemma TurnSends(r: Round, id: nat, now: U64, released: Parent, qty: nat)
    requires id in r.engine.parents && ReleaseDue(r.engine.parents[id], now) == (released, qty) && qty > 0
    ensures WorkOne(r, id, now) == Close(Send(r, id, released, qty, now), id, now)
  {
  }

  /** An order's turn is a run of fair fills from where it stood once released. */
  lemma TurnIsFills(r: Round, id: nat, now: U64)
    returns (start: Desk, childId: nat, open: nat, fills: seq<Fill>, venue: Venue, nextChildId: nat)
    requires MayWork(r.engine, id) && VenueOk(r.engine.venue) && r.engine.nextChildId < QUOTE_ID_BASE && r.failure.None?
    ensures Opened(r.engine.parents[id], start.parent, now, open)
    ensures start.positions == r.engine.positions && start.fills == r.fills && start.failure.None?
    ensures FilledQty(fills) <= open && (open == 0 ==> fills == [])
    ensures FairFills(fills, start.parent.side, r.engine.venue.markets[start.parent.symbol].config.reference)
    ensures VenueOk(venue) && SameListing(r.engine.venue, venue) && r.engine.nextChildId <= nextChildId
    ensures WorkOne(r, id, now) == AfterTurn(r, id, now, venue, nextChildId, TakeFills(start, id, childId, now, fills))
  {
    var e := r.engine;
    var p := e.parents[id];
    childId := e.nextChildId;
    SendOpens(p, childId, now);
    var (released, qty) := ReleaseDue(p, now);
    if qty > 0 {
      var done;
      var sent := RecordChild(released, childId, now, qty);
      venue, done := SendIsReceived(r, id, released, qty, now);
      start, open, fills, nextChildId := Desk(sent, e.positions, r.fills, None), qty, done.fills, childId + 1;
      TurnSends(r, id, now, released, qty);
      CloseReceived(r, id, sent, now, venue, done, TakeFills(start, id, childId, now, fills));
    } else {
      start, open, fills, nextChildId := Desk(released, e.positions, r.fills, None), 0, [], childId;
      venue := e.venue;
      TurnWithoutChild(r, id, now, released);
    }
  }

  // -------------------------------------------------- what a turn leaves behind

  /** What a turn may change: the order, its position, the venue and the child counter. */
  ghost predicate TurnShape(r: Round, after: Round, id: nat) {
    && id in r.engine.parents && id in after.engine.parents
    && after.engine == r.engine.(venue := after.engine.venue, nextChildId := after.engine.nextChildId,
                                 positions := after.engine.positions,
                                 parents := r.engine.parents[id := after.engine.parents[id]])
    && after.finished == (if after.engine.parents[id].phase.Working? then r.finished else r.finished + [id])
    && after.refused == r.refused && r.engine.nextChildId <= after.engine.nextChildId
  }

  /** What a turn makes of its order: at rest again, with at least as much filled, caught up with the clock. */
  ghost predicate OrderTurned(p: Parent, q: Parent, now: nat) {
    && SameRequest(p, q) && Settled(q) && p.filled <= q.filled <= q.quantity
    && (q.phase.Working? ==> q.nextSlice == ReleaseDue(p, now).0.nextSlice)
    && !q.phase.Cancelled?
  }

  lemma ClosedIsSettled(p: Parent, start: Parent, filled: Parent, now: nat, open: nat)
    requires Settled(p) && p.phase.Working? && Opened(p, start, now, open)
    requires Ledger(filled) && SameButFills(start, filled) && p.filled <= filled.filled
    ensures OrderTurned(p, Closed(FinishIfFilled(filled), now), now)
  {
  }

  lemma TurnKeepsLedger(r: Round, id: nat, now: U64)
    requires MayWork(r.engine, id) && VenueOk(r.engine.venue) && r.engine.nextChildId < QUOTE_ID_BASE && r.failure.None?
    ensures var after := WorkOne(r, id, now);
      && TurnShape(r, after, id) && OrderTurned(r.engine.parents[id], after.engine.parents[id], now)
      && VenueOk(after.engine.venue) && SameListing(r.engine.venue, after.engine.venue)
  {
    var start, childId, open, fills, venue, nextChildId := TurnIsFills(r, id, now);
    var d := TakeFills(start, id, childId, now, fills);
    if open > 0 {
      FillsKeepLedger(start, id, childId, now, fills, open);
    }
    ClosedIsSettled(r.engine.parents[id], start.parent, d.parent, now, open);
  }

  /** The position moves by what the order filled, in its direction; no other position moves. */
  ghost predicate PositionTurned(before: Engine, after: Engine, id: nat)
    requires id in before.parents && id in after.parents
  {
    var p := before.parents[id];
    && HoldingOf(after.positions, p.symbol).quantity
       == HoldingOf(before.positions, p.symbol).quantity + Signed(p.side, after.parents[id].filled - p.filled)
    && (forall s :: s != p.symbol ==> HoldingOf(after.positions, s) == HoldingOf(before.positions, s))
    && before.positions.Keys <= after.positions.Keys <= before.positions.Keys + {p.symbol}
  }

  lemma MovedIsTurned(before: Engine, after: Engine, id: nat, start: Desk, d: Desk)
    requires id in before.parents && id in after.parents && Moved(start, d)
    requires start.positions == before.positions && d.positions == after.positions
    requires SameRequest(before.parents[id], start.parent) && start.parent.filled == before.parents[id].filled
    requires after.parents[id].filled == d.parent.filled
    ensures PositionTurned(before, after, id)
  {
  }

  lemma TurnMovesPosition(r: Round, id: nat, now: U64)
    requires MayWork(r.engine, id) && VenueOk(r.engine.venue) && r.engine.nextChildId < QUOTE_ID_BASE && r.failure.None?
    ensures id in WorkOne(r, id, now).engine.parents && PositionTurned(r.engine, WorkOne(r, id, now).engine, id)
  {
    var start, childId, open, fills, venue, nextChildId := TurnIsFills(r, id, now);
    FillsMovePosition(start, id, childId, now, fills);
    MovedIsTurned(r.engine, WorkOne(r, id, now).engine, id, start, TakeFills(start, id, childId, now, fills));
  }

  /** Marked P&L falls by exactly the slippage of the fills reported, which are all in the order's symbol. */
  ghost predicate ValueTurned(r: Round, after: Round, s: nat, mark: int) {
    && SoundHolding(HoldingOf(after.engine.positions, s), mark)
    && Marked(HoldingOf(after.engine.positions, s), mark) + SlippageIn(after.fills, s, mark)
       == Marked(HoldingOf(r.engine.positions, s), mark) + SlippageIn(r.fills, s, mark)
  }

  lemma TurnCostsSlippage(r: Round, id: nat, now: U64, s: nat, mark: int)
    requires MayWork(r.engine, id) && VenueOk(r.engine.venue) && r.engine.nextChildId < QUOTE_ID_BASE && r.failure.None?
    requires s == r.engine.parents[id].symbol && mark == r.engine.venue.markets[s].config.reference
    requires SoundHolding(HoldingOf(r.engine.positions, s), mark)
    ensures ValueTurned(r, WorkOne(r, id, now), s, mark)
  {
    var start, childId, open, fills, venue, nextChildId := TurnIsFills(r, id, now);
    FillsCostSlippage(start, id, childId, now, fills, mark);
  }

  /** A turn reports fair fills of its own order alone. */
  lemma TurnReports(r: Round, id: nat, now: U64, p: Parent, mark: int)
    requires MayWork(r.engine, id) && VenueOk(r.engine.venue) && r.engine.nextChildId < QUOTE_ID_BASE && r.failure.None?
    requires p == r.engine.parents[id] && mark == r.engine.venue.markets[p.symbol].config.reference
    ensures ReportsOf(r.fills, WorkOne(r, id, now).fills, id, p.symbol, p.side, mark)
  {
    var start, childId, open, fills, venue, nextChildId := TurnIsFills(r, id, now);
    FillsAreReported(start, id, childId, now, fills, mark);
  }
}
