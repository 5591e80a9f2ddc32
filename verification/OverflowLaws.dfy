/** When the accounting cannot overflow: limits whose sum leaves it room. */
module OverflowLaws {
  import opened Types
  import opened DivMod
  import opened Sums
  import opened BookSpec
  import opened VenueSpec
  import opened VenueLaws
  import opened Risk
  import opened ParentOrders
  import opened Accounting
  import opened AccountingLaws
  import opened EngineSpec
  import opened EngineRuns
  import opened DeskLaws
  import opened TurnLaws
  import opened ExposureLaws
  import opened MarkLaws
  import opened TickLaws
  import opened SafetyLaws
  import opened CommandLaws
  import opened RunLaws
  import opened EnginePromises

  /** 2 to the 126th: the largest product of a position and a price. */
  const LARGEST_VALUE: int := 0x4000_0000_0000_0000_0000_0000_0000_0000

  // ----------------------------------------------------------------- one fill

  lemma BoundedValue(units: nat, price: nat)
    requires units <= I64_MAX + 1 && price <= I64_MAX
    ensures 0 <= units * price <= LARGEST_VALUE - (I64_MAX + 1)
  {
    MulMono(units, I64_MAX + 1, price);
    MulMono(price, I64_MAX, I64_MAX + 1);
    MulMono(0, units, price);
  }

  /** Cost per unit between 1 and the largest price bounds the whole cost, with the quantity's sign. */
  lemma CostFits(quantity: int, cost: int)
    requires RangeHolds(quantity, cost, 1, I64_MAX) && -(I64_MAX + 1) <= quantity <= I64_MAX
    ensures if quantity >= 0 then 0 <= cost <= LARGEST_VALUE - (I64_MAX + 1)
            else -(LARGEST_VALUE - (I64_MAX + 1)) <= cost <= 0
  {
    BoundedValue(Abs(quantity), I64_MAX);
    Distribute(I64_MAX, Abs(quantity), 0);
    MulMono(0, Abs(quantity), I64_MAX);
  }

  lemma RealizedFits(p: Holding, t: Trade)
    requires CostInRange(p, 1, I64_MAX) && 0 < t.price
    ensures I128_MIN <= RealizedBy(p, t) <= I128_MAX
  {
    var closing := Closing(p, t);
    BoundedValue(closing, t.price);
    CostFits(p.quantity, p.costBasis);
    assert Signum(p.quantity) * closing * t.price == Signum(p.quantity) * (closing * t.price);
    if p.quantity != 0 && closing < Abs(p.quantity) {
      RemovedIsAShare(p.costBasis, closing, Abs(p.quantity));
    }
  }

  /** What a fill leaves realized is at least the marked P&L it leaves, and in range above. */
  lemma RunningFits(quantity: int, cost: int, marked: int, mark: int, realized: int)
    requires RangeHolds(quantity, cost, 1, I64_MAX) && -(I64_MAX + 1) <= quantity <= I64_MAX && 0 < mark <= I64_MAX
    requires WorseThan(quantity, cost, mark) && marked <= 0 && realized == marked - quantity * mark + cost
    ensures marked <= realized <= I128_MAX
  {
    CostFits(quantity, cost);
    BoundedValue(Abs(quantity), mark);
    if quantity < 0 {
      Negated(Abs(quantity), mark);
    }
  }

  /** The position a fill leaves is in range, and the fill itself is fair. */
  ghost predicate Orderly(p: Holding, t: Trade, mark: I64) {
    && SoundHolding(p, mark) && Fair(t.side.Opposite(), t.price, mark)
    && I64_MIN <= p.quantity + t.side.Direction() * t.qty <= I64_MAX
  }

  lemma RealizedAfter(p: Holding, t: Trade, mark: I64)
    requires Orderly(p, t, mark)
    ensures Marked(p, mark) - Slip(t.side, t.price, t.qty, mark) <= p.realizedPnl + RealizedBy(p, t) <= I128_MAX
    ensures I128_MIN <= RealizedBy(p, t) <= I128_MAX && I128_MIN <= CostAfter(p, t) <= I128_MAX
  {
    var q := p.quantity + t.side.Direction() * t.qty;
    var marked := Marked(p, mark) - Slip(t.side, t.price, t.qty, mark);
    FillKeepsRange(p, t, 1, I64_MAX);
    FillStaysWorse(p, t, mark);
    CostFits(q, CostAfter(p, t));
    RealizedFits(p, t);
    FillIsExactCash(p, t);
    SlippageIdentity(t.side.Direction(), t.qty, t.price, mark, p.quantity);
    FairSlips(t.side, t.price, t.qty, mark);
    RunningFits(q, CostAfter(p, t), marked, mark, p.realizedPnl + RealizedBy(p, t));
  }

  /** An orderly fill overflows exactly when the sum of realized P&L leaves the range: no other step can. */
  lemma FillFitsExactly(p: Holding, t: Trade, mark: I64)
    requires Orderly(p, t, mark)
    ensures Apply(p, t).Some? <==> p.realizedPnl + RealizedBy(p, t) >= I128_MIN
  {
    RealizedAfter(p, t, mark);
  }

  /** So it overflows nothing while the P&L it leaves is in range. */
  lemma FillFits(p: Holding, t: Trade, mark: I64)
    requires Orderly(p, t, mark) && Marked(p, mark) - Slip(t.side, t.price, t.qty, mark) >= I128_MIN
    ensures Apply(p, t).Some?
  {
    RealizedAfter(p, t, mark);
  }

  // ------------------------------------------------------- a fill that overflows

  const HALF_RANGE: I64 := 0x4000_0000_0000_0000

  /** The dearest purchase and the cheapest sale a market around `HALF_RANGE` can fill. */
  const DEAREST: Trade := Accounting.Trade(Buy, I64_MAX, I64_MAX)
  const CHEAPEST: Trade := Accounting.Trade(Sell, 1, I64_MAX)

  /** A position that is flat, or holds all it can, after round trips that lost `lost` in all. */
  function FlatAfter(lost: nat): Holding
    requires lost <= I128_MAX
  {
    Holding(0, 0, 0 - lost)
  }

  /** One such round trip loses just under 2 to the 126th. */
  const ROUND_TRIP: nat := I64_MAX * (I64_MAX - 1)

  lemma RoundTripLoses(lost: nat)
    requires lost <= I128_MAX
    ensures var bought := Holding(I64_MAX, I64_MAX * I64_MAX, 0 - lost);
      && Apply(FlatAfter(lost), DEAREST) == Some(bought)
      && Orderly(FlatAfter(lost), DEAREST, HALF_RANGE) && Orderly(bought, CHEAPEST, HALF_RANGE)
      && RealizedBy(bought, CHEAPEST) == 0 - ROUND_TRIP
      && Apply(bought, CHEAPEST)
         == if lost + ROUND_TRIP <= I128_MAX + 1 then Some(Holding(0, 0, 0 - lost - ROUND_TRIP)) else None
  {
  }

  lemma RunTakes(trades: seq<Trade>, p: Holding, t: Trade)
    requires AccountingLaws.Run(trades) == (p, trades)
    ensures AccountingLaws.Run(trades + [t])
      == match Apply(p, t) case None => (p, trades) case Some(next) => (next, trades + [t])
  {
    assert (trades + [t])[..|trades|] == trades;
  }

  /** Trades that were all taken and left nothing but `lost`. */
  ghost predicate Lost(trades: seq<Trade>, lost: nat)
    requires lost <= I128_MAX
  {
    AccountingLaws.Run(trades) == (FlatAfter(lost), trades) && forall t :: t in trades ==> t == DEAREST || t == CHEAPEST
  }

  lemma NothingLost() returns (trades: seq<Trade>)
    ensures |trades| == 0 && Lost(trades, 0)
  {
    trades := [];
  }

  lemma RoundTripRuns(trades: seq<Trade>, lost: nat) returns (more: seq<Trade>)
    requires lost + ROUND_TRIP <= I128_MAX && Lost(trades, lost)
    ensures |more| == |trades| + 2 && Lost(more, lost + ROUND_TRIP)
  {
    RoundTripLoses(lost);
    RunTakes(trades, FlatAfter(lost), DEAREST);
    RunTakes(trades + [DEAREST], Holding(I64_MAX, I64_MAX * I64_MAX, 0 - lost), CHEAPEST);
    more := trades + [DEAREST] + [CHEAPEST];
  }

  ghost predicate AllFairTrades(trades: seq<Trade>, mark: int) {
    forall t :: t in trades ==> Fair(t.side.Opposite(), t.price, mark)
  }

  /** Once round trips have lost enough, the position that would end the next one cannot be sold. */
  lemma SaleOverflows(trades: seq<Trade>, lost: nat) returns (more: seq<Trade>, p: Holding)
    requires lost <= I128_MAX < lost + ROUND_TRIP - 1 && Lost(trades, lost)
    ensures |more| == |trades| + 1 && AllFairTrades(more + [CHEAPEST], HALF_RANGE)
    ensures AccountingLaws.Run(more) == (p, more) && Orderly(p, CHEAPEST, HALF_RANGE)
    ensures Apply(p, CHEAPEST).None? && AccountingLaws.Run(more + [CHEAPEST]) == (p, more)
  {
    RoundTripLoses(lost);
    RunTakes(trades, FlatAfter(lost), DEAREST);
    more, p := trades + [DEAREST], Holding(I64_MAX, I64_MAX * I64_MAX, 0 - lost);
    RunTakes(more, p, CHEAPEST);
  }

  /**
   * Without limits the accounting does overflow: after five fair fills around one reference price, all
   * taken, the position is sound and a sixth is refused because realized P&L would leave its range.
   */
  lemma FairFillsOverflow() returns (trades: seq<Trade>, p: Holding)
    ensures |trades| == 5 && AllFairTrades(trades + [CHEAPEST], HALF_RANGE)
    ensures AccountingLaws.Run(trades) == (p, trades) && Orderly(p, CHEAPEST, HALF_RANGE)
    ensures Apply(p, CHEAPEST).None? && AccountingLaws.Run(trades + [CHEAPEST]) == (p, trades)
  {
    var none := NothingLost();
    var once := RoundTripRuns(none, 0);
    var twice := RoundTripRuns(once, ROUND_TRIP);
    trades, p := SaleOverflows(twice, ROUND_TRIP + ROUND_TRIP);
  }

  // ---------------------------------------------------------------- one child

  /** P&L of the order's position if all it has open were filled for nothing. */
  function Floor(d: Desk, mark: int): int {
    Marked(HoldingOf(d.positions, d.parent.symbol), mark) - (d.parent.quantity - d.parent.filled) * mark
  }

  /** Room for everything the order has open, in the position and in the P&L. */
  ghost predicate Roomy(d: Desk, mark: I64, limit: int) {
    var h, open := HoldingOf(d.positions, d.parent.symbol), d.parent.quantity - d.parent.filled;
    && SoundHolding(h, mark) && 0 <= limit <= I64_MAX && open >= 0
    && (if d.parent.side.Buy? then -limit <= h.quantity && h.quantity + open <= limit
        else h.quantity <= limit && h.quantity - open >= -limit)
    && Floor(d, mark) >= I128_MIN
  }

  lemma SplitOff(open: int, qty: int, mark: int)
    ensures (open - qty) * mark == open * mark - qty * mark
  {
  }

  lemma OneFillFits(d: Desk, id: nat, childId: nat, now: U64, fill: Fill, mark: I64, limit: int)
    requires Roomy(d, mark, limit) && d.failure.None?
    requires FairFill(fill, d.parent.side, mark) && fill.qty <= d.parent.quantity - d.parent.filled
    ensures var r := TakeFill(d, id, childId, now, fill);
      && r.failure.None? && Roomy(r, mark, limit) && Floor(r, mark) >= Floor(d, mark)
      && SameButFills(d.parent, r.parent) && r.parent.filled == d.parent.filled + fill.qty
  {
    var p, t := HoldingOf(d.positions, d.parent.symbol), Accounting.Trade(d.parent.side, fill.price, fill.qty);
    var open := d.parent.quantity - d.parent.filled;
    FairSlips(t.side, t.price, t.qty, mark);
    SplitOff(open, t.qty, mark);
    MulMono(0, open - t.qty, mark);
    FillFits(p, t, mark);
    FillKeepsSound(p, t, mark);
    FillCostsItsSlippage(p, t, mark);
  }

  lemma {:induction false} FillsFit(d: Desk, id: nat, childId: nat, now: U64, fills: seq<Fill>, mark: I64, limit: int)
    requires Roomy(d, mark, limit) && d.failure.None?
    requires FairFills(fills, d.parent.side, mark) && FilledQty(fills) <= d.parent.quantity - d.parent.filled
    ensures var r := TakeFills(d, id, childId, now, fills);
      && r.failure.None? && Roomy(r, mark, limit) && Floor(r, mark) >= Floor(d, mark)
      && SameButFills(d.parent, r.parent) && r.parent.filled == d.parent.filled + FilledQty(fills)
  {
    if fills != [] {
      var init, last := fills[..|fills| - 1], fills[|fills| - 1];
      FilledQtyLast(fills);
      FillsFit(d, id, childId, now, init, mark, limit);
      OneFillFits(TakeFills(d, id, childId, now, init), id, childId, now, last, mark, limit);
    }
  }

  // ----------------------------------------------------------------- one turn

  function DeskOf(e: Engine, id: nat): Desk
    requires id in e.parents
  {
    Desk(e.parents[id], e.positions, [], None)
  }

  lemma StillRoomy(d: Desk, start: Desk, mark: I64, limit: int)
    requires Roomy(d, mark, limit) && SameRequest(d.parent, start.parent)
    requires start.parent.filled == d.parent.filled && start.positions == d.positions
    ensures Roomy(start, mark, limit) && Floor(start, mark) == Floor(d, mark)
  {
  }

  /** With room for everything the order has open, its turn cannot fail the accounting. */
  lemma TurnFits(r: Round, id: nat, now: U64, mark: I64, limit: int)
    requires MayWork(r.engine, id) && VenueOk(r.engine.venue) && r.engine.nextChildId < QUOTE_ID_BASE && r.failure.None?
    requires mark == r.engine.venue.markets[r.engine.parents[id].symbol].config.reference
    requires Roomy(DeskOf(r.engine, id), mark, limit)
    ensures var after := WorkOne(r, id, now);
      after.failure.None? && id in after.engine.parents
      && Floor(DeskOf(after.engine, id), mark) >= Floor(DeskOf(r.engine, id), mark)
  {
    var start, childId, open, fills, venue, nextChildId := TurnIsFills(r, id, now);
    StillRoomy(DeskOf(r.engine, id), start, mark, limit);
    FillsFit(start, id, childId, now, fills, mark, limit);
    var d := TakeFills(start, id, childId, now, fills);
    ClosedFloor(DeskOf(r.engine, id), start, d, WorkOne(r, id, now).engine, id, now, mark);
  }

  lemma ClosedFloor(before: Desk, start: Desk, d: Desk, after: Engine, id: nat, now: nat, mark: int)
    requires id in after.parents && after.parents[id] == Closed(FinishIfFilled(d.parent), now)
      && after.positions == d.positions
    requires SameRequest(before.parent, start.parent) && SameButFills(start.parent, d.parent)
    requires Floor(start, mark) == Floor(before, mark) && Floor(d, mark) >= Floor(start, mark)
    ensures Floor(DeskOf(after, id), mark) >= Floor(before, mark)
  {
  }

  // ------------------------------------------------------------------ the loop

  ghost function OpenUnits(e: Engine, s: Symbol): int {
    Open(e.parents, s, Buy) + Open(e.parents, s, Sell)
  }

  ghost function OpenValueOf(e: Engine, refs: map<Symbol, I64>): map<Symbol, int> {
    map s | s in refs :: OpenUnits(e, s) * refs[s]
  }

  /** P&L if everything open were filled for nothing: what a tick cannot take it below. */
  ghost function Potential(e: Engine, refs: map<Symbol, I64>): int
    requires e.positions.Keys <= refs.Keys
  {
    Pnl(e.positions, refs) - Total(OpenValueOf(e, refs))
  }

  ghost predicate RefsPositive(refs: map<Symbol, I64>) {
    forall s :: s in refs ==> refs[s] > 0
  }

  lemma OneOfGains(terms: map<nat, int>, k: nat)
    requires k in terms && forall t :: t in terms ==> terms[t] >= 0
    ensures terms[k] <= Total(terms)
  {
    TotalWithout(terms, k);
    TotalNonNegative(terms - {k});
  }

  lemma OpenHasOrder(e: Engine, id: nat, s: Symbol, side: Side)
    requires Fillable(e.parents) && id in e.parents
    ensures 0 <= OpenIn(e.parents[id], s, side) <= Open(e.parents, s, side)
  {
    var terms := OpenOf(e.parents, e.parents.Keys, s, side);
    TotalNonNegative(terms);
    assert id in terms && terms[id] == OpenIn(e.parents[id], s, side);
    OneOfGains(terms, id);
  }

  lemma OneOfLosses(terms: map<Symbol, int>, s: Symbol)
    requires forall t :: t in terms ==> terms[t] <= 0
    ensures Total(terms) <= 0 && (s in terms ==> Total(terms) <= terms[s])
  {
    NoGain(terms);
    if s in terms {
      TotalWithout(terms, s);
      NoGain(terms - {s});
    }
  }

  lemma NoGain(terms: map<Symbol, int>)
    requires forall t :: t in terms ==> terms[t] <= 0
    ensures Total(terms) <= 0
  {
    var zeros := map t | t in terms :: 0;
    TotalMono(terms, zeros);
    TotalOfZeros(zeros);
  }

  lemma OneOfPnl(positions: map<Symbol, Holding>, refs: map<Symbol, I64>, s: Symbol)
    requires SoundPositions(positions, refs) && positions.Keys <= refs.Keys && s in refs
    ensures Pnl(positions, refs) <= Marked(HoldingOf(positions, s), refs[s])
  {
    var terms := PnlIn(positions, refs, positions.Keys);
    forall t | t in terms ensures terms[t] <= 0 {
      assert SoundHolding(positions[t], refs[t]);
    }
    MarkedFlat(refs[s]);
    OneOfLosses(terms, s);
  }

  lemma OneOfOpenValue(e: Engine, refs: map<Symbol, I64>, s: Symbol, open: int)
    requires Fillable(e.parents) && RefsPositive(refs) && s in refs && open <= OpenUnits(e, s)
    ensures open * refs[s] <= Total(OpenValueOf(e, refs))
  {
    var terms := OpenValueOf(e, refs);
    forall t | t in terms ensures terms[t] >= 0 {
      OpenIsNatural(e.parents, t, Buy);
      OpenIsNatural(e.parents, t, Sell);
      MulMono(0, OpenUnits(e, t), refs[t]);
    }
    TotalNonNegative(terms);
    MulMono(open, OpenUnits(e, s), refs[s]);
    OneOfGains(terms, s);
  }

  /** An order due for its turn has room in its position for all it has open. */
  lemma PositionIsRoomy(e: Engine, id: nat, limit: int)
    requires id in e.parents && e.parents[id].phase.Working? && Fillable(e.parents) && PositionSafe(e, limit)
    ensures var p := e.parents[id];
      var q, open := HoldingOf(e.positions, p.symbol).quantity, p.quantity - p.filled;
      && 0 <= open <= OpenUnits(e, p.symbol)
      && (if p.side.Buy? then -limit <= q && q + open <= limit else q <= limit && q - open >= -limit)
  {
    var s := e.parents[id].symbol;
    OpenHasOrder(e, id, s, Buy);
    OpenHasOrder(e, id, s, Sell);
    assert High(e, s) <= limit && Low(e, s) >= -limit;
  }

  /** And room in the P&L. */
  lemma OrderIsRoomy(e: Engine, id: nat, refs: map<Symbol, I64>, limit: int)
    requires id in e.parents && e.parents[id].phase.Working? && e.parents[id].symbol in refs && RefsPositive(refs)
    requires Fillable(e.parents) && PositionSafe(e, limit) && 0 <= limit <= I64_MAX
    requires SoundPositions(e.positions, refs) && e.positions.Keys <= refs.Keys && Potential(e, refs) >= I128_MIN
    ensures Roomy(DeskOf(e, id), refs[e.parents[id].symbol], limit)
  {
    var p := e.parents[id];
    PositionIsRoomy(e, id, limit);
    HoldingIsSound(e.positions, refs, p.symbol);
    OneOfPnl(e.positions, refs, p.symbol);
    OneOfOpenValue(e, refs, p.symbol, p.quantity - p.filled);
    RoomyWith(DeskOf(e, id), refs[p.symbol], limit, Pnl(e.positions, refs), Total(OpenValueOf(e, refs)));
  }

  lemma RoomyWith(d: Desk, mark: I64, limit: int, pnl: int, value: int)
    requires pnl <= Marked(HoldingOf(d.positions, d.parent.symbol), mark)
    requires (d.parent.quantity - d.parent.filled) * mark <= value && pnl - value >= I128_MIN
    requires SoundHolding(HoldingOf(d.positions, d.parent.symbol), mark) && 0 <= limit <= I64_MAX
    requires var q, open := HoldingOf(d.positions, d.parent.symbol).quantity, d.parent.quantity - d.parent.filled;
      open >= 0 && if d.parent.side.Buy? then -limit <= q && q + open <= limit else q <= limit && q - open >= -limit
    ensures Roomy(d, mark, limit)
  {
  }

  lemma TurnOpens(before: Engine, after: Engine, id: nat, s: Symbol)
    requires id in before.parents && id in after.parents && after.parents == before.parents[id := after.parents[id]]
    requires before.parents[id].phase.Working? && SameRequest(before.parents[id], after.parents[id])
    requires after.parents[id].filled <= after.parents[id].quantity
    ensures OpenUnits(after, s) <= OpenUnits(before, s) -
      (if before.parents[id].symbol == s then after.parents[id].filled - before.parents[id].filled else 0)
  {
    OpenChanges(before.parents, id, after.parents[id], s, Buy);
    OpenChanges(before.parents, id, after.parents[id], s, Sell);
  }

  lemma TurnOpensTerm(before: Engine, after: Engine, id: nat, s: Symbol, ref: nat, filled: int)
    requires id in before.parents && id in after.parents && after.parents == before.parents[id := after.parents[id]]
    requires before.parents[id].phase.Working? && SameRequest(before.parents[id], after.parents[id])
    requires after.parents[id].filled <= after.parents[id].quantity
    requires filled
      == if before.parents[id].symbol == s then after.parents[id].filled - before.parents[id].filled else 0
    ensures OpenUnits(after, s) * ref <= OpenUnits(before, s) * ref - filled * ref
  {
    TurnOpens(before, after, id, s);
    MulMono(OpenUnits(after, s), OpenUnits(before, s) - filled, ref);
    SplitOff(OpenUnits(before, s), filled, ref);
  }

  lemma LowerOne(a: map<Symbol, int>, b: map<Symbol, int>, s: Symbol, less: int)
    requires a.Keys == b.Keys && s in b && forall t :: t in b ==> a[t] <= b[t] - (if t == s then less else 0)
    ensures Total(a) <= Total(b) - less
  {
    var lower := b[s := b[s] - less];
    TotalUpdate(b, s, b[s] - less);
    TotalMono(a, lower);
  }

  lemma TurnOpensValue(before: Engine, after: Engine, id: nat, refs: map<Symbol, I64>, s: Symbol, filled: int)
    requires id in before.parents && id in after.parents && after.parents == before.parents[id := after.parents[id]]
    requires before.parents[id].phase.Working? && SameRequest(before.parents[id], after.parents[id])
    requires after.parents[id].filled <= after.parents[id].quantity
    requires RefsPositive(refs) && s == before.parents[id].symbol && s in refs
    requires filled == after.parents[id].filled - before.parents[id].filled
    ensures Total(OpenValueOf(after, refs)) <= Total(OpenValueOf(before, refs)) - filled * refs[s]
  {
    var a, b, less := OpenValueOf(after, refs), OpenValueOf(before, refs), filled * refs[s];
    forall t | t in b ensures a[t] <= b[t] - (if t == s then less else 0) {
      TurnOpensTerm(before, after, id, t, refs[t], if t == s then filled else 0);
      assert 0 * refs[t] == 0;
    }
    LowerOne(a, b, s, less);
  }

  lemma FloorMoves(before: Engine, after: Engine, id: nat, mark: int)
    requires id in before.parents && id in after.parents && SameRequest(before.parents[id], after.parents[id])
    ensures var s := before.parents[id].symbol;
      Floor(DeskOf(after, id), mark) - Floor(DeskOf(before, id), mark)
      == Marked(HoldingOf(after.positions, s), mark) - Marked(HoldingOf(before.positions, s), mark)
         + (after.parents[id].filled - before.parents[id].filled) * mark
  {
    var p, q := before.parents[id], after.parents[id];
    SplitOff(p.quantity - p.filled, q.filled - p.filled, mark);
  }

  /** A turn never lowers the potential: what a fill costs, it takes from what is open. */
  lemma TurnKeepsPotential(before: Engine, after: Engine, id: nat, refs: map<Symbol, I64>, s: Symbol)
    requires id in before.parents && id in after.parents && after.parents == before.parents[id := after.parents[id]]
    requires before.parents[id].phase.Working? && SameRequest(before.parents[id], after.parents[id])
    requires after.parents[id].filled <= after.parents[id].quantity
    requires RefsPositive(refs) && s == before.parents[id].symbol && s in refs
    requires before.positions.Keys <= after.positions.Keys <= before.positions.Keys + {s}
      && after.positions.Keys <= refs.Keys
    requires forall t :: t != s ==> HoldingOf(after.positions, t) == HoldingOf(before.positions, t)
    requires Floor(DeskOf(after, id), refs[s]) >= Floor(DeskOf(before, id), refs[s])
    ensures Potential(after, refs) >= Potential(before, refs)
  {
    var filled := after.parents[id].filled - before.parents[id].filled;
    var moved := Marked(HoldingOf(after.positions, s), refs[s]) - Marked(HoldingOf(before.positions, s), refs[s]);
    PnlChanges(before.positions, after.positions, refs, s);
    TurnOpensValue(before, after, id, refs, s, filled);
    assert moved + filled * refs[s] >= 0 by {
      FloorMoves(before, after, id, refs[s]);
    }
    assert Pnl(after.positions, refs) == Pnl(before.positions, refs) + moved;
  }

  /** Nothing in this round can overflow the accounting. */
  ghost predicate Fit(e: Engine, refs: map<Symbol, I64>, limit: int) {
    && Fillable(e.parents) && PositionSafe(e, limit) && 0 <= limit <= I64_MAX
    && SoundPositions(e.positions, refs) && e.positions.Keys <= refs.Keys && Potential(e, refs) >= I128_MIN
  }

  lemma VenueRefs(v: Venue, s: Symbol)
    requires s in v.markets
    ensures s in Refs(v) && Refs(v)[s] == v.markets[s].config.reference
  {
  }

  /** A turn from a round that is fit does not fail, and leaves it fit. */
  lemma TurnStaysFit(r: Round, id: nat, now: U64, next: Round, refs: map<Symbol, I64>, limit: int)
    requires Fit(r.engine, refs, limit) && RefsPositive(refs) && id in r.engine.parents
      && r.engine.parents[id].symbol in refs
    requires Turned(r, next, id, now)
      && SoundHolding(HoldingOf(next.engine.positions, r.engine.parents[id].symbol), refs[r.engine.parents[id].symbol])
    requires var mark := refs[r.engine.parents[id].symbol];
      Floor(DeskOf(next.engine, id), mark) >= Floor(DeskOf(r.engine, id), mark)
    ensures Fit(next.engine, refs, limit)
  {
    var s := r.engine.parents[id].symbol;
    TurnNarrows(r, next, id, now);
    NarrowerKeepsSafe(r.engine, next.engine, limit);
    TurnKeepsSound(r.engine.positions, next.engine.positions, refs, s);
    TurnKeepsPotential(r.engine, next.engine, id, refs, s);
  }

  lemma FitStep(r: Round, todo: set<nat>, now: U64, refs: map<Symbol, I64>, limit: int) returns (s: nat, next: Round)
    requires Ready(r, todo) && todo != {} && r.failure.None?
      && WorkFrom(r, todo, now).engine.nextChildId < QUOTE_ID_BASE
    requires refs == Refs(r.engine.venue) && RefsPositive(refs) && Fit(r.engine, refs, limit)
    ensures s in todo && Ready(next, todo - {s}) && next.failure.None?
      && WorkFrom(r, todo, now) == WorkFrom(next, todo - {s}, now)
    ensures refs == Refs(next.engine.venue) && Fit(next.engine, refs, limit)
  {
    ChildIdsGrowOn(r, todo, now);
    s, next := WorkFromStep(r, todo, now);
    assert MayWork(r.engine, s);
    var symbol := r.engine.parents[s].symbol;
    VenueRefs(r.engine.venue, symbol);
    TurnKeepsLedger(r, s, now);
    TurnMovesPosition(r, s, now);
    TurnReports(r, s, now, r.engine.parents[s], refs[symbol]);
    StillReady(r, next, todo, s);
    OrderIsRoomy(r.engine, s, refs, limit);
    TurnFits(r, s, now, refs[symbol], limit);
    HoldingIsSound(r.engine.positions, refs, symbol);
    TurnCostsSlippage(r, s, now, symbol, refs[symbol]);
    TurnStaysFit(r, s, now, next, refs, limit);
    SameListingSameRefs(r.engine.venue, next.engine.venue);
  }

  lemma {:induction false} LoopFits(r: Round, todo: set<nat>, now: U64, refs: map<Symbol, I64>, limit: int)
    requires Ready(r, todo) && r.failure.None? && WorkFrom(r, todo, now).engine.nextChildId < QUOTE_ID_BASE
    requires refs == Refs(r.engine.venue) && RefsPositive(refs) && Fit(r.engine, refs, limit)
    ensures WorkFrom(r, todo, now).failure.None? && Fit(WorkFrom(r, todo, now).engine, refs, limit)
    decreases todo
  {
    if todo != {} {
      var s, next := FitStep(r, todo, now, refs, limit);
      LoopFits(next, todo - {s}, now, refs, limit);
    }
  }

  // ------------------------------------------------------------------ the tick

  lemma OpenWithinGross(e: Engine, refs: map<Symbol, I64>)
    requires refs == Refs(e.venue) && RefsPositive(refs)
    ensures Total(OpenValueOf(e, refs)) <= Gross(e)
  {
    var a, b := OpenValueOf(e, refs), GrossOf(e, e.venue.markets.Keys);
    forall s | s in refs ensures a[s] <= b[s] {
      MulMono(OpenUnits(e, s), UnitsIn(e, s), refs[s]);
    }
    TotalMono(a, b);
  }

  lemma RefsArePositive(v: Venue)
    requires GoodMarkets(v)
    ensures RefsPositive(Refs(v))
  {
    forall s | s in Refs(v) ensures Refs(v)[s] > 0 {
      RefIsPositive(v, s);
    }
  }

  /** Limits that stop trading before the accounting runs out of range: their sum is at most 2 to the 127th, and 1. */
  predicate HasRoom(r: RiskLimits) {
    r.maxLoss + r.maxGrossNotional <= I128_MAX + 2
  }

  /** Above the loss limit and within the gross limit, the limits' sum bounds what a tick can lose. */
  lemma LimitsLeaveRoom(e: Engine, log: seq<FillReport>)
    requires Core(e) && AccountsFor(e, log) && Solvent(e) && e.halted.None?
    requires HasRoom(e.risk)
    ensures Fit(e, Refs(e.venue), e.risk.maxPositionQty)
  {
    var refs := Refs(e.venue);
    StoredAreFillable(e);
    RefsArePositive(e.venue);
    OpenWithinGross(e, refs);
    SolventExactly(e);
  }

  lemma SolventExactly(e: Engine)
    requires GoodMarkets(e.venue) && FullyQuoted(e.venue) && SoundPositions(e.positions, Refs(e.venue)) && Solvent(e)
      && e.halted.None?
    requires e.positions.Keys <= Refs(e.venue).Keys && Sane(e.risk)
    ensures Pnl(e.positions, Refs(e.venue)) > 0 - e.risk.maxLoss
  {
    QuotedAtRefs(e.venue);
    TotalPnlIsExact(e);
  }

  /** Marked P&L is itself in range, so nothing that computes it saturates. */
  ghost predicate PnlInRange(e: Engine) {
    e.positions.Keys <= Refs(e.venue).Keys && Pnl(e.positions, Refs(e.venue)) >= I128_MIN
  }

  lemma FitInRange(e: Engine, refs: map<Symbol, I64>, limit: int)
    requires Fit(e, refs, limit) && RefsPositive(refs)
    ensures Pnl(e.positions, refs) >= I128_MIN
  {
    var terms := OpenValueOf(e, refs);
    forall t | t in terms ensures terms[t] >= 0 {
      OpenIsNatural(e.parents, t, Buy);
      OpenIsNatural(e.parents, t, Sell);
      MulMono(0, OpenUnits(e, t), refs[t]);
    }
    TotalNonNegative(terms);
  }

  lemma TickFits(e: Engine, log: seq<FillReport>, now: U64)
    requires Core(e) && AccountsFor(e, log) && Solvent(e) && IdleIfHalted(e) && PnlInRange(e) && HasRoom(e.risk)
    requires Worked(e, now).engine.nextChildId < QUOTE_ID_BASE
    ensures Worked(e, now).failure.None?
    ensures Worked(e, now).engine.positions.Keys <= Refs(e.venue).Keys
    ensures Pnl(Worked(e, now).engine.positions, Refs(e.venue)) >= I128_MIN
  {
    if e.halted.None? {
      TickIsReady(e);
      LimitsLeaveRoom(e, log);
      RefsArePositive(e.venue);
      LoopFits(Opening(e), e.working, now, Refs(e.venue), e.risk.maxPositionQty);
      FitInRange(Worked(e, now).engine, Refs(e.venue), e.risk.maxPositionQty);
    }
  }

  // ----------------------------------------------------------------- every run

  lemma TickStaysInRange(t: Trace, now: U64)
    requires Core(t.engine) && AccountsFor(t.engine, t.log) && Solvent(t.engine) && IdleIfHalted(t.engine)
    requires PnlInRange(t.engine) && HasRoom(t.engine.risk)
    requires Step(t, TickCommand(now)).engine.nextChildId < QUOTE_ID_BASE
    ensures PnlInRange(Step(t, TickCommand(now)).engine)
  {
    StepCountsUp(t, TickCommand(now));
    TickFits(t.engine, t.log, now);
    TickRests(t.engine, now);
    SameListingSameRefs(t.engine.venue, Tick(t.engine, now).0.venue);
  }

  lemma StepStaysInRange(t: Trace, c: Command)
    requires Core(t.engine) && AccountsFor(t.engine, t.log) && Solvent(t.engine) && IdleIfHalted(t.engine)
    requires PnlInRange(t.engine) && HasRoom(t.engine.risk) && Step(t, c).engine.nextChildId < QUOTE_ID_BASE
    ensures PnlInRange(Step(t, c).engine)
  {
    match c
    case SubmitCommand(order, now) => SubmitKeeps(t.engine, order, now);
    case CancelCommand(id) => CancelKeeps(t.engine, id);
    case TickCommand(now) => TickStaysInRange(t, now);
    case HaltCommand => HaltKeeps(t.engine, Requested);
  }

  lemma {:induction false} RunStaysInRange(
      configs: seq<SymbolConfig>, risk: RiskLimits, retained: nat, commands: seq<Command>, t: Trace)
    requires Ran(configs, risk, retained, commands, t) && HasRoom(risk)
    ensures PnlInRange(t.engine)
  {
    var start := NewEngine(configs, risk, retained).value;
    if commands == [] {
      assert PnlIn(t.engine.positions, Refs(t.engine.venue), {}) == map[];
    } else {
      var before, last := EngineRuns.Run(start, commands[..|commands| - 1]), commands[|commands| - 1];
      StepCountsUp(before, last);
      RunStaysInRange(configs, risk, retained, commands[..|commands| - 1], before);
      RanPromises(configs, risk, retained, commands[..|commands| - 1], before);
      StepStaysInRange(before, last);
    }
  }

  /**
   * With a loss limit and a gross limit that add up to at most 2 to the 127th, and 1, no tick of any run
   * overflows the accounting: the engine halts when told to or at its loss limit, and for no other reason.
   */
  lemma AccountingNeverFails(
      configs: seq<SymbolConfig>, risk: RiskLimits, retained: nat, commands: seq<Command>, t: Trace, now: U64)
    requires Ran(configs, risk, retained, commands, t) && HasRoom(risk)
    requires Worked(t.engine, now).engine.nextChildId < QUOTE_ID_BASE
    ensures Worked(t.engine, now).failure.None?
  {
    RanPromises(configs, risk, retained, commands, t);
    RunStaysInRange(configs, risk, retained, commands, t);
    TickFits(t.engine, t.log, now);
  }

  /** And the P&L is minus what the reported fills cost, to the last unit: nothing saturates. */
  lemma PnlIsExactlyMinusCost(configs: seq<SymbolConfig>, risk: RiskLimits, retained: nat, commands: seq<Command>,
                              t: Trace)
    requires Ran(configs, risk, retained, commands, t) && HasRoom(risk)
    ensures TotalPnl(t.engine) == 0 - Cost(t.log, Refs(t.engine.venue))
  {
    RanPromises(configs, risk, retained, commands, t);
    RunStaysInRange(configs, risk, retained, commands, t);
    QuotedAtRefs(t.engine.venue);
    ExactPnl(t.engine, t.log);
  }

  lemma ExactPnl(e: Engine, log: seq<FillReport>)
    requires AtRefs(e.venue) && AccountsFor(e, log) && FairLog(log, Refs(e.venue)) && PnlInRange(e)
    ensures TotalPnl(e) == 0 - Cost(log, Refs(e.venue))
  {
    TotalPnlIsExact(e);
    SlippageIsCost(log, Refs(e.venue));
  }
}
