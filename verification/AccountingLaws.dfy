/** What the accounting keeps over any sequence of fills. */
module AccountingLaws {
  import opened Types
  import opened DivMod
  import opened Accounting

  // ------------------------------------------------------------- exact cash

  /** Cash a fill brings in: sales positive, purchases negative. */
  function Cash(t: Trade): int {
    -t.side.Direction() * t.qty * t.price
  }

  function NetCash(trades: seq<Trade>): int {
    if trades == [] then 0 else NetCash(trades[..|trades| - 1]) + Cash(trades[|trades| - 1])
  }

  function NetQuantity(trades: seq<Trade>): int {
    if trades == [] then 0
    else
      var last := trades[|trades| - 1];
      NetQuantity(trades[..|trades| - 1]) + last.side.Direction() * last.qty
  }

  lemma ClosedAndOpened(direction: int, qty: int, closing: int, price: int)
    requires direction == 1 || direction == -1
    ensures direction * (qty - closing) * price + direction * closing * price == direction * qty * price
  {
    assert direction * (qty - closing) + direction * closing == direction * qty;
    assert (direction * (qty - closing) + direction * closing) * price
        == direction * (qty - closing) * price + direction * closing * price;
  }

  /** A fill moves realized P&L less cost basis by exactly its cash, rounding and all. */
  lemma FillIsExactCash(p: Holding, t: Trade)
    ensures RealizedBy(p, t) - CostAfter(p, t) == Cash(t) - p.costBasis
  {
    var d, c := t.side.Direction(), Closing(p, t);
    ClosedAndOpened(d, t.qty, c, t.price);
    if c > 0 {
      assert Signum(p.quantity) == -d;
      assert (-d) * c * t.price == -(d * c * t.price);
    }
    assert (-d) * t.qty * t.price == -(d * t.qty * t.price);
  }

  // -------------------------------------------------------------- one fill

  /** The fill opens a position, or adds to it. */
  predicate Adds(p: Holding, t: Trade) {
    p.quantity == 0 || (if t.side.Buy? then p.quantity > 0 else p.quantity < 0)
  }

  /** `removed` is the share of `cost` that belongs to `closing` of `open` units, cut towards zero. */
  predicate ShareOf(removed: int, cost: int, closing: nat, open: nat) {
    && (if cost >= 0 then removed >= 0 else removed <= 0)
    && Abs(removed) * open <= Abs(cost) * closing < (Abs(removed) + 1) * open
  }

  /**
   * A fill moves realized P&L less cost by its cash. One that adds realizes nothing; a smaller one against the position
   * takes its share of the cost out; a larger one leaves what is over at its own price.
   */
  ghost predicate FilledAs(p: Holding, t: Trade, q: Holding) {
    && q.quantity == p.quantity + (if t.side.Buy? then t.qty else -(t.qty as int))
    && q.realizedPnl - q.costBasis == p.realizedPnl - p.costBasis + Cash(t)
    && if Adds(p, t) then q.realizedPnl == p.realizedPnl
       else if t.qty < Abs(p.quantity) then
         ShareOf(p.costBasis - q.costBasis, p.costBasis, t.qty, Abs(p.quantity))
       else q.costBasis == q.quantity * t.price
  }

  lemma AddsCost(p: Holding, t: Trade)
    requires Adds(p, t)
    ensures RealizedBy(p, t) == 0
  {
  }

  lemma ClosingIsShare(p: Holding, t: Trade)
    requires !Adds(p, t) && t.qty < Abs(p.quantity)
    ensures ShareOf(p.costBasis - CostAfter(p, t), p.costBasis, t.qty, Abs(p.quantity))
  {
    RemovedIsAShare(p.costBasis, t.qty, Abs(p.quantity));
    RemovedIsTruncated(p.costBasis, t.qty, Abs(p.quantity));
  }

  lemma FlipCosts(p: Holding, t: Trade)
    requires !Adds(p, t) && t.qty >= Abs(p.quantity)
    ensures CostAfter(p, t) == (p.quantity + t.side.Direction() * t.qty) * t.price
  {
    assert t.side.Direction() * (t.qty - Abs(p.quantity)) == p.quantity + t.side.Direction() * t.qty;
  }

  /** What a fill that is taken does to a position. */
  lemma FillMeans(p: Holding, t: Trade)
    requires Apply(p, t).Some?
    ensures FilledAs(p, t, Apply(p, t).value)
  {
    FillIsExactCash(p, t);
    if Adds(p, t) {
      AddsCost(p, t);
    } else if t.qty < Abs(p.quantity) {
      ClosingIsShare(p, t);
    } else {
      FlipCosts(p, t);
    }
  }

  /** A position after a sequence of fills, and the fills it took: one that overflows is refused. */
  function Run(trades: seq<Trade>): (Holding, seq<Trade>) {
    if trades == [] then (FLAT, [])
    else
      var (p, taken) := Run(trades[..|trades| - 1]);
      var last := trades[|trades| - 1];
      match Apply(p, last) case None => (p, taken) case Some(next) => (next, taken + [last])
  }

  /**
   * After any sequence of fills, realized P&L less cost basis is the net cash of the fills taken and
   * the quantity is their net signed quantity; so a flat position has realized exactly its cash.
   */
  lemma {:induction false} RealizedMinusCostIsCash(trades: seq<Trade>)
    ensures var (p, taken) := Run(trades);
      p.realizedPnl - p.costBasis == NetCash(taken) && p.quantity == NetQuantity(taken)
  {
    if trades != [] {
      var init, last := trades[..|trades| - 1], trades[|trades| - 1];
      RealizedMinusCostIsCash(init);
      var (p, taken) := Run(init);
      FillIsExactCash(p, last);
      assert (taken + [last])[..|taken|] == taken;
    }
  }

  // ------------------------------------------------------ average cost in range

  /** The cost has the quantity's sign, and its average per unit lies between the two prices. */
  ghost predicate RangeHolds(quantity: int, cost: int, low: int, high: int) {
    if quantity >= 0 then low * quantity <= cost <= high * quantity
    else high * quantity <= cost <= low * quantity
  }

  ghost predicate CostInRange(p: Holding, low: int, high: int) {
    RangeHolds(p.quantity, p.costBasis, low, high)
  }

  /** If `cost` is at least (at most) `x` per open unit, so is what a truncated share leaves. */
  lemma SharePerUnit(cost: nat, closing: nat, open: nat, x: nat)
    requires 0 <= closing < open
    ensures x * open <= cost ==> x * (open - closing) <= cost - (cost * closing) / open
    ensures cost <= x * open ==> cost - (cost * closing) / open <= x * (open - closing)
  {
    var rest := open - closing;
    assert cost * closing == cost * open - cost * rest;
    assert (cost - x * rest) * open == cost * open - (x * open) * rest;
    MulDiv(cost - x * rest, open);
    if x * open <= cost {
      MulMono(x * open, cost, rest);
      DivMono(cost * closing, (cost - x * rest) * open, open);
    }
    if cost <= x * open {
      MulMono(cost, x * open, rest);
      DivMono((cost - x * rest) * open, cost * closing, open);
    }
  }

  lemma RoundedShare(cost: nat, closing: nat, open: nat, low: nat, high: nat)
    requires 0 <= closing < open && low * open <= cost <= high * open
    ensures low * (open - closing) <= cost - (cost * closing) / open <= high * (open - closing)
  {
    SharePerUnit(cost, closing, open, low);
    SharePerUnit(cost, closing, open, high);
  }

  lemma PricedBetween(units: nat, price: int, low: int, high: int)
    requires low <= price <= high
    ensures low * units <= units * price <= high * units
  {
    MulMono(low, price, units);
    MulMono(price, high, units);
  }

  lemma Distribute(low: int, a: int, b: int)
    ensures low * (a + b) == low * a + low * b && low * (-a) == -(low * a)
  {
  }

  /** Adding to a position in its own direction. */
  lemma AddKeepsRange(p: Holding, t: Trade, low: nat, high: nat)
    requires CostInRange(p, low, high) && low <= t.price <= high
    requires Closing(p, t) == 0 && (p.quantity == 0 || Signum(p.quantity) == t.side.Direction())
    ensures CostAfter(p, t) == p.costBasis + t.side.Direction() * (t.qty * t.price)
    ensures RangeHolds(p.quantity + t.side.Direction() * t.qty, CostAfter(p, t), low, high)
  {
    RemovedNothing(p);
    Regroup(t.side.Direction(), t.qty, t.price);
    AddedInRange(p.quantity, p.costBasis, t.side.Direction(), t.qty, t.price, t.qty * t.price, low, high);
  }

  lemma Regroup(a: int, b: int, c: int)
    ensures a * b * c == a * (b * c)
  {
  }

  lemma AddedInRange(q: int, cost: int, direction: int, units: nat, price: int, value: int, low: nat, high: nat)
    requires RangeHolds(q, cost, low, high) && low <= price <= high && value == units * price
    requires (direction == 1 && q >= 0) || (direction == -1 && q <= 0)
    ensures RangeHolds(q + direction * units, cost + direction * value, low, high)
  {
    PricedBetween(units, price, low, high);
    Distribute(low, q, direction * units);
    Distribute(high, q, direction * units);
    Distribute(low, units, 0);
    Distribute(high, units, 0);
  }

  lemma RemovedNothing(p: Holding)
    ensures RemovedCost(p, 0) == 0
  {
    assert p.costBasis * 0 == 0;
  }

  /** Closing part of a position. */
  lemma PartialCloseKeepsRange(p: Holding, t: Trade, low: nat, high: nat)
    requires CostInRange(p, low, high) && low > 0
    requires p.quantity != 0 && Signum(p.quantity) != t.side.Direction() && t.qty < Abs(p.quantity)
    ensures RangeHolds(p.quantity + t.side.Direction() * t.qty, CostAfter(p, t), low, high)
  {
    var open := Abs(p.quantity);
    assert CostAfter(p, t) == p.costBasis - TruncDiv(p.costBasis * t.qty, open) + t.side.Direction() * 0 * t.price;
    Distribute(low, open, 0);
    Distribute(high, open, 0);
    MulMono(0, low, open);
    RoundedShare(Abs(p.costBasis), t.qty, open, low, high);
    MulMono(0, Abs(p.costBasis), t.qty);
    if p.quantity < 0 {
      Negated(Abs(p.costBasis), t.qty);
      TruncOfNegative(Abs(p.costBasis) * t.qty, open);
      Distribute(low, open - t.qty, 0);
      Distribute(high, open - t.qty, 0);
    }
  }

  /** Closing a whole position, and flipping through zero with what is left. */
  lemma FlipKeepsRange(p: Holding, t: Trade, low: nat, high: nat)
    requires low <= t.price <= high
    requires p.quantity != 0 && Signum(p.quantity) != t.side.Direction() && t.qty >= Abs(p.quantity)
    ensures RangeHolds(p.quantity + t.side.Direction() * t.qty, CostAfter(p, t), low, high)
  {
    var d, units := t.side.Direction(), t.qty - Abs(p.quantity);
    assert CostAfter(p, t) == d * units * t.price;
    assert d * units * t.price == d * (units * t.price);
    PricedBetween(units, t.price, low, high);
    Distribute(low, units, 0);
    Distribute(high, units, 0);
  }

  /** No fill between the two prices takes the average cost outside them: not a rounded partial close, not a flip. */
  lemma FillKeepsRange(p: Holding, t: Trade, low: nat, high: nat)
    requires CostInRange(p, low, high) && 0 < low <= t.price <= high
    ensures RangeHolds(p.quantity + t.side.Direction() * t.qty, CostAfter(p, t), low, high)
  {
    if p.quantity == 0 || Signum(p.quantity) == t.side.Direction() {
      AddKeepsRange(p, t, low, high);
    } else if t.qty < Abs(p.quantity) {
      PartialCloseKeepsRange(p, t, low, high);
    } else {
      FlipKeepsRange(p, t, low, high);
    }
  }

  /**
   * Whatever the fills, as long as their prices lie in `low..=high` above zero, the cost basis has
   * the sign of the quantity and its average stays in that range.
   */
  lemma {:induction false} AverageCostStaysInRange(trades: seq<Trade>, low: nat, high: nat)
    requires 0 < low && forall t :: t in trades ==> low <= t.price <= high
    ensures var p := Run(trades).0;
      && CostInRange(p, low, high)
      && Signum(p.costBasis) == Signum(p.quantity)
      && low * Abs(p.quantity) <= Abs(p.costBasis) <= high * Abs(p.quantity)
  {
    if trades != [] {
      var init, last := trades[..|trades| - 1], trades[|trades| - 1];
      AverageCostStaysInRange(init, low, high);
      FillKeepsRange(Run(init).0, last, low, high);
    }
    RangeGivesSign(Run(trades).0, low, high);
  }

  lemma RangeGivesSign(p: Holding, low: nat, high: nat)
    requires CostInRange(p, low, high) && 0 < low
    ensures Signum(p.costBasis) == Signum(p.quantity)
    ensures low * Abs(p.quantity) <= Abs(p.costBasis) <= high * Abs(p.quantity)
  {
    Distribute(low, p.quantity, 0);
    Distribute(high, p.quantity, 0);
    if p.quantity > 0 {
      MulMono(1, p.quantity, low);
    } else if p.quantity < 0 {
      MulMono(1, Abs(p.quantity), low);
    }
  }
}
