/** Exact average-cost accounting of one position. */
module Accounting {
  import opened Types
  import opened DivMod

  /** A position's numbers, as values. */
  datatype Holding = Holding(quantity: I64, costBasis: I128, realizedPnl: I128)

  const FLAT: Holding := Holding(0, 0, 0)

  datatype Trade = Trade(side: Side, price: I64, qty: U64)

  // ----------------------------------------------- the machine's arithmetic

  /** Integer division as the machine does it: toward zero. */
  function TruncDiv(a: int, b: int): int
    requires b > 0
  {
    if a >= 0 then a / b else -((-a) / b)
  }

  function TruncRem(a: int, b: int): int
    requires b > 0
  {
    a - TruncDiv(a, b) * b
  }

  function Signum(a: int): int {
    if a > 0 then 1 else if a < 0 then -1 else 0
  }

  /** A checked operation: nothing, once the exact result leaves the range. */
  function Checked(x: int): Option<I128> {
    if I128_MIN <= x <= I128_MAX then Some(x) else None
  }

  // ------------------------------------------------------ what a fill does

  /** How much of the open quantity a fill closes. */
  function Closing(p: Holding, t: Trade): nat {
    if p.quantity != 0 && Signum(p.quantity) != t.side.Direction() then Min(t.qty, Abs(p.quantity)) else 0
  }

  /** The share of the cost basis that goes with `closing` of the open quantity. */
  function RemovedCost(p: Holding, closing: nat): int {
    if p.quantity == 0 then 0
    else if closing == Abs(p.quantity) then p.costBasis
    else TruncDiv(p.costBasis * closing, Abs(p.quantity))
  }

  /** P&L a fill realizes: closed value against its share of the cost. */
  function RealizedBy(p: Holding, t: Trade): int {
    Signum(p.quantity) * Closing(p, t) * t.price - RemovedCost(p, Closing(p, t))
  }

  function CostAfter(p: Holding, t: Trade): int {
    p.costBasis - RemovedCost(p, Closing(p, t)) + t.side.Direction() * (t.qty - Closing(p, t)) * t.price
  }

  /** Whether every result of the fill is representable. */
  predicate Fits(p: Holding, t: Trade) {
    && I128_MIN <= RealizedBy(p, t) <= I128_MAX
    && I128_MIN <= p.realizedPnl + RealizedBy(p, t) <= I128_MAX
    && I128_MIN <= CostAfter(p, t) <= I128_MAX
    && I64_MIN <= p.quantity + t.side.Direction() * t.qty <= I64_MAX
  }

  function Apply(p: Holding, t: Trade): Option<Holding> {
    if Fits(p, t) then
      Some(Holding(p.quantity + t.side.Direction() * t.qty, CostAfter(p, t), p.realizedPnl + RealizedBy(p, t)))
    else None
  }

  /** P&L of the open quantity at `mark`, saturating. */
  function UnrealizedPnl(p: Holding, mark: I64): I128 {
    Clamp(p.quantity * mark - p.costBasis, I128_MIN, I128_MAX)
  }

  // ---------------------------------------------------- the split division

  lemma SplitNatural(a: nat, c: nat, d: nat)
    requires d > 0
    ensures (a * c) / d == (a / d) * c + ((a % d) * c) / d
    ensures 0 <= (a / d) * c && 0 <= (a % d) * c && 0 <= ((a % d) * c) / d
  {
    var w, r := a / d, a % d;
    assert a == w * d + r;
    assert a * c == (w * c) * d + r * c by {
      assert (w * d + r) * c == (w * d) * c + r * c;
      assert (w * d) * c == (w * c) * d;
    }
    DivAdd(w * c, r * c, d);
    MulMono(0, w, c);
    MulMono(0, r, c);
    DivMono(0, r * c, d);
  }

  lemma ShareIsSmaller(a: nat, c: nat, d: nat)
    requires c <= d && d > 0
    ensures 0 <= (a * c) / d <= a
  {
    assert a * c <= a * d by { MulMono(c, d, a); }
    assert 0 <= a * c by { MulMono(0, a, c); }
    DivMono(a * c, a * d, d);
    DivMono(0, a * c, d);
    MulDiv(a, d);
  }

  lemma SplitMagnitude(a: nat, closing: nat, open: nat)
    requires a <= I128_MAX + 1 && closing < open <= I64_MAX + 1
    ensures (a * closing) / open == (a / open) * closing + ((a % open) * closing) / open
    ensures 0 <= (a / open) * closing <= a
    ensures 0 <= (a % open) * closing <= I128_MAX
    ensures 0 <= (a * closing) / open <= a
    ensures 0 <= ((a % open) * closing) / open
  {
    SplitNatural(a, closing, open);
    ShareIsSmaller(a, closing, open);
    MulMono(a % open, I64_MAX, closing);
    MulMono(closing, I64_MAX, I64_MAX);
  }

  lemma TruncOfNegative(a: int, d: nat)
    requires d > 0 && a >= 0
    ensures TruncDiv(-a, d) == -(a / d)
  {
    assert a == 0 ==> a / d == 0;
  }

  lemma Negated(a: int, b: int)
    ensures (-a) * b == -(a * b)
  {
  }

  /**
   * `trunc(cost * closing / open)` taken in two parts: same result, and no intermediate leaves the
   * range of the machine, however large the cost.
   */
  lemma SplitDivision(cost: I128, closing: nat, open: nat)
    requires 0 <= closing < open <= I64_MAX + 1
    ensures var whole, remainder := TruncDiv(cost, open), TruncRem(cost, open);
      && TruncDiv(cost * closing, open) == whole * closing + TruncDiv(remainder * closing, open)
      && I128_MIN <= whole * closing <= I128_MAX
      && I128_MIN <= remainder * closing <= I128_MAX
      && I128_MIN <= TruncDiv(cost * closing, open) <= I128_MAX
  {
    var a: int := Abs(cost);
    var w, r := a / open, a % open;
    SplitMagnitude(a, closing, open);
    if cost >= 0 {
      SameSign(a, open);
      assert a * closing >= 0 by { MulMono(0, a, closing); }
    } else {
      OtherSign(a, open);
      Negated(a, closing);
      Negated(w, closing);
      Negated(r, closing);
      assert a * closing >= 0 by { MulMono(0, a, closing); }
      TruncOfNegative(a * closing, open);
      TruncOfNegative(r * closing, open);
    }
  }

  lemma SameSign(a: int, d: nat)
    requires d > 0 && a >= 0
    ensures TruncDiv(a, d) == a / d && TruncRem(a, d) == a % d
  {
  }

  lemma OtherSign(a: int, d: nat)
    requires d > 0 && a >= 0
    ensures TruncDiv(-a, d) == -(a / d) && TruncRem(-a, d) == -(a % d)
  {
    TruncOfNegative(a, d);
    Negated(a / d, d);
  }

  lemma ProductFits(units: int, price: I64)
    requires -U64_MAX <= units <= U64_MAX
    ensures I128_MIN <= units * price <= I128_MAX
  {
    var u, p := Abs(units), Abs(price);
    MulMono(u, U64_MAX, p);
    MulMono(p, I64_MAX + 1, U64_MAX);
    assert u * p <= I128_MAX;
    assert units * price == u * p || units * price == -(u * p);
  }

  /** A partial close takes a share of the cost with the cost's sign and no larger. */
  lemma RemovedIsAShare(cost: I128, closing: nat, open: nat)
    requires 0 <= closing < open
    ensures var removed := TruncDiv(cost * closing, open);
      if cost >= 0 then 0 <= removed <= cost else cost <= removed <= 0
  {
    ShareIsSmaller(Abs(cost), closing, open);
    if cost < 0 {
      assert cost * closing == -(Abs(cost) * closing);
      TruncOfNegative(Abs(cost) * closing, open);
    } else {
      assert cost * closing >= 0;
    }
  }

  /** And it is the exact share, cut towards zero to a whole number. */
  lemma RemovedIsTruncated(cost: I128, closing: nat, open: nat)
    requires 0 <= closing < open
    ensures var removed := Abs(TruncDiv(cost * closing, open));
      removed * open <= Abs(cost) * closing < (removed + 1) * open
  {
    var share := Abs(cost) * closing;
    DivBounds(share, open);
    MulMono(0, closing, Abs(cost));
    assert (share / open + 1) * open == share / open * open + open;
    DivMono(0, share, open);
    if cost < 0 {
      Negated(Abs(cost), closing);
      TruncOfNegative(share, open);
    }
  }

  /** The position as the source updates it. */
  class Position {
    var quantity: I64
    var costBasis: I128
    var realizedPnl: I128

    function View(): Holding
      reads this
    {
      Holding(quantity, costBasis, realizedPnl)
    }

    constructor (start: Holding)
      ensures View() == start
    {
      quantity, costBasis, realizedPnl := start.quantity, start.costBasis, start.realizedPnl;
    }

    /** Applies a fill to a copy and commits it, or reports overflow and changes nothing. */
    method ApplyFill(t: Trade) returns (ok: bool)
      modifies this
      ensures ok == Apply(old(View()), t).Some?
      ensures View() == if ok then Apply(old(View()), t).value else old(View())
    {
      var copy := new Position(View());
      ok := copy.Commit(t);
      if ok {
        quantity, costBasis, realizedPnl := copy.quantity, copy.costBasis, copy.realizedPnl;
      }
    }

    /** The closed share of the cost basis, truncated; a full close takes it all. */
    method ShareOfCost(closing: nat, open: nat) returns (removed: I128)
      requires 0 < open == Abs(quantity) && closing <= open
      ensures removed == RemovedCost(View(), closing)
      ensures I128_MIN <= costBasis - removed <= I128_MAX
    {
      if closing == open {
        return costBasis;
      }
      // The product could overflow where its quotient does not, so it is taken in two parts.
      SplitDivision(costBasis, closing, open);
      RemovedIsAShare(costBasis, closing, open);
      var whole := TruncDiv(costBasis, open);
      var remainder := TruncRem(costBasis, open);
      var main, rest := Checked(whole * closing), Checked(remainder * closing);
      assert main.Some? && rest.Some?;
      var both := Checked(main.value + TruncDiv(rest.value, open));
      assert both.Some?;
      removed := both.value;
    }

    /** The steps on the copy; a step that overflows abandons it. */
    method Commit(t: Trade) returns (ok: bool)
      modifies this
      ensures ok == Apply(old(View()), t).Some?
      ensures ok ==> View() == Apply(old(View()), t).value
    {
      var remaining;
      ok, remaining := Close(t);
      if ok {
        ok := Open(t, remaining);
      }
    }

    /** Closes open quantity the fill goes against, realizing P&L at its average cost. */
    method Close(t: Trade) returns (ok: bool, remaining: U64)
      modifies this
      ensures var p := old(View());
        && ok == (I128_MIN <= RealizedBy(p, t) <= I128_MAX && I128_MIN <= p.realizedPnl + RealizedBy(p, t) <= I128_MAX)
        && (ok ==>
              && quantity == p.quantity + t.side.Direction() * Closing(p, t)
              && costBasis == p.costBasis - RemovedCost(p, Closing(p, t))
              && realizedPnl == p.realizedPnl + RealizedBy(p, t)
              && remaining == t.qty - Closing(p, t))
    {
      ok, remaining := true, t.qty;
      var open := Abs(quantity);
      if quantity != 0 && Signum(quantity) != t.side.Direction() {
        var closing := Min(remaining, open);
        var removed := ShareOfCost(closing, open);
        ProductFits(Signum(quantity) * closing, t.price);
        var gain := Checked(Signum(quantity) * closing * t.price - removed);
        if gain.None? {
          return false, remaining;
        }
        var realized := Checked(realizedPnl + gain.value);
        if realized.None? {
          return false, remaining;
        }
        realizedPnl := realized.value;
        costBasis := costBasis - removed;
        quantity := quantity + t.side.Direction() * closing;
        remaining := remaining - closing;
      }
    }

    /** Opens what is left of the fill in its own direction. */
    method Open(t: Trade, remaining: U64) returns (ok: bool)
      modifies this
      ensures var q := old(quantity) + t.side.Direction() * remaining;
        var c := old(costBasis) + t.side.Direction() * remaining * t.price;
        && ok == (I64_MIN <= q <= I64_MAX && I128_MIN <= c <= I128_MAX)
        && (ok ==> quantity == q && costBasis == c && realizedPnl == old(realizedPnl))
    {
      var held: I128 := quantity;
      if remaining > 0 {
        ProductFits(t.side.Direction() * remaining, t.price);
        held := held + t.side.Direction() * remaining;
        var cost := Checked(costBasis + t.side.Direction() * remaining * t.price);
        if cost.None? {
          return false;
        }
        costBasis := cost.value;
      }
      ok := I64_MIN <= held <= I64_MAX;
      if ok {
        quantity := held;
      }
    }
  }
}
