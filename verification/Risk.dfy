/** Pre-trade limits and the loss limit. */
module Risk {
  import opened Types
  import opened DivMod

  datatype RiskLimits = RiskLimits(
    maxOrderQty: U64,
    maxOrderNotional: I128,
    maxPositionQty: U64,
    maxGrossNotional: I128,
    priceCollarBps: nat,
    maxLoss: I128)

  datatype SymbolExposure = SymbolExposure(position: I64, workingBuy: U64, workingSell: U64, mid: I64)

  datatype RiskViolation =
    | OrderQuantity
    | PriceCollar
    | OrderNotional(notional: int)
    | PositionLimit(worstCase: int)
    | GrossNotional(gross: int)

  function Saturate(x: int): I128 {
    Clamp(x, I128_MIN, I128_MAX)
  }

  /** Position if the order and everything working on its side filled. */
  function WorstCase(side: Side, qty: U64, e: SymbolExposure): int {
    if side.Buy? then e.position + e.workingBuy + qty else e.position - e.workingSell - qty
  }

  function CheckNewOrder(r: RiskLimits, side: Side, qty: U64, limit: Option<I64>, e: SymbolExposure, gross: I128)
    : Option<RiskViolation>
  {
    var worstPrice := if limit.Some? then Max(limit.value, e.mid) else e.mid;
    var notional := Saturate(qty * worstPrice);
    var worst := WorstCase(side, qty, e);
    var after := Saturate(gross + Saturate(qty * e.mid));
    if qty > r.maxOrderQty then Some(OrderQuantity)
    else if limit.Some? && Abs(limit.value - e.mid) * 10_000 > r.priceCollarBps * e.mid then Some(PriceCollar)
    else if notional > r.maxOrderNotional then Some(OrderNotional(notional))
    else if Abs(worst) > r.maxPositionQty then Some(PositionLimit(worst))
    else if after > r.maxGrossNotional then Some(GrossNotional(after))
    else None
  }

  predicate LossLimitBreached(r: RiskLimits, pnl: I128) {
    pnl <= 0 - r.maxLoss
  }

  lemma QtyTimesPrice(qty: U64, price: I64)
    requires price >= 0
    ensures 0 <= qty * price <= I128_MAX
  {
    MulMono(0, qty, price);
    MulMono(qty, U64_MAX, price);
    MulMono(price, I64_MAX, U64_MAX);
  }

  /** The limits other than the gross one, in exact arithmetic. */
  predicate WithinOrderLimits(r: RiskLimits, side: Side, qty: U64, limit: Option<I64>, e: SymbolExposure) {
    && qty <= r.maxOrderQty
    && (limit.Some? ==> Abs(limit.value - e.mid) * 10_000 <= r.priceCollarBps * e.mid)
    && qty * (if limit.Some? then Max(limit.value, e.mid) else e.mid) <= r.maxOrderNotional
    && Abs(WorstCase(side, qty, e)) <= r.maxPositionQty
  }

  /** Every limit, in exact arithmetic. */
  predicate WithinLimits(r: RiskLimits, side: Side, qty: U64, limit: Option<I64>, e: SymbolExposure, gross: I128) {
    WithinOrderLimits(r, side, qty, limit, e) && gross + qty * e.mid <= r.maxGrossNotional
  }

  /**
   * An order within every limit always passes. One that passes is within every limit exactly when the
   * gross sum did not saturate against the largest gross limit there is.
   */
  lemma PassesExactlyWithinLimits(
      r: RiskLimits, side: Side, qty: U64, limit: Option<I64>, e: SymbolExposure, gross: I128)
    requires e.mid > 0 && gross >= 0
    ensures WithinLimits(r, side, qty, limit, e, gross) ==> CheckNewOrder(r, side, qty, limit, e, gross).None?
    ensures CheckNewOrder(r, side, qty, limit, e, gross).None? ==>
      (WithinLimits(r, side, qty, limit, e, gross)
       <==> r.maxGrossNotional < I128_MAX || gross + qty * e.mid <= I128_MAX)
  {
    QtyTimesPrice(qty, e.mid);
    QtyTimesPrice(qty, if limit.Some? then Max(limit.value, e.mid) else e.mid);
  }

  /** An order that does saturate: at the largest gross limit it passes and exceeds it. */
  lemma SaturationPassesLargestLimit()
    ensures var r := RiskLimits(1, 1, 1, I128_MAX, 1, 1);
            CheckNewOrder(r, Buy, 1, None, SymbolExposure(0, 0, 0, 1), I128_MAX).None?
              && I128_MAX + 1 * 1 > r.maxGrossNotional
  {
    assert Saturate(1 * 1) == 1;
    assert Saturate(I128_MAX + 1) == I128_MAX;
  }
}
