/** The limits an engine is configured with: money amounts become ticks, and what follows from that. */
module Configuration {
  import opened Types
  import opened Risk
  import opened VenueSpec
  import opened EngineSpec
  import opened EngineRuns
  import opened MarkLaws
  import opened CommandLaws
  import opened EnginePromises
  import opened OverflowLaws

  /** Risk settings, with money in price units. */
  datatype RiskSettings = RiskSettings(
    maxOrderQty: U64,
    maxOrderNotional: real,
    maxPositionQty: U64,
    maxGrossNotional: real,
    priceCollarBps: nat,
    maxLoss: real)

  /** Settings that pass validation. */
  predicate Accepted(s: RiskSettings) {
    && 1 <= s.maxOrderQty <= I64_MAX && 1 <= s.maxPositionQty <= I64_MAX
    && s.maxOrderNotional > 0.0 && s.maxGrossNotional > 0.0 && s.maxLoss > 0.0
    && 1 <= s.priceCollarBps <= 10_000
  }

  const TICK_SCALE: real := 100_000.0

  /** Nearest integer, halves away from zero. */
  function RoundAway(x: real): int {
    if x >= 0.0 then (x + 0.5).Floor else -((-x + 0.5).Floor)
  }

  /** An amount in ticks, unless they reach either end of the range. */
  function Ticks(amount: real): Option<I64> {
    var ticks := RoundAway(amount * TICK_SCALE);
    if I64_MIN < ticks <= I64_MAX then Some(ticks) else None
  }

  function LimitsFrom(s: RiskSettings): Option<RiskLimits> {
    var notional, gross, loss := Ticks(s.maxOrderNotional), Ticks(s.maxGrossNotional), Ticks(s.maxLoss);
    if notional.None? || gross.None? || loss.None? then None
    else Some(RiskLimits(s.maxOrderQty, notional.value, s.maxPositionQty, gross.value, s.priceCollarBps, loss.value))
  }

  lemma PositiveTicks(amount: real)
    requires amount > 0.0 && Ticks(amount).Some?
    ensures 0 <= Ticks(amount).value && (Ticks(amount).value > 0 <==> amount * TICK_SCALE >= 0.5)
  {
  }

  /**
   * Accepted limits leave the accounting all the room it needs. They are what the engine's promises ask for,
   * unless the loss limit is so small that it rounds to no ticks at all.
   */
  lemma AcceptedLimits(s: RiskSettings)
    requires Accepted(s) && LimitsFrom(s).Some?
    ensures HasRoom(LimitsFrom(s).value)
    ensures Sane(LimitsFrom(s).value) <==> s.maxLoss >= 0.000_005
  {
    PositiveTicks(s.maxGrossNotional);
    PositiveTicks(s.maxLoss);
  }

  /** A loss limit that rounds to nothing is reached before anything trades. */
  lemma TinyLossLimit(s: RiskSettings, e: Engine)
    requires Accepted(s) && LimitsFrom(s).Some? && s.maxLoss < 0.000_005
    requires e.risk == LimitsFrom(s).value && e.positions == map[]
    ensures LossLimitBreached(e.risk, TotalPnl(e))
  {
    PositiveTicks(s.maxLoss);
    assert PnlTerms(e) == map[];
  }

  /**
   * An engine with accepted limits never fails its accounting, and its P&L is exactly minus what its fills
   * cost, whatever it is told and however long it runs.
   */
  lemma ConfiguredEngineIsExact(
      configs: seq<SymbolConfig>, s: RiskSettings, retained: nat, commands: seq<Command>, t: Trace, now: U64)
    requires Accepted(s) && s.maxLoss >= 0.000_005 && LimitsFrom(s).Some?
      && NewEngine(configs, LimitsFrom(s).value, retained).Ok?
    requires t == Run(NewEngine(configs, LimitsFrom(s).value, retained).value, commands)
    requires t.engine.nextChildId < QUOTE_ID_BASE
    ensures TotalPnl(t.engine) == 0 - Cost(t.log, Refs(t.engine.venue))
    ensures Worked(t.engine, now).engine.nextChildId < QUOTE_ID_BASE ==> Worked(t.engine, now).failure.None?
  {
    AcceptedLimits(s);
    PnlIsExactlyMinusCost(configs, LimitsFrom(s).value, retained, commands, t);
    if Worked(t.engine, now).engine.nextChildId < QUOTE_ID_BASE {
      AccountingNeverFails(configs, LimitsFrom(s).value, retained, commands, t, now);
    }
  }
}
