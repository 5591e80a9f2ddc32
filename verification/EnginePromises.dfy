/** What a user of the engine may rely on, in the engine's own terms, after any run of commands. */
module EnginePromises {
  import opened Types
  import opened DivMod
  import opened VenueSpec
  import opened VenueLaws
  import opened Risk
  import opened ParentOrders
  import opened Schedule
  import opened EngineSpec
  import opened EngineRuns
  import opened DeskLaws
  import opened ExposureLaws
  import opened MarkLaws
  import opened TickLaws
  import opened SafetyLaws
  import opened CommandLaws
  import opened RunLaws
  import opened HistoryLaws
  import opened TallyLaws

  /** A run of commands from a new engine, with child ids still below the market maker's. */
  ghost predicate Ran(configs: seq<SymbolConfig>, risk: RiskLimits, retained: nat, commands: seq<Command>, t: Trace) {
    && Sane(risk) && NewEngine(configs, risk, retained).Ok?
    && t == Run(NewEngine(configs, risk, retained).value, commands) && t.engine.nextChildId < QUOTE_ID_BASE
  }

  /** What every run comes to, in one place. */
  ghost predicate Promised(risk: RiskLimits, retained: nat, t: Trace) {
    && Core(t.engine) && t.engine.risk == risk && t.engine.retained == retained
    && AccountsFor(t.engine, t.log) && FairLog(t.log, Refs(t.engine.venue))
    && Solvent(t.engine) && IdleIfHalted(t.engine) && Punctual(t.engine, t.latest) && t.refused == []
  }

  lemma RanPromises(configs: seq<SymbolConfig>, risk: RiskLimits, retained: nat, commands: seq<Command>, t: Trace)
    requires Ran(configs, risk, retained, commands, t)
    ensures Promised(risk, retained, t)
  {
    RunIsSafe(configs, risk, retained, commands);
  }

  /** The run up to its last command. */
  lemma RanBefore(configs: seq<SymbolConfig>, risk: RiskLimits, retained: nat, commands: seq<Command>, t: Trace)
    returns (init: seq<Command>, last: Command, before: Trace)
    requires Ran(configs, risk, retained, commands, t) && commands != []
    ensures commands == init + [last] && init == commands[..|commands| - 1] && last == commands[|commands| - 1]
    ensures Ran(configs, risk, retained, init, before) && t == Step(before, last)
    ensures before == Run(NewEngine(configs, risk, retained).value, init)
  {
    init, last := commands[..|commands| - 1], commands[|commands| - 1];
    before := Run(NewEngine(configs, risk, retained).value, init);
    StepCountsUp(before, last);
  }

  // ------------------------------------------------------------------ finality

  /** A run that goes on follows the one it goes on from. */
  lemma RanOn(configs: seq<SymbolConfig>, risk: RiskLimits, retained: nat, commands: seq<Command>, more: seq<Command>,
              t: Trace, later: Trace)
    requires Ran(configs, risk, retained, commands, t) && Ran(configs, risk, retained, commands + more, later)
    ensures Follows(t, later)
  {
    var start := NewEngine(configs, risk, retained).value;
    RunIsSafe(configs, risk, retained, commands);
    RunSplits(start, commands, more, t, commands + more);
    GoesOn(start, t, more, later);
  }

  /**
   * Terminal states never change, whatever follows: an id that was given out and is not of a working order
   * is never stored again, or names exactly the order it named. It is never another order's.
   */
  lemma EndedOrdersAreFinal(configs: seq<SymbolConfig>, risk: RiskLimits, retained: nat,
                            commands: seq<Command>, more: seq<Command>, t: Trace, later: Trace, id: nat)
    requires Ran(configs, risk, retained, commands, t) && Ran(configs, risk, retained, commands + more, later)
    requires id < t.engine.nextParentId && id !in t.engine.working
    ensures id !in later.engine.parents || (id in t.engine.parents && later.engine.parents[id] == t.engine.parents[id])
  {
    RanOn(configs, risk, retained, commands, more, t, later);
  }

  /** Every order that is or was stored has such an id, and a new one gets the next. */
  lemma IdsAreGivenOut(configs: seq<SymbolConfig>, risk: RiskLimits, retained: nat,
                       commands: seq<Command>, more: seq<Command>, t: Trace, later: Trace, id: nat)
    requires Ran(configs, risk, retained, commands, t) && Ran(configs, risk, retained, commands + more, later)
    requires id in t.engine.parents
    ensures id < t.engine.nextParentId <= later.engine.nextParentId
  {
    RanPromises(configs, risk, retained, commands, t);
    RanOn(configs, risk, retained, commands, more, t, later);
  }

  /** A halt is for good: whatever follows, nothing works, nothing trades and no position moves. */
  lemma HaltIsForGood(configs: seq<SymbolConfig>, risk: RiskLimits, retained: nat,
                      commands: seq<Command>, more: seq<Command>, t: Trace, later: Trace)
    requires Ran(configs, risk, retained, commands, t) && Ran(configs, risk, retained, commands + more, later)
    requires t.engine.halted.Some?
    ensures later.engine.halted.Some? && later.engine.working == {}
    ensures later.engine.positions == t.engine.positions && later.log == t.log
  {
    RanOn(configs, risk, retained, commands, more, t, later);
  }

  /** No reply and no reported fill is ever taken back. */
  lemma RecordsStand(configs: seq<SymbolConfig>, risk: RiskLimits, retained: nat,
                     commands: seq<Command>, more: seq<Command>, t: Trace, later: Trace)
    requires Ran(configs, risk, retained, commands, t) && Ran(configs, risk, retained, commands + more, later)
    ensures t.replies <= later.replies && t.log <= later.log
  {
    RanOn(configs, risk, retained, commands, more, t, later);
  }

  // ------------------------------------------------------------------- money

  /** Sum over fills of quantity times distance from the reference price. */
  function Cost(fills: seq<FillReport>, refs: map<Symbol, I64>): int {
    if fills == [] then 0
    else
      var last := fills[|fills| - 1];
      Cost(fills[..|fills| - 1], refs)
        + (if last.symbol in refs then last.quantity * Abs(last.price - refs[last.symbol]) else 0)
  }

  lemma FairSlipIsDistance(f: FillReport, mark: int)
    requires FairReport(f, mark)
    ensures Slip(f.side, f.price, f.quantity, mark) == f.quantity * Abs(f.price - mark) > 0
  {
    MulMono(1, f.quantity, Abs(f.price - mark));
  }

  lemma {:induction false} SlippageIsCost(fills: seq<FillReport>, refs: map<Symbol, I64>)
    requires FairLog(fills, refs)
    ensures Slippage(fills, refs) == Cost(fills, refs) >= |fills|
  {
    if fills != [] {
      SlippageIsCost(fills[..|fills| - 1], refs);
      var last := fills[|fills| - 1];
      assert last in fills;
      FairSlipIsDistance(last, refs[last.symbol]);
    }
  }

  /**
   * After every command of every run, the total P&L is exactly minus what the reported fills cost
   * against the reference prices; and trading has halted or the P&L is above the loss limit.
   */
  lemma PnlIsMinusCost(configs: seq<SymbolConfig>, risk: RiskLimits, retained: nat, commands: seq<Command>, t: Trace)
    requires Ran(configs, risk, retained, commands, t)
    ensures TotalPnl(t.engine) == Max(0 - Cost(t.log, Refs(t.engine.venue)), I128_MIN)
    ensures t.engine.halted.Some? || TotalPnl(t.engine) > 0 - risk.maxLoss
  {
    RanPromises(configs, risk, retained, commands, t);
    QuotedAtRefs(t.engine.venue);
    MoneyIsRight(t);
  }

  /** What the P&L rests on. */
  ghost predicate Money(t: Trace) {
    && AtRefs(t.engine.venue) && AccountsFor(t.engine, t.log) && FairLog(t.log, Refs(t.engine.venue))
  }

  lemma MoneyIsRight(t: Trace)
    requires Money(t)
    ensures TotalPnl(t.engine) == Max(0 - Cost(t.log, Refs(t.engine.venue)), I128_MIN)
  {
    PnlFromLog(t.engine, t.log);
  }

  lemma PnlFromLog(e: Engine, log: seq<FillReport>)
    requires AtRefs(e.venue) && AccountsFor(e, log) && FairLog(log, Refs(e.venue))
    ensures TotalPnl(e) == Max(0 - Cost(log, Refs(e.venue)), I128_MIN)
  {
    TotalPnlIsExact(e);
    SlippageIsCost(log, Refs(e.venue));
  }

  lemma {:induction false} CostGrows(a: seq<FillReport>, b: seq<FillReport>, refs: map<Symbol, I64>)
    requires a <= b && FairLog(b, refs)
    ensures Cost(a, refs) <= Cost(b, refs)
  {
    if a == b {
    } else {
      var last, init := b[|b| - 1], b[..|b| - 1];
      CostGrows(a, init, refs);
      assert last in b;
      FairSlipIsDistance(last, refs[last.symbol]);
    }
  }

  lemma RanFairly(configs: seq<SymbolConfig>, risk: RiskLimits, retained: nat, commands: seq<Command>, t: Trace)
    requires Ran(configs, risk, retained, commands, t)
    ensures FairLog(t.log, Refs(t.engine.venue))
  {
    RanPromises(configs, risk, retained, commands, t);
  }

  lemma RanCostsMore(configs: seq<SymbolConfig>, risk: RiskLimits, retained: nat,
                     commands: seq<Command>, more: seq<Command>, t: Trace, later: Trace)
    requires Ran(configs, risk, retained, commands, t) && Ran(configs, risk, retained, commands + more, later)
    ensures Cost(t.log, Refs(t.engine.venue)) <= Cost(later.log, Refs(later.engine.venue))
  {
    RanOn(configs, risk, retained, commands, more, t, later);
    RanFairly(configs, risk, retained, commands + more, later);
    CostGrows(t.log, later.log, Refs(later.engine.venue));
  }

  /** Nothing that follows ever raises the total P&L. */
  lemma PnlNeverRises(configs: seq<SymbolConfig>, risk: RiskLimits, retained: nat,
                      commands: seq<Command>, more: seq<Command>, t: Trace, later: Trace)
    requires Ran(configs, risk, retained, commands, t) && Ran(configs, risk, retained, commands + more, later)
    ensures TotalPnl(later.engine) <= TotalPnl(t.engine)
  {
    PnlIsMinusCost(configs, risk, retained, commands, t);
    PnlIsMinusCost(configs, risk, retained, commands + more, later);
    RanCostsMore(configs, risk, retained, commands, more, t, later);
  }

  /**
   * The orders, the positions and the stream of fills agree after every command: a stored order has filled
   * what was reported for it; a position holds the net quantity reported in its symbol; and what it realized,
   * less what its open quantity cost, is the net cash reported.
   */
  lemma ReportsAgree(configs: seq<SymbolConfig>, risk: RiskLimits, retained: nat, commands: seq<Command>, t: Trace,
                     id: nat, s: Symbol)
    requires Ran(configs, risk, retained, commands, t)
    ensures id in t.engine.parents ==> t.engine.parents[id].filled == FilledFor(t.log, id)
    ensures HoldingOf(t.engine.positions, s).quantity == NetIn(t.log, s)
    ensures HoldingOf(t.engine.positions, s).realizedPnl - HoldingOf(t.engine.positions, s).costBasis
      == CashIn(t.log, s)
  {
    RunAgrees(configs, risk, retained, commands, t);
    assert PositionAgrees(t.engine.positions, t.log, s);
  }

  // ------------------------------------------------------------------- limits

  /**
   * In every symbol, the position with everything working on one side filled stays within the limit,
   * so no fill of a working order can take a position out of the machine's range.
   */
  lemma PositionsStayInLimit(configs: seq<SymbolConfig>, risk: RiskLimits, retained: nat, commands: seq<Command>,
                             t: Trace, s: Symbol)
    requires Ran(configs, risk, retained, commands, t)
    ensures var q := HoldingOf(t.engine.positions, s).quantity;
      && q + Open(t.engine.parents, s, Buy) <= risk.maxPositionQty
      && q - Open(t.engine.parents, s, Sell) >= 0 - risk.maxPositionQty
      && Abs(q) <= risk.maxPositionQty <= I64_MAX
  {
    RanPromises(configs, risk, retained, commands, t);
    StoredAreFillable(t.engine);
    OpenIsNatural(t.engine.parents, s, Buy);
    OpenIsNatural(t.engine.parents, s, Sell);
    assert High(t.engine, s) <= risk.maxPositionQty && Low(t.engine, s) >= -(risk.maxPositionQty as int);
  }

  /** The gross exposure the engine computes is exact and within its limit after every command. */
  lemma GrossStaysInLimit(configs: seq<SymbolConfig>, risk: RiskLimits, retained: nat, commands: seq<Command>, t: Trace)
    requires Ran(configs, risk, retained, commands, t)
    ensures TotalGross(t.engine) == Gross(t.engine) <= risk.maxGrossNotional
  {
    RanPromises(configs, risk, retained, commands, t);
    StoredAreFillable(t.engine);
    WorkingPhases(t.engine);
    QuotedAtRefs(t.engine.venue);
    GrossIsExact(t.engine, risk.maxPositionQty);
  }

  // ------------------------------------------------------------------- orders

  /**
   * The ledger of every stored order after every command: child fills add up to what is filled, which
   * is at most what is released, which is at most the order; Filled means filled in full, Expired means
   * released in full; and an order still working has released exactly what is due by the latest tick.
   */
  lemma LedgersAreRight(configs: seq<SymbolConfig>, risk: RiskLimits, retained: nat, commands: seq<Command>, t: Trace,
                        id: nat)
    requires Ran(configs, risk, retained, commands, t) && id in t.engine.parents
    ensures LedgerIsRight(t.engine.parents[id], id, t.latest)
  {
    RanPromises(configs, risk, retained, commands, t);
    StoredIsRight(t.engine, id, t.latest);
  }

  ghost predicate LedgerIsRight(p: Parent, id: nat, latest: map<nat, int>) {
    && p.id == id && ChildFills(p.children) == p.filled <= p.released <= p.quantity
    && (p.phase.Filled? <==> p.filled == p.quantity)
    && (p.phase.Expired? ==> p.released == p.quantity)
    && (p.phase.Working? ==> id in latest && p.released == DueQty(p.schedule, latest[id]))
  }

  lemma StoredIsRight(e: Engine, id: nat, latest: map<nat, int>)
    requires OrdersRest(e) && Punctual(e, latest) && id in e.parents
    ensures LedgerIsRight(e.parents[id], id, latest)
  {
    var p := e.parents[id];
    assert Stored(p, id, e.venue.markets.Keys);
    if p.phase.Expired? {
      GoodScheduleMeans(p.schedule, p.quantity, p.start, p.end);
      assert p.schedule[..|p.schedule|] == p.schedule;
    }
    if p.phase.Working? {
      assert id in e.working;
      ReleasedIsDue(p, latest[id]);
    }
  }

  /**
   * Stored orders are exactly the working ones and the finished ones, which are listed once each and
   * within the retention limit; and a halted engine works none.
   */
  lemma StoredOrdersAreFiled(configs: seq<SymbolConfig>, risk: RiskLimits, retained: nat, commands: seq<Command>,
                             t: Trace)
    requires Ran(configs, risk, retained, commands, t)
    ensures t.engine.working <= t.engine.parents.Keys
    ensures Lists(t.engine.finished, t.engine.parents.Keys - t.engine.working) && |t.engine.finished| <= retained
    ensures forall id :: id in t.engine.parents ==> (id in t.engine.working <==> t.engine.parents[id].phase.Working?)
    ensures t.engine.halted.Some? ==> t.engine.working == {}
  {
    RanPromises(configs, risk, retained, commands, t);
  }

  // ------------------------------------------------------------------- markets

  /**
   * After every command each book is exactly its full ladder, its mid is the reference price, and no child was
   * ever refused.
   */
  lemma BooksAreFullLadders(configs: seq<SymbolConfig>, risk: RiskLimits, retained: nat, commands: seq<Command>,
                            t: Trace, s: Symbol)
    requires Ran(configs, risk, retained, commands, t) && s in t.engine.venue.markets
    ensures FullLadder(t.engine.venue.markets[s])
    ensures Mid(t.engine.venue, s) == Some(t.engine.venue.markets[s].config.reference)
    ensures t.refused == []
  {
    RanPromises(configs, risk, retained, commands, t);
    MarkIsRef(t.engine.venue, s);
  }
}
