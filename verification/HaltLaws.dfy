/** The kill switch, exactly: what halts the engine, why, and that nothing else does. */
module HaltLaws {
  import opened Types
  import BookSpec
  import opened VenueSpec
  import opened ParentOrders
  import opened EngineSpec
  import opened EngineRuns
  import opened MarkLaws
  import opened TickLaws
  import opened SafetyLaws
  import opened CommandLaws
  import opened Risk
  import opened RunLaws
  import opened HistoryLaws
  import opened EnginePromises
  import opened OverflowLaws

  // -------------------------------------------------------------- what a tick halts for

  /** The accounting fails for one reason only: some position left its range. */
  predicate IsOverflow(failure: Option<HaltReason>) {
    failure.Some? ==> failure.value.AccountingOverflow?
  }

  lemma {:induction false} FillsFailByOverflow(d: Desk, id: nat, childId: nat, now: U64, fills: seq<BookSpec.Fill>)
    requires IsOverflow(d.failure)
    ensures IsOverflow(TakeFills(d, id, childId, now, fills).failure)
  {
    if fills != [] {
      FillsFailByOverflow(d, id, childId, now, fills[..|fills| - 1]);
    }
  }

  lemma TurnFailsByOverflow(r: Round, id: nat, now: U64)
    requires r.failure.None?
    ensures IsOverflow(WorkOne(r, id, now).failure)
  {
    if id in r.engine.parents {
      var (p, qty) := ReleaseDue(r.engine.parents[id], now);
      if qty > 0 {
        var child := ChildOrder(r.engine.nextChildId, p.side, p.limit, qty, now);
        var answer := Execute(r.engine.venue, p.symbol, child);
        if answer.1.Ok? {
          FillsFailByOverflow(Desk(RecordChild(p, r.engine.nextChildId, now, qty), r.engine.positions, r.fills, None),
                              id, r.engine.nextChildId, now, answer.1.value.fills);
        }
      }
    }
  }

  lemma {:induction false} LoopFailsByOverflow(r: Round, todo: set<nat>, now: U64)
    requires IsOverflow(r.failure)
    ensures IsOverflow(WorkFrom(r, todo, now).failure)
    decreases todo
  {
    if todo != {} && r.failure.None? {
      var s, next := WorkFromStep(r, todo, now);
      TurnFailsByOverflow(r, s, now);
      LoopFailsByOverflow(next, todo - {s}, now);
    }
  }

  /** What a tick halts for: an accounting that failed, or a P&L at or below minus the loss limit; and nothing else. */
  predicate HaltedBy(failure: Option<HaltReason>, pnl: int, maxLoss: int, halted: Option<HaltReason>) {
    halted == if failure.Some? then failure else if pnl <= 0 - maxLoss then Some(LossLimit(pnl)) else None
  }

  lemma SettleHalts(w: Round, requoted: Engine)
    requires var retired := RetireAll(w.engine, w.finished);
      requoted == retired.(venue := RefreshQuotes(retired.venue))
    requires OrdersRest(requoted) && requoted.halted.None?
    ensures HaltedBy(w.failure, TotalPnl(Settle(w)), requoted.risk.maxLoss, Settle(w).halted)
  {
    if w.failure.Some? || TotalPnl(requoted) <= 0 - requoted.risk.maxLoss {
      var reason := if w.failure.Some? then w.failure.value else LossLimit(TotalPnl(requoted));
      HaltKeepsOrders(requoted, reason);
      SameMoney(requoted, Halt(requoted, reason));
    }
  }

  /** The kill switch at the end of a tick, by the P&L the tick leaves. */
  lemma TickHaltsExactly(e: Engine, now: U64)
    requires VenueRests(e) && OrdersRest(e) && Worked(e, now).engine.nextChildId < QUOTE_ID_BASE && e.halted.None?
    ensures HaltedBy(Worked(e, now).failure, TotalPnl(Tick(e, now).0), e.risk.maxLoss, Tick(e, now).0.halted)
    ensures IsOverflow(Worked(e, now).failure)
  {
    var w, retired := RetiredRests(e, now);
    var requoted := retired.(venue := RefreshQuotes(retired.venue));
    RequoteKeepsOrders(retired, requoted);
    LoopFailsByOverflow(Opening(e), e.working, now);
    SettleHalts(w, requoted);
  }

  // -------------------------------------------------------------------- over a run

  /** Some tick of the run stopped because a position left its range. */
  ghost predicate SomeTickFailed(start: Engine, commands: seq<Command>) {
    && commands != []
    && var init, last := commands[..|commands| - 1], commands[|commands| - 1];
       SomeTickFailed(start, init) || (last.TickCommand? && Worked(Run(start, init).engine, last.now).failure.Some?)
  }

  /** A halt was asked for, or the accounting failed, or the reported fills had cost the whole loss limit. */
  ghost predicate Justified(halted: Option<HaltReason>, asked: bool, failed: bool, cost: int, maxLoss: int) {
    match halted
    case None => cost < maxLoss
    case Some(Requested) => asked
    case Some(AccountingOverflow(_)) => failed
    case Some(LossLimit(total)) => maxLoss <= cost && total == Max(0 - cost, I128_MIN)
  }

  /** Without a tick the log is what it was, and so is the halt, unless this is one. */
  lemma QuietStepHalts(t: Trace, c: Command)
    requires Core(t.engine) && !c.TickCommand? && Step(t, c).engine.nextChildId < QUOTE_ID_BASE
    ensures Step(t, c).log == t.log
    ensures Step(t, c).engine.halted == if c.HaltCommand? then Some(Requested) else t.engine.halted
  {
    match c
    case SubmitCommand(order, now) => SubmitKeeps(t.engine, order, now);
    case CancelCommand(id) => CancelKeeps(t.engine, id);
    case HaltCommand => HaltKeeps(t.engine, Requested);
  }

  /** A halted engine's tick is no reason to halt it for anything else. */
  lemma IdleTickHalts(t: Trace, now: U64)
    requires Core(t.engine) && Step(t, TickCommand(now)).engine.nextChildId < QUOTE_ID_BASE
    requires t.engine.halted.Some? && t.engine.working == {}
    ensures Step(t, TickCommand(now)).log == t.log && Step(t, TickCommand(now)).engine.halted == t.engine.halted
  {
    IdleTick(t, now);
    assert Worked(t.engine, now) == Opening(t.engine);
  }

  /** A tick halts a running engine by what its fills have cost. */
  lemma BusyTickHalts(t: Trace, now: U64)
    requires Core(t.engine) && Step(t, TickCommand(now)).engine.nextChildId < QUOTE_ID_BASE && t.engine.halted.None?
    ensures var next := Step(t, TickCommand(now)).engine;
      HaltedBy(Worked(t.engine, now).failure, TotalPnl(next), t.engine.risk.maxLoss, next.halted)
    ensures IsOverflow(Worked(t.engine, now).failure)
  {
    StepCountsUp(t, TickCommand(now));
    TickHaltsExactly(t.engine, now);
  }

  lemma HaltedByCost(failure: Option<HaltReason>, pnl: int, maxLoss: int, halted: Option<HaltReason>, cost: int)
    requires HaltedBy(failure, pnl, maxLoss, halted) && IsOverflow(failure)
    requires pnl == Max(0 - cost, I128_MIN) && maxLoss <= I128_MAX
    ensures Justified(halted, false, failure.Some?, cost, maxLoss)
  {
  }

  /** One more command gives the engine its reason to halt, or leaves it the one it had. */
  ghost predicate StepHalts(before: Trace, t: Trace, last: Command, failed: bool, maxLoss: int) {
    if last.HaltCommand? then t.engine.halted == Some(Requested)
    else if last.TickCommand? && before.engine.halted.None? then
      Justified(t.engine.halted, false, failed, Cost(t.log, Refs(t.engine.venue)), maxLoss)
    else t.engine.halted == before.engine.halted && t.log == before.log
  }

  lemma StepHaltsSo(before: Trace, t: Trace, last: Command, maxLoss: I128)
    requires Core(before.engine) && IdleIfHalted(before.engine) && before.engine.risk.maxLoss == maxLoss
    requires t == Step(before, last) && t.engine.nextChildId < QUOTE_ID_BASE
    requires TotalPnl(t.engine) == Max(0 - Cost(t.log, Refs(t.engine.venue)), I128_MIN)
    ensures StepHalts(before, t, last, last.TickCommand? && Worked(before.engine, last.now).failure.Some?, maxLoss)
  {
    if !last.TickCommand? {
      QuietStepHalts(before, last);
    } else if before.engine.halted.Some? {
      IdleTickHalts(before, last.now);
    } else {
      BusyTickHalts(before, last.now);
      HaltedByCost(Worked(before.engine, last.now).failure, TotalPnl(t.engine), maxLoss, t.engine.halted,
                   Cost(t.log, Refs(t.engine.venue)));
    }
  }

  lemma StillJustified(before: Trace, t: Trace, last: Command, failed: bool, asked: bool, failedBefore: bool,
                       maxLoss: int, refs: map<Symbol, I64>)
    requires refs == Refs(before.engine.venue) && refs == Refs(t.engine.venue)
    requires Justified(before.engine.halted, asked, failedBefore, Cost(before.log, refs), maxLoss)
    requires StepHalts(before, t, last, failed, maxLoss)
    ensures Justified(t.engine.halted, asked || last == HaltCommand, failedBefore || failed, Cost(t.log, refs), maxLoss)
  {
  }

  lemma NewIsJustified(configs: seq<SymbolConfig>, risk: RiskLimits, retained: nat, t: Trace)
    requires Ran(configs, risk, retained, [], t)
    ensures Justified(t.engine.halted, false, false, Cost(t.log, Refs(t.engine.venue)), risk.maxLoss)
  {
    var e := StartsQuoted(configs, risk, retained);
  }

  lemma JustifiedOn(configs: seq<SymbolConfig>, risk: RiskLimits, retained: nat, init: seq<Command>, before: Trace,
                    commands: seq<Command>, t: Trace, last: Command, asked: bool, failed: bool)
    requires Ran(configs, risk, retained, init, before) && Ran(configs, risk, retained, commands, t)
    requires t == Step(before, last)
    requires Justified(before.engine.halted, asked, failed, Cost(before.log, Refs(before.engine.venue)), risk.maxLoss)
    ensures Justified(t.engine.halted, asked || last == HaltCommand,
                      failed || (last.TickCommand? && Worked(before.engine, last.now).failure.Some?),
                      Cost(t.log, Refs(t.engine.venue)), risk.maxLoss)
  {
    RanPromises(configs, risk, retained, init, before);
    PnlIsMinusCost(configs, risk, retained, commands, t);
    StepHaltsSo(before, t, last, risk.maxLoss);
    StepKeepsCore(before, last);
    SameListingSameRefs(before.engine.venue, t.engine.venue);
    StillJustified(before, t, last, last.TickCommand? && Worked(before.engine, last.now).failure.Some?, asked, failed,
                   risk.maxLoss, Refs(t.engine.venue));
  }

  /**
   * Whether and why the engine is halted after any run: exactly when a halt was asked for, a tick's accounting
   * failed, or the reported fills have cost the loss limit or more.
   */
  lemma {:induction false} HaltedForAReason(configs: seq<SymbolConfig>, risk: RiskLimits, retained: nat,
                                            commands: seq<Command>, t: Trace)
    requires Ran(configs, risk, retained, commands, t)
    ensures Justified(t.engine.halted, HaltCommand in commands,
                      SomeTickFailed(NewEngine(configs, risk, retained).value, commands),
                      Cost(t.log, Refs(t.engine.venue)), risk.maxLoss)
  {
    var start := NewEngine(configs, risk, retained).value;
    if commands == [] {
      NewIsJustified(configs, risk, retained, t);
    } else {
      var init, last, before := RanBefore(configs, risk, retained, commands, t);
      HaltedForAReason(configs, risk, retained, init, before);
      JustifiedOn(configs, risk, retained, init, before, commands, t, last, HaltCommand in init,
                  SomeTickFailed(start, init));
    }
  }

  /** Limits that leave the accounting room leave no tick to fail. */
  lemma {:induction false} NoTickFails(configs: seq<SymbolConfig>, risk: RiskLimits, retained: nat,
                                       commands: seq<Command>, t: Trace)
    requires Ran(configs, risk, retained, commands, t) && HasRoom(risk)
    ensures !SomeTickFailed(NewEngine(configs, risk, retained).value, commands)
  {
    if commands != [] {
      var init, last, before := RanBefore(configs, risk, retained, commands, t);
      NoTickFails(configs, risk, retained, init, before);
      if last.TickCommand? {
        StepCountsUp(before, last);
        AccountingNeverFails(configs, risk, retained, init, before, last.now);
      }
    }
  }

  /** With limits that leave the accounting room: a run nobody halts is halted exactly at its loss limit. */
  lemma HaltsExactlyAtTheLossLimit(configs: seq<SymbolConfig>, risk: RiskLimits, retained: nat, commands: seq<Command>,
                                   t: Trace)
    requires Ran(configs, risk, retained, commands, t) && HasRoom(risk) && HaltCommand !in commands
    ensures t.engine.halted.Some? <==> Cost(t.log, Refs(t.engine.venue)) >= risk.maxLoss
    ensures t.engine.halted.Some? ==> t.engine.halted == Some(LossLimit(0 - Cost(t.log, Refs(t.engine.venue))))
  {
    HaltedForAReason(configs, risk, retained, commands, t);
    NoTickFails(configs, risk, retained, commands, t);
    PnlIsExactlyMinusCost(configs, risk, retained, commands, t);
    PnlIsMinusCost(configs, risk, retained, commands, t);
  }
}
