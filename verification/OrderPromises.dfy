/** What each command of a run does, and what is on record after it, as a client of the engine sees them. */
module OrderPromises {
  import opened Types
  import opened VenueSpec
  import opened LadderLaws
  import opened Risk
  import opened ParentOrders
  import opened EngineSpec
  import opened EngineRuns
  import opened MarkLaws
  import opened ConductLaws
  import opened TickConduct
  import opened RetireLaws
  import opened SafetyLaws
  import opened FilingLaws
  import opened RunLaws
  import opened AdmitLaws
  import opened HistoryLaws
  import opened OrderLaws
  import opened EnginePromises

  // ---------------------------------------------------------------- one more command

  /** A run, and the same run with one more command. */
  ghost predicate Went(configs: seq<SymbolConfig>, risk: RiskLimits, retained: nat, commands: seq<Command>, c: Command,
                       t: Trace, next: Trace) {
    Ran(configs, risk, retained, commands, t) && Ran(configs, risk, retained, commands + [c], next)
  }

  lemma WentOn(configs: seq<SymbolConfig>, risk: RiskLimits, retained: nat, commands: seq<Command>, c: Command,
               t: Trace, next: Trace)
    requires Went(configs, risk, retained, commands, c, t, next)
    ensures next == Step(t, c) && Core(t.engine)
    ensures c.TickCommand? ==> Worked(t.engine, c.now).engine.nextChildId < QUOTE_ID_BASE
  {
    LastRuns(NewEngine(configs, risk, retained).value, commands + [c], commands, c);
    RanPromises(configs, risk, retained, commands, t);
    StepCountsUp(t, c);
  }

  /**
   * A submit accepts exactly the orders that are admissible and schedulable, and works them under the next id;
   * it refuses the others for the first reason that holds, and without effect.
   */
  lemma SubmitAnswers(configs: seq<SymbolConfig>, risk: RiskLimits, retained: nat, commands: seq<Command>,
                      o: NewOrder, now: U64, t: Trace, next: Trace) returns (r: Result<nat, RejectReason>)
    requires Went(configs, risk, retained, commands, SubmitCommand(o, now), t, next)
    ensures next.replies == t.replies + [Submitted(r)] && next.log == t.log
    ensures r.Ok? <==> Admissible(t.engine, o, now) && Schedulable(o)
    ensures r.Ok? ==> TakenOn(t.engine, next.engine, o, r.value)
    ensures r.Err? ==> next.engine == t.engine && RightReason(t.engine, o, now, r.error)
  {
    WentOn(configs, risk, retained, commands, SubmitCommand(o, now), t, next);
    var after;
    after, r := SubmitsExactly(t.engine, o, now);
  }

  /**
   * A cancel of a working order stops it for good: it is filed as the newest ended order, and only forgotten where
   * nothing is retained. Any other id is refused, with what became of it if that is known, and without effect.
   */
  lemma CancelAnswers(configs: seq<SymbolConfig>, risk: RiskLimits, retained: nat, commands: seq<Command>, id: nat,
                      t: Trace, next: Trace)
    requires Went(configs, risk, retained, commands, CancelCommand(id), t, next)
    ensures next.log == t.log
    ensures id in t.engine.working ==>
      && id in t.engine.parents && next.replies == t.replies + [Reply.Cancelled(Ok(()))]
      && FiledLast(t.engine, next.engine, id, t.engine.parents[id := t.engine.parents[id].(phase := Phase.Cancelled)])
    ensures id in t.engine.parents && id !in t.engine.working ==>
      next == t.(replies := t.replies + [Reply.Cancelled(Err(NotWorking(id, t.engine.parents[id].phase)))])
    ensures id !in t.engine.parents ==> next == t.(replies := t.replies + [Reply.Cancelled(Err(Unknown(id)))])
  {
    WentOn(configs, risk, retained, commands, CancelCommand(id), t, next);
    if id in t.engine.working {
      CancelStops(t.engine, id);
    } else {
      CancelRefuses(t.engine, id);
    }
  }

  lemma HaltStep(t: Trace, next: Trace)
    requires next == Step(t, HaltCommand)
    ensures next.engine == Halt(t.engine, Requested) && next.log == t.log
  {
  }

  /** A halt cancels every working order and no other, files them by id, and changes nothing else. */
  lemma HaltAnswers(configs: seq<SymbolConfig>, risk: RiskLimits, retained: nat, commands: seq<Command>,
                    t: Trace, next: Trace)
    requires Went(configs, risk, retained, commands, HaltCommand, t, next)
    ensures next.log == t.log && next.engine.working == {}
    ensures Filed(t.engine.(halted := Some(Requested)), next.engine, Ascending(t.engine.working),
                  StoppedOf(t.engine.parents, t.engine.working))
  {
    WentOn(configs, risk, retained, commands, HaltCommand, t, next);
    HaltStep(t, next);
    HaltStopsAll(t.engine, Requested);
  }

  // ------------------------------------------------------------------------ ticks

  /** How an order stands after a tick: as after its turn, but cancelled if it still worked when the tick halted. */
  ghost predicate StandsAfter(q: Parent, now: nat, halted: bool) {
    Stands(q, now) || (halted && q.phase.Cancelled? && q.filled != q.quantity && now < q.end)
  }

  /**
   * A tick's effect on one order. A working order sends all it owes by now as one child, and takes the fills
   * reported for it, unless the accounting of an order before it failed; no other order changes.
   */
  ghost predicate OrderTicked(p: Parent, q: Parent, id: nat, due: bool, failed: bool, halted: bool, now: nat,
                              reports: seq<FillReport>) {
    if !due then q == p && reports == []
    else
      || (Acted(p, q, id, now, reports) && StandsAfter(q, now, halted))
      || (failed && q == p.(phase := Phase.Cancelled) && reports == [])
  }

  lemma TickedOrder(p: Parent, worked: Parent, q: Parent, id: nat, due: bool, failed: bool, halted: bool, now: nat,
                    reports: seq<FillReport>)
    requires OrderActed(p, worked, id, due, failed, now, reports) && (due ==> p.phase.Working?)
    requires q == worked || (halted && worked.phase.Working? && q == Stop(worked))
    requires (!due ==> !p.phase.Working?) && (failed ==> !q.phase.Working?)
    ensures OrderTicked(p, q, id, due, failed, halted, now, reports)
  {
  }

  /** Orders kept by a tick are as their turns left them, unless it halted and cancelled them. */
  ghost predicate KeptOrStopped(worked: map<nat, Parent>, after: map<nat, Parent>, halted: bool) {
    forall id :: id in after ==>
      && id in worked
      && (after[id] == worked[id] || (halted && worked[id].phase.Working? && after[id] == Stop(worked[id])))
  }

  lemma TickKeepsOrStops(e: Engine, now: U64)
    requires VenueRests(e) && OrdersRest(e) && Worked(e, now).engine.nextChildId < QUOTE_ID_BASE
    ensures KeptOrStopped(Worked(e, now).engine.parents, Tick(e, now).0.parents, Tick(e, now).0.halted.Some?)
    ensures Worked(e, now).failure.Some? ==> Tick(e, now).0.working == {} && OrdersRest(Tick(e, now).0)
  {
    var w, requoted, halt := TickStages(e, now);
    if halt.Some? {
      HaltKeepsOrders(requoted, halt.value);
      StoppedKept(w.engine.parents, requoted.parents, Halt(requoted, halt.value).parents);
    }
  }

  lemma StoppedKept(worked: map<nat, Parent>, kept: map<nat, Parent>, after: map<nat, Parent>)
    requires OrdersKept(worked, kept) && OrdersStopped(kept, after)
    ensures KeptOrStopped(worked, after, true)
  {
    forall id | id in after
      ensures id in worked && (after[id] == worked[id] || (worked[id].phase.Working? && after[id] == Stop(worked[id])))
    {
      assert OrderStopped(kept[id], after[id]);
    }
  }

  ghost predicate OrdersTicked(before: map<nat, Parent>, after: map<nat, Parent>, working: set<nat>, failed: bool,
                               halted: bool, now: nat, fills: seq<FillReport>) {
    forall id :: id in after ==>
      && id in before
      && OrderTicked(before[id], after[id], id, id in working, failed, halted, now, ReportsFor(fills, id))
  }

  lemma AllTicked(before: map<nat, Parent>, worked: map<nat, Parent>, after: map<nat, Parent>, working: set<nat>,
                  failed: bool, halted: bool, now: nat, fills: seq<FillReport>)
    requires OrdersActed(before, worked, working, failed, now, fills) && KeptOrStopped(worked, after, halted)
    requires forall id :: id in before ==> (id in working <==> before[id].phase.Working?)
    requires failed ==> forall id :: id in after ==> !after[id].phase.Working?
    ensures OrdersTicked(before, after, working, failed, halted, now, fills)
  {
    forall id | id in after
      ensures OrderTicked(before[id], after[id], id, id in working, failed, halted, now, ReportsFor(fills, id))
    {
      assert OrderActed(before[id], worked[id], id, id in working, failed, now, ReportsFor(fills, id));
      TickedOrder(before[id], worked[id], after[id], id, id in working, failed, halted, now, ReportsFor(fills, id));
    }
  }

  lemma EngineTicks(e: Engine, now: U64, after: Engine)
    requires VenueRests(e) && OrdersRest(e) && Worked(e, now).engine.nextChildId < QUOTE_ID_BASE
    requires after == Settle(Worked(e, now))
    ensures var w := Worked(e, now);
      && OrdersTicked(e.parents, after.parents, e.working, w.failure.Some?, after.halted.Some?, now, w.fills)
      && InOrderOfIds(w.fills)
  {
    var w := Worked(e, now);
    TickActs(e, now, w);
    TickKeepsOrStops(e, now);
    AllTicked(e.parents, w.engine.parents, after.parents, e.working, w.failure.Some?, after.halted.Some?, now, w.fills);
  }

  lemma TickStep(t: Trace, now: U64, next: Trace, fills: seq<FillReport>)
    requires next == Step(t, TickCommand(now)) && fills == Worked(t.engine, now).fills
    ensures next.engine == Settle(Worked(t.engine, now))
    ensures next.replies == t.replies + [Ticked(fills)] && next.log == t.log + fills
  {
  }

  lemma WentTicking(configs: seq<SymbolConfig>, risk: RiskLimits, retained: nat, commands: seq<Command>, now: U64,
                    t: Trace, next: Trace) returns (fills: seq<FillReport>)
    requires Went(configs, risk, retained, commands, TickCommand(now), t, next)
    ensures VenueRests(t.engine) && OrdersRest(t.engine) && next.engine == Settle(Worked(t.engine, now))
    ensures Worked(t.engine, now).engine.nextChildId < QUOTE_ID_BASE && fills == Worked(t.engine, now).fills
    ensures next.replies == t.replies + [Ticked(fills)] && next.log == t.log + fills
  {
    WentOn(configs, risk, retained, commands, TickCommand(now), t, next);
    fills := Worked(t.engine, now).fills;
    TickStep(t, now, next, fills);
  }

  /** A tick: each working order sends what it owes and takes its fills, in order of id; the rest is as it was. */
  lemma TickAnswers(configs: seq<SymbolConfig>, risk: RiskLimits, retained: nat, commands: seq<Command>, now: U64,
                    t: Trace, next: Trace) returns (fills: seq<FillReport>)
    requires Went(configs, risk, retained, commands, TickCommand(now), t, next)
    ensures next.replies == t.replies + [Ticked(fills)] && next.log == t.log + fills && InOrderOfIds(fills)
    ensures OrdersTicked(t.engine.parents, next.engine.parents, t.engine.working,
                         Worked(t.engine, now).failure.Some?, next.engine.halted.Some?, now, fills)
  {
    fills := WentTicking(configs, risk, retained, commands, now, t, next);
    EngineTicks(t.engine, now, next.engine);
  }

  /** What ends in a tick is filed behind what had ended before; the oldest beyond the retained are forgotten. */
  lemma TickEnds(configs: seq<SymbolConfig>, risk: RiskLimits, retained: nat, commands: seq<Command>, now: U64,
                 t: Trace, next: Trace) returns (ended: seq<nat>)
    requires Went(configs, risk, retained, commands, TickCommand(now), t, next)
    ensures EndedInOrder(t.engine, next.engine, ended) && Members(ended) <= t.engine.working
  {
    var fills := WentTicking(configs, risk, retained, commands, now, t, next);
    ended := TickFiles(t.engine, now, next.engine);
  }

  // ------------------------------------------------------------------- after any run

  lemma {:induction false} RanOnRecord(configs: seq<SymbolConfig>, risk: RiskLimits, retained: nat,
                                       commands: seq<Command>, t: Trace)
    requires Ran(configs, risk, retained, commands, t)
    ensures |t.replies| == |commands| && OnRecord(t.engine, Orders(commands, t.replies), t.log)
  {
    if commands == [] {
      StartsOnRecord(t.engine);
    } else {
      var init, last, before := RanBefore(configs, risk, retained, commands, t);
      RanOnRecord(configs, risk, retained, init, before);
      RanPromises(configs, risk, retained, init, before);
      var next, reply := StepKeepsRecord(before, last, Orders(init, before.replies));
      OneMoreReply(commands, t.replies, init, before.replies, last, reply);
    }
  }

  lemma OneMoreReply(commands: seq<Command>, replies: seq<Reply>, init: seq<Command>, earlier: seq<Reply>,
                     last: Command, reply: Reply)
    requires |init| == |earlier| && commands == init + [last] && replies == earlier + [reply]
    ensures |commands| == |replies| && Orders(commands, replies) == OrdersAfter(Orders(init, earlier), last, reply)
  {
    assert commands[..|init|] == init && replies[..|init|] == earlier;
  }

  /**
   * Every stored order is the one that was asked for under its id, scheduled by the algorithm it asked for, and the
   * fills reported for it are on its record: in quantity, in money and child by child.
   */
  lemma OrdersAreKept(configs: seq<SymbolConfig>, risk: RiskLimits, retained: nat, commands: seq<Command>, t: Trace,
                      id: nat)
    requires Ran(configs, risk, retained, commands, t) && id in t.engine.parents
    ensures |t.replies| == |commands|
    ensures OrderKept(t.engine.parents[id], id, Orders(commands, t.replies), Refs(t.engine.venue),
                      ReportsFor(t.log, id), t.engine.nextChildId)
  {
    RanOnRecord(configs, risk, retained, commands, t);
  }

  /**
   * Every reported fill is of an order that was accepted: in its symbol, on its side, within its limit price, and not
   * before its start. No order is ever filled beyond its quantity, and a child's reports are all of one order.
   */
  lemma FillsAreAsked(configs: seq<SymbolConfig>, risk: RiskLimits, retained: nat, commands: seq<Command>, t: Trace)
    requires Ran(configs, risk, retained, commands, t)
    ensures |t.replies| == |commands|
    ensures LogKept(t.log, Orders(commands, t.replies)) && NoneOverfilled(t.log, Orders(commands, t.replies))
    ensures InChildOrder(t.log, t.engine.nextChildId)
  {
    RanOnRecord(configs, risk, retained, commands, t);
  }

  /** Once an order no longer works, whyever it ended, no fill of it is ever reported again. */
  lemma EndedOrdersNeverTrade(configs: seq<SymbolConfig>, risk: RiskLimits, retained: nat, commands: seq<Command>,
                              more: seq<Command>, t: Trace, later: Trace, id: nat)
    requires Ran(configs, risk, retained, commands, t) && Ran(configs, risk, retained, commands + more, later)
    requires id < t.engine.nextParentId && id !in t.engine.working
    ensures ReportsFor(later.log, id) == ReportsFor(t.log, id)
  {
    var start := NewEngine(configs, risk, retained).value;
    RunIsSafe(configs, risk, retained, commands);
    RunSplits(start, commands, more, t, commands + more);
    StaysUntraded(start, t, more, later);
  }

  /** After every command each configured market shows its ladder: its quantity at each of its levels, and no more. */
  lemma MarketsShowLadders(configs: seq<SymbolConfig>, risk: RiskLimits, retained: nat, commands: seq<Command>,
                           t: Trace, c: SymbolConfig)
    requires Ran(configs, risk, retained, commands, t) && c in configs
    ensures c.symbol in t.engine.venue.markets && t.engine.venue.markets[c.symbol].config == c
    ensures ShowsLadder(t.engine.venue.markets[c.symbol])
  {
    var start := NewEngine(configs, risk, retained).value;
    RunIsSafe(configs, risk, retained, commands);
    OpensAsConfigured(configs);
    SameListingConfigured(start.venue, t.engine.venue, configs);
    QuotedMarketShows(t.engine.venue.markets[c.symbol]);
  }
}
