/** The orders, the positions and the reported fills agree, in every quantity and in every bit of cash. */
module TallyLaws {
  import opened Types
  import opened BookSpec
  import opened VenueSpec
  import opened VenueLaws
  import opened ParentOrders
  import opened Accounting
  import opened AccountingLaws
  import opened EngineSpec
  import opened EngineRuns
  import opened DeskLaws
  import opened TurnLaws
  import opened Risk
  import opened TickLaws
  import opened RetireLaws
  import opened SafetyLaws
  import opened CommandLaws
  import opened RunLaws

  // ------------------------------------------------------------- what a log says

  /** Quantity reported for an order. */
  function FilledFor(log: seq<FillReport>, id: nat): nat {
    if log == [] then 0
    else
      var last := log[|log| - 1];
      FilledFor(log[..|log| - 1], id) + (if last.parentId == id then last.quantity else 0)
  }

  /** Quantity bought less quantity sold in a symbol. */
  function NetIn(log: seq<FillReport>, s: Symbol): int {
    if log == [] then 0
    else
      var last := log[|log| - 1];
      NetIn(log[..|log| - 1], s) + (if last.symbol == s then Signed(last.side, last.quantity) else 0)
  }

  /** Cash from sales less cash for purchases in a symbol. */
  function CashIn(log: seq<FillReport>, s: Symbol): int {
    if log == [] then 0
    else
      var last := log[|log| - 1];
      CashIn(log[..|log| - 1], s)
      + (if last.symbol == s then Cash(Accounting.Trade(last.side, last.price, last.quantity)) else 0)
  }

  /** Net cash of a position: what it realized less what its open quantity cost. */
  function CashOf(p: Holding): int {
    p.realizedPnl - p.costBasis
  }

  lemma {:induction false} LogsAdd(a: seq<FillReport>, b: seq<FillReport>, id: nat, s: Symbol)
    ensures FilledFor(a + b, id) == FilledFor(a, id) + FilledFor(b, id)
    ensures NetIn(a + b, s) == NetIn(a, s) + NetIn(b, s) && CashIn(a + b, s) == CashIn(a, s) + CashIn(b, s)
  {
    if b == [] {
      assert a + b == a;
    } else {
      assert (a + b)[..|a + b| - 1] == a + b[..|b| - 1];
      LogsAdd(a, b[..|b| - 1], id, s);
    }
  }

  lemma {:induction false} NoneForNewId(log: seq<FillReport>, id: nat)
    requires forall f :: f in log ==> f.parentId < id
    ensures FilledFor(log, id) == 0
  {
    if log != [] {
      assert log[|log| - 1] in log;
      NoneForNewId(log[..|log| - 1], id);
    }
  }

  /** Reports of one order in one symbol say nothing about any other. */
  lemma {:induction false} OthersUnreported(before: seq<FillReport>, after: seq<FillReport>, id: nat, s: Symbol,
                                            other: nat, t: Symbol)
    requires before <= after && forall i :: |before| <= i < |after| ==> after[i].parentId == id && after[i].symbol == s
    ensures other != id ==> FilledFor(after, other) == FilledFor(before, other)
    ensures t != s ==> NetIn(after, t) == NetIn(before, t) && CashIn(after, t) == CashIn(before, t)
  {
    if before != after {
      OthersUnreported(before, after[..|after| - 1], id, s, other, t);
    }
  }

  // -------------------------------------------------------------------- one turn

  /** A holding has moved from `p` to `q` by what was reported in its symbol in between. */
  ghost predicate HoldingTallied(p: Holding, q: Holding, before: seq<FillReport>, after: seq<FillReport>, s: Symbol) {
    && q.quantity - p.quantity == NetIn(after, s) - NetIn(before, s)
    && CashOf(q) - CashOf(p) == CashIn(after, s) - CashIn(before, s)
  }

  ghost predicate PositionTallied(a: Round, b: Round, s: Symbol) {
    HoldingTallied(HoldingOf(a.engine.positions, s), HoldingOf(b.engine.positions, s), a.fills, b.fills, s)
  }

  /** `r` is `d` after fills of order `id`: the order, its position and the reports have moved alike. */
  ghost predicate Booked(d: Desk, r: Desk, id: nat) {
    var s := d.parent.symbol;
    && r.parent.symbol == s && r.parent.side == d.parent.side
    && r.parent.filled - d.parent.filled == FilledFor(r.fills, id) - FilledFor(d.fills, id)
    && HoldingTallied(HoldingOf(d.positions, s), HoldingOf(r.positions, s), d.fills, r.fills, s)
  }

  lemma OneFillBooks(d: Desk, id: nat, childId: nat, now: U64, fill: Fill)
    ensures Booked(d, TakeFill(d, id, childId, now, fill), id)
  {
    var p, t := HoldingOf(d.positions, d.parent.symbol), Accounting.Trade(d.parent.side, fill.price, fill.qty);
    var r := TakeFill(d, id, childId, now, fill);
    if Apply(p, t).Some? {
      FillIsExactCash(p, t);
      assert r.fills[..|d.fills|] == d.fills;
    }
  }

  /** The accounting takes a fill everywhere or nowhere, even where it fails. */
  lemma {:induction false} FillsBook(d: Desk, id: nat, childId: nat, now: U64, fills: seq<Fill>)
    ensures Booked(d, TakeFills(d, id, childId, now, fills), id)
  {
    if fills != [] {
      var init, last := fills[..|fills| - 1], fills[|fills| - 1];
      FillsBook(d, id, childId, now, init);
      var earlier := TakeFills(d, id, childId, now, init);
      if earlier.failure.None? {
        OneFillBooks(earlier, id, childId, now, last);
      }
    }
  }

  /** The same of a round and an order's turn in it. */
  ghost predicate TurnBooked(r: Round, after: Round, id: nat) {
    && id in r.engine.parents && id in after.engine.parents
    && var s := r.engine.parents[id].symbol;
       && after.engine.parents[id].filled - r.engine.parents[id].filled
         == FilledFor(after.fills, id) - FilledFor(r.fills, id)
       && PositionTallied(r, after, s)
  }

  lemma TurnBooks(r: Round, id: nat, now: U64)
    requires MayWork(r.engine, id) && VenueOk(r.engine.venue) && r.engine.nextChildId < QUOTE_ID_BASE && r.failure.None?
    ensures TurnBooked(r, WorkOne(r, id, now), id)
  {
    var start, childId, open, fills, venue, nextChildId := TurnIsFills(r, id, now);
    FillsBook(start, id, childId, now, fills);
  }

  // -------------------------------------------------------------------- the loop

  ghost predicate OrdersTallied(a: Round, b: Round) {
    && a.engine.parents.Keys == b.engine.parents.Keys
    && forall id :: id in a.engine.parents ==>
         b.engine.parents[id].filled - a.engine.parents[id].filled == FilledFor(b.fills, id) - FilledFor(a.fills, id)
  }

  /** Orders, positions and reports have moved alike from `a` to `b`, and only stored orders are reported. */
  ghost predicate Tallied(a: Round, b: Round) {
    && OrdersTallied(a, b) && (forall s :: PositionTallied(a, b, s))
    && forall f :: f in b.fills ==> f in a.fills || f.parentId in a.engine.parents
  }

  lemma UnmovedTallied(p: Holding, q: Holding, before: seq<FillReport>, after: seq<FillReport>, s: Symbol)
    requires p == q && NetIn(after, s) == NetIn(before, s) && CashIn(after, s) == CashIn(before, s)
    ensures HoldingTallied(p, q, before, after, s)
  {
  }

  lemma TurnTallies(r: Round, next: Round, id: nat, s: Symbol, side: Side, mark: int)
    requires TurnShape(r, next, id) && PositionTurned(r.engine, next.engine, id) && TurnBooked(r, next, id)
    requires s == r.engine.parents[id].symbol && ReportsOf(r.fills, next.fills, id, s, side, mark)
    ensures Tallied(r, next)
  {
    forall other | other in r.engine.parents ensures next.engine.parents[other].filled - r.engine.parents[other].filled
      == FilledFor(next.fills, other) - FilledFor(r.fills, other)
    {
      OthersUnreported(r.fills, next.fills, id, s, other, s);
    }
    forall t ensures PositionTallied(r, next, t) {
      if t != s {
        OthersUnreported(r.fills, next.fills, id, s, id, t);
        UnmovedTallied(HoldingOf(r.engine.positions, t), HoldingOf(next.engine.positions, t), r.fills, next.fills, t);
      }
    }
    forall f | f in next.fills ensures f in r.fills || f.parentId in r.engine.parents {
      var i :| 0 <= i < |next.fills| && next.fills[i] == f;
      if i < |r.fills| {
        assert r.fills[i] == f;
      }
    }
  }

  lemma TalliedChains(a: Round, b: Round, c: Round)
    requires Tallied(a, b) && Tallied(b, c)
    ensures Tallied(a, c)
  {
    forall s ensures PositionTallied(a, c, s) {
      assert PositionTallied(a, b, s) && PositionTallied(b, c, s);
    }
  }

  lemma TallyStep(r: Round, todo: set<nat>, now: U64) returns (s: nat, next: Round)
    requires Ready(r, todo) && todo != {} && r.failure.None?
      && WorkFrom(r, todo, now).engine.nextChildId < QUOTE_ID_BASE
    ensures s in todo && Tallied(r, next) && Ready(next, todo - {s})
      && WorkFrom(r, todo, now) == WorkFrom(next, todo - {s}, now)
  {
    ChildIdsGrowOn(r, todo, now);
    s, next := WorkFromStep(r, todo, now);
    assert MayWork(r.engine, s);
    var p := r.engine.parents[s];
    var mark := r.engine.venue.markets[p.symbol].config.reference;
    TurnKeepsLedger(r, s, now);
    TurnMovesPosition(r, s, now);
    TurnReports(r, s, now, p, mark);
    TurnBooks(r, s, now);
    StillReady(r, next, todo, s);
    TurnTallies(r, next, s, p.symbol, p.side, mark);
  }

  /** Over the whole loop the orders, the positions and the reports move alike, whether or not it failed. */
  lemma {:induction false} LoopTallies(r: Round, todo: set<nat>, now: U64)
    requires Ready(r, todo) && WorkFrom(r, todo, now).engine.nextChildId < QUOTE_ID_BASE
    ensures Tallied(r, WorkFrom(r, todo, now))
    decreases todo
  {
    if todo != {} && r.failure.None? {
      var s, next := TallyStep(r, todo, now);
      LoopTallies(next, todo - {s}, now);
      TalliedChains(r, next, WorkFrom(next, todo - {s}, now));
    }
  }

  // ----------------------------------------------------------------- between ticks

  /**
   * Every stored order has filled exactly what was reported for it, and nothing was reported for an id not
   * given out.
   */
  ghost predicate OrdersAgree(e: Engine, log: seq<FillReport>) {
    && (forall id :: id in e.parents ==> e.parents[id].filled == FilledFor(log, id))
    && (forall f :: f in log ==> f.parentId < e.nextParentId)
  }

  /** Every position holds the net quantity reported in its symbol and, less its cost, the net cash. */
  ghost predicate PositionAgrees(positions: map<Symbol, Holding>, log: seq<FillReport>, s: Symbol) {
    HoldingAgrees(HoldingOf(positions, s), log, s)
  }

  ghost predicate HoldingAgrees(p: Holding, log: seq<FillReport>, s: Symbol) {
    p.quantity == NetIn(log, s) && CashOf(p) == CashIn(log, s)
  }

  ghost predicate Agrees(e: Engine, log: seq<FillReport>) {
    OrdersAgree(e, log) && forall s :: PositionAgrees(e.positions, log, s)
  }

  /** Orders that are kept have filled what they had. */
  ghost predicate SameFilled(before: map<nat, Parent>, after: map<nat, Parent>) {
    forall id :: id in after ==> id in before && after[id].filled == before[id].filled
  }

  lemma StoppedSameFilled(before: map<nat, Parent>, after: map<nat, Parent>)
    requires OrdersStopped(before, after)
    ensures SameFilled(before, after)
  {
    forall id | id in after ensures id in before && after[id].filled == before[id].filled {
      assert OrderStopped(before[id], after[id]);
    }
  }

  lemma TickSameFilled(e: Engine, now: U64)
    requires VenueRests(e) && OrdersRest(e) && Worked(e, now).engine.nextChildId < QUOTE_ID_BASE
    ensures SameFilled(Worked(e, now).engine.parents, Tick(e, now).0.parents)
  {
    var w, requoted, halt := TickStages(e, now);
    if halt.Some? {
      HaltKeepsOrders(requoted, halt.value);
      StoppedSameFilled(requoted.parents, Halt(requoted, halt.value).parents);
    }
  }

  lemma OrdersStillAgree(before: map<nat, Parent>, worked: map<nat, Parent>, after: map<nat, Parent>,
                         log: seq<FillReport>, fills: seq<FillReport>)
    requires before.Keys == worked.Keys && SameFilled(worked, after)
    requires forall id :: id in before ==> before[id].filled == FilledFor(log, id)
    requires forall id :: id in before ==> worked[id].filled - before[id].filled == FilledFor(fills, id)
    ensures forall id :: id in after ==> after[id].filled == FilledFor(log + fills, id)
  {
    forall id | id in after ensures after[id].filled == FilledFor(log + fills, id) {
      LogsAdd(log, fills, id, 0);
    }
  }

  lemma HoldingStillAgrees(p: Holding, q: Holding, log: seq<FillReport>, fills: seq<FillReport>, s: Symbol)
    requires HoldingAgrees(p, log, s) && HoldingTallied(p, q, [], fills, s)
    ensures HoldingAgrees(q, log + fills, s)
  {
    LogsAdd(log, fills, 0, s);
  }

  lemma TalliedAgrees(e: Engine, w: Round, after: Engine, log: seq<FillReport>)
    requires Agrees(e, log) && AllStored(e) && Tallied(Opening(e), w)
    requires SameFilled(w.engine.parents, after.parents) && after.positions == w.engine.positions
    requires after.nextParentId == e.nextParentId
    ensures Agrees(after, log + w.fills)
  {
    OrdersStillAgree(e.parents, w.engine.parents, after.parents, log, w.fills);
    forall s ensures PositionAgrees(after.positions, log + w.fills, s) {
      assert PositionTallied(Opening(e), w, s) && PositionAgrees(e.positions, log, s);
      HoldingStillAgrees(HoldingOf(e.positions, s), HoldingOf(after.positions, s), log, w.fills, s);
    }
    forall f | f in log + w.fills ensures f.parentId < after.nextParentId {
      assert f in w.fills ==> f.parentId in e.parents;
    }
  }

  lemma TickAgrees(e: Engine, now: U64, log: seq<FillReport>)
    requires VenueRests(e) && OrdersRest(e) && Worked(e, now).engine.nextChildId < QUOTE_ID_BASE && Agrees(e, log)
    ensures Agrees(Tick(e, now).0, log + Worked(e, now).fills)
  {
    TickIsReady(e);
    LoopTallies(Opening(e), e.working, now);
    TickRests(e, now);
    TickSameFilled(e, now);
    TalliedAgrees(e, Worked(e, now), Tick(e, now).0, log);
  }

  lemma KeptAgrees(e: Engine, after: Engine, log: seq<FillReport>)
    requires Agrees(e, log) && SameFilled(e.parents, after.parents)
    requires after.positions == e.positions && after.nextParentId == e.nextParentId
    ensures Agrees(after, log)
  {
    forall s ensures PositionAgrees(after.positions, log, s) {
      assert PositionAgrees(e.positions, log, s);
    }
  }

  lemma AcceptAgrees(e: Engine, p: Parent, log: seq<FillReport>)
    requires Agrees(e, log) && p.filled == 0
    ensures Agrees(Accept(e, p), log)
  {
    NoneForNewId(log, e.nextParentId);
    forall s ensures PositionAgrees(Accept(e, p).positions, log, s) {
      assert PositionAgrees(e.positions, log, s);
    }
  }

  lemma CancelAgrees(e: Engine, id: nat, log: seq<FillReport>)
    requires Core(e) && Agrees(e, log)
    ensures Agrees(CancelOrder(e, id).0, log)
  {
    var after := CancelOrder(e, id).0;
    if id in e.parents && e.parents[id].phase.Working? {
      CancelKeeps(e, id);
      StoredAreFillable(e);
      StopFiles(e, id);
      StoppedSameFilled(e.parents, after.parents);
      KeptAgrees(e, after, log);
    }
  }

  lemma SubmitAgrees(e: Engine, o: NewOrder, now: U64, log: seq<FillReport>)
    requires Core(e) && Agrees(e, log)
    ensures Agrees(SubmitOrder(e, o, now).0, log)
  {
    var p := SubmitIsAccept(e, o, now);
    if SubmitOrder(e, o, now).1.Ok? {
      AcceptAgrees(e, p, log);
    }
  }

  lemma HaltAgrees(e: Engine, log: seq<FillReport>)
    requires Core(e) && Agrees(e, log)
    ensures Agrees(Halt(e, Requested), log)
  {
    HaltKeepsOrders(e, Requested);
    StoppedSameFilled(e.parents, Halt(e, Requested).parents);
    KeptAgrees(e, Halt(e, Requested), log);
  }

  lemma StepKeepsAgreement(t: Trace, c: Command)
    requires Core(t.engine) && Step(t, c).engine.nextChildId < QUOTE_ID_BASE && Agrees(t.engine, t.log)
    ensures Agrees(Step(t, c).engine, Step(t, c).log)
  {
    StepCountsUp(t, c);
    match c
    case SubmitCommand(order, now) => SubmitAgrees(t.engine, order, now, t.log);
    case CancelCommand(id) => CancelAgrees(t.engine, id, t.log);
    case TickCommand(now) => TickAgrees(t.engine, now, t.log);
    case HaltCommand => HaltAgrees(t.engine, t.log);
  }

  /** Orders, positions and the stream of fills agree after every command of every run. */
  lemma {:induction false} RunAgrees(configs: seq<SymbolConfig>, risk: RiskLimits, retained: nat,
                                     commands: seq<Command>, t: Trace)
    requires NewEngine(configs, risk, retained).Ok? && Sane(risk)
    requires t == EngineRuns.Run(NewEngine(configs, risk, retained).value, commands)
      && t.engine.nextChildId < QUOTE_ID_BASE
    ensures Agrees(t.engine, t.log)
  {
    var start := NewEngine(configs, risk, retained).value;
    if commands == [] {
      forall s ensures PositionAgrees(t.engine.positions, t.log, s) {
      }
    } else {
      var before, last := EngineRuns.Run(start, commands[..|commands| - 1]), commands[|commands| - 1];
      StepCountsUp(before, last);
      RunIsSafe(configs, risk, retained, commands[..|commands| - 1]);
      RunAgrees(configs, risk, retained, commands[..|commands| - 1], before);
      StepKeepsAgreement(before, last);
    }
  }
}
