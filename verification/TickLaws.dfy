/** The working loop of a tick: what holds over the turns of all the orders. */
module TickLaws {
  import opened Types
  import opened VenueSpec
  import opened VenueLaws
  import opened ParentOrders
  import opened EngineSpec
  import opened DeskLaws
  import opened TurnLaws
  import opened ExposureLaws
  import opened MarkLaws

  // ------------------------------------------------------------- one step

  /** The round may go on with the orders of `todo`. */
  ghost predicate Ready(r: Round, todo: set<nat>) {
    VenueOk(r.engine.venue) && forall id :: id in todo ==> MayWork(r.engine, id)
  }

  /** Everything a turn of order `id` does. */
  ghost predicate Turned(r: Round, after: Round, id: nat, now: nat) {
    && TurnShape(r, after, id) && r.engine.parents[id].phase.Working?
    && OrderTurned(r.engine.parents[id], after.engine.parents[id], now)
    && PositionTurned(r.engine, after.engine, id)
    && SameListing(r.engine.venue, after.engine.venue)
    && ReportTurned(r, after, id)
  }

  ghost predicate ReportTurned(r: Round, after: Round, id: nat)
    requires id in r.engine.parents
  {
    var p := r.engine.parents[id];
    && p.symbol in r.engine.venue.markets
    && ReportsOf(r.fills, after.fills, id, p.symbol, p.side, r.engine.venue.markets[p.symbol].config.reference)
  }

  /** And to the P&L, if the position was sound. */
  ghost predicate Costed(r: Round, after: Round, s: Symbol) {
    s in r.engine.venue.markets
      && SoundHolding(HoldingOf(r.engine.positions, s), r.engine.venue.markets[s].config.reference)
    ==> ValueTurned(r, after, s, r.engine.venue.markets[s].config.reference)
  }

  lemma ChildIdsGrow(r: Round, id: nat, now: U64)
    ensures r.engine.nextChildId <= WorkOne(r, id, now).engine.nextChildId
  {
  }

  lemma {:induction false} ChildIdsGrowOn(r: Round, todo: set<nat>, now: U64)
    ensures r.engine.nextChildId <= WorkFrom(r, todo, now).engine.nextChildId
    decreases todo
  {
    if todo != {} && r.failure.None? {
      var s, next := WorkFromStep(r, todo, now);
      ChildIdsGrow(r, s, now);
      ChildIdsGrowOn(next, todo - {s}, now);
    }
  }

  lemma WorkFromStep(r: Round, todo: set<nat>, now: U64) returns (s: nat, next: Round)
    requires todo != {} && r.failure.None?
    ensures s in todo && (forall id :: id in todo ==> s <= id)
    ensures next == WorkOne(r, s, now) && WorkFrom(r, todo, now) == WorkFrom(next, todo - {s}, now)
  {
    s := Lowest(todo);
    next := WorkOne(r, s, now);
  }

  lemma StillReady(r: Round, next: Round, todo: set<nat>, s: nat)
    requires Ready(r, todo) && TurnShape(r, next, s) && VenueOk(next.engine.venue)
      && SameListing(r.engine.venue, next.engine.venue)
    ensures Ready(next, todo - {s})
  {
    forall id | id in todo - {s} ensures MayWork(next.engine, id) {
      assert MayWork(r.engine, id);
    }
  }

  /** One turn of the loop. */
  lemma WorkStep(r: Round, todo: set<nat>, now: U64) returns (s: nat, next: Round)
    requires Ready(r, todo) && todo != {} && r.failure.None?
      && WorkFrom(r, todo, now).engine.nextChildId < QUOTE_ID_BASE
    ensures s in todo && Turned(r, next, s, now) && Ready(next, todo - {s})
    ensures WorkFrom(r, todo, now) == WorkFrom(next, todo - {s}, now)
    ensures Costed(r, next, r.engine.parents[s].symbol)
  {
    ChildIdsGrowOn(r, todo, now);
    s, next := WorkFromStep(r, todo, now);
    assert MayWork(r.engine, s);
    TurnKeepsLedger(r, s, now);
    TurnMovesPosition(r, s, now);
    StillReady(r, next, todo, s);
    var symbol := r.engine.parents[s].symbol;
    var mark := r.engine.venue.markets[symbol].config.reference;
    TurnReports(r, s, now, r.engine.parents[s], mark);
    if SoundHolding(HoldingOf(r.engine.positions, symbol), mark) {
      TurnCostsSlippage(r, s, now, symbol, mark);
    }
  }

  // ------------------------------------------------------------- the loop

  /** What the loop may change. */
  ghost predicate Framed(a: Round, b: Round) {
    && b.engine == a.engine.(venue := b.engine.venue, nextChildId := b.engine.nextChildId,
                             positions := b.engine.positions, parents := b.engine.parents)
    && a.engine.parents.Keys == b.engine.parents.Keys && a.engine.nextChildId <= b.engine.nextChildId
      && a.refused == b.refused
  }

  lemma TurnFrames(r: Round, next: Round, s: nat, now: nat)
    requires Turned(r, next, s, now)
    ensures Framed(r, next)
  {
  }

  lemma FramedChains(a: Round, b: Round, c: Round)
    requires Framed(a, b) && Framed(b, c)
    ensures Framed(a, c)
  {
  }

  lemma {:induction false} LoopFrames(r: Round, todo: set<nat>, now: U64)
    requires Ready(r, todo) && WorkFrom(r, todo, now).engine.nextChildId < QUOTE_ID_BASE
    ensures Framed(r, WorkFrom(r, todo, now))
    decreases todo
  {
    if todo != {} && r.failure.None? {
      var s, next := WorkStep(r, todo, now);
      TurnFrames(r, next, s, now);
      LoopFrames(next, todo - {s}, now);
      FramedChains(r, next, WorkFrom(next, todo - {s}, now));
    }
  }

  lemma {:induction false} LoopKeepsVenue(r: Round, todo: set<nat>, now: U64)
    requires Ready(r, todo) && WorkFrom(r, todo, now).engine.nextChildId < QUOTE_ID_BASE
    ensures VenueOk(WorkFrom(r, todo, now).engine.venue)
      && SameListing(r.engine.venue, WorkFrom(r, todo, now).engine.venue)
    decreases todo
  {
    if todo != {} && r.failure.None? {
      var s, next := WorkStep(r, todo, now);
      LoopKeepsVenue(next, todo - {s}, now);
      SameListingChains(r.engine.venue, next.engine.venue, WorkFrom(next, todo - {s}, now).engine.venue);
    }
  }

  /** Every order of the loop had its turn, or the accounting failed first; no other order changed. */
  ghost predicate OrdersWorked(before: map<nat, Parent>, after: map<nat, Parent>, todo: set<nat>, failed: bool,
                               now: nat) {
    && before.Keys == after.Keys
    && forall id :: id in before ==> OrderWorked(before[id], after[id], id in todo, failed, now)
  }

  ghost predicate OrderWorked(p: Parent, q: Parent, due: bool, failed: bool, now: nat) {
    if !due || (failed && q == p) then q == p else OrderTurned(p, q, now)
  }

  lemma OrdersChain(before: map<nat, Parent>, mid: map<nat, Parent>, after: map<nat, Parent>,
                    todo: set<nat>, s: nat, failed: bool, now: nat)
    requires s in before && s in mid && s in todo && mid == before[s := mid[s]] && OrderTurned(before[s], mid[s], now)
    requires OrdersWorked(mid, after, todo - {s}, failed, now)
    ensures OrdersWorked(before, after, todo, failed, now) && after[s] == mid[s]
  {
    forall id | id in before ensures OrderWorked(before[id], after[id], id in todo, failed, now) {
      assert OrderWorked(mid[id], after[id], id in todo - {s}, failed, now);
    }
    assert OrderWorked(mid[s], after[s], false, failed, now);
  }

  lemma {:induction false} LoopWorksOrders(r: Round, todo: set<nat>, now: U64)
    requires Ready(r, todo) && WorkFrom(r, todo, now).engine.nextChildId < QUOTE_ID_BASE
    ensures var w := WorkFrom(r, todo, now);
      OrdersWorked(r.engine.parents, w.engine.parents, todo, w.failure.Some?, now)
    decreases todo
  {
    if todo != {} && r.failure.None? {
      var s, next := WorkStep(r, todo, now);
      LoopWorksOrders(next, todo - {s}, now);
      var w := WorkFrom(next, todo - {s}, now);
      OrdersChain(r.engine.parents, next.engine.parents, w.engine.parents, todo, s, w.failure.Some?, now);
    }
  }

  /** `list` names exactly the ids of `ids`, each once. */
  ghost predicate Lists(list: seq<nat>, ids: set<nat>) {
    if list == [] then ids == {}
    else
      var last := list[|list| - 1];
      last in ids && Lists(list[..|list| - 1], ids - {last})
  }

  lemma ListsMore(list: seq<nat>, ids: set<nat>, id: nat)
    requires Lists(list, ids) && id !in ids
    ensures Lists(list + [id], ids + {id})
  {
    assert (list + [id])[..|list|] == list;
    assert ids + {id} - {id} == ids;
  }

  function Ended(parents: map<nat, Parent>, ids: set<nat>): set<nat> {
    set id | id in ids && id in parents && !parents[id].phase.Working?
  }

  lemma EndedWithout(parents: map<nat, Parent>, todo: set<nat>, s: nat, listed: set<nat>, more: set<nat>)
    requires s in todo && s in parents && listed !! todo
    requires more == if parents[s].phase.Working? then {} else {s}
    ensures listed + more !! todo - {s}
    ensures listed + more + Ended(parents, todo - {s}) == listed + Ended(parents, todo)
  {
    assert Ended(parents, todo) == Ended(parents, todo - {s}) + more;
  }

  lemma ListsMaybe(list: seq<nat>, listed: set<nat>, s: nat, working: bool, more: set<nat>)
    requires Lists(list, listed) && s !in listed && more == if working then {} else {s}
    ensures Lists(if working then list else list + [s], listed + more)
  {
    if working {
      assert listed + more == listed;
    } else {
      ListsMore(list, listed, s);
    }
  }

  /** The orders listed for retirement are those of the loop that ended, each once. */
  lemma {:induction false} LoopListsEnded(r: Round, todo: set<nat>, now: U64, listed: set<nat>)
    requires Ready(r, todo) && WorkFrom(r, todo, now).engine.nextChildId < QUOTE_ID_BASE
    requires Lists(r.finished, listed) && listed !! todo
    ensures Lists(WorkFrom(r, todo, now).finished, listed + Ended(WorkFrom(r, todo, now).engine.parents, todo))
    decreases todo
  {
    if todo != {} && r.failure.None? {
      var s, next, parents := EndStep(r, todo, now);
      var more := if parents[s].phase.Working? then {} else {s};
      ListsMaybe(r.finished, listed, s, parents[s].phase.Working?, more);
      EndedWithout(parents, todo, s, listed, more);
      LoopListsEnded(next, todo - {s}, now, listed + more);
    } else {
      NoneEnded(r, todo);
      assert listed + {} == listed;
    }
  }

  lemma EndStep(r: Round, todo: set<nat>, now: U64) returns (s: nat, next: Round, parents: map<nat, Parent>)
    requires Ready(r, todo) && todo != {} && r.failure.None?
      && WorkFrom(r, todo, now).engine.nextChildId < QUOTE_ID_BASE
    ensures s in todo && Ready(next, todo - {s}) && WorkFrom(r, todo, now) == WorkFrom(next, todo - {s}, now)
    ensures parents == WorkFrom(r, todo, now).engine.parents && s in parents && s in next.engine.parents
    ensures parents[s] == next.engine.parents[s]
    ensures next.finished == if parents[s].phase.Working? then r.finished else r.finished + [s]
  {
    s, next := WorkStep(r, todo, now);
    parents := WorkFrom(next, todo - {s}, now).engine.parents;
    LoopWorksOrders(next, todo - {s}, now);
    OrdersChain(r.engine.parents, next.engine.parents, parents, todo, s, WorkFrom(next, todo - {s}, now).failure.Some?,
                now);
  }

  lemma NoneEnded(r: Round, todo: set<nat>)
    requires Ready(r, todo)
    ensures Ended(r.engine.parents, todo) == {}
  {
    forall id | id in todo ensures r.engine.parents[id].phase.Working? {
      assert MayWork(r.engine, id);
    }
  }

  /** No turn widens any exposure. */
  lemma {:induction false} LoopNarrows(r: Round, todo: set<nat>, now: U64)
    requires Ready(r, todo) && WorkFrom(r, todo, now).engine.nextChildId < QUOTE_ID_BASE
    ensures Narrower(r.engine, WorkFrom(r, todo, now).engine)
    decreases todo
  {
    if todo != {} && r.failure.None? {
      var s, next := WorkStep(r, todo, now);
      TurnNarrows(r, next, s, now);
      LoopNarrows(next, todo - {s}, now);
      NarrowerChains(r.engine, next.engine, WorkFrom(next, todo - {s}, now).engine);
    }
  }

  // ------------------------------------------------------------------ value

  /** Every fill reported is worse for the trader than the reference price of its symbol. */
  ghost predicate FairLog(fills: seq<FillReport>, refs: map<Symbol, I64>) {
    forall f :: f in fills ==> f.symbol in refs && FairReport(f, refs[f.symbol])
  }

  lemma MoreFairReports(before: seq<FillReport>, after: seq<FillReport>, refs: map<Symbol, I64>, id: nat, s: Symbol,
                        side: Side)
    requires FairLog(before, refs) && s in refs && ReportsOf(before, after, id, s, side, refs[s])
    ensures FairLog(after, refs)
  {
    forall f | f in after ensures f.symbol in refs && FairReport(f, refs[f.symbol]) {
      var i :| 0 <= i < |after| && after[i] == f;
      if i < |before| {
        assert before[i] == f;
      }
    }
  }

  /** A tick reports only fair fills. */
  lemma {:induction false} LoopReportsFairly(r: Round, todo: set<nat>, now: U64, refs: map<Symbol, I64>)
    requires Ready(r, todo) && WorkFrom(r, todo, now).engine.nextChildId < QUOTE_ID_BASE
    requires refs == Refs(r.engine.venue) && FairLog(r.fills, refs)
    ensures FairLog(WorkFrom(r, todo, now).fills, refs)
    decreases todo
  {
    if todo != {} && r.failure.None? {
      var s, next := WorkStep(r, todo, now);
      var p := r.engine.parents[s];
      MoreFairReports(r.fills, next.fills, refs, s, p.symbol, p.side);
      SameListingSameRefs(r.engine.venue, next.engine.venue);
      LoopReportsFairly(next, todo - {s}, now, refs);
    }
  }

  /** Positions are sound, and what they are worth with the slippage so far is `worth`. */
  ghost predicate Worth(r: Round, refs: map<Symbol, I64>, worth: int) {
    && SoundPositions(r.engine.positions, refs) && r.engine.positions.Keys <= refs.Keys
    && Pnl(r.engine.positions, refs) + Slippage(r.fills, refs) == worth
  }

  lemma TurnKeepsSound(before: map<Symbol, Holding>, after: map<Symbol, Holding>, refs: map<Symbol, I64>, s: Symbol)
    requires SoundPositions(before, refs) && s in refs && SoundHolding(HoldingOf(after, s), refs[s])
    requires after.Keys <= before.Keys + {s} && forall t :: t != s ==> HoldingOf(after, t) == HoldingOf(before, t)
    ensures SoundPositions(after, refs)
  {
    forall t | t in after ensures t in refs && SoundHolding(after[t], refs[t]) {
      if t != s {
        assert HoldingOf(after, t) == HoldingOf(before, t);
      }
    }
  }

  lemma HoldingIsSound(positions: map<Symbol, Holding>, refs: map<Symbol, I64>, s: Symbol)
    requires SoundPositions(positions, refs) && s in refs
    ensures SoundHolding(HoldingOf(positions, s), refs[s])
  {
    FlatIsSound(refs[s]);
  }

  lemma TurnKeepsWorth(r: Round, next: Round, id: nat, now: nat, refs: map<Symbol, I64>, worth: int)
    requires Turned(r, next, id, now) && Costed(r, next, r.engine.parents[id].symbol)
    requires refs == Refs(r.engine.venue) && r.engine.parents[id].symbol in refs && Worth(r, refs, worth)
    ensures Worth(next, refs, worth)
  {
    var s := r.engine.parents[id].symbol;
    HoldingIsSound(r.engine.positions, refs, s);
    TurnKeepsSound(r.engine.positions, next.engine.positions, refs, s);
    PnlChanges(r.engine.positions, next.engine.positions, refs, s);
    SlippageOfSymbol(r.fills, next.fills, refs, s);
  }

  /** Over the whole loop, marked P&L falls by exactly the slippage of the fills it reports. */
  lemma {:induction false} LoopKeepsWorth(r: Round, todo: set<nat>, now: U64, refs: map<Symbol, I64>, worth: int)
    requires Ready(r, todo) && WorkFrom(r, todo, now).engine.nextChildId < QUOTE_ID_BASE
    requires refs == Refs(r.engine.venue) && Worth(r, refs, worth)
    ensures Worth(WorkFrom(r, todo, now), refs, worth)
    decreases todo
  {
    if todo != {} && r.failure.None? {
      var s, next := WorkStep(r, todo, now);
      assert MayWork(r.engine, s);
      TurnKeepsWorth(r, next, s, now, refs, worth);
      SameListingSameRefs(r.engine.venue, next.engine.venue);
      LoopKeepsWorth(next, todo - {s}, now, refs, worth);
    }
  }
}
