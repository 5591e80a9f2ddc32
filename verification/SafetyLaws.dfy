/** What every command keeps, one promise at a time. */
module SafetyLaws {
  import opened Types
  import opened VenueSpec
  import opened VenueLaws
  import opened Risk
  import opened ParentOrders
  import opened EngineSpec
  import opened TurnLaws
  import opened ExposureLaws
  import opened MarkLaws
  import opened TickLaws
  import opened RetireLaws

  // -------------------------------------------------------------- the promises

  /** Every book is exactly its full ladder. */
  ghost predicate VenueRests(e: Engine) {
    GoodMarkets(e.venue) && VenueOk(e.venue) && FullyQuoted(e.venue)
  }

  ghost predicate Stored(p: Parent, id: nat, symbols: set<Symbol>) {
    Settled(p) && p.id == id && p.symbol in symbols && (p.limit.Some? ==> p.limit.value > 0)
  }

  ghost predicate AllStored(e: Engine) {
    forall id :: id in e.parents ==> id < e.nextParentId && Stored(e.parents[id], id, e.venue.markets.Keys)
  }

  /** Stored orders are filed and their ledgers are right. */
  ghost predicate OrdersRest(e: Engine) {
    Filing(e, {}) && AllStored(e)
  }

  /** Neither limit can be broken by anything that is working. */
  ghost predicate InLimits(e: Engine) {
    PositionSafe(e, e.risk.maxPositionQty) && Gross(e) <= e.risk.maxGrossNotional
  }

  /** The P&L is exactly what the reported fills cost against the reference prices. */
  ghost predicate AccountsFor(e: Engine, log: seq<FillReport>) {
    && SoundPositions(e.positions, Refs(e.venue)) && e.positions.Keys <= Refs(e.venue).Keys
    && Pnl(e.positions, Refs(e.venue)) + Slippage(log, Refs(e.venue)) == 0
  }

  /** Trading has stopped, or the loss limit is not reached. */
  ghost predicate Solvent(e: Engine) {
    e.halted.Some? || TotalPnl(e) > 0 - e.risk.maxLoss
  }

  /** Each working order has released exactly the slices due by the latest tick it saw. */
  ghost predicate Punctual(e: Engine, latest: map<nat, int>) {
    forall id :: id in e.working ==> id in e.parents && id in latest && CaughtUp(e.parents[id], latest[id])
  }

  lemma StoredAreFillable(e: Engine)
    requires AllStored(e)
    ensures Fillable(e.parents)
  {
    forall id | id in e.parents ensures e.parents[id].filled <= e.parents[id].quantity {
      assert Stored(e.parents[id], id, e.venue.markets.Keys);
    }
  }

  lemma StoppedAreStored(a: Engine, b: Engine)
    requires AllStored(a) && OrdersStopped(a.parents, b.parents)
    requires b.nextParentId == a.nextParentId && b.venue.markets.Keys == a.venue.markets.Keys
    ensures AllStored(b)
  {
    forall id | id in b.parents ensures id < b.nextParentId && Stored(b.parents[id], id, b.venue.markets.Keys) {
      assert Stored(a.parents[id], id, a.venue.markets.Keys) && OrderStopped(a.parents[id], b.parents[id]);
    }
  }

  // ---------------------------------------------------------------------- halt

  /** What winding orders up never touches. */
  ghost predicate SameBut(a: Engine, b: Engine) {
    && a.venue == b.venue && a.positions == b.positions && a.risk == b.risk && a.retained == b.retained
    && a.nextParentId == b.nextParentId && a.nextChildId == b.nextChildId
  }

  lemma HaltKeepsOrders(e: Engine, reason: HaltReason)
    requires OrdersRest(e)
    ensures var r := Halt(e, reason);
      OrdersRest(r) && r.working == {} && r.halted == Some(reason) && Narrower(e, r)
        && OrdersStopped(e.parents, r.parents)
    ensures SameBut(e, Halt(e, reason))
  {
    StoredAreFillable(e);
    HaltFiles(e, reason);
    StoppedAreStored(e, Halt(e, reason));
  }

  // ------------------------------------------------------- the turns of a tick

  function Opening(e: Engine): Round {
    Round(e, [], [], None, [])
  }

  lemma WorkingMayWork(e: Engine, id: nat)
    requires OrdersRest(e) && id in e.working
    ensures MayWork(e, id)
  {
    assert Stored(e.parents[id], id, e.venue.markets.Keys);
  }

  lemma TickIsReady(e: Engine)
    requires VenueOk(e.venue) && OrdersRest(e)
    ensures Ready(Opening(e), e.working)
  {
    forall id | id in e.working ensures MayWork(e, id) {
      WorkingMayWork(e, id);
    }
  }

  lemma WorkedIsStored(e: Engine, w: Round, now: nat)
    requires AllStored(e) && OrdersWorked(e.parents, w.engine.parents, e.working, w.failure.Some?, now)
    requires Framed(Opening(e), w) && SameListing(e.venue, w.engine.venue)
    ensures AllStored(w.engine)
  {
    var after := w.engine;
    forall id | id in after.parents
      ensures id < after.nextParentId && Stored(after.parents[id], id, after.venue.markets.Keys)
    {
      assert Stored(e.parents[id], id, e.venue.markets.Keys);
      assert OrderWorked(e.parents[id], after.parents[id], id in e.working, w.failure.Some?, now);
    }
  }

  lemma WorkedPends(e: Engine, w: Round, now: nat)
    requires Filing(e, {}) && OrdersWorked(e.parents, w.engine.parents, e.working, w.failure.Some?, now)
      && Framed(Opening(e), w)
    ensures Filing(w.engine, Ended(w.engine.parents, e.working))
  {
    var after := w.engine;
    forall id | id in after.parents ensures
      id in after.working && id !in Ended(after.parents, e.working) <==> after.parents[id].phase.Working?
    {
      assert OrderWorked(e.parents[id], after.parents[id], id in e.working, w.failure.Some?, now);
    }
  }

  /** After the turns and the retirements, the orders rest again and no exposure has widened. */
  lemma RetiredRests(e: Engine, now: U64) returns (w: Round, retired: Engine)
    requires VenueOk(e.venue) && OrdersRest(e) && Worked(e, now).engine.nextChildId < QUOTE_ID_BASE
    ensures w == Worked(e, now) && retired == RetireAll(w.engine, w.finished)
    ensures OrdersRest(retired) && Narrower(e, retired)
    ensures Wound(w.engine, retired) && Framed(Opening(e), w)
    ensures OrdersKept(w.engine.parents, retired.parents)
    ensures VenueOk(retired.venue) && SameListing(e.venue, retired.venue)
  {
    TickIsReady(e);
    var r := Opening(e);
    LoopFrames(r, e.working, now);
    LoopKeepsVenue(r, e.working, now);
    LoopWorksOrders(r, e.working, now);
    LoopListsEnded(r, e.working, now, {});
    LoopNarrows(r, e.working, now);
    w := WorkFrom(r, e.working, now);
    retired := Retired(e, w, now);
  }

  /** Some orders may be forgotten; the others are as they were. */
  ghost predicate OrdersKept(before: map<nat, Parent>, after: map<nat, Parent>) {
    forall id :: id in after ==> id in before && after[id] == before[id]
  }

  lemma KeptAreStored(a: Engine, b: Engine)
    requires AllStored(a) && b.venue == a.venue && b.nextParentId == a.nextParentId
    requires OrdersKept(a.parents, b.parents)
    ensures AllStored(b)
  {
    forall id | id in b.parents ensures id < b.nextParentId && Stored(b.parents[id], id, b.venue.markets.Keys) {
      assert Stored(a.parents[id], id, a.venue.markets.Keys);
    }
  }

  lemma Retired(e: Engine, w: Round, now: nat) returns (retired: Engine)
    requires OrdersRest(e) && Framed(Opening(e), w) && SameListing(e.venue, w.engine.venue)
    requires OrdersWorked(e.parents, w.engine.parents, e.working, w.failure.Some?, now)
    requires Lists(w.finished, {} + Ended(w.engine.parents, e.working)) && Narrower(e, w.engine)
    ensures retired == RetireAll(w.engine, w.finished) && OrdersRest(retired) && Narrower(e, retired)
      && Wound(w.engine, retired)
    ensures OrdersKept(w.engine.parents, retired.parents)
  {
    WorkedIsStored(e, w, now);
    WorkedPends(e, w, now);
    retired := RetiredFiles(w, Ended(w.engine.parents, e.working));
    KeptAreStored(w.engine, retired);
    NarrowerChains(e, w.engine, retired);
  }

  lemma RetiredFiles(w: Round, ended: set<nat>) returns (retired: Engine)
    requires Filing(w.engine, ended) && Lists(w.finished, {} + ended)
    ensures retired == RetireAll(w.engine, w.finished) && Filing(retired, {})
    ensures Narrower(w.engine, retired) && Wound(w.engine, retired)
    ensures OrdersKept(w.engine.parents, retired.parents)
  {
    assert {} + ended == ended;
    RetireAllFiles(w.engine, w.finished, ended, ended);
    assert ended - ended == {};
    retired := RetireAll(w.engine, w.finished);
  }

  // ----------------------------------------------------------- ending the tick

  /** How a tick ends: requoted, and halted if the accounting failed or the loss limit is reached. */
  lemma SettleEnds(w: Round, retired: Engine) returns (requoted: Engine, halt: Option<HaltReason>)
    requires retired == RetireAll(w.engine, w.finished)
    ensures requoted == retired.(venue := RefreshQuotes(retired.venue))
    ensures Settle(w) == if halt.Some? then Halt(requoted, halt.value) else requoted
    ensures w.failure.Some? ==> halt == w.failure
    ensures halt.None? ==> Solvent(requoted)
  {
    requoted := retired.(venue := RefreshQuotes(retired.venue));
    halt := if w.failure.Some? then w.failure
            else if requoted.halted.None? && LossLimitBreached(requoted.risk, TotalPnl(requoted)) then
              Some(LossLimit(TotalPnl(requoted)))
            else None;
  }

  lemma RequoteKeepsOrders(retired: Engine, requoted: Engine)
    requires OrdersRest(retired) && requoted == retired.(venue := RefreshQuotes(retired.venue))
    ensures OrdersRest(requoted) && Narrower(retired, requoted)
  {
    SameOrdersNarrow(retired, requoted);
    forall id | id in requoted.parents
      ensures id < requoted.nextParentId && Stored(requoted.parents[id], id, requoted.venue.markets.Keys)
    {
      assert Stored(retired.parents[id], id, retired.venue.markets.Keys);
    }
  }

  /** A tick from start to end: its turns, its retirements, its requoting and perhaps its halt. */
  lemma TickStages(e: Engine, now: U64) returns (w: Round, requoted: Engine, halt: Option<HaltReason>)
    requires VenueRests(e) && OrdersRest(e) && Worked(e, now).engine.nextChildId < QUOTE_ID_BASE
    ensures w == Worked(e, now) && Framed(Opening(e), w)
    ensures Wound(w.engine, requoted.(venue := w.engine.venue)) && OrdersKept(w.engine.parents, requoted.parents)
    ensures VenueRests(requoted) && SameListing(e.venue, requoted.venue)
    ensures OrdersRest(requoted) && Narrower(e, requoted)
    ensures Settle(w) == if halt.Some? then Halt(requoted, halt.value) else requoted
    ensures w.failure.Some? ==> halt == w.failure
    ensures halt.None? ==> Solvent(requoted)
  {
    var retired;
    w, retired := RetiredRests(e, now);
    requoted, halt := SettleEnds(w, retired);
    RequoteKeepsOrders(retired, requoted);
    NarrowerChains(e, retired, requoted);
    SameListingIsGood(e.venue, retired.venue);
    RefreshQuotesRestores(retired.venue);
    SameListingIsGood(retired.venue, requoted.venue);
    SameListingChains(e.venue, retired.venue, requoted.venue);
  }

  lemma TickRests(e: Engine, now: U64)
    requires VenueRests(e) && OrdersRest(e) && Worked(e, now).engine.nextChildId < QUOTE_ID_BASE
    ensures var after := Tick(e, now).0;
      && VenueRests(after) && SameListing(e.venue, after.venue)
      && OrdersRest(after) && Narrower(e, after) && Solvent(after)
    ensures var after := Tick(e, now).0;
      after.risk == e.risk && after.retained == e.retained && after.positions == Worked(e, now).engine.positions
      && after.nextChildId == Worked(e, now).engine.nextChildId && after.nextParentId == e.nextParentId
    ensures Worked(e, now).refused == []
  {
    var w, requoted, halt := TickStages(e, now);
    if halt.Some? {
      HaltKeepsOrders(requoted, halt.value);
      NarrowerChains(e, requoted, Halt(requoted, halt.value));
    }
  }

  /** A tick breaks neither limit. */
  lemma TickKeepsLimits(e: Engine, now: U64)
    requires VenueRests(e) && OrdersRest(e) && Worked(e, now).engine.nextChildId < QUOTE_ID_BASE && InLimits(e)
    ensures InLimits(Tick(e, now).0)
  {
    TickRests(e, now);
    NarrowerKeepsSafe(e, Tick(e, now).0, e.risk.maxPositionQty);
    NarrowerLowersGross(e, Tick(e, now).0);
  }

  lemma {:induction false} SlippageConcat(a: seq<FillReport>, b: seq<FillReport>, refs: map<Symbol, I64>)
    ensures Slippage(a + b, refs) == Slippage(a, refs) + Slippage(b, refs)
  {
    if b == [] {
      assert a + b == a;
    } else {
      assert (a + b)[..|a + b| - 1] == a + b[..|b| - 1];
      SlippageConcat(a, b[..|b| - 1], refs);
    }
  }

  lemma LoopAccounts(e: Engine, now: U64, refs: map<Symbol, I64>)
    requires VenueOk(e.venue) && OrdersRest(e) && Worked(e, now).engine.nextChildId < QUOTE_ID_BASE
    requires refs == Refs(e.venue) && SoundPositions(e.positions, refs) && e.positions.Keys <= refs.Keys
    ensures Worth(Worked(e, now), refs, Pnl(e.positions, refs))
  {
    TickIsReady(e);
    LoopKeepsWorth(Opening(e), e.working, now, refs, Pnl(e.positions, refs));
  }

  /** Over a tick the P&L moves by exactly what its fills cost. */
  lemma TickKeepsAccounts(e: Engine, now: U64, log: seq<FillReport>)
    requires VenueRests(e) && OrdersRest(e) && Worked(e, now).engine.nextChildId < QUOTE_ID_BASE && AccountsFor(e, log)
    ensures AccountsFor(Tick(e, now).0, log + Worked(e, now).fills)
  {
    TickRests(e, now);
    var after, refs := Tick(e, now).0, Refs(e.venue);
    SameListingSameRefs(e.venue, after.venue);
    LoopAccounts(e, now, refs);
    SlippageConcat(log, Worked(e, now).fills, refs);
  }

  // ------------------------------------------------------------------ lifecycle

  /** Orders that had ended stay as they ended, for as long as they are kept. */
  ghost predicate EndedStay(before: map<nat, Parent>, after: map<nat, Parent>) {
    forall id :: id in before && id in after && !before[id].phase.Working? ==> after[id] == before[id]
  }

  lemma TickKeepsEnded(e: Engine, now: U64)
    requires VenueRests(e) && OrdersRest(e) && Worked(e, now).engine.nextChildId < QUOTE_ID_BASE
    ensures EndedStay(e.parents, Tick(e, now).0.parents) && Tick(e, now).0.parents.Keys <= e.parents.Keys
  {
    var w, requoted, halt := TickStages(e, now);
    TickIsReady(e);
    LoopWorksOrders(Opening(e), e.working, now);
    var after := Tick(e, now).0;
    if halt.Some? {
      HaltKeepsOrders(requoted, halt.value);
    }
    assert OrdersStopped(requoted.parents, after.parents);
    forall id | id in e.parents && id in after.parents && !e.parents[id].phase.Working?
      ensures after.parents[id] == e.parents[id]
    {
      assert OrderWorked(e.parents[id], w.engine.parents[id], id in e.working, w.failure.Some?, now);
      assert OrderStopped(requoted.parents[id], after.parents[id]);
    }
  }

  lemma OrderStaysPunctual(p: Parent, q: Parent, now: nat, latest: int)
    requires Ledger(p) && CaughtUp(p, latest) && OrderTurned(p, q, now) && q.phase.Working?
    ensures CaughtUp(q, Max(latest, now))
  {
    ReleaseCatchesUp(p, now, latest);
  }

  /** After a tick each order still working has released exactly what is due by it. */
  lemma TickIsPunctual(e: Engine, now: U64, latest: map<nat, int>, later: map<nat, int>)
    requires VenueRests(e) && OrdersRest(e) && Worked(e, now).engine.nextChildId < QUOTE_ID_BASE && Punctual(e, latest)
    requires later.Keys == latest.Keys && forall id :: id in latest ==> later[id] == Max(latest[id], now)
    ensures Punctual(Tick(e, now).0, later)
  {
    var w, requoted, halt := TickStages(e, now);
    TickIsReady(e);
    LoopWorksOrders(Opening(e), e.working, now);
    if halt.Some? {
      HaltKeepsOrders(requoted, halt.value);
    } else {
      forall id | id in requoted.working ensures
        id in requoted.parents && id in later && CaughtUp(requoted.parents[id], later[id])
      {
        var p, q := e.parents[id], w.engine.parents[id];
        assert OrderWorked(p, q, true, false, now);
        assert Stored(p, id, e.venue.markets.Keys);
        assert q.phase.Working? by {
          assert requoted.parents[id] == q;
        }
        OrderStaysPunctual(p, q, now, latest[id]);
      }
    }
  }

  /** A tick reports only fills worse for the trader than the reference price. */
  lemma TickReportsFairly(e: Engine, now: U64)
    requires VenueRests(e) && OrdersRest(e) && Worked(e, now).engine.nextChildId < QUOTE_ID_BASE
    ensures FairLog(Worked(e, now).fills, Refs(e.venue))
  {
    TickIsReady(e);
    LoopReportsFairly(Opening(e), e.working, now, Refs(e.venue));
  }

  /** A halted engine works nothing. */
  ghost predicate IdleIfHalted(e: Engine) {
    e.halted.Some? ==> e.working == {}
  }

  /** A tick resumes nothing. */
  lemma TickStaysHalted(e: Engine, now: U64)
    requires VenueRests(e) && OrdersRest(e) && Worked(e, now).engine.nextChildId < QUOTE_ID_BASE && IdleIfHalted(e)
    ensures IdleIfHalted(Tick(e, now).0) && (e.halted.Some? ==> Tick(e, now).0.halted.Some?)
  {
    var w, requoted, halt := TickStages(e, now);
    if halt.Some? {
      HaltKeepsOrders(requoted, halt.value);
    }
  }
}
