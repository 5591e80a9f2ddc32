/** Safety over whole runs: any sequence of submits, cancels, ticks and halts, however spaced. */
module RunLaws {
  import opened Types
  import opened Sums
  import opened VenueSpec
  import opened VenueLaws
  import opened Risk
  import opened ParentOrders
  import opened EngineSpec
  import opened EngineRuns
  import opened ExposureLaws
  import opened MarkLaws
  import opened TickLaws
  import opened RetireLaws
  import opened SafetyLaws
  import opened CommandLaws

  // --------------------------------------------------------- the child counter

  lemma {:induction false} PruneKeepsIds(e: Engine)
    ensures Prune(e).nextChildId == e.nextChildId
    decreases |e.finished|
  {
    if |e.finished| > e.retained {
      PruneKeepsIds(e.(finished := e.finished[1..], parents := e.parents - {e.finished[0]}));
    }
  }

  lemma RetireKeepsIds(e: Engine, id: nat)
    ensures Retire(e, id).nextChildId == e.nextChildId
  {
    PruneKeepsIds(e.(working := e.working - {id}, finished := e.finished + [id]));
  }

  lemma {:induction false} RetireAllKeepsIds(e: Engine, ids: seq<nat>)
    ensures RetireAll(e, ids).nextChildId == e.nextChildId
  {
    if ids != [] {
      RetireAllKeepsIds(e, ids[..|ids| - 1]);
      RetireKeepsIds(RetireAll(e, ids[..|ids| - 1]), ids[|ids| - 1]);
    }
  }

  lemma {:induction false} StopAllKeepsIds(e: Engine, todo: set<nat>)
    ensures StopAll(e, todo).nextChildId == e.nextChildId
    decreases todo
  {
    if todo != {} {
      var id := Lowest(todo);
      var stopped := if id in e.parents then e.(parents := e.parents[id := Stop(e.parents[id])]) else e;
      RetireKeepsIds(stopped, id);
      StopAllKeepsIds(Retire(stopped, id), todo - {id});
    }
  }

  lemma SettleKeepsIds(w: Round)
    ensures Settle(w).nextChildId == w.engine.nextChildId
  {
    var requoted, halt := SettleEnds(w, RetireAll(w.engine, w.finished));
    RetireAllKeepsIds(w.engine, w.finished);
    StopAllKeepsIds(requoted, requoted.working);
  }

  lemma CancelKeepsIds(e: Engine, id: nat)
    ensures CancelOrder(e, id).0.nextChildId == e.nextChildId
  {
    if id in e.parents {
      RetireKeepsIds(e.(parents := e.parents[id := Stop(e.parents[id])]), id);
    }
  }

  /** Child ids are never reused. */
  lemma StepCountsUp(t: Trace, c: Command)
    ensures t.engine.nextChildId <= Step(t, c).engine.nextChildId
    ensures c.TickCommand? ==> Worked(t.engine, c.now).engine.nextChildId == Step(t, c).engine.nextChildId
  {
    match c
    case SubmitCommand(order, now) =>
    case CancelCommand(id) => CancelKeepsIds(t.engine, id);
    case TickCommand(now) =>
      ChildIdsGrowOn(Opening(t.engine), t.engine.working, now);
      SettleKeepsIds(Worked(t.engine, now));
    case HaltCommand => StopAllKeepsIds(t.engine, t.engine.working);
  }

  // ------------------------------------------------------------- every command

  /** What the engine needs to keep all the rest. */
  ghost predicate Core(e: Engine) {
    VenueRests(e) && OrdersRest(e) && InLimits(e) && Sane(e.risk)
  }

  /** What no command ever changes. */
  ghost predicate SameSetup(a: Engine, b: Engine) {
    SameListing(a.venue, b.venue) && a.risk == b.risk && a.retained == b.retained
  }

  lemma SetupChains(a: Engine, b: Engine, c: Engine)
    requires SameSetup(a, b) && SameSetup(b, c)
    ensures SameSetup(a, c)
  {
    SameListingChains(a.venue, b.venue, c.venue);
  }

  lemma StepKeepsCore(t: Trace, c: Command)
    requires Core(t.engine) && Step(t, c).engine.nextChildId < QUOTE_ID_BASE
    ensures Core(Step(t, c).engine) && SameSetup(t.engine, Step(t, c).engine)
  {
    StepCountsUp(t, c);
    match c
    case SubmitCommand(order, now) => SubmitKeeps(t.engine, order, now);
    case CancelCommand(id) => CancelKeeps(t.engine, id);
    case TickCommand(now) =>
      TickRests(t.engine, now);
      TickKeepsLimits(t.engine, now);
    case HaltCommand => HaltKeeps(t.engine, Requested);
  }

  lemma StepKeepsAccounts(t: Trace, c: Command)
    requires Core(t.engine) && Step(t, c).engine.nextChildId < QUOTE_ID_BASE && AccountsFor(t.engine, t.log)
    ensures AccountsFor(Step(t, c).engine, Step(t, c).log)
  {
    StepCountsUp(t, c);
    match c
    case SubmitCommand(order, now) => SubmitKeeps(t.engine, order, now);
    case CancelCommand(id) => CancelKeeps(t.engine, id);
    case TickCommand(now) => TickKeepsAccounts(t.engine, now, t.log);
    case HaltCommand => HaltKeeps(t.engine, Requested);
  }

  lemma StepKeepsSolvent(t: Trace, c: Command)
    requires Core(t.engine) && Step(t, c).engine.nextChildId < QUOTE_ID_BASE && Solvent(t.engine)
    ensures Solvent(Step(t, c).engine)
  {
    StepCountsUp(t, c);
    match c
    case SubmitCommand(order, now) =>
      SubmitKeeps(t.engine, order, now);
      SameMoney(t.engine, Step(t, c).engine);
    case CancelCommand(id) =>
      CancelKeeps(t.engine, id);
      SameMoney(t.engine, Step(t, c).engine);
    case TickCommand(now) => TickRests(t.engine, now);
    case HaltCommand => HaltKeeps(t.engine, Requested);
  }

  lemma AcceptedIsPunctual(e: Engine, after: Engine, id: nat, latest: map<nat, int>)
    requires Accepted(e, after, id) && Punctual(e, latest)
    ensures Punctual(after, latest[id := -1])
  {
  }

  lemma UntouchedIsPunctual(e: Engine, after: Engine, latest: map<nat, int>)
    requires Punctual(e, latest) && after.working <= e.working
    requires forall i :: i in after.working ==> i in e.parents && i in after.parents && after.parents[i] == e.parents[i]
    ensures Punctual(after, latest)
  {
  }

  lemma SubmitIsPunctual(e: Engine, o: NewOrder, now: U64, latest: map<nat, int>)
    requires Core(e) && Punctual(e, latest)
    ensures var (after, r) := SubmitOrder(e, o, now); Punctual(after, if r.Ok? then latest[r.value := -1] else latest)
  {
    SubmitKeeps(e, o, now);
    var (after, r) := SubmitOrder(e, o, now);
    if r.Ok? {
      AcceptedIsPunctual(e, after, r.value, latest);
    }
  }

  lemma CancelIsPunctual(e: Engine, id: nat, latest: map<nat, int>)
    requires Core(e) && Punctual(e, latest)
    ensures Punctual(CancelOrder(e, id).0, latest)
  {
    CancelKeeps(e, id);
    UntouchedIsPunctual(e, CancelOrder(e, id).0, latest);
  }

  lemma HaltIsPunctual(e: Engine, latest: map<nat, int>)
    requires Core(e)
    ensures Punctual(Halt(e, Requested), latest)
  {
    HaltKeeps(e, Requested);
  }

  lemma TickStepIsPunctual(t: Trace, now: U64)
    requires Core(t.engine) && Punctual(t.engine, t.latest)
    requires Step(t, TickCommand(now)).engine.nextChildId < QUOTE_ID_BASE
    ensures Punctual(Settle(Worked(t.engine, now)), Advance(t.latest, now))
  {
    StepCountsUp(t, TickCommand(now));
    TickIsPunctual(t.engine, now, t.latest, Advance(t.latest, now));
  }

  lemma StepKeepsPunctual(t: Trace, c: Command)
    requires Core(t.engine) && Step(t, c).engine.nextChildId < QUOTE_ID_BASE && Punctual(t.engine, t.latest)
    ensures Punctual(Step(t, c).engine, Step(t, c).latest)
  {
    match c
    case SubmitCommand(order, now) => SubmitIsPunctual(t.engine, order, now, t.latest);
    case CancelCommand(id) => CancelIsPunctual(t.engine, id, t.latest);
    case TickCommand(now) => TickStepIsPunctual(t, now);
    case HaltCommand => HaltIsPunctual(t.engine, t.latest);
  }

  lemma StepReportsFairly(t: Trace, c: Command)
    requires Core(t.engine) && Step(t, c).engine.nextChildId < QUOTE_ID_BASE && FairLog(t.log, Refs(t.engine.venue))
    ensures FairLog(Step(t, c).log, Refs(Step(t, c).engine.venue))
  {
    StepKeepsCore(t, c);
    SameListingSameRefs(t.engine.venue, Step(t, c).engine.venue);
    if c.TickCommand? {
      StepCountsUp(t, c);
      TickReportsFairly(t.engine, c.now);
    }
  }

  /** Once halted, the engine works nothing and stays halted. */
  lemma HaltsAreFinal(t: Trace, c: Command)
    requires Core(t.engine) && Step(t, c).engine.nextChildId < QUOTE_ID_BASE && IdleIfHalted(t.engine)
    ensures IdleIfHalted(Step(t, c).engine) && (t.engine.halted.Some? ==> Step(t, c).engine.halted.Some?)
  {
    match c
    case SubmitCommand(order, now) =>
    case CancelCommand(id) => CancelKeeps(t.engine, id);
    case TickCommand(now) =>
      StepCountsUp(t, c);
      TickStaysHalted(t.engine, now);
    case HaltCommand => HaltKeeps(t.engine, Requested);
  }

  /** No book refuses a child order. */
  lemma StepRefusesNone(t: Trace, c: Command)
    requires Core(t.engine) && Step(t, c).engine.nextChildId < QUOTE_ID_BASE
    ensures Step(t, c).refused == t.refused
  {
    StepCountsUp(t, c);
    if c.TickCommand? {
      TickRests(t.engine, c.now);
    }
  }

  /** Ended orders stay as they ended for as long as they are kept, and only `next` may be new. */
  ghost predicate Continues(before: map<nat, Parent>, after: map<nat, Parent>, next: nat) {
    EndedStay(before, after) && after.Keys <= before.Keys + {next}
  }

  lemma AcceptedContinues(e: Engine, after: Engine, id: nat)
    requires Accepted(e, after, id)
    ensures Continues(e.parents, after.parents, e.nextParentId)
  {
  }

  lemma SameContinues(parents: map<nat, Parent>, next: nat)
    ensures Continues(parents, parents, next)
  {
  }

  lemma SubmitContinues(e: Engine, o: NewOrder, now: U64)
    requires Core(e)
    ensures Continues(e.parents, SubmitOrder(e, o, now).0.parents, e.nextParentId)
  {
    SubmitKeeps(e, o, now);
    var (after, r) := SubmitOrder(e, o, now);
    if r.Ok? {
      AcceptedContinues(e, after, r.value);
    } else {
      SameContinues(e.parents, e.nextParentId);
    }
  }

  lemma CancelContinues(e: Engine, id: nat)
    requires Core(e)
    ensures Continues(e.parents, CancelOrder(e, id).0.parents, e.nextParentId)
  {
    CancelKeeps(e, id);
    if id in e.parents && e.parents[id].phase.Working? {
      StoredAreFillable(e);
      StopFiles(e, id);
    }
  }

  lemma HaltContinues(e: Engine)
    requires Core(e)
    ensures Continues(e.parents, Halt(e, Requested).parents, e.nextParentId)
  {
    HaltKeeps(e, Requested);
    HaltKeepsOrders(e, Requested);
  }

  /** Whatever comes next, ended orders do not change, and a new order has a new id. */
  lemma TerminalStatesAreFinal(t: Trace, c: Command)
    requires Core(t.engine) && Step(t, c).engine.nextChildId < QUOTE_ID_BASE
    ensures Continues(t.engine.parents, Step(t, c).engine.parents, t.engine.nextParentId)
  {
    match c
    case SubmitCommand(order, now) => SubmitContinues(t.engine, order, now);
    case CancelCommand(id) => CancelContinues(t.engine, id);
    case TickCommand(now) =>
      StepCountsUp(t, c);
      TickKeepsEnded(t.engine, now);
    case HaltCommand => HaltContinues(t.engine);
  }

  // ------------------------------------------------------------------ the start

  lemma NothingOpen(s: Symbol, side: Side)
    ensures Open(map[], s, side) == 0
  {
    var none: map<nat, Parent> := map[];
    assert OpenOf(none, none.Keys, s, side) == map[];
  }

  lemma StartsInLimits(e: Engine)
    requires e.parents == map[] && e.positions == map[] && Sane(e.risk)
    ensures InLimits(e)
  {
    forall s: nat ensures High(e, s) == 0 && Low(e, s) == 0 && UnitsIn(e, s) == 0 {
      NothingOpen(s, Buy);
      NothingOpen(s, Sell);
    }
    TotalOfZeros(GrossOf(e, e.venue.markets.Keys));
  }

  /** An engine without positions is above its loss limit exactly when that limit is positive. */
  lemma StartsSolvent(e: Engine)
    requires e.positions == map[]
    ensures AccountsFor(e, [])
    ensures Solvent(e) <==> e.halted.Some? || 0 < e.risk.maxLoss
  {
    assert PnlTerms(e) == map[];
    assert PnlIn(e.positions, Refs(e.venue), {}) == map[];
  }

  lemma StartsAtRest(e: Engine)
    requires e.parents == map[] && e.working == {} && e.finished == []
    ensures OrdersRest(e) && Punctual(e, map[])
  {
    assert e.parents.Keys - e.working == {};
  }

  lemma StartsQuoted(configs: seq<SymbolConfig>, risk: RiskLimits, retained: nat) returns (e: Engine)
    requires NewEngine(configs, risk, retained).Ok?
    ensures e == NewEngine(configs, risk, retained).value && VenueRests(e)
    ensures e.risk == risk && e.parents == map[] && e.positions == map[] && e.working == {} && e.finished == []
  {
    NewVenueIsQuoted(configs);
    e := NewEngine(configs, risk, retained).value;
  }

  lemma StartIsSafe(configs: seq<SymbolConfig>, risk: RiskLimits, retained: nat)
    requires NewEngine(configs, risk, retained).Ok? && Sane(risk)
    ensures var e := NewEngine(configs, risk, retained).value;
      Core(e) && Solvent(e) && IdleIfHalted(e) && AccountsFor(e, []) && Punctual(e, map[])
  {
    var e := StartsQuoted(configs, risk, retained);
    StartsAtRest(e);
    StartsInLimits(e);
    StartsSolvent(e);
  }

  // ------------------------------------------------------------------ every run

  /** Everything the engine promises between commands. */
  ghost predicate Safe(start: Engine, t: Trace) {
    && Core(t.engine) && SameSetup(start, t.engine)
    && AccountsFor(t.engine, t.log) && FairLog(t.log, Refs(t.engine.venue))
    && Solvent(t.engine) && IdleIfHalted(t.engine) && Punctual(t.engine, t.latest) && t.refused == []
  }

  lemma StepKeepsSafe(start: Engine, t: Trace, c: Command)
    requires Safe(start, t) && Step(t, c).engine.nextChildId < QUOTE_ID_BASE
    ensures Safe(start, Step(t, c))
  {
    var next := Step(t, c);
    assert Core(next.engine) && SameSetup(start, next.engine) by {
      StepKeepsCore(t, c);
      SetupChains(start, t.engine, next.engine);
    }
    assert AccountsFor(next.engine, next.log) by { StepKeepsAccounts(t, c); }
    assert FairLog(next.log, Refs(next.engine.venue)) by { StepReportsFairly(t, c); }
    assert Solvent(next.engine) by { StepKeepsSolvent(t, c); }
    assert IdleIfHalted(next.engine) by { HaltsAreFinal(t, c); }
    assert Punctual(next.engine, next.latest) by { StepKeepsPunctual(t, c); }
    StepRefusesNone(t, c);
  }

  lemma SameSetupItself(e: Engine)
    ensures SameSetup(e, e)
  {
  }

  /**
   * Safety over every run, while child ids stay below the market maker's: whatever the commands and
   * whenever they come, all the promises hold after each of them.
   */
  lemma {:induction false} RunIsSafe(configs: seq<SymbolConfig>, risk: RiskLimits, retained: nat,
                                     commands: seq<Command>)
    requires NewEngine(configs, risk, retained).Ok? && Sane(risk)
    requires Run(NewEngine(configs, risk, retained).value, commands).engine.nextChildId < QUOTE_ID_BASE
    ensures Safe(NewEngine(configs, risk, retained).value, Run(NewEngine(configs, risk, retained).value, commands))
  {
    var start := NewEngine(configs, risk, retained).value;
    if commands == [] {
      StartIsSafe(configs, risk, retained);
      SameSetupItself(start);
    } else {
      var t := Run(start, commands[..|commands| - 1]);
      var last := commands[|commands| - 1];
      StepCountsUp(t, last);
      RunIsSafe(configs, risk, retained, commands[..|commands| - 1]);
      StepKeepsSafe(start, t, last);
    }
  }
}
