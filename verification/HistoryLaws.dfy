/** What the rest of a run can no longer change: ended orders, used ids, reported fills, and a halt. */
module HistoryLaws {
  import opened Types
  import opened VenueSpec
  import opened EngineSpec
  import opened EngineRuns
  import opened MarkLaws
  import opened RetireLaws
  import opened SafetyLaws
  import opened CommandLaws
  import opened RunLaws

  /** Ids are never reused, and an order that had ended is as it was, or forgotten. */
  ghost predicate OrdersFollow(a: Engine, b: Engine) {
    && a.nextParentId <= b.nextParentId
    && forall id :: id < a.nextParentId && id !in a.working && id in b.parents ==>
         id in a.parents && b.parents[id] == a.parents[id]
  }

  /** After a halt nothing works and nothing trades. */
  ghost predicate HaltFollows(a: Trace, b: Trace) {
    a.engine.halted.Some? ==>
      && b.engine.halted.Some? && b.engine.working == {}
      && b.engine.positions == a.engine.positions && b.log == a.log
  }

  /** What was replied and reported stays on record. */
  ghost predicate RecordsFollow(a: Trace, b: Trace) {
    a.replies <= b.replies && a.log <= b.log && Refs(a.engine.venue) == Refs(b.engine.venue)
  }

  ghost predicate Follows(a: Trace, b: Trace) {
    OrdersFollow(a.engine, b.engine) && HaltFollows(a, b) && RecordsFollow(a, b)
  }

  // ---------------------------------------------------------------- one command

  lemma ParentIdsGrow(t: Trace, c: Command)
    requires Core(t.engine) && Step(t, c).engine.nextChildId < QUOTE_ID_BASE
    ensures t.engine.nextParentId <= Step(t, c).engine.nextParentId
  {
    StepCountsUp(t, c);
    match c
    case SubmitCommand(order, now) => SubmitKeeps(t.engine, order, now);
    case CancelCommand(id) => CancelKeeps(t.engine, id);
    case TickCommand(now) => TickRests(t.engine, now);
    case HaltCommand => HaltKeeps(t.engine, Requested);
  }

  lemma ContinuesFollows(a: Engine, b: Engine)
    requires Filing(a, {}) && Continues(a.parents, b.parents, a.nextParentId) && a.nextParentId <= b.nextParentId
    ensures OrdersFollow(a, b)
  {
  }

  lemma StepOrdersFollow(t: Trace, c: Command)
    requires Core(t.engine) && Step(t, c).engine.nextChildId < QUOTE_ID_BASE
    ensures OrdersFollow(t.engine, Step(t, c).engine)
  {
    TerminalStatesAreFinal(t, c);
    ParentIdsGrow(t, c);
    ContinuesFollows(t.engine, Step(t, c).engine);
  }

  lemma StepHaltFollows(t: Trace, c: Command)
    requires Core(t.engine) && Step(t, c).engine.nextChildId < QUOTE_ID_BASE && IdleIfHalted(t.engine)
    ensures HaltFollows(t, Step(t, c))
  {
    HaltsAreFinal(t, c);
    if t.engine.halted.Some? {
      match c
      case SubmitCommand(order, now) =>
      case CancelCommand(id) => CancelKeeps(t.engine, id);
      case TickCommand(now) => IdleTick(t, now);
      case HaltCommand => HaltKeeps(t.engine, Requested);
    }
  }

  lemma IdleTick(t: Trace, now: U64)
    requires Core(t.engine) && Step(t, TickCommand(now)).engine.nextChildId < QUOTE_ID_BASE && t.engine.working == {}
    ensures var next := Step(t, TickCommand(now)); next.engine.positions == t.engine.positions && next.log == t.log
  {
    StepCountsUp(t, TickCommand(now));
    TickRests(t.engine, now);
    assert Worked(t.engine, now) == Opening(t.engine);
  }

  lemma StepFollows(t: Trace, c: Command)
    requires Core(t.engine) && Step(t, c).engine.nextChildId < QUOTE_ID_BASE && IdleIfHalted(t.engine)
    ensures Follows(t, Step(t, c))
  {
    StepOrdersFollow(t, c);
    StepHaltFollows(t, c);
    StepKeepsCore(t, c);
    SameListingSameRefs(t.engine.venue, Step(t, c).engine.venue);
  }

  // -------------------------------------------------------------- many commands

  lemma OrdersChain(a: Engine, b: Engine, c: Engine)
    requires Filing(a, {}) && Filing(b, {}) && OrdersFollow(a, b) && OrdersFollow(b, c)
    ensures OrdersFollow(a, c)
  {
    forall id | id < a.nextParentId && id !in a.working && id in c.parents
      ensures id in a.parents && c.parents[id] == a.parents[id]
    {
      assert id !in b.working;
    }
  }

  lemma FollowsChains(a: Trace, b: Trace, c: Trace)
    requires Filing(a.engine, {}) && Filing(b.engine, {}) && Follows(a, b) && Follows(b, c)
    ensures Follows(a, c)
  {
    OrdersChain(a.engine, b.engine, c.engine);
  }

  lemma FollowsItself(t: Trace)
    requires Filing(t.engine, {}) && IdleIfHalted(t.engine)
    ensures Follows(t, t)
  {
  }

  /** `t` is reached from `first` by a run that has kept every promise. */
  ghost predicate Onward(start: Engine, first: Trace, t: Trace) {
    Safe(start, first) && Safe(start, t) && Follows(first, t)
  }

  lemma StartsOnward(start: Engine, first: Trace)
    requires Safe(start, first)
    ensures Onward(start, first, first)
  {
    FollowsItself(first);
  }

  lemma StepGoesOn(start: Engine, first: Trace, t: Trace, c: Command, next: Trace)
    requires Onward(start, first, t) && next == Step(t, c) && next.engine.nextChildId < QUOTE_ID_BASE
    ensures Onward(start, first, next)
  {
    StepKeepsSafe(start, t, c);
    StepFollows(t, c);
    FollowsChains(first, t, next);
  }

  /** A run going on from `first`. */
  function RunFrom(first: Trace, more: seq<Command>): Trace {
    if more == [] then first else Step(RunFrom(first, more[..|more| - 1]), more[|more| - 1])
  }

  lemma LastRuns(start: Engine, all: seq<Command>, init: seq<Command>, last: Command)
    requires all == init + [last]
    ensures Run(start, all) == Step(Run(start, init), last)
  {
    assert all[..|all| - 1] == init;
  }

  /** Two runs that came to the same state go on alike. */
  lemma GoOnAlike(start: Engine, all: seq<Command>, before: seq<Command>, last: Command, first: Trace,
                  more: seq<Command>, init: seq<Command>)
    requires all == before + [last] && more == init + [last] && Run(start, before) == RunFrom(first, init)
    ensures Run(start, all) == RunFrom(first, more)
  {
    LastRuns(start, all, before, last);
    assert more[..|more| - 1] == init;
  }

  lemma {:induction false} RunSplits(start: Engine, commands: seq<Command>, more: seq<Command>, first: Trace,
                                     all: seq<Command>)
    requires first == Run(start, commands) && all == commands + more
    ensures Run(start, all) == RunFrom(first, more)
  {
    if more == [] {
      assert all == commands;
    } else {
      var init, last := more[..|more| - 1], more[|more| - 1];
      RunSplits(start, commands, init, first, commands + init);
      GoOnAlike(start, all, commands + init, last, first, more, init);
    }
  }

  lemma LastStep(first: Trace, more: seq<Command>, next: Trace) returns (t: Trace, last: Command)
    requires more != [] && next == RunFrom(first, more)
    ensures last == more[|more| - 1] && t == RunFrom(first, more[..|more| - 1]) && next == Step(t, last)
    ensures t.engine.nextChildId <= next.engine.nextChildId
  {
    t, last := RunFrom(first, more[..|more| - 1]), more[|more| - 1];
    StepCountsUp(t, last);
  }

  /** A longer run came to where the shorter one was, and went on from there. */
  lemma {:induction false} GoesOn(start: Engine, first: Trace, more: seq<Command>, later: Trace)
    requires Safe(start, first) && later == RunFrom(first, more) && later.engine.nextChildId < QUOTE_ID_BASE
    ensures Onward(start, first, later)
  {
    if more == [] {
      StartsOnward(start, first);
    } else {
      var t, last := LastStep(first, more, later);
      GoesOn(start, first, more[..|more| - 1], t);
      StepGoesOn(start, first, t, last, later);
    }
  }
}
