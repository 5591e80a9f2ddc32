/** Every order over a whole run: it stays what was asked for, and every fill of it is on its record. */
module OrderLaws {
  import opened Types
  import opened DivMod
  import opened MatchingLaws
  import opened VenueSpec
  import opened ParentOrders
  import opened Schedule
  import opened EngineSpec
  import opened EngineRuns
  import opened TurnLaws
  import opened MarkLaws
  import opened TickLaws
  import opened ConductLaws
  import opened TickConduct
  import opened RetireLaws
  import opened SafetyLaws
  import opened CommandLaws
  import opened RunLaws
  import opened AdmitLaws
  import opened HistoryLaws
  import opened TallyLaws

  // ------------------------------------------------------------- one order's record

  /** Quantity reported for a child. */
  function FilledByChild(reports: seq<FillReport>, childId: nat): nat {
    if reports == [] then 0
    else
      var last := reports[|reports| - 1];
      FilledByChild(reports[..|reports| - 1], childId) + (if last.childId == childId then last.quantity else 0)
  }

  lemma {:induction false} FilledByBoth(a: seq<FillReport>, b: seq<FillReport>, childId: nat)
    ensures FilledByChild(a + b, childId) == FilledByChild(a, childId) + FilledByChild(b, childId)
  {
    if b == [] {
      assert a + b == a;
    } else {
      assert (a + b)[..|a + b| - 1] == a + b[..|b| - 1];
      FilledByBoth(a, b[..|b| - 1], childId);
    }
  }

  lemma {:induction false} FilledByNone(reports: seq<FillReport>, childId: nat)
    requires forall f :: f in reports ==> f.childId != childId
    ensures FilledByChild(reports, childId) == 0
  {
    if reports != [] {
      assert reports[|reports| - 1] in reports;
      FilledByNone(reports[..|reports| - 1], childId);
    }
  }

  lemma {:induction false} FilledByOne(reports: seq<FillReport>, childId: nat)
    requires forall f :: f in reports ==> f.childId == childId
    ensures FilledByChild(reports, childId) == Traded(reports)
  {
    if reports != [] {
      assert reports[|reports| - 1] in reports;
      FilledByOne(reports[..|reports| - 1], childId);
    }
  }

  /** Children have rising ids, below `next`. */
  ghost predicate ChildrenRise(children: seq<ChildView>, next: nat) {
    && (forall i :: 0 <= i < |children| ==> children[i].id < next)
    && forall i, j :: 0 <= i < j < |children| ==> children[i].id < children[j].id
  }

  /** Every child has filled what was reported for it. */
  ghost predicate ChildrenFilled(children: seq<ChildView>, reports: seq<FillReport>) {
    forall i :: 0 <= i < |children| ==> children[i].filled == FilledByChild(reports, children[i].id)
  }

  /** Every report is of a child, at the time it was sent. */
  ghost predicate OfChildren(reports: seq<FillReport>, children: seq<ChildView>) {
    forall f :: f in reports ==>
      exists i :: 0 <= i < |children| && children[i].id == f.childId && children[i].sentAt == f.time
  }

  /** The reports are the order's fills: in quantity, in money, and child by child. */
  ghost predicate Recorded(p: Parent, reports: seq<FillReport>, next: nat) {
    && p.filled == Traded(reports)
    && 0 <= Paid(reports) && p.notional == Min(Paid(reports), I128_MAX)
    && ChildrenRise(p.children, next) && ChildrenFilled(p.children, reports) && OfChildren(reports, p.children)
  }

  lemma {:induction false} PaidIsNatural(reports: seq<FillReport>)
    requires forall f :: f in reports ==> f.price > 0
    ensures Paid(reports) >= 0
  {
    if reports != [] {
      var last := reports[|reports| - 1];
      assert last in reports;
      PaidIsNatural(reports[..|reports| - 1]);
      MulMono(0, last.price, last.quantity);
    }
  }

  lemma SumsActed(p: Parent, q: Parent, id: nat, now: nat, reports: seq<FillReport>, more: seq<FillReport>)
    requires p.filled == Traded(reports) && 0 <= Paid(reports) && p.notional == Min(Paid(reports), I128_MAX)
    requires Acted(p, q, id, now, more)
    ensures q.filled == Traded(reports + more)
    ensures 0 <= Paid(reports + more) && q.notional == Min(Paid(reports + more), I128_MAX)
  {
    TradedBoth(reports, more);
    PaidIsNatural(more);
  }

  /** A new child's reports, after those of the children before it. */
  lemma ChildrenActed(p: Parent, q: Parent, id: nat, now: nat, reports: seq<FillReport>, more: seq<FillReport>,
                      low: nat, high: nat, qty: nat)
    requires ChildrenRise(p.children, low) && ChildrenFilled(p.children, reports) && OfChildren(reports, p.children)
    requires NewChild(p, q, now, qty, Traded(more)) && ChildIn(p, q, low, high)
    requires forall f :: f in more ==> f.childId == q.children[|p.children|].id && f.time == now
    ensures ChildrenRise(q.children, high) && ChildrenFilled(q.children, reports + more)
      && OfChildren(reports + more, q.children)
  {
    var n, child := |p.children|, q.children[|p.children|].id;
    forall i | 0 <= i < |q.children|
      ensures q.children[i].filled == FilledByChild(reports + more, q.children[i].id)
    {
      FilledByBoth(reports, more, q.children[i].id);
      if i < n {
        FilledByNone(more, q.children[i].id);
      } else {
        FilledByNone(reports, child);
        FilledByOne(more, child);
      }
    }
    forall f | f in reports + more
      ensures exists i :: 0 <= i < |q.children| && q.children[i].id == f.childId && q.children[i].sentAt == f.time
    {
      if f in reports {
        var i :| 0 <= i < |p.children| && p.children[i].id == f.childId && p.children[i].sentAt == f.time;
        assert q.children[i] == p.children[i];
      } else {
        assert q.children[n].id == f.childId && q.children[n].sentAt == f.time;
      }
    }
  }

  lemma RecordActed(p: Parent, q: Parent, id: nat, now: nat, reports: seq<FillReport>, more: seq<FillReport>,
                    low: nat, high: nat)
    requires Recorded(p, reports, low) && Acted(p, q, id, now, more) && ChildIn(p, q, low, high)
    ensures Recorded(q, reports + more, high)
  {
    SumsActed(p, q, id, now, reports, more);
    if NextDue(p, now) {
      ChildrenActed(p, q, id, now, reports, more, low, high, DueQty(p.schedule, now) - p.filled);
    } else {
      assert reports + more == reports;
    }
  }

  // ---------------------------------------------------------------- what was asked for

  /** The orders that were accepted, by id, as the clients know them: what they asked for, and the reply. */
  function Orders(commands: seq<Command>, replies: seq<Reply>): map<nat, NewOrder>
    requires |commands| == |replies|
  {
    if commands == [] then map[]
    else
      var n := |commands| - 1;
      OrdersAfter(Orders(commands[..n], replies[..n]), commands[n], replies[n])
  }

  function OrdersAfter(orders: map<nat, NewOrder>, c: Command, reply: Reply): map<nat, NewOrder> {
    if c.SubmitCommand? && reply.Submitted? && reply.accepted.Ok? then orders[reply.accepted.value := c.order]
    else orders
  }

  /** A stored order is the one asked for under its id, and its fills are on its record. */
  ghost predicate OrderKept(p: Parent, id: nat, orders: map<nat, NewOrder>, refs: map<Symbol, I64>,
                            reports: seq<FillReport>, next: nat) {
    && id in orders && orders[id].symbol in refs
    && RequestKept(p, orders[id], id, refs[orders[id].symbol]) && Recorded(p, reports, next)
  }

  /** A reported fill is one its order asked for: in its symbol, on its side, within its limit, not before its start. */
  ghost predicate FillKept(f: FillReport, orders: map<nat, NewOrder>) {
    && f.parentId in orders
    && var o := orders[f.parentId];
       && f.symbol == o.symbol && f.side == o.side && f.quantity > 0 && f.price > 0
       && Within(o.side, o.limit, f.price) && o.start <= f.time
  }

  ghost predicate LogKept(log: seq<FillReport>, orders: map<nat, NewOrder>) {
    forall f :: f in log ==> FillKept(f, orders)
  }

  /** No order, kept or forgotten, was ever filled beyond its quantity. */
  ghost predicate NoneOverfilled(log: seq<FillReport>, orders: map<nat, NewOrder>) {
    forall id :: id in orders ==> Traded(ReportsFor(log, id)) <= orders[id].quantity
  }

  ghost predicate IdsGivenOut(orders: map<nat, NewOrder>, next: nat) {
    forall id :: id in orders ==> id < next
  }

  // -------------------------------------------------------------------- ticks

  /** Orders kept are as they were, but for how they ended. */
  ghost predicate SameButPhase(before: map<nat, Parent>, after: map<nat, Parent>) {
    forall id :: id in after ==> id in before && after[id] == before[id].(phase := after[id].phase)
  }

  lemma StoppedSameButPhase(before: map<nat, Parent>, after: map<nat, Parent>)
    requires OrdersStopped(before, after)
    ensures SameButPhase(before, after)
  {
    forall id | id in after ensures id in before && after[id] == before[id].(phase := after[id].phase) {
      assert OrderStopped(before[id], after[id]);
    }
  }

  lemma TickSameButPhase(e: Engine, now: U64)
    requires VenueRests(e) && OrdersRest(e) && Worked(e, now).engine.nextChildId < QUOTE_ID_BASE
    ensures SameButPhase(Worked(e, now).engine.parents, Tick(e, now).0.parents)
  {
    var w, requoted, halt := TickStages(e, now);
    if halt.Some? {
      HaltKeepsOrders(requoted, halt.value);
      StoppedSameButPhase(requoted.parents, Halt(requoted, halt.value).parents);
    }
  }

  lemma ActedKept(p: Parent, q: Parent, after: Parent, id: nat, orders: map<nat, NewOrder>, refs: map<Symbol, I64>,
                  log: seq<FillReport>, fills: seq<FillReport>, due: bool, failed: bool, now: nat, low: nat, high: nat)
    requires OrderKept(p, id, orders, refs, ReportsFor(log, id), low)
    requires OrderActed(p, q, id, due, failed, now, ReportsFor(fills, id)) && ChildIn(p, q, low, high)
    requires SameRequest(p, q) && after == q.(phase := after.phase)
    ensures OrderKept(after, id, orders, refs, ReportsFor(log + fills, id), high)
  {
    ReportsForBoth(log, fills, id);
    if q == p && ReportsFor(fills, id) == [] {
      assert ReportsFor(log + fills, id) == ReportsFor(log, id);
    } else {
      RecordActed(p, q, id, now, ReportsFor(log, id), ReportsFor(fills, id), low, high);
    }
  }

  lemma WorkedSameRequest(before: map<nat, Parent>, after: map<nat, Parent>, todo: set<nat>, failed: bool, now: nat,
                          id: nat)
    requires OrdersWorked(before, after, todo, failed, now) && id in before
    ensures SameRequest(before[id], after[id])
  {
    assert OrderWorked(before[id], after[id], id in todo, failed, now);
  }

  lemma {:induction false} InReportsFor(log: seq<FillReport>, f: FillReport)
    requires f in log
    ensures f in ReportsFor(log, f.parentId)
  {
    var i :| 0 <= i < |log| && log[i] == f;
    if i < |log| - 1 {
      assert log[..|log| - 1][i] == f;
      InReportsFor(log[..|log| - 1], f);
    }
  }

  lemma {:induction false} NotReportedFor(log: seq<FillReport>, id: nat)
    requires forall f :: f in log ==> f.parentId != id
    ensures ReportsFor(log, id) == []
  {
    if log != [] {
      assert log[|log| - 1] in log;
      NotReportedFor(log[..|log| - 1], id);
    }
  }

  ghost predicate AllKept(parents: map<nat, Parent>, orders: map<nat, NewOrder>, refs: map<Symbol, I64>,
                          log: seq<FillReport>, next: nat) {
    forall id :: id in parents ==> OrderKept(parents[id], id, orders, refs, ReportsFor(log, id), next)
  }

  lemma AllActedKept(before: map<nat, Parent>, worked: map<nat, Parent>, after: map<nat, Parent>,
                     orders: map<nat, NewOrder>, refs: map<Symbol, I64>, log: seq<FillReport>, fills: seq<FillReport>,
                     todo: set<nat>, failed: bool, now: nat, low: nat, high: nat)
    requires AllKept(before, orders, refs, log, low) && OrdersWorked(before, worked, todo, failed, now)
    requires LoopActed(before, worked, todo, failed, now, fills, low, high) && SameButPhase(worked, after)
    ensures AllKept(after, orders, refs, log + fills, high)
  {
    forall id | id in after ensures OrderKept(after[id], id, orders, refs, ReportsFor(log + fills, id), high) {
      WorkedSameRequest(before, worked, todo, failed, now, id);
      assert OrderActed(before[id], worked[id], id, id in todo, failed, now, ReportsFor(fills, id));
      assert ChildIn(before[id], worked[id], low, high);
      ActedKept(before[id], worked[id], after[id], id, orders, refs, log, fills, id in todo, failed, now, low, high);
    }
  }

  lemma FillActedKept(p: Parent, q: Parent, id: nat, orders: map<nat, NewOrder>, refs: map<Symbol, I64>,
                      reports: seq<FillReport>, next: nat, due: bool, failed: bool, now: nat, more: seq<FillReport>,
                      f: FillReport)
    requires OrderKept(p, id, orders, refs, reports, next) && OrderActed(p, q, id, due, failed, now, more)
    requires f in more
    ensures FillKept(f, orders)
  {
    GoodScheduleMeans(p.schedule, orders[id].quantity, orders[id].start, orders[id].end);
    assert FillOfChild(f, p, id, q.children[|p.children|].id, now);
  }

  lemma FillsActedKept(before: map<nat, Parent>, worked: map<nat, Parent>, orders: map<nat, NewOrder>,
                       refs: map<Symbol, I64>, log: seq<FillReport>, fills: seq<FillReport>, todo: set<nat>,
                       failed: bool, now: nat, low: nat)
    requires AllKept(before, orders, refs, log, low) && OrdersActed(before, worked, todo, failed, now, fills)
    requires forall f :: f in fills ==> f.parentId in before
    ensures LogKept(fills, orders)
  {
    forall f | f in fills ensures FillKept(f, orders) {
      var id := f.parentId;
      InReportsFor(fills, f);
      assert OrderKept(before[id], id, orders, refs, ReportsFor(log, id), low);
      assert OrderActed(before[id], worked[id], id, id in todo, failed, now, ReportsFor(fills, id));
      FillActedKept(before[id], worked[id], id, orders, refs, ReportsFor(log, id), low, id in todo, failed, now,
                    ReportsFor(fills, id), f);
    }
  }

  lemma NoneActedOver(before: map<nat, Parent>, worked: map<nat, Parent>, orders: map<nat, NewOrder>,
                      refs: map<Symbol, I64>, log: seq<FillReport>, fills: seq<FillReport>, high: nat)
    requires AllKept(worked, orders, refs, log + fills, high) && NoneOverfilled(log, orders)
    requires before.Keys == worked.Keys && forall id :: id in worked ==> worked[id].filled <= worked[id].quantity
    requires forall f :: f in fills ==> f.parentId in before
    ensures NoneOverfilled(log + fills, orders)
  {
    forall id | id in orders ensures Traded(ReportsFor(log + fills, id)) <= orders[id].quantity {
      if id in worked {
        assert OrderKept(worked[id], id, orders, refs, ReportsFor(log + fills, id), high);
      } else {
        ReportsForBoth(log, fills, id);
        NotReportedFor(fills, id);
        assert ReportsFor(log + fills, id) == ReportsFor(log, id);
      }
    }
  }

  /** Everything on record about the orders of a run. */
  ghost predicate OnRecord(e: Engine, orders: map<nat, NewOrder>, log: seq<FillReport>) {
    && AllKept(e.parents, orders, Refs(e.venue), log, e.nextChildId)
    && LogKept(log, orders) && NoneOverfilled(log, orders) && InChildOrder(log, e.nextChildId)
    && IdsGivenOut(orders, e.nextParentId)
  }

  /** What a tick's turns leave, before anything is retired. */
  lemma TurnsActed(e: Engine, now: U64, w: Round)
    requires VenueRests(e) && OrdersRest(e) && w == Worked(e, now) && w.engine.nextChildId < QUOTE_ID_BASE
    ensures LoopActed(e.parents, w.engine.parents, e.working, w.failure.Some?, now, w.fills, e.nextChildId,
                      w.engine.nextChildId)
    ensures OrdersWorked(e.parents, w.engine.parents, e.working, w.failure.Some?, now)
    ensures forall f :: f in w.fills ==> f.parentId in e.parents
    ensures forall id :: id in w.engine.parents ==> w.engine.parents[id].filled <= w.engine.parents[id].quantity
  {
    TickIsReady(e);
    TickActs(e, now, w);
    LoopWorksOrders(Opening(e), e.working, now);
    LoopTallies(Opening(e), e.working, now);
    StoredAreFillable(e);
    forall id | id in w.engine.parents ensures w.engine.parents[id].filled <= w.engine.parents[id].quantity {
      assert OrderWorked(e.parents[id], w.engine.parents[id], id in e.working, w.failure.Some?, now);
    }
  }

  lemma TickOnRecord(e: Engine, now: U64, orders: map<nat, NewOrder>, log: seq<FillReport>)
    requires VenueRests(e) && OrdersRest(e) && Worked(e, now).engine.nextChildId < QUOTE_ID_BASE
    requires OnRecord(e, orders, log)
    ensures OnRecord(Tick(e, now).0, orders, log + Worked(e, now).fills)
  {
    var w, after, refs := Worked(e, now), Tick(e, now).0, Refs(e.venue);
    var failed := w.failure.Some?;
    TurnsActed(e, now, w);
    TickSameButPhase(e, now);
    TickRests(e, now);
    SameListingSameRefs(e.venue, after.venue);
    AllActedKept(e.parents, w.engine.parents, after.parents, orders, refs, log, w.fills, e.working, failed, now,
                 e.nextChildId, w.engine.nextChildId);
    AllActedKept(e.parents, w.engine.parents, w.engine.parents, orders, refs, log, w.fills, e.working, failed, now,
                 e.nextChildId, w.engine.nextChildId);
    FillsActedKept(e.parents, w.engine.parents, orders, refs, log, w.fills, e.working, failed, now, e.nextChildId);
    NoneActedOver(e.parents, w.engine.parents, orders, refs, log, w.fills, w.engine.nextChildId);
    TickReportsInOrder(e, now, w, log);
  }

  // ------------------------------------------------------------- the other commands

  lemma NewIsKept(p: Parent, o: NewOrder, id: nat, orders: map<nat, NewOrder>, refs: map<Symbol, I64>, next: nat)
    requires o.symbol in refs && NewlyStored(p, o, id, refs[o.symbol])
    ensures OrderKept(p, id, orders[id := o], refs, [], next)
  {
  }

  lemma LogStillKept(log: seq<FillReport>, orders: map<nat, NewOrder>, id: nat, o: NewOrder)
    requires LogKept(log, orders) && id !in orders
    ensures LogKept(log, orders[id := o]) && ReportsFor(log, id) == []
  {
    forall f | f in log ensures f.parentId != id && FillKept(f, orders[id := o]) {
      assert FillKept(f, orders);
    }
    NotReportedFor(log, id);
  }

  lemma OneMoreKept(before: map<nat, Parent>, after: map<nat, Parent>, id: nat, o: NewOrder,
                    orders: map<nat, NewOrder>, refs: map<Symbol, I64>, log: seq<FillReport>, next: nat)
    requires AllKept(before, orders, refs, log, next) && id in after && after == before[id := after[id]]
    requires OrderKept(after[id], id, orders[id := o], refs, [], next) && ReportsFor(log, id) == []
    ensures AllKept(after, orders[id := o], refs, log, next)
  {
    forall i | i in after ensures OrderKept(after[i], i, orders[id := o], refs, ReportsFor(log, i), next) {
      if i != id {
        assert OrderKept(before[i], i, orders, refs, ReportsFor(log, i), next);
      }
    }
  }

  lemma NoneYetOverfilled(log: seq<FillReport>, orders: map<nat, NewOrder>, id: nat, o: NewOrder)
    requires NoneOverfilled(log, orders) && ReportsFor(log, id) == []
    ensures NoneOverfilled(log, orders[id := o])
  {
  }

  lemma AcceptedOnRecord(e: Engine, after: Engine, o: NewOrder, id: nat, orders: map<nat, NewOrder>,
                         log: seq<FillReport>)
    requires OnRecord(e, orders, log) && TakenOn(e, after, o, id)
    ensures OnRecord(after, orders[id := o], log)
  {
    assert id !in orders;
    LogStillKept(log, orders, id, o);
    NoneYetOverfilled(log, orders, id, o);
    NewIsKept(after.parents[id], o, id, orders, Refs(e.venue), e.nextChildId);
    OneMoreKept(e.parents, after.parents, id, o, orders, Refs(e.venue), log, e.nextChildId);
  }

  lemma StoppedOnRecord(e: Engine, after: Engine, orders: map<nat, NewOrder>, log: seq<FillReport>)
    requires OnRecord(e, orders, log) && OrdersStopped(e.parents, after.parents) && SameBut(e, after)
    ensures OnRecord(after, orders, log)
  {
    StoppedSameButPhase(e.parents, after.parents);
    forall id | id in after.parents
      ensures OrderKept(after.parents[id], id, orders, Refs(e.venue), ReportsFor(log, id), e.nextChildId)
    {
      assert OrderKept(e.parents[id], id, orders, Refs(e.venue), ReportsFor(log, id), e.nextChildId);
    }
  }

  lemma CancelOnRecord(e: Engine, id: nat, orders: map<nat, NewOrder>, log: seq<FillReport>)
    requires Core(e) && OnRecord(e, orders, log)
    ensures OnRecord(CancelOrder(e, id).0, orders, log)
  {
    if id in e.parents && e.parents[id].phase.Working? {
      CancelKeeps(e, id);
      StoredAreFillable(e);
      StopFiles(e, id);
      StoppedOnRecord(e, CancelOrder(e, id).0, orders, log);
    }
  }

  lemma HaltOnRecord(e: Engine, orders: map<nat, NewOrder>, log: seq<FillReport>)
    requires Core(e) && OnRecord(e, orders, log)
    ensures OnRecord(Halt(e, Requested), orders, log)
  {
    HaltKeepsOrders(e, Requested);
    StoppedOnRecord(e, Halt(e, Requested), orders, log);
  }

  lemma SubmitOnRecord(e: Engine, o: NewOrder, now: U64, orders: map<nat, NewOrder>, log: seq<FillReport>)
    requires Core(e) && OnRecord(e, orders, log)
    ensures var (after, r) := SubmitOrder(e, o, now);
      OnRecord(after, if r.Ok? then orders[r.value := o] else orders, log)
  {
    var after, r := SubmitsExactly(e, o, now);
    if r.Ok? {
      AcceptedOnRecord(e, after, o, r.value, orders, log);
    }
  }

  /** Every command keeps the record of every order. */
  lemma StepKeepsRecord(t: Trace, c: Command, orders: map<nat, NewOrder>) returns (next: Trace, reply: Reply)
    requires Core(t.engine) && Step(t, c).engine.nextChildId < QUOTE_ID_BASE && OnRecord(t.engine, orders, t.log)
    ensures next == Step(t, c) && next.replies == t.replies + [reply]
    ensures OnRecord(next.engine, OrdersAfter(orders, c, reply), next.log)
  {
    next := Step(t, c);
    reply := next.replies[|t.replies|];
    StepCountsUp(t, c);
    match c
    case SubmitCommand(order, now) => SubmitOnRecord(t.engine, order, now, orders, t.log);
    case CancelCommand(id) => CancelOnRecord(t.engine, id, orders, t.log);
    case TickCommand(now) => TickOnRecord(t.engine, now, orders, t.log);
    case HaltCommand => HaltOnRecord(t.engine, orders, t.log);
  }

  /** A new engine has nothing on record. */
  lemma StartsOnRecord(e: Engine)
    requires e.parents == map[]
    ensures OnRecord(e, map[], [])
  {
  }

  // -------------------------------------------------------- orders that no longer work

  /** Nothing more is reported for an id that was given out and no longer works. */
  ghost predicate Untraded(a: Engine, log: seq<FillReport>, later: seq<FillReport>) {
    forall id: nat :: id < a.nextParentId && id !in a.working ==> ReportsFor(later, id) == ReportsFor(log, id)
  }

  lemma TickUntraded(e: Engine, now: U64, log: seq<FillReport>)
    requires VenueRests(e) && OrdersRest(e) && Worked(e, now).engine.nextChildId < QUOTE_ID_BASE
    ensures Untraded(e, log, log + Worked(e, now).fills)
  {
    var w := Worked(e, now);
    TurnsActed(e, now, w);
    forall id: nat | id < e.nextParentId && id !in e.working
      ensures ReportsFor(log + w.fills, id) == ReportsFor(log, id)
    {
      ReportsForBoth(log, w.fills, id);
      if id in e.parents {
        assert OrderActed(e.parents[id], w.engine.parents[id], id, false, w.failure.Some?, now,
                          ReportsFor(w.fills, id));
      } else {
        NotReportedFor(w.fills, id);
      }
    }
  }

  lemma StepUntraded(t: Trace, c: Command)
    requires Core(t.engine) && Step(t, c).engine.nextChildId < QUOTE_ID_BASE
    ensures Untraded(t.engine, t.log, Step(t, c).log)
  {
    if c.TickCommand? {
      StepCountsUp(t, c);
      TickUntraded(t.engine, c.now, t.log);
    }
  }

  lemma UntradedChains(a: Engine, b: Engine, log: seq<FillReport>, later: seq<FillReport>, last: seq<FillReport>)
    requires Filing(b, {}) && OrdersFollow(a, b) && Filing(a, {})
    requires Untraded(a, log, later) && Untraded(b, later, last)
    ensures Untraded(a, log, last)
  {
    forall id: nat | id < a.nextParentId && id !in a.working ensures ReportsFor(last, id) == ReportsFor(log, id) {
      assert id !in b.working;
      assert ReportsFor(later, id) == ReportsFor(log, id);
    }
  }

  /** However a run goes on, an order that no longer works is never traded again. */
  lemma {:induction false} StaysUntraded(start: Engine, first: Trace, more: seq<Command>, later: Trace)
    requires Safe(start, first) && later == RunFrom(first, more) && later.engine.nextChildId < QUOTE_ID_BASE
    ensures Untraded(first.engine, first.log, later.log)
  {
    if more != [] {
      var t, last := LastStep(first, more, later);
      GoesOn(start, first, more[..|more| - 1], t);
      StaysUntraded(start, first, more[..|more| - 1], t);
      StepUntraded(t, last);
      UntradedChains(first.engine, t.engine, first.log, t.log, later.log);
    }
  }
}
