/** What a tick does to each order, read off the fills it reports: whatever is owed goes out as one child. */
module TickConduct {
  import opened Types
  import opened BookSpec
  import opened MatchingLaws
  import opened VenueSpec
  import opened VenueLaws
  import opened ParentOrders
  import opened EngineSpec
  import opened DeskLaws
  import opened TurnLaws
  import opened TickLaws
  import opened SafetyLaws
  import opened ConductLaws

  // ------------------------------------------------------------- what a log says

  /** The reports of one order, in order. */
  function ReportsFor(log: seq<FillReport>, id: nat): seq<FillReport> {
    if log == [] then []
    else
      var last := log[|log| - 1];
      ReportsFor(log[..|log| - 1], id) + (if last.parentId == id then [last] else [])
  }

  /** Quantity reported. */
  function Traded(reports: seq<FillReport>): nat {
    if reports == [] then 0 else Traded(reports[..|reports| - 1]) + reports[|reports| - 1].quantity
  }

  /** What the reported quantity was worth at its prices. */
  function Paid(reports: seq<FillReport>): int {
    if reports == [] then 0
    else Paid(reports[..|reports| - 1]) + reports[|reports| - 1].price * reports[|reports| - 1].quantity
  }

  lemma {:induction false} ReportsForBoth(a: seq<FillReport>, b: seq<FillReport>, id: nat)
    ensures ReportsFor(a + b, id) == ReportsFor(a, id) + ReportsFor(b, id)
  {
    if b == [] {
      assert a + b == a;
    } else {
      assert (a + b)[..|a + b| - 1] == a + b[..|b| - 1];
      ReportsForBoth(a, b[..|b| - 1], id);
    }
  }

  lemma {:induction false} ReportsForOne(log: seq<FillReport>, id: nat, other: nat)
    requires forall f :: f in log ==> f.parentId == id
    ensures ReportsFor(log, other) == if other == id then log else []
  {
    if log != [] {
      assert log[|log| - 1] in log;
      ReportsForOne(log[..|log| - 1], id, other);
    }
  }

  lemma {:induction false} TradedBoth(a: seq<FillReport>, b: seq<FillReport>)
    ensures Traded(a + b) == Traded(a) + Traded(b) && Paid(a + b) == Paid(a) + Paid(b)
  {
    if b == [] {
      assert a + b == a;
    } else {
      assert (a + b)[..|a + b| - 1] == a + b[..|b| - 1];
      TradedBoth(a, b[..|b| - 1]);
    }
  }

  lemma {:induction false} ReportsTrade(id: nat, childId: nat, s: Symbol, side: Side, now: U64, fills: seq<Fill>)
    ensures var reports := Reports(id, childId, s, side, now, fills);
      Traded(reports) == FilledQty(fills) && Paid(reports) == Notional(fills)
  {
    if fills != [] {
      var init, reports := fills[..|fills| - 1], Reports(id, childId, s, side, now, fills);
      ReportsTrade(id, childId, s, side, now, init);
      assert reports[..|fills| - 1] == Reports(id, childId, s, side, now, init);
      FilledQtyLast(fills);
      NotionalLast(fills);
    }
  }

  // -------------------------------------------------------------------- one turn

  /** A fill of order `p` through that child, at a price within the order's limit. */
  ghost predicate FillOfChild(f: FillReport, p: Parent, id: nat, childId: nat, now: nat) {
    && f == FillReport(id, childId, p.symbol, p.side, f.price, f.quantity, f.time) && f.time == now
    && f.quantity > 0 && f.price > 0 && Within(p.side, p.limit, f.price)
  }

  /**
   * An order's turn. If another slice has come due, all that is owed by now goes out as one new child, and these
   * fills came back for it; otherwise nothing is sent and nothing filled.
   */
  ghost predicate Acted(p: Parent, q: Parent, id: nat, now: nat, reports: seq<FillReport>) {
    if NextDue(p, now) then
      && q.released == DueQty(p.schedule, now) > p.released >= p.filled
      && q.filled == p.filled + Traded(reports)
      && PaidFor(p.notional, q.notional, Paid(reports))
      && NewChild(p, q, now, DueQty(p.schedule, now) - p.filled, Traded(reports))
      && forall f :: f in reports ==> FillOfChild(f, p, id, q.children[|p.children|].id, now)
    else
      q == p.(phase := q.phase) && reports == []
  }

  ghost predicate NewChild(p: Parent, q: Parent, now: nat, qty: nat, filled: nat) {
    && |q.children| == |p.children| + 1
    && q.children == p.children + [ChildView(q.children[|p.children|].id, now, qty, filled)]
  }

  /** A new child's id is one of those given out in between. */
  ghost predicate ChildIn(p: Parent, q: Parent, low: nat, high: nat) {
    low <= high && (|q.children| > |p.children| ==> low <= q.children[|p.children|].id < high)
  }

  /** These are reports of that order's one new child, if it sent one. */
  ghost predicate OfChild(reports: seq<FillReport>, id: nat, childId: nat, next: nat) {
    childId <= next && forall f :: f in reports ==> f.parentId == id && f.childId == childId < next
  }

  lemma ReportsAreOfChild(p: Parent, id: nat, childId: nat, now: U64, fills: seq<Fill>, queue: seq<Order>)
    requires FillsOfBook(fills, queue, p.side, p.limit)
    ensures forall f :: f in Reports(id, childId, p.symbol, p.side, now, fills) ==> FillOfChild(f, p, id, childId, now)
  {
  }

  lemma TurnActs(r: Round, id: nat, now: U64, p: Parent) returns (more: seq<FillReport>, next: Round, q: Parent)
    requires MayWork(r.engine, id) && VenueOk(r.engine.venue) && r.engine.nextChildId < QUOTE_ID_BASE && r.failure.None?
    requires p == r.engine.parents[id]
    ensures next == WorkOne(r, id, now) && id in next.engine.parents && q == next.engine.parents[id]
    ensures next.fills == r.fills + more && Acted(p, q, id, now, more) && Stands(q, now)
    ensures ChildIn(p, q, r.engine.nextChildId, next.engine.nextChildId)
    ensures OfChild(more, id, r.engine.nextChildId, next.engine.nextChildId)
  {
    next := WorkOne(r, id, now);
    if NextDue(p, now) {
      var fills := TurnSendsDue(r, id, now, p);
      q := next.engine.parents[id];
      more := Reports(id, r.engine.nextChildId, p.symbol, p.side, now, fills);
      ReportsTrade(id, r.engine.nextChildId, p.symbol, p.side, now, fills);
      ReportsAreOfChild(p, id, r.engine.nextChildId, now, fills,
                        r.engine.venue.markets[p.symbol].book.Of(p.side.Opposite()));
    } else {
      TurnWaits(r, id, now, p);
      q, more := next.engine.parents[id], [];
    }
  }

  // -------------------------------------------------------------------- the loop

  /** `more` was reported in between. */
  ghost predicate Grown(before: seq<FillReport>, more: seq<FillReport>, after: seq<FillReport>) {
    after == before + more
  }

  lemma GrownTwice(a: seq<FillReport>, one: seq<FillReport>, b: seq<FillReport>, rest: seq<FillReport>,
                   c: seq<FillReport>)
    requires Grown(a, one, b) && Grown(b, rest, c)
    ensures Grown(a, one + rest, c)
  {
  }

  lemma NotGrown(a: seq<FillReport>)
    ensures Grown(a, [], a)
  {
  }

  /** The order had its turn, or the accounting failed before it, or it was not its tick. */
  ghost predicate OrderActed(p: Parent, q: Parent, id: nat, due: bool, failed: bool, now: nat,
                             reports: seq<FillReport>) {
    if !due || (failed && q == p && reports == []) then q == p && reports == []
    else Acted(p, q, id, now, reports) && Stands(q, now)
  }

  ghost predicate OrdersActed(before: map<nat, Parent>, after: map<nat, Parent>, todo: set<nat>, failed: bool,
                              now: nat, fills: seq<FillReport>) {
    && before.Keys == after.Keys
    && forall id :: id in before ==>
         OrderActed(before[id], after[id], id, id in todo, failed, now, ReportsFor(fills, id))
  }

  ghost predicate ChildrenIn(before: map<nat, Parent>, after: map<nat, Parent>, low: nat, high: nat) {
    forall id :: id in before && id in after ==> ChildIn(before[id], after[id], low, high)
  }

  lemma ActedChains(before: map<nat, Parent>, mid: map<nat, Parent>, after: map<nat, Parent>, todo: set<nat>, s: nat,
                    failed: bool, now: nat, one: seq<FillReport>, rest: seq<FillReport>)
    requires s in before && s in mid && s in todo && mid == before[s := mid[s]]
    requires Acted(before[s], mid[s], s, now, one) && Stands(mid[s], now) && forall f :: f in one ==> f.parentId == s
    requires OrdersActed(mid, after, todo - {s}, failed, now, rest)
    ensures OrdersActed(before, after, todo, failed, now, one + rest)
  {
    forall id | id in before
      ensures OrderActed(before[id], after[id], id, id in todo, failed, now, ReportsFor(one + rest, id))
    {
      ReportsForBoth(one, rest, id);
      ReportsForOne(one, s, id);
      assert OrderActed(mid[id], after[id], id, id in todo - {s}, failed, now, ReportsFor(rest, id));
      assert one + [] == one && [] + ReportsFor(rest, id) == ReportsFor(rest, id);
    }
  }

  lemma ChildrenChain(before: map<nat, Parent>, mid: map<nat, Parent>, after: map<nat, Parent>, s: nat, low: nat,
                      next: nat, high: nat, todo: set<nat>, failed: bool, now: nat, rest: seq<FillReport>)
    requires s in before && s in mid && mid == before[s := mid[s]] && ChildIn(before[s], mid[s], low, next)
    requires ChildrenIn(mid, after, next, high) && s !in todo && OrdersActed(mid, after, todo, failed, now, rest)
    requires next <= high
    ensures ChildrenIn(before, after, low, high)
  {
    forall id | id in before && id in after ensures ChildIn(before[id], after[id], low, high) {
      assert ChildIn(mid[id], after[id], next, high);
      assert OrderActed(mid[id], after[id], id, id in todo, failed, now, ReportsFor(rest, id));
    }
  }

  /** One turn of the loop. */
  lemma ShapedStep(r: Round, todo: set<nat>, now: U64) returns (s: nat, next: Round)
    requires Ready(r, todo) && todo != {} && r.failure.None?
      && WorkFrom(r, todo, now).engine.nextChildId < QUOTE_ID_BASE
    ensures s in todo && Ready(next, todo - {s}) && WorkFrom(r, todo, now) == WorkFrom(next, todo - {s}, now)
    ensures forall id :: id in todo ==> s <= id
    ensures next == WorkOne(r, s, now) && TurnShape(r, next, s)
    ensures MayWork(r.engine, s) && r.engine.nextChildId < QUOTE_ID_BASE
  {
    ChildIdsGrowOn(r, todo, now);
    s, next := WorkFromStep(r, todo, now);
    assert MayWork(r.engine, s);
    TurnKeepsLedger(r, s, now);
    StillReady(r, next, todo, s);
  }

  /** One order of the loop has acted; the others are as they were. */
  ghost predicate StepActed(before: map<nat, Parent>, after: map<nat, Parent>, s: nat, p: Parent, q: Parent, now: nat,
                            low: nat, high: nat, reports: seq<FillReport>) {
    && s in before && p == before[s] && after == before[s := q]
    && Acted(p, q, s, now, reports) && Stands(q, now) && ChildIn(p, q, low, high)
    && forall f :: f in reports ==> f.parentId == s
  }

  /** What a turn in the loop reports. */
  lemma ActStep(r: Round, todo: set<nat>, now: U64)
    returns (s: nat, next: Round, more: seq<FillReport>, p: Parent, q: Parent)
    requires Ready(r, todo) && todo != {} && r.failure.None?
      && WorkFrom(r, todo, now).engine.nextChildId < QUOTE_ID_BASE
    ensures s in todo && Ready(next, todo - {s}) && WorkFrom(r, todo, now) == WorkFrom(next, todo - {s}, now)
    ensures forall id :: id in todo ==> s <= id
    ensures Grown(r.fills, more, next.fills)
    ensures StepActed(r.engine.parents, next.engine.parents, s, p, q, now, r.engine.nextChildId,
                      next.engine.nextChildId, more)
    ensures OfChild(more, s, r.engine.nextChildId, next.engine.nextChildId)
  {
    s, next := ShapedStep(r, todo, now);
    p := r.engine.parents[s];
    var same;
    more, same, q := TurnActs(r, s, now, p);
  }

  ghost predicate LoopActed(before: map<nat, Parent>, after: map<nat, Parent>, todo: set<nat>, failed: bool, now: nat,
                            fills: seq<FillReport>, low: nat, high: nat) {
    && OrdersActed(before, after, todo, failed, now, fills)
    && ChildrenIn(before, after, low, high) && low <= high
  }

  lemma LoopGoesOn(before: map<nat, Parent>, mid: map<nat, Parent>, after: map<nat, Parent>, todo: set<nat>, s: nat,
                   p: Parent, q: Parent, failed: bool, now: nat, one: seq<FillReport>, rest: seq<FillReport>,
                   low: nat, next: nat, high: nat)
    requires s in todo && StepActed(before, mid, s, p, q, now, low, next, one)
    requires LoopActed(mid, after, todo - {s}, failed, now, rest, next, high)
    ensures LoopActed(before, after, todo, failed, now, one + rest, low, high)
  {
    ActedChains(before, mid, after, todo, s, failed, now, one, rest);
    ChildrenChain(before, mid, after, s, low, next, high, todo - {s}, failed, now, rest);
  }

  lemma NoneActed(parents: map<nat, Parent>, todo: set<nat>, failed: bool, now: nat, next: nat)
    requires todo == {} || failed
    ensures LoopActed(parents, parents, todo, failed, now, [], next, next)
  {
  }

  /** Every order of a tick acts on what is due, unless the accounting failed before its turn. */
  lemma {:induction false} LoopActs(r: Round, todo: set<nat>, now: U64) returns (more: seq<FillReport>)
    requires Ready(r, todo) && WorkFrom(r, todo, now).engine.nextChildId < QUOTE_ID_BASE
    ensures var w := WorkFrom(r, todo, now);
      && Grown(r.fills, more, w.fills)
      && LoopActed(r.engine.parents, w.engine.parents, todo, w.failure.Some?, now, more, r.engine.nextChildId,
                   w.engine.nextChildId)
    decreases todo
  {
    if todo != {} && r.failure.None? {
      var s, next, one, p, q := ActStep(r, todo, now);
      var rest := LoopActs(next, todo - {s}, now);
      var w := WorkFrom(next, todo - {s}, now);
      more := one + rest;
      GrownTwice(r.fills, one, next.fills, rest, w.fills);
      LoopGoesOn(r.engine.parents, next.engine.parents, w.engine.parents, todo, s, p, q, w.failure.Some?, now, one,
                 rest, r.engine.nextChildId, next.engine.nextChildId, w.engine.nextChildId);
    } else {
      more := [];
      NotGrown(r.fills);
      NoneActed(r.engine.parents, todo, r.failure.Some?, now, r.engine.nextChildId);
    }
  }

  /** Reports come child by child, and a child's reports are all of one order. */
  ghost predicate InChildOrder(log: seq<FillReport>, next: nat) {
    && (forall i :: 0 <= i < |log| ==> log[i].childId < next)
    && forall i, j :: 0 <= i < j < |log| ==>
         log[i].childId < log[j].childId || (log[i].childId == log[j].childId && log[i].parentId == log[j].parentId)
  }

  lemma OneMoreChild(log: seq<FillReport>, before: seq<FillReport>, more: seq<FillReport>, after: seq<FillReport>,
                     id: nat, childId: nat, next: nat)
    requires InChildOrder(log + before, childId) && Grown(before, more, after) && OfChild(more, id, childId, next)
    ensures InChildOrder(log + after, next)
  {
    assert log + after == log + before + more;
  }

  lemma {:induction false} LoopReportsInOrder(r: Round, todo: set<nat>, now: U64, log: seq<FillReport>)
    requires Ready(r, todo) && WorkFrom(r, todo, now).engine.nextChildId < QUOTE_ID_BASE
    requires InChildOrder(log + r.fills, r.engine.nextChildId)
    ensures InChildOrder(log + WorkFrom(r, todo, now).fills, WorkFrom(r, todo, now).engine.nextChildId)
    decreases todo
  {
    if todo != {} && r.failure.None? {
      var s, next, one, p, q := ActStep(r, todo, now);
      OneMoreChild(log, r.fills, one, next.fills, s, r.engine.nextChildId, next.engine.nextChildId);
      LoopReportsInOrder(next, todo - {s}, now, log);
    }
  }

  /** Reports come order by order, lowest id first. */
  ghost predicate InOrderOfIds(fills: seq<FillReport>) {
    forall i, j :: 0 <= i < j < |fills| ==> fills[i].parentId <= fills[j].parentId
  }

  ghost predicate BeforeAll(fills: seq<FillReport>, ids: set<nat>) {
    forall f, id :: f in fills && id in ids ==> f.parentId <= id
  }

  lemma OneMoreOrder(before: seq<FillReport>, more: seq<FillReport>, after: seq<FillReport>, s: nat, todo: set<nat>,
                     childId: nat, next: nat)
    requires InOrderOfIds(before) && BeforeAll(before, todo) && s in todo && forall id :: id in todo ==> s <= id
    requires Grown(before, more, after) && OfChild(more, s, childId, next)
    ensures InOrderOfIds(after) && BeforeAll(after, todo - {s})
  {
    forall i, j | 0 <= i < j < |after| ensures after[i].parentId <= after[j].parentId {
      assert i < |before| ==> before[i] in before;
      assert j >= |before| ==> after[j] == more[j - |before|];
      assert i >= |before| ==> after[i] == more[i - |before|];
    }
  }

  lemma {:induction false} LoopReportsById(r: Round, todo: set<nat>, now: U64)
    requires Ready(r, todo) && WorkFrom(r, todo, now).engine.nextChildId < QUOTE_ID_BASE
    requires InOrderOfIds(r.fills) && BeforeAll(r.fills, todo)
    ensures InOrderOfIds(WorkFrom(r, todo, now).fills)
    decreases todo
  {
    if todo != {} && r.failure.None? {
      var s, next, one, p, q := ActStep(r, todo, now);
      OneMoreOrder(r.fills, one, next.fills, s, todo, r.engine.nextChildId, next.engine.nextChildId);
      LoopReportsById(next, todo - {s}, now);
    }
  }

  // -------------------------------------------------------------------- the tick

  /** A whole tick: every working order acts on what is due; reports come lowest order id first. */
  lemma TickActs(e: Engine, now: U64, w: Round)
    requires VenueOk(e.venue) && OrdersRest(e) && w == Worked(e, now) && w.engine.nextChildId < QUOTE_ID_BASE
    ensures LoopActed(e.parents, w.engine.parents, e.working, w.failure.Some?, now, w.fills, e.nextChildId,
                      w.engine.nextChildId)
    ensures InOrderOfIds(w.fills)
  {
    TickIsReady(e);
    var more := LoopActs(Opening(e), e.working, now);
    assert more == w.fills;
    LoopReportsById(Opening(e), e.working, now);
  }

  lemma TickReportsInOrder(e: Engine, now: U64, w: Round, log: seq<FillReport>)
    requires VenueOk(e.venue) && OrdersRest(e) && w == Worked(e, now) && w.engine.nextChildId < QUOTE_ID_BASE
    requires InChildOrder(log, e.nextChildId)
    ensures InChildOrder(log + w.fills, w.engine.nextChildId)
  {
    TickIsReady(e);
    assert log + Opening(e).fills == log;
    LoopReportsInOrder(Opening(e), e.working, now, log);
  }
}
