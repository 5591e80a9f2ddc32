/** The engine core as the source keeps it: maps, sets and queues changed in place, over a venue of live books. */
module Engines {
  import opened Types
  import opened BookSpec
  import opened VenueSpec
  import opened SimulatedVenues
  import opened Risk
  import opened ParentOrders
  import Accounting
  import Schedule
  import Twap
  import Vwap
  import IS = ImplementationShortfall
  import Spec = EngineSpec
  import opened EngineSpec
  import opened EngineRuns

  class EngineCore {
    const venue: SimulatedVenue
    const risk: RiskLimits
    const retained: nat
    var parents: map<nat, Parent>
    var working: set<nat>
    var finished: seq<nat>
    var positions: map<Symbol, Holding>
    var nextParentId: nat
    var nextChildId: nat
    var halted: Option<HaltReason>

    /** The engine's own fields, with a venue as it stands at some moment. */
    function With(v: Venue): Engine
      reads this
    {
      Engine(v, risk, parents, working, finished, retained, positions, nextParentId, nextChildId, halted)
    }

    ghost function View(): Engine
      reads this, venue
    {
      With(venue.shown)
    }

    constructor (v: SimulatedVenue, limits: RiskLimits, keep: nat)
      ensures venue == v && risk == limits && retained == keep
      ensures forall now :: With(now) == Engine(now, limits, map[], {}, [], keep, map[], 1, 1, None)
    {
      venue, risk, retained := v, limits, keep;
      parents, working, finished, positions := map[], {}, [], map[];
      nextParentId, nextChildId, halted := 1, 1, None;
    }

    // ---------------------------------------------------- exposure and P&L

    /** Position and unfilled working quantity in a symbol. */
    method Exposure(s: Symbol, mid: I64, ghost e: Engine) returns (x: SymbolExposure)
      requires e == With(e.venue)
      ensures x == ExposureIn(e, s, mid)
    {
      var todo := working;
      var buys: U64, sells: U64 := 0, 0;
      while todo != {}
        invariant AddWorking(parents, todo, s, Buy, buys) == AddWorking(parents, working, s, Buy, 0)
        invariant AddWorking(parents, todo, s, Sell, sells) == AddWorking(parents, working, s, Sell, 0)
        decreases todo
      {
        var id := Lowest(todo);
        if id in parents && parents[id].symbol == s {
          var unfilled := parents[id].quantity - parents[id].filled;
          match parents[id].side
          case Buy => buys := Clamp(buys + unfilled, 0, U64_MAX);
          case Sell => sells := Clamp(sells + unfilled, 0, U64_MAX);
        }
        todo := todo - {id};
      }
      x := SymbolExposure(HoldingOf(positions, s).quantity, buys, sells, mid);
    }

    ghost predicate Valid()
      reads this, venue, Books(venue.markets)
    {
      venue.Valid()
    }

    function Mark(s: Symbol): (mark: Option<I64>)
      requires Valid()
      reads this, venue, Books(venue.markets)
      ensures mark == Spec.Mark(venue.shown, s)
    {
      if venue.Mid(s).Some? then venue.Mid(s) else venue.Reference(s)
    }

    /** Every symbol's mark. */
    function Marks(): (marks: map<Symbol, Option<I64>>)
      requires Valid()
      reads this, venue, Books(venue.markets)
      ensures marks.Keys == venue.markets.Keys == venue.shown.markets.Keys
      ensures forall s :: s in marks ==> marks[s] == Spec.Mark(venue.shown, s)
    {
      map s | s in venue.markets :: Mark(s)
    }

    /** Sum over symbols of (|position| + unfilled working quantity) at the mark. */
    method GrossExposure(marks: map<Symbol, Option<I64>>, ghost e: Engine) returns (sum: I128)
      requires e == With(e.venue) && marks.Keys == e.venue.markets.Keys
      requires forall s :: s in marks ==> marks[s] == Spec.Mark(e.venue, s)
      ensures sum == TotalGross(e)
    {
      var todo := marks.Keys;
      sum := 0;
      ghost var terms := GrossTerms(e);
      EverySymbolMarked(e);
      while todo != {}
        invariant e == With(e.venue) && todo <= marks.Keys == terms.Keys
        invariant SaturatingSum(terms, todo, sum) == SaturatingSum(terms, terms.Keys, 0)
        decreases todo
      {
        var s := Lowest(todo);
        var x := Exposure(s, marks[s].value, e);
        sum := Saturate(sum + Saturate(Units(x) * marks[s].value));
        todo := todo - {s};
      }
    }

    /** Realized plus unrealized P&L across symbols. */
    method TotalProfit() returns (sum: I128)
      requires Valid()
      ensures sum == TotalPnl(View())
    {
      var todo := positions.Keys;
      sum := 0;
      ghost var terms := PnlTerms(View());
      while todo != {}
        invariant todo <= positions.Keys == terms.Keys
        invariant SaturatingSum(terms, todo, sum) == SaturatingSum(terms, terms.Keys, 0)
        decreases todo
      {
        var s := Lowest(todo);
        var mark := Mark(s);
        var unrealized: I128 := if mark.Some? then Accounting.UnrealizedPnl(positions[s], mark.value) else 0;
        sum := Saturate(sum + Saturate(positions[s].realizedPnl + unrealized));
        todo := todo - {s};
      }
    }

    // ---------------------------------------------------- submit and cancel

    /** Validates, risk-checks and schedules a parent order, and returns its id. */
    method SubmitOrder(o: NewOrder, now: U64) returns (r: Result<nat, RejectReason>)
      requires Valid()
      modifies this
      ensures Valid() && (View(), r) == Spec.SubmitOrder(old(View()), o, now)
    {
      var checked := Check(o, now, View());
      if checked.Err? {
        return Err(checked.error);
      }
      r := Ok(nextParentId);
      Store(NewParent(nextParentId, o, checked.value.0, checked.value.1));
    }

    /** The order's schedule and the mid it arrives at, or why it is not accepted. */
    method Check(o: NewOrder, now: U64, ghost e: Engine) returns (r: Result<(seq<Schedule.Child>, I64), RejectReason>)
      requires Valid() && e == View()
      ensures Spec.SubmitOrder(e, o, now) == match r
        case Err(reason) => (e, Err(reason))
        case Ok((schedule, mid)) => (Accept(e, NewParent(e.nextParentId, o, schedule, mid)), Ok(e.nextParentId))
    {
      var admitted := Admit(o, now, e);
      if admitted.Err? {
        SubmitRejects(e, o, now, admitted.error);
        return Err(admitted.error);
      }
      var schedule := ComputeSchedule(o);
      if schedule.Err? {
        SubmitRefuses(e, o, now, admitted.value, schedule.error);
        return Err(BadSchedule(schedule.error));
      }
      SubmitAccepts(e, o, now, admitted.value, schedule.value);
      r := Ok((schedule.value, admitted.value));
    }

    method Store(parent: Parent)
      requires Valid()
      modifies this
      ensures Valid() && View() == Accept(old(View()), parent)
    {
      AddParent(parent);
      assert unchanged(venue) && forall b :: b in Books(venue.markets) ==> unchanged(b);
    }

    /** Stores a new order under the next id and starts working it. */
    method AddParent(parent: Parent)
      modifies this
      ensures forall v :: With(v) == Accept(old(With(v)), parent)
    {
      var id := nextParentId;
      nextParentId := id + 1;
      parents := parents[id := parent];
      working := working + {id};
    }

    /** The checks before the schedule, in the source's order. */
    method Admit(o: NewOrder, now: U64, ghost e: Engine) returns (r: Result<I64, RejectReason>)
      requires Valid() && e == View()
      ensures r == Spec.Admit(e, o, now)
    {
      if halted.Some? {
        return Err(Halted(halted.value));
      }
      if o.symbol !in venue.markets {
        return Err(NoSuchSymbol(o.symbol));
      }
      if o.quantity == 0 {
        return Err(RejectReason.ZeroQuantity);
      }
      if o.limit.Some? && o.limit.value <= 0 {
        return Err(NonPositiveLimitPrice);
      }
      if o.end <= now {
        return Err(WindowEnded);
      }
      var mid := venue.Mid(o.symbol);
      if mid.None? {
        return Err(NoMarket(o.symbol));
      }
      var gross := GrossExposure(Marks(), e);
      var x := Exposure(o.symbol, mid.value, e);
      var violation := CheckNewOrder(risk, o.side, o.quantity, o.limit, x, gross);
      r := if violation.Some? then Err(RiskFailed(violation.value)) else Ok(mid.value);
    }

    /** Stops a working order from releasing more. */
    method CancelOrder(id: nat) returns (r: Result<(), CancelError>)
      modifies this
      ensures forall v :: (With(v), r) == Spec.CancelOrder(old(With(v)), id)
    {
      if id !in parents {
        return Err(Unknown(id));
      }
      if !parents[id].phase.Working? {
        return Err(NotWorking(id, parents[id].phase));
      }
      StopOrder(id);
      Retire(id);
      r := Ok(());
    }

    method StopOrder(id: nat)
      requires id in parents
      modifies this
      ensures forall v :: With(v) == old(With(v)).(parents := old(parents)[id := Stop(old(parents)[id])])
    {
      var parent := new ParentOrder(parents[id]);
      parent.Cancel();
      parents := parents[id := parent.View()];
    }

    /** Files an order that is over, dropping the oldest finished ones beyond the limit. */
    method Retire(id: nat)
      modifies this
      ensures forall v :: With(v) == Spec.Retire(old(With(v)), id)
    {
      working := working - {id};
      finished := finished + [id];
      label Filed:
      while |finished| > retained
        invariant forall v :: Prune(With(v)) == Prune(old@Filed(With(v)))
        decreases |finished|
      {
        var oldest := finished[0];
        finished := finished[1..];
        parents := parents - {oldest};
      }
    }

    method CancelInPlace(id: nat) returns (r: Result<(), CancelError>)
      requires Valid()
      modifies this
      ensures Valid() && (View(), r) == Spec.CancelOrder(old(View()), id)
    {
      r := CancelOrder(id);
      assert unchanged(venue) && forall b :: b in Books(venue.markets) ==> unchanged(b);
    }

    // ----------------------------------------------------------------- ticks

    /** Takes a child's fills in order, until one of them overflows its position. */
    method TakeAll(parent: ParentOrder, id: nat, childId: nat, now: U64, done: seq<Fill>, reports: seq<FillReport>)
      returns (fills: seq<FillReport>, failure: Option<HaltReason>)
      modifies this`positions, parent`filled, parent`notional, parent`children
      ensures Desk(parent.View(), positions, fills, failure)
        == TakeFills(Desk(old(parent.View()), old(positions), reports, None), id, childId, now, done)
    {
      ghost var start := Desk(parent.View(), positions, reports, None);
      fills, failure := reports, None;
      var i := 0;
      while i < |done| && failure.None?
        invariant i <= |done|
        invariant Desk(parent.View(), positions, fills, failure) == TakeFills(start, id, childId, now, done[..i])
        decreases |done| - i
      {
        assert done[..i + 1][..i] == done[..i];
        fills, failure := TakeOne(parent, id, childId, now, done[i], fills);
        i := i + 1;
      }
      FailureSticks(start, id, childId, now, done, i);
    }

    /** One fill: applied to its position, recorded with its order and reported; or nothing of it. */
    method TakeOne(parent: ParentOrder, id: nat, childId: nat, now: U64, fill: Fill, reports: seq<FillReport>)
      returns (fills: seq<FillReport>, failure: Option<HaltReason>)
      modifies this`positions, parent`filled, parent`notional, parent`children
      ensures Desk(parent.View(), positions, fills, failure)
        == TakeFill(Desk(old(parent.View()), old(positions), reports, None), id, childId, now, fill)
    {
      var s, side := parent.request.symbol, parent.request.side;
      var position := new Accounting.Position(HoldingOf(positions, s));
      var ok := position.ApplyFill(Accounting.Trade(side, fill.price, fill.qty));
      positions := positions[s := position.View()];
      if !ok {
        return reports, Some(AccountingOverflow(s));
      }
      parent.AddFill(fill.price, fill.qty);
      fills, failure := reports + [FillReport(id, childId, s, side, fill.price, fill.qty, now)], None;
    }

    /** Takes what the book answered to a child: its fills, or a refusal. */
    method Receive(parent: ParentOrder, id: nat, childId: nat, now: U64, answer: Result<SubmitResult, VenueError>,
                   fills: seq<FillReport>, refused: seq<nat>)
      returns (more: seq<FillReport>, failure: Option<HaltReason>, stillRefused: seq<nat>)
      modifies this`positions, this`parents, parent
      ensures parents == old(parents)[id := parent.View()]
      ensures Answered(Desk(old(parent.View()), old(positions), fills, None), id, childId, now, answer,
                       Desk(parent.View(), positions, more, failure), refused, stillRefused)
    {
      more, failure, stillRefused := fills, None, refused;
      match answer {
        case Err(_) => stillRefused := refused + [childId];
        case Ok(done) =>
          more, failure := TakeAll(parent, id, childId, now, done.fills, fills);
          parent.CloseIfFilled();
      }
      parents := parents[id := parent.View()];
    }

    /** Numbers a child order and records it with its order; the venue stands as it did. */
    method Number(parent: ParentOrder, qty: nat, now: U64) returns (childId: nat)
      requires Valid()
      modifies this`nextChildId, parent`children
      ensures Valid() && venue.shown == old(venue.shown) && venue.markets == old(venue.markets)
      ensures childId == old(nextChildId) && nextChildId == childId + 1
      ensures parent.View() == RecordChild(old(parent.View()), childId, now, qty)
    {
      childId := nextChildId;
      nextChildId := childId + 1;
      parent.AddChild(childId, now, qty);
      assert unchanged(venue) && forall b :: b in Books(venue.markets) ==> unchanged(b);
    }

    /** Numbers and records a child order, and sends it to its book. */
    method Dispatch(parent: ParentOrder, qty: nat, now: U64)
      returns (childId: nat, answer: Result<SubmitResult, VenueError>)
      requires Valid()
      modifies this`nextChildId, parent`children, venue, Books(venue.markets)
      ensures Valid() && venue.markets == old(venue.markets)
      ensures childId == old(nextChildId) && nextChildId == childId + 1
      ensures parent.View() == RecordChild(old(parent.View()), childId, now, qty)
      ensures (venue.shown, answer) == var p := old(parent.View());
        Execute(old(venue.shown), p.symbol, ChildOrder(childId, p.side, p.limit, qty, now))
    {
      childId := Number(parent, qty, now);
      answer := venue.Execute(parent.request.symbol,
                              ChildOrder(childId, parent.request.side, parent.request.limit, qty, now));
    }

    /** Sends one child order of the order in `parent` and takes its fills. */
    method SendChild(parent: ParentOrder, id: nat, qty: nat, now: U64, fills: seq<FillReport>, refused: seq<nat>,
                     ghost r: Round)
      returns (more: seq<FillReport>, failure: Option<HaltReason>, stillRefused: seq<nat>)
      requires Valid() && qty > 0 && r == Round(View(), fills, r.finished, None, refused)
      modifies this`nextChildId, this`positions, this`parents, parent, venue, Books(venue.markets)
      ensures Valid() && venue.markets == old(venue.markets)
      ensures Round(View(), more, r.finished, failure, stillRefused) == Send(r, id, old(parent.View()), qty, now)
      ensures id in parents && parents[id] == parent.View()
    {
      ghost var p := parent.View();
      var childId, answer := Dispatch(parent, qty, now);
      SendMeans(r, id, p, qty, now, venue.shown, answer);
      more, failure, stillRefused := TakeAnswer(parent, id, childId, now, answer, fills, refused, r);
    }

    /** As `Receive`; the venue stands as it did. */
    method ReceiveInPlace(parent: ParentOrder, id: nat, childId: nat, now: U64,
                          answer: Result<SubmitResult, VenueError>, fills: seq<FillReport>, refused: seq<nat>)
      returns (more: seq<FillReport>, failure: Option<HaltReason>, stillRefused: seq<nat>)
      requires Valid()
      modifies this`positions, this`parents, parent
      ensures Valid()
      ensures parents == old(parents)[id := parent.View()]
      ensures Answered(Desk(old(parent.View()), old(positions), fills, None), id, childId, now, answer,
                       Desk(parent.View(), positions, more, failure), refused, stillRefused)
    {
      ghost var v := venue;
      label Sent:
      more, failure, stillRefused := Receive(parent, id, childId, now, answer, fills, refused);
      assert unchanged@Sent(venue);
      assert forall b :: b in Books(venue.markets) ==> unchanged@Sent(b);
      assert v.Valid();
    }

    /** Takes the answer to the child on record in `parent`, the last step of sending it. */
    method TakeAnswer(parent: ParentOrder, id: nat, childId: nat, now: U64, answer: Result<SubmitResult, VenueError>,
                      fills: seq<FillReport>, refused: seq<nat>, ghost r: Round)
      returns (more: seq<FillReport>, failure: Option<HaltReason>, stillRefused: seq<nat>)
      requires Valid() && childId == r.engine.nextChildId && r == Round(r.engine, fills, r.finished, None, refused)
      requires View() == r.engine.(venue := venue.shown, nextChildId := childId + 1)
      modifies this`positions, this`parents, parent
      ensures Valid() && id in parents && parents[id] == parent.View()
      ensures Round(View(), more, r.finished, failure, stillRefused)
        == Received(r, id, old(parent.View()), now, venue.shown, answer)
    {
      ghost var sent := parent.View();
      more, failure, stillRefused := ReceiveInPlace(parent, id, childId, now, answer, fills, refused);
      ReceivedIs(r, id, sent, now, venue.shown, answer, Desk(parent.View(), positions, more, failure), stillRefused);
    }

    /** One order's turn: releases what is due, sends it, and ends the order if it is filled or its window is over. */
    method WorkOrder(id: nat, now: U64, fills: seq<FillReport>, over: seq<nat>, refused: seq<nat>, ghost r: Round)
      returns (more: seq<FillReport>, stillOver: seq<nat>, failure: Option<HaltReason>, stillRefused: seq<nat>)
      requires Valid() && r == Round(View(), fills, over, None, refused)
      modifies this`nextChildId, this`positions, this`parents, venue, Books(venue.markets)
      ensures Valid() && venue.markets == old(venue.markets)
      ensures Round(View(), more, stillOver, failure, stillRefused) == WorkOne(r, id, now)
    {
      more, stillOver, failure, stillRefused := fills, over, None, refused;
      if id !in parents {
        return;
      }
      var parent := new ParentOrder(parents[id]);
      var qty := parent.Release(now);
      ghost var released := parent.View();
      more, failure, stillRefused := SendDue(parent, id, qty, now, fills, refused, r);
      ghost var sent := Round(View(), more, over, failure, stillRefused);
      TurnCloses(r, id, now, released, qty, sent);
      stillOver := Finish(parent, id, now, over, sent);
    }

    /** Sends what is due, if anything is. */
    method SendDue(parent: ParentOrder, id: nat, qty: int, now: U64, fills: seq<FillReport>, refused: seq<nat>,
                   ghost r: Round)
      returns (more: seq<FillReport>, failure: Option<HaltReason>, stillRefused: seq<nat>)
      requires Valid() && r == Round(View(), fills, r.finished, None, refused)
      modifies this`nextChildId, this`positions, this`parents, parent, venue, Books(venue.markets)
      ensures Valid() && venue.markets == old(venue.markets)
      ensures Round(View(), more, r.finished, failure, stillRefused) ==
        if qty > 0 then Send(r, id, old(parent.View()), qty, now)
        else r.(engine := r.engine.(parents := r.engine.parents[id := old(parent.View())]))
      ensures id in parents && parents[id] == parent.View()
    {
      if qty > 0 {
        more, failure, stillRefused := SendChild(parent, id, qty, now, fills, refused, r);
      } else {
        more, failure, stillRefused := fills, None, refused;
        PutParent(id, parent.View());
      }
    }

    method PutParent(id: nat, p: Parent)
      requires Valid()
      modifies this`parents
      ensures Valid() && View() == old(View()).(parents := old(parents)[id := p])
    {
      parents := parents[id := p];
      assert unchanged(venue) && forall b :: b in Books(venue.markets) ==> unchanged(b);
    }

    method Finish(parent: ParentOrder, id: nat, now: U64, over: seq<nat>, ghost sent: Round)
      returns (stillOver: seq<nat>)
      requires Valid() && id in parents && parents[id] == parent.View()
      requires sent == Round(View(), sent.fills, over, sent.failure, sent.refused)
      modifies this`parents, parent`phase
      ensures Valid() && Round(View(), sent.fills, stillOver, sent.failure, sent.refused) == Close(sent, id, now)
    {
      stillOver := CloseOrder(parent, id, now, over);
      assert unchanged(venue) && forall b :: b in Books(venue.markets) ==> unchanged(b);
    }

    /** Ends an order whose window is over, stores it, and lists it if it is no longer working. */
    method CloseOrder(parent: ParentOrder, id: nat, now: U64, over: seq<nat>) returns (stillOver: seq<nat>)
      modifies this`parents, parent`phase
      ensures var p := old(parent.View());
        var q := if p.phase.Working? && now >= p.end then FinishWindow(p) else p;
        parents == old(parents)[id := q] && stillOver == if q.phase.Working? then over else over + [id]
    {
      if parent.phase.Working? && now >= parent.request.end {
        parent.CloseWindow();
      }
      parents := parents[id := parent.View()];
      stillOver := if parent.phase.Working? then over else over + [id];
    }

    /** The turns of all working orders, in id order, until the accounting fails. */
    method WorkAll(now: U64)
      returns (fills: seq<FillReport>, over: seq<nat>, failure: Option<HaltReason>, refused: seq<nat>)
      requires Valid()
      modifies this`nextChildId, this`positions, this`parents, venue, Books(venue.markets)
      ensures Valid() && venue.markets == old(venue.markets)
      ensures Round(View(), fills, over, failure, refused) == Worked(old(View()), now)
    {
      fills, over, failure, refused := [], [], None, [];
      var todo := working;
      ghost var start := Worked(View(), now);
      while todo != {} && failure.None?
        invariant Valid() && venue.markets == old(venue.markets)
        invariant WorkFrom(Round(View(), fills, over, failure, refused), todo, now) == start
        decreases todo
      {
        var id := Lowest(todo);
        ghost var r := Round(View(), fills, over, None, refused);
        fills, over, failure, refused := WorkOrder(id, now, fills, over, refused, r);
        todo := todo - {id};
      }
    }

    /** Moves the orders that ended this tick out of the working set. */
    method RetireAll(over: seq<nat>)
      modifies this
      ensures forall v :: With(v) == Spec.RetireAll(old(With(v)), over)
    {
      var i := 0;
      while i < |over|
        invariant i <= |over| && forall v :: With(v) == Spec.RetireAll(old(With(v)), over[..i])
      {
        assert over[..i + 1][..i] == over[..i];
        Retire(over[i]);
        i := i + 1;
      }
      assert over[..i] == over;
    }

    /**
     * Advances the engine to `now`: every working order has its turn, finished orders are retired, the
     * markets are requoted, and trading halts if the accounting failed or the loss limit is reached.
     */
    method Tick(now: U64) returns (fills: seq<FillReport>)
      requires Valid()
      modifies this, venue, Books(venue.markets)
      ensures Valid() && Books(venue.markets) == old(Books(venue.markets))
        && (View(), fills) == Spec.Tick(old(View()), now)
    {
      var over, failure, refused;
      fills, over, failure, refused := WorkAll(now);
      ghost var w := Round(View(), fills, over, failure, refused);
      Requote(over, w.engine);
      if failure.Some? {
        StopTrading(failure.value);
      } else {
        CheckLossLimit();
      }
    }

    method Requote(over: seq<nat>, ghost e: Engine)
      requires Valid() && e == View()
      modifies this, venue, Books(venue.markets)
      ensures Valid() && Books(venue.markets) == old(Books(venue.markets))
      ensures var retired := Spec.RetireAll(e, over); View() == retired.(venue := RefreshQuotes(retired.venue))
    {
      RetireAll(over);
      venue.RefreshQuotes();
    }

    method StopTrading(reason: HaltReason)
      requires Valid()
      modifies this
      ensures Valid() && View() == Spec.Halt(old(View()), reason)
    {
      Halt(reason);
      assert unchanged(venue) && forall b :: b in Books(venue.markets) ==> unchanged(b);
    }

    /** Carries out one command and returns what it answers. */
    method Obey(c: Command) returns (reply: Reply)
      requires Valid()
      modifies this, venue, Books(venue.markets)
      ensures Valid() && Books(venue.markets) == old(Books(venue.markets))
      ensures forall replies, log, refused, latest ::
        var t := Step(Trace(old(View()), replies, log, refused, latest), c);
        View() == t.engine && replies + [reply] == t.replies && log + Reported(reply) == t.log
    {
      match c
      case SubmitCommand(order, now) =>
        var result := SubmitOrder(order, now);
        reply := Submitted(result);
      case CancelCommand(id) =>
        var result := CancelInPlace(id);
        reply := Reply.Cancelled(result);
      case TickCommand(now) =>
        var fills := Tick(now);
        reply := Ticked(fills);
      case HaltCommand =>
        StopTrading(Requested);
        reply := Stopped;
    }

    /** The kill switch. */
    method CheckLossLimit()
      requires Valid()
      modifies this
      ensures Valid() && View() == CheckLoss(old(View()))
    {
      if halted.Some? {
        return;
      }
      var total := TotalProfit();
      if LossLimitBreached(risk, total) {
        StopTrading(LossLimit(total));
      }
    }

    /** Stops trading for good: cancels every working order and takes no new ones. */
    method Halt(reason: HaltReason)
      modifies this
      ensures forall v :: With(v) == Spec.Halt(old(With(v)), reason)
    {
      var todo := working;
      while todo != {}
        invariant forall v :: StopAll(With(v), todo) == StopAll(old(With(v)), old(working))
        decreases todo
      {
        var id := Lowest(todo);
        if id in parents {
          StopOrder(id);
        }
        Retire(id);
        todo := todo - {id};
      }
      halted := Some(reason);
    }
  }

  /** An order's turn ends by closing what sending left. */
  lemma TurnCloses(r: Round, id: nat, now: U64, released: Parent, qty: int, sent: Round)
    requires id in r.engine.parents && (released, qty) == ReleaseDue(r.engine.parents[id], now)
    requires sent == if qty > 0 then Send(r, id, released, qty, now)
                     else r.(engine := r.engine.(parents := r.engine.parents[id := released]))
    ensures id in sent.engine.parents && WorkOne(r, id, now) == Close(sent, id, now)
  {
  }

  /** Opens the venue and an idle engine on it. */
  method Open(configs: seq<SymbolConfig>, risk: RiskLimits, retained: nat) returns (r: Result<EngineCore, VenueError>)
    ensures r.Err? ==> NewEngine(configs, risk, retained) == Err(r.error)
    ensures r.Ok? ==>
      && fresh(r.value) && fresh(r.value.venue) && fresh(Books(r.value.venue.markets)) && r.value.Valid()
      && NewEngine(configs, risk, retained) == Ok(r.value.View())
  {
    var venue := SimulatedVenues.Open(configs);
    if venue.Err? {
      return Err(venue.error);
    }
    var engine := new EngineCore(venue.value, risk, retained);
    r := Ok(engine);
  }

  lemma SubmitRejects(e: Engine, o: NewOrder, now: U64, reason: RejectReason)
    requires Spec.Admit(e, o, now) == Err(reason)
    ensures Spec.SubmitOrder(e, o, now) == (e, Err(reason))
  {
  }

  lemma SubmitRefuses(e: Engine, o: NewOrder, now: U64, mid: I64, error: Schedule.ScheduleError)
    requires Spec.Admit(e, o, now) == Ok(mid) && BuildSchedule(o) == Err(error)
    ensures Spec.SubmitOrder(e, o, now) == (e, Err(BadSchedule(error)))
  {
  }

  lemma SubmitAccepts(e: Engine, o: NewOrder, now: U64, mid: I64, schedule: seq<Schedule.Child>)
    requires Spec.Admit(e, o, now) == Ok(mid) && BuildSchedule(o) == Ok(schedule)
    ensures Spec.SubmitOrder(e, o, now) == (Accept(e, NewParent(e.nextParentId, o, schedule, mid)), Ok(e.nextParentId))
  {
  }

  /** A desk before and after the answer to its child. */
  ghost predicate Answered(start: Desk, id: nat, childId: nat, now: U64, answer: Result<SubmitResult, VenueError>,
                           end: Desk, refused: seq<nat>, stillRefused: seq<nat>) {
    match answer
    case Err(_) => end == start && stillRefused == refused + [childId]
    case Ok(done) =>
      var d := TakeFills(start, id, childId, now, done.fills);
      end == d.(parent := FinishIfFilled(d.parent)) && stillRefused == refused
  }

  lemma ReceivedIs(r: Round, id: nat, sent: Parent, now: U64, after: Venue, answer: Result<SubmitResult, VenueError>,
                   end: Desk, stillRefused: seq<nat>)
    requires r.failure.None?
    requires Answered(Desk(sent, r.engine.positions, r.fills, None), id, r.engine.nextChildId, now, answer, end,
                      r.refused, stillRefused)
    ensures Received(r, id, sent, now, after, answer) == Round(
      r.engine.(venue := after, nextChildId := r.engine.nextChildId + 1, positions := end.positions,
                parents := r.engine.parents[id := end.parent]),
      end.fills, r.finished, end.failure, stillRefused)
  {
  }

  lemma SendMeans(r: Round, id: nat, p: Parent, qty: nat, now: U64, after: Venue,
                  result: Result<SubmitResult, VenueError>)
    requires Execute(r.engine.venue, p.symbol, ChildOrder(r.engine.nextChildId, p.side, p.limit, qty, now))
      == (after, result)
    ensures Send(r, id, p, qty, now)
      == Received(r, id, RecordChild(p, r.engine.nextChildId, now, qty), now, after, result)
  {
  }

  lemma {:induction false} FailureSticks(d: Desk, id: nat, childId: nat, now: U64, fills: seq<Fill>, n: nat)
    requires n <= |fills| && (n == |fills| || TakeFills(d, id, childId, now, fills[..n]).failure.Some?)
    ensures TakeFills(d, id, childId, now, fills) == TakeFills(d, id, childId, now, fills[..n])
    decreases |fills| - n
  {
    if n == |fills| {
      assert fills[..n] == fills;
    } else {
      assert fills[..n + 1][..n] == fills[..n];
      FailureSticks(d, id, childId, now, fills, n + 1);
    }
  }

  lemma EverySymbolMarked(e: Engine)
    ensures GrossTerms(e).Keys == e.venue.markets.Keys
  {
  }

  method ComputeSchedule(o: NewOrder) returns (r: Result<seq<Schedule.Child>, Schedule.ScheduleError>)
    ensures r == Spec.BuildSchedule(o)
  {
    match o.algorithm
    case TwapSpec(n) => r := Twap.ComputeSchedule(Twap.TwapParams(o.start, o.end, o.quantity, n));
    case VwapSpec(profile) => r := Vwap.ComputeVwap(Vwap.VwapParams(o.start, o.end, o.quantity), profile);
    case IsSpec(n, decay) =>
      var computed := IS.ComputeSchedule(o.start, o.end, o.quantity, n, decay);
      r := match computed case Ok(schedule) => Ok(schedule.0) case Err(e) => Err(e);
  }

  /** One command of a run that has come to `t`. */
  method ObeyNext(engine: EngineCore, c: Command, ghost t: Trace) returns (reply: Reply)
    requires engine.Valid() && engine.View() == t.engine
    modifies engine, engine.venue, Books(engine.venue.markets)
    ensures engine.Valid() && Books(engine.venue.markets) == old(Books(engine.venue.markets))
    ensures var next := Step(t, c);
      engine.View() == next.engine && next.replies == t.replies + [reply] && next.log == t.log + Reported(reply)
  {
    reply := engine.Obey(c);
    assert t == Trace(t.engine, t.replies, t.log, t.refused, t.latest);
  }

  lemma RunsNext(start: Engine, commands: seq<Command>, i: nat)
    requires i < |commands|
    ensures Run(start, commands[..i + 1]) == Step(Run(start, commands[..i]), commands[i])
  {
    assert commands[..i + 1][..i] == commands[..i];
  }

  /**
   * Run against any sequence of commands from any configuration, the engine's objects come to the state,
   * give the replies and report the fills that the state machine does.
   */
  method Replay(configs: seq<SymbolConfig>, risk: RiskLimits, retained: nat, commands: seq<Command>)
    returns (r: Result<EngineCore, VenueError>, replies: seq<Reply>, log: seq<FillReport>)
    ensures r.Err? ==> NewEngine(configs, risk, retained) == Err(r.error)
    ensures r.Ok? ==>
      && r.value.Valid() && NewEngine(configs, risk, retained).Ok?
      && var t := Run(NewEngine(configs, risk, retained).value, commands);
         r.value.View() == t.engine && replies == t.replies && log == t.log
  {
    replies, log := [], [];
    r := Open(configs, risk, retained);
    if r.Err? {
      return;
    }
    var engine := r.value;
    ghost var start := engine.View();
    ghost var t := Run(start, []);
    assert commands[..0] == [];
    for i := 0 to |commands|
      invariant fresh(engine) && fresh(engine.venue) && fresh(Books(engine.venue.markets)) && engine.Valid()
      invariant t == Run(start, commands[..i])
      invariant engine.View() == t.engine && replies == t.replies && log == t.log
    {
      var reply := ObeyNext(engine, commands[i], t);
      replies, log := replies + [reply], log + Reported(reply);
      RunsNext(start, commands, i);
      t := Step(t, commands[i]);
    }
    assert commands[..|commands|] == commands;
  }
}
