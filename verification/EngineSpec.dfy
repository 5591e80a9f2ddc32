/** What the engine does, as a pure state machine: every command takes the time it happens at. */
module EngineSpec {
  import opened Types
  import BookSpec
  import opened VenueSpec
  import opened Risk
  import opened ParentOrders
  import Accounting
  import Schedule
  import Twap
  import Vwap
  import IS = ImplementationShortfall

  type Holding = Accounting.Holding

  datatype AlgorithmSpec =
    | TwapSpec(numSlices: nat)
    | VwapSpec(profile: seq<real>)
    | IsSpec(numSlices: nat, decay: Option<IS.DecayFactor>)

  datatype NewOrder = NewOrder(
    symbol: Symbol, side: Side, quantity: U64, limit: Option<I64>, start: U64, end: U64, algorithm: AlgorithmSpec)

  datatype FillReport = FillReport(
    parentId: nat, childId: nat, symbol: Symbol, side: Side, price: I64, quantity: U64, time: U64)

  datatype HaltReason = Requested | AccountingOverflow(symbol: Symbol) | LossLimit(total: int)

  datatype RejectReason =
    | Halted(reason: HaltReason)
    | NoSuchSymbol(symbol: Symbol)
    | ZeroQuantity
    | NonPositiveLimitPrice
    | WindowEnded
    | NoMarket(symbol: Symbol)
    | BadSchedule(error: Schedule.ScheduleError)
    | RiskFailed(violation: RiskViolation)

  datatype CancelError = Unknown(id: nat) | NotWorking(id: nat, phase: Phase)

  datatype Engine = Engine(
    venue: Venue,
    risk: RiskLimits,
    parents: map<nat, Parent>,
    working: set<nat>,
    finished: seq<nat>,
    retained: nat,
    positions: map<Symbol, Holding>,
    nextParentId: nat,
    nextChildId: nat,
    halted: Option<HaltReason>)

  function NewEngine(configs: seq<SymbolConfig>, risk: RiskLimits, retained: nat): Result<Engine, VenueError> {
    match NewVenue(configs)
    case Err(e) => Err(e)
    case Ok(venue) => Ok(Engine(venue, risk, map[], {}, [], retained, map[], 1, 1, None))
  }

  // ------------------------------------------------------ exposure and P&L

  function HoldingOf(positions: map<Symbol, Holding>, s: Symbol): Holding {
    if s in positions then positions[s] else Accounting.FLAT
  }

  /** Mid of the book, or the reference price while a side is empty. */
  function Mark(v: Venue, s: Symbol): Option<I64> {
    if Mid(v, s).Some? then Mid(v, s) else Reference(v, s)
  }

  predicate OnSide(p: Parent, s: Symbol, side: Side) {
    p.symbol == s && p.side == side
  }

  /** Adds the unfilled quantity of the orders of `todo` on one side of a symbol, saturating. */
  function AddWorking(parents: map<nat, Parent>, todo: set<nat>, s: Symbol, side: Side, sum: U64): U64
    decreases todo
  {
    if todo == {} then sum
    else
      var id := Lowest(todo);
      AddWorking(parents, todo - {id}, s, side,
                 if id in parents && OnSide(parents[id], s, side)
                 then Clamp(sum + (parents[id].quantity - parents[id].filled), 0, U64_MAX) else sum)
  }

  function ExposureIn(e: Engine, s: Symbol, mid: I64): SymbolExposure {
    SymbolExposure(HoldingOf(e.positions, s).quantity,
                   AddWorking(e.parents, e.working, s, Buy, 0), AddWorking(e.parents, e.working, s, Sell, 0), mid)
  }

  function Units(x: SymbolExposure): nat {
    Abs(x.position) + x.workingBuy + x.workingSell
  }

  /** Adds the terms of `todo`, in order, saturating at every step. */
  function SaturatingSum(terms: map<Symbol, I128>, todo: set<Symbol>, sum: I128): I128
    requires todo <= terms.Keys
    decreases todo
  {
    if todo == {} then sum
    else SaturatingSum(terms, todo - {Lowest(todo)}, Saturate(sum + terms[Lowest(todo)]))
  }

  function GrossIn(e: Engine, s: Symbol, mark: I64): I128 {
    Saturate(Units(ExposureIn(e, s, mark)) * mark)
  }

  function GrossTerms(e: Engine): map<Symbol, I128> {
    map s | s in e.venue.markets && Mark(e.venue, s).Some? :: GrossIn(e, s, Mark(e.venue, s).value)
  }

  /** Sum over symbols of what is held and working, at the mark. */
  function TotalGross(e: Engine): I128 {
    SaturatingSum(GrossTerms(e), GrossTerms(e).Keys, 0)
  }

  /** Realized and unrealized P&L of one position. */
  function PnlOf(v: Venue, s: Symbol, p: Holding): I128 {
    Saturate(p.realizedPnl + (if Mark(v, s).Some? then Accounting.UnrealizedPnl(p, Mark(v, s).value) else 0))
  }

  function PnlTerms(e: Engine): map<Symbol, I128> {
    map s | s in e.positions :: PnlOf(e.venue, s, e.positions[s])
  }

  function TotalPnl(e: Engine): I128 {
    SaturatingSum(PnlTerms(e), PnlTerms(e).Keys, 0)
  }

  // ---------------------------------------------------------------- submit

  function BuildSchedule(o: NewOrder): Result<seq<Schedule.Child>, Schedule.ScheduleError> {
    match o.algorithm
    case TwapSpec(n) => Twap.ComputeSchedule(Twap.TwapParams(o.start, o.end, o.quantity, n))
    case VwapSpec(profile) => Vwap.VwapSchedule(Vwap.VwapParams(o.start, o.end, o.quantity), profile)
    case IsSpec(n, decay) => IS.IsSchedule(o.start, o.end, o.quantity, n, decay)
  }

  function NewParent(id: nat, o: NewOrder, schedule: seq<Schedule.Child>, mid: int): Parent {
    Parent(id, o.symbol, o.side, o.quantity, o.limit, o.start, o.end, mid, Working, schedule, 0, 0, 0, 0, [])
  }

  /** The checks before the schedule, in order: what is wrong, or the mid the order arrives at. */
  function Admit(e: Engine, o: NewOrder, now: U64): Result<I64, RejectReason> {
    var mid := Mid(e.venue, o.symbol);
    if e.halted.Some? then Err(Halted(e.halted.value))
    else if o.symbol !in e.venue.markets then Err(NoSuchSymbol(o.symbol))
    else if o.quantity == 0 then Err(ZeroQuantity)
    else if o.limit.Some? && o.limit.value <= 0 then Err(NonPositiveLimitPrice)
    else if o.end <= now then Err(WindowEnded)
    else if mid.None? then Err(NoMarket(o.symbol))
    else
      var violation := CheckNewOrder(e.risk, o.side, o.quantity, o.limit, ExposureIn(e, o.symbol, mid.value),
                                     TotalGross(e));
      if violation.Some? then Err(RiskFailed(violation.value)) else Ok(mid.value)
  }

  function Accept(e: Engine, parent: Parent): Engine {
    e.(parents := e.parents[e.nextParentId := parent], working := e.working + {e.nextParentId},
       nextParentId := e.nextParentId + 1)
  }

  function SubmitOrder(e: Engine, o: NewOrder, now: U64): (Engine, Result<nat, RejectReason>) {
    match Admit(e, o, now)
    case Err(reason) => (e, Err(reason))
    case Ok(mid) =>
      match BuildSchedule(o)
      case Err(error) => (e, Err(BadSchedule(error)))
      case Ok(schedule) => (Accept(e, NewParent(e.nextParentId, o, schedule, mid)), Ok(e.nextParentId))
  }

  // ------------------------------------------------- retiring and cancelling

  /** Drops the oldest finished orders beyond the retention limit. */
  function Prune(e: Engine): Engine
    decreases |e.finished|
  {
    if |e.finished| <= e.retained then e
    else Prune(e.(finished := e.finished[1..], parents := e.parents - {e.finished[0]}))
  }

  /** Takes an order out of the working set and files it with the finished ones. */
  function Retire(e: Engine, id: nat): Engine {
    Prune(e.(working := e.working - {id}, finished := e.finished + [id]))
  }

  function CancelOrder(e: Engine, id: nat): (Engine, Result<(), CancelError>) {
    if id !in e.parents then (e, Err(Unknown(id)))
    else if !e.parents[id].phase.Working? then (e, Err(NotWorking(id, e.parents[id].phase)))
    else (Retire(e.(parents := e.parents[id := Stop(e.parents[id])]), id), Ok(()))
  }

  /** Cancels the orders of `todo`, in order. */
  function StopAll(e: Engine, todo: set<nat>): Engine
    decreases todo
  {
    if todo == {} then e
    else
      var id := Lowest(todo);
      var stopped := if id in e.parents then e.(parents := e.parents[id := Stop(e.parents[id])]) else e;
      StopAll(Retire(stopped, id), todo - {id})
  }

  /** Cancels every working order and takes no more, for good. */
  function Halt(e: Engine, reason: HaltReason): Engine {
    StopAll(e, e.working).(halted := Some(reason))
  }

  // ------------------------------------------------------------------ ticks

  /** An order at work: itself, the positions, the tick's fills so far, and what stopped the accounting. */
  datatype Desk = Desk(parent: Parent, positions: map<Symbol, Holding>, fills: seq<FillReport>,
                       failure: Option<HaltReason>)

  function TakeFill(d: Desk, id: nat, childId: nat, now: U64, fill: BookSpec.Fill): Desk {
    var s, side := d.parent.symbol, d.parent.side;
    var before := HoldingOf(d.positions, s);
    match Accounting.Apply(before, Accounting.Trade(side, fill.price, fill.qty))
    case None => d.(positions := d.positions[s := before], failure := Some(AccountingOverflow(s)))
    case Some(after) =>
      Desk(RecordFill(d.parent, fill.price, fill.qty), d.positions[s := after],
           d.fills + [FillReport(id, childId, s, side, fill.price, fill.qty, now)], None)
  }

  /** Takes fills in order, until one of them overflows the accounting. */
  function TakeFills(d: Desk, id: nat, childId: nat, now: U64, fills: seq<BookSpec.Fill>): Desk {
    if fills == [] then d
    else
      var earlier := TakeFills(d, id, childId, now, fills[..|fills| - 1]);
      if earlier.failure.Some? then earlier else TakeFill(earlier, id, childId, now, fills[|fills| - 1])
  }

  /**
   * A tick under way: the engine, its fills, the orders that finished, what failed, and the children the book
   * refused.
   */
  datatype Round = Round(engine: Engine, fills: seq<FillReport>, finished: seq<nat>, failure: Option<HaltReason>,
                         refused: seq<nat>)

  /** An immediate-or-cancel child order; `qty` is the source's u64, which the order's ledger keeps in range. */
  function ChildOrder(id: nat, side: Side, limit: Option<I64>, qty: int, now: U64): BookSpec.Order {
    BookSpec.Order(id, side, limit, Clamp(qty, 0, U64_MAX), now, IOC)
  }

  /** What the book answered to a child of `sent`: its fills taken, or nothing but the child on record. */
  function Received(r: Round, id: nat, sent: Parent, now: U64, venue: Venue,
                    result: Result<BookSpec.SubmitResult, VenueError>): Round {
    var childId := r.engine.nextChildId;
    var e := r.engine.(venue := venue, nextChildId := childId + 1);
    match result
    case Err(_) => r.(engine := e.(parents := e.parents[id := sent]), refused := r.refused + [childId])
    case Ok(done) =>
      var d := TakeFills(Desk(sent, e.positions, r.fills, None), id, childId, now, done.fills);
      r.(engine := e.(positions := d.positions, parents := e.parents[id := FinishIfFilled(d.parent)]),
         fills := d.fills, failure := d.failure)
  }

  /** Sends one child order of `p` and takes its fills. */
  function Send(r: Round, id: nat, p: Parent, qty: nat, now: U64): Round {
    var childId := r.engine.nextChildId;
    var answer := Execute(r.engine.venue, p.symbol, ChildOrder(childId, p.side, p.limit, qty, now));
    Received(r, id, RecordChild(p, childId, now, qty), now, answer.0, answer.1)
  }

  /** Ends an order whose window is over, and lists it if it is no longer working. */
  function Close(r: Round, id: nat, now: U64): Round
    requires id in r.engine.parents
  {
    var p := r.engine.parents[id];
    var after := if p.phase.Working? && now >= p.end then FinishWindow(p) else p;
    r.(engine := r.engine.(parents := r.engine.parents[id := after]),
       finished := if after.phase.Working? then r.finished else r.finished + [id])
  }

  /** One order's turn in a tick. */
  function WorkOne(r: Round, id: nat, now: U64): Round {
    if id !in r.engine.parents then r
    else
      var (p, qty) := ReleaseDue(r.engine.parents[id], now);
      var sent := if qty > 0 then Send(r, id, p, qty, now)
        else r.(engine := r.engine.(parents := r.engine.parents[id := p]));
      Close(sent, id, now)
  }

  /** The turns of the orders of `todo`, in order, until the accounting fails. */
  function WorkFrom(r: Round, todo: set<nat>, now: U64): Round
    decreases todo
  {
    if todo == {} || r.failure.Some? then r
    else WorkFrom(WorkOne(r, Lowest(todo), now), todo - {Lowest(todo)}, now)
  }

  function RetireAll(e: Engine, ids: seq<nat>): Engine {
    if ids == [] then e else Retire(RetireAll(e, ids[..|ids| - 1]), ids[|ids| - 1])
  }

  function CheckLoss(e: Engine): Engine {
    if e.halted.None? && LossLimitBreached(e.risk, TotalPnl(e)) then Halt(e, LossLimit(TotalPnl(e))) else e
  }

  function Worked(e: Engine, now: U64): Round {
    WorkFrom(Round(e, [], [], None, []), e.working, now)
  }

  /** After the orders' turns: retire the finished, requote the markets, and halt if something went wrong. */
  function Settle(r: Round): Engine {
    var retired := RetireAll(r.engine, r.finished);
    var requoted := retired.(venue := RefreshQuotes(retired.venue));
    if r.failure.Some? then Halt(requoted, r.failure.value) else CheckLoss(requoted)
  }

  function Tick(e: Engine, now: U64): (Engine, seq<FillReport>) {
    (Settle(Worked(e, now)), Worked(e, now).fills)
  }
}
