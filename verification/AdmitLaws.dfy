/** Which orders are admitted, in exact arithmetic, why the others are not, and what is stored of an accepted one. */
module AdmitLaws {
  import opened Types
  import opened VenueSpec
  import opened Risk
  import opened ParentOrders
  import opened Schedule
  import opened EngineSpec
  import opened ExposureLaws
  import opened MarkLaws
  import opened CommandLaws
  import opened RunLaws
  import opened ScheduleLaws
  import Vwap

  // ------------------------------------------------------------------ the limits

  /** The price an order is valued at: its limit, if that is above the reference price. */
  function ValuedAt(o: NewOrder, ref: int): int {
    if o.limit.Some? then Max(o.limit.value, ref) else ref
  }

  /** The position if the order and everything working on its side filled. */
  ghost function PositionIfFilled(e: Engine, o: NewOrder): int {
    var working := Open(e.parents, o.symbol, o.side);
    HoldingOf(e.positions, o.symbol).quantity + o.side.Direction() * (working + o.quantity)
  }

  /** The order keeps to every limit, in exact arithmetic. */
  ghost predicate KeepsLimits(e: Engine, o: NewOrder, ref: int) {
    && o.quantity <= e.risk.maxOrderQty
    && (o.limit.Some? ==> Abs(o.limit.value - ref) * 10_000 <= e.risk.priceCollarBps * ref)
    && o.quantity * ValuedAt(o, ref) <= e.risk.maxOrderNotional
    && Abs(PositionIfFilled(e, o)) <= e.risk.maxPositionQty
    && Gross(e) + o.quantity * ref <= e.risk.maxGrossNotional
  }

  /** An order that is taken: a real order in a listed symbol whose window is not over, within every limit. */
  ghost predicate Admissible(e: Engine, o: NewOrder, now: U64) {
    && e.halted.None? && o.symbol in e.venue.markets
    && o.quantity > 0 && (o.limit.Some? ==> o.limit.value > 0) && now < o.end
    && KeepsLimits(e, o, e.venue.markets[o.symbol].config.reference)
  }

  /** A violation names the first limit that the order really breaks, with the exact figure, cut at the largest. */
  ghost predicate RightViolation(e: Engine, o: NewOrder, ref: int, v: RiskViolation) {
    var small := o.quantity <= e.risk.maxOrderQty;
    var near := small && (o.limit.Some? ==> Abs(o.limit.value - ref) * 10_000 <= e.risk.priceCollarBps * ref);
    var cheap := near && o.quantity * ValuedAt(o, ref) <= e.risk.maxOrderNotional;
    var held := cheap && Abs(PositionIfFilled(e, o)) <= e.risk.maxPositionQty;
    match v
    case OrderQuantity => !small
    case PriceCollar => small && !near
    case OrderNotional(notional) => near && !cheap && notional == Min(o.quantity * ValuedAt(o, ref), I128_MAX)
    case PositionLimit(worst) => cheap && !held && worst == PositionIfFilled(e, o)
    case GrossNotional(gross) =>
      && held && gross == Min(Gross(e) + o.quantity * ref, I128_MAX)
      && Gross(e) + o.quantity * ref > e.risk.maxGrossNotional
  }

  /** A refusal names the first thing that is really wrong with the order. */
  ghost predicate RightReason(e: Engine, o: NewOrder, now: U64, reason: RejectReason) {
    var listed := e.halted.None? && o.symbol in e.venue.markets;
    var priced := listed && o.quantity > 0 && (o.limit.Some? ==> o.limit.value > 0);
    match reason
    case Halted(why) => e.halted == Some(why)
    case NoSuchSymbol(s) => e.halted.None? && s == o.symbol && s !in e.venue.markets
    case ZeroQuantity => listed && o.quantity == 0
    case NonPositiveLimitPrice => listed && o.quantity > 0 && o.limit.Some? && o.limit.value <= 0
    case WindowEnded => priced && o.end <= now
    case NoMarket(s) => false
    case RiskFailed(v) =>
      priced && now < o.end && RightViolation(e, o, e.venue.markets[o.symbol].config.reference, v)
    case BadSchedule(error) => Admissible(e, o, now) && !Schedulable(o)
  }

  lemma ChecksAreExact(e: Engine, o: NewOrder, ref: int, x: SymbolExposure, gross: I128)
    requires x.mid == ref > 0 && Sane(e.risk) && 0 <= Gross(e) == gross
    requires x.position == HoldingOf(e.positions, o.symbol).quantity
    requires x.workingBuy == Open(e.parents, o.symbol, Buy) && x.workingSell == Open(e.parents, o.symbol, Sell)
    ensures var v := CheckNewOrder(e.risk, o.side, o.quantity, o.limit, x, gross);
      && (v.None? <==> KeepsLimits(e, o, ref))
      && (v.Some? ==> RightViolation(e, o, ref, v.value))
  {
    QtyTimesPrice(o.quantity, ref);
    QtyTimesPrice(o.quantity, ValuedAt(o, ref));
  }

  lemma ExactCheck(e: Engine, o: NewOrder) returns (ref: I64, v: Option<RiskViolation>)
    requires Core(e) && o.symbol in e.venue.markets
    ensures ref == e.venue.markets[o.symbol].config.reference && Mid(e.venue, o.symbol) == Some(ref)
    ensures v == CheckNewOrder(e.risk, o.side, o.quantity, o.limit, ExposureIn(e, o.symbol, ref), TotalGross(e))
    ensures (v.None? <==> KeepsLimits(e, o, ref)) && (v.Some? ==> RightViolation(e, o, ref, v.value))
  {
    AdmittedExact(e, o.symbol);
    ref := Refs(e.venue)[o.symbol];
    v := CheckNewOrder(e.risk, o.side, o.quantity, o.limit, ExposureIn(e, o.symbol, ref), TotalGross(e));
    ChecksAreExact(e, o, ref, ExposureIn(e, o.symbol, ref), TotalGross(e));
  }

  /** The checks before the limits. */
  lemma AdmitsInOrder(e: Engine, o: NewOrder, now: U64, ref: I64, v: Option<RiskViolation>)
    requires o.symbol in e.venue.markets && Mid(e.venue, o.symbol) == Some(ref)
    requires v == CheckNewOrder(e.risk, o.side, o.quantity, o.limit, ExposureIn(e, o.symbol, ref), TotalGross(e))
    ensures var r := Admit(e, o, now);
      && (r.Ok? <==>
            && e.halted.None? && o.quantity > 0 && (o.limit.Some? ==> o.limit.value > 0) && now < o.end && v.None?)
      && (r.Ok? ==> r.value == ref)
      && (r.Err? ==>
            var priced := e.halted.None? && o.quantity > 0 && (o.limit.Some? ==> o.limit.value > 0);
            match r.error
            case RiskFailed(found) => priced && now < o.end && v == Some(found)
            case Halted(why) => e.halted == Some(why)
            case ZeroQuantity => e.halted.None? && o.quantity == 0
            case NonPositiveLimitPrice => e.halted.None? && o.quantity > 0 && o.limit.Some? && o.limit.value <= 0
            case WindowEnded => priced && o.end <= now
            case _ => false)
  {
  }

  /** Exactly the admissible orders pass, at the reference price; a refusal gives the right reason. */
  lemma AdmitsExactly(e: Engine, o: NewOrder, now: U64) returns (r: Result<I64, RejectReason>)
    requires Core(e)
    ensures r == Admit(e, o, now) && (r.Ok? <==> Admissible(e, o, now))
    ensures r.Ok? ==> r.value == e.venue.markets[o.symbol].config.reference
    ensures r.Err? ==> RightReason(e, o, now, r.error) && !r.error.BadSchedule?
  {
    r := Admit(e, o, now);
    if o.symbol in e.venue.markets {
      var ref, v := ExactCheck(e, o);
      AdmitsInOrder(e, o, now, ref, v);
    }
  }

  // ---------------------------------------------------------------- the schedule

  function SlicesOf(algorithm: AlgorithmSpec): nat {
    match algorithm
    case TwapSpec(n) => n
    case VwapSpec(profile) => |profile|
    case IsSpec(n, _) => n
  }

  /** The window has room for the slices, and the algorithm's own parameters make sense. */
  ghost predicate Schedulable(o: NewOrder) {
    && o.quantity > 0 && 0 < SlicesOf(o.algorithm) <= 1_000_000 && o.start + SlicesOf(o.algorithm) <= o.end
    && match o.algorithm
       case TwapSpec(_) => true
       case VwapSpec(profile) =>
         (forall k :: 0 <= k < |profile| ==> profile[k] >= 0.0) && exists k :: 0 <= k < |profile| && profile[k] > 0.0
       case IsSpec(_, decay) => decay.Some?
  }

  /** Exactly the schedulable orders get a schedule. */
  lemma SchedulesExactly(o: NewOrder)
    ensures BuildSchedule(o).Ok? <==> Schedulable(o)
  {
    if o.algorithm.VwapSpec? {
      var profile := o.algorithm.profile;
      if Vwap.NonNegative(profile) {
        if k :| 0 <= k < |profile| && profile[k] > 0.0 {
          Vwap.SomeVolume(profile, k);
        } else {
          Vwap.NoVolume(profile, |profile|);
        }
      }
    }
  }

  // ------------------------------------------------------------------- the order

  /** A new order: what was asked for, scheduled as asked, with nothing done yet. */
  ghost predicate NewlyStored(p: Parent, o: NewOrder, id: nat, ref: int) {
    && RequestKept(p, o, id, ref)
    && p.phase.Working? && p.nextSlice == 0 && p.released == 0 && p.filled == 0 && p.notional == 0 && p.children == []
  }

  /** What was asked for, scheduled as asked. */
  ghost predicate RequestKept(p: Parent, o: NewOrder, id: nat, ref: int) {
    && p.id == id && p.symbol == o.symbol && p.side == o.side && p.quantity == o.quantity && p.limit == o.limit
    && p.start == o.start && p.end == o.end && p.arrivalMid == ref
    && AsAsked(o, p.schedule) && GoodSchedule(p.schedule, o.quantity, o.start, o.end)
  }

  /** An accepted order is stored and works under the next id, and nothing else changes. */
  ghost predicate TakenOn(e: Engine, after: Engine, o: NewOrder, id: nat) {
    && id == e.nextParentId && id !in e.parents && id in after.parents && o.symbol in e.venue.markets
    && after == e.(parents := e.parents[id := after.parents[id]], working := e.working + {id}, nextParentId := id + 1)
    && NewlyStored(after.parents[id], o, id, e.venue.markets[o.symbol].config.reference)
  }

  lemma AcceptTakesOn(e: Engine, o: NewOrder, schedule: seq<Child>, ref: I64)
    requires o.symbol in e.venue.markets && ref == e.venue.markets[o.symbol].config.reference
    requires e.nextParentId !in e.parents
    requires AsAsked(o, schedule) && GoodSchedule(schedule, o.quantity, o.start, o.end)
    ensures TakenOn(e, Accept(e, NewParent(e.nextParentId, o, schedule, ref)), o, e.nextParentId)
  {
  }

  /**
   * A submit accepts exactly the admissible and schedulable orders: it stores and works the order under the next id.
   * It refuses every other for the first reason that holds, and without effect.
   */
  lemma SubmitsExactly(e: Engine, o: NewOrder, now: U64) returns (after: Engine, r: Result<nat, RejectReason>)
    requires Core(e)
    ensures SubmitOrder(e, o, now) == (after, r) && (r.Ok? <==> Admissible(e, o, now) && Schedulable(o))
    ensures r.Err? ==> after == e && RightReason(e, o, now, r.error)
    ensures r.Ok? ==> TakenOn(e, after, o, r.value)
  {
    after, r := SubmitOrder(e, o, now).0, SubmitOrder(e, o, now).1;
    var admitted := AdmitsExactly(e, o, now);
    SchedulesExactly(o);
    if r.Ok? {
      FreshId(e);
      ScheduleIsGood(o);
      ScheduleFollows(o);
      AcceptTakesOn(e, o, BuildSchedule(o).value, admitted.value);
    }
  }
}
