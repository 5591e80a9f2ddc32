/** Submitting, cancelling and halting keep what the engine promises between ticks. */
module CommandLaws {
  import opened Types
  import opened DivMod
  import opened Sums
  import opened VenueSpec
  import opened VenueLaws
  import opened Risk
  import opened ParentOrders
  import opened Schedule
  import opened EngineSpec
  import opened ExposureLaws
  import opened MarkLaws
  import opened RetireLaws
  import opened SafetyLaws
  import Twap
  import Vwap
  import IS = ImplementationShortfall

  /** Limits as a configuration may set them. */
  ghost predicate Sane(r: RiskLimits) {
    r.maxPositionQty <= I64_MAX && 0 <= r.maxGrossNotional < I128_MAX && 0 < r.maxLoss
  }

  // ------------------------------------------------------------------- submit

  /** Whatever the algorithm, an accepted schedule is real orders, inside the window, that add up to the order. */
  lemma ScheduleIsGood(o: NewOrder)
    requires BuildSchedule(o).Ok?
    ensures GoodSchedule(BuildSchedule(o).value, o.quantity, o.start, o.end)
  {
    match o.algorithm
    case TwapSpec(n) => Twap.TwapIsGood(Twap.TwapParams(o.start, o.end, o.quantity, n));
    case VwapSpec(profile) => Vwap.VwapIsGood(Vwap.VwapParams(o.start, o.end, o.quantity), profile);
    case IsSpec(n, decay) => IS.IsIsGood(o.start, o.end, o.quantity, n, decay);
  }

  lemma NewParentIsStored(id: nat, o: NewOrder, schedule: seq<Child>, mid: int, symbols: set<Symbol>)
    requires GoodSchedule(schedule, o.quantity, o.start, o.end) && o.quantity > 0 && o.symbol in symbols
    requires o.limit.Some? ==> o.limit.value > 0
    ensures Stored(NewParent(id, o, schedule, mid), id, symbols)
    ensures CaughtUp(NewParent(id, o, schedule, mid), -1)
  {
    assert schedule[..0] == [];
  }

  lemma AcceptFiles(e: Engine, p: Parent)
    requires Filing(e, {}) && e.nextParentId !in e.parents && p.phase.Working?
    ensures Filing(Accept(e, p), {})
  {
    var after := Accept(e, p);
    assert after.parents.Keys - after.working == e.parents.Keys - e.working;
  }

  lemma FreshId(e: Engine)
    requires AllStored(e)
    ensures e.nextParentId !in e.parents
  {
  }

  lemma AcceptStores(e: Engine, p: Parent)
    requires AllStored(e) && Stored(p, e.nextParentId, e.venue.markets.Keys)
    ensures AllStored(Accept(e, p))
  {
    var after := Accept(e, p);
    forall id | id in after.parents
      ensures id < after.nextParentId && Stored(after.parents[id], id, after.venue.markets.Keys)
    {
      assert id != e.nextParentId ==> Stored(e.parents[id], id, e.venue.markets.Keys);
    }
  }

  /** Room for more of a symbol under the position and gross limits, in exact arithmetic. */
  ghost predicate Room(e: Engine, s: Symbol, side: Side, quantity: nat)
    requires s in e.venue.markets
  {
    && (if side.Buy? then High(e, s) + quantity <= e.risk.maxPositionQty
        else Low(e, s) - quantity >= 0 - e.risk.maxPositionQty)
    && Gross(e) + quantity * Refs(e.venue)[s] <= e.risk.maxGrossNotional
  }

  /** What an admitted order has passed. */
  lemma AdmittedPassed(e: Engine, o: NewOrder, now: U64) returns (x: SymbolExposure, gross: I128)
    requires Admit(e, o, now).Ok?
    ensures e.halted.None? && o.symbol in e.venue.markets && o.quantity > 0 && (o.limit.Some? ==> o.limit.value > 0)
    ensures Mid(e.venue, o.symbol) == Some(x.mid) && x == ExposureIn(e, o.symbol, x.mid) && gross == TotalGross(e)
    ensures CheckNewOrder(e.risk, o.side, o.quantity, o.limit, x, gross).None?
  {
    x := ExposureIn(e, o.symbol, Mid(e.venue, o.symbol).value);
    gross := TotalGross(e);
  }

  lemma PassedHasRoom(e: Engine, s: Symbol, side: Side, quantity: U64, limit: Option<I64>, x: SymbolExposure,
                      gross: I128)
    requires s in e.venue.markets && x.mid == Refs(e.venue)[s] > 0 && Sane(e.risk)
    requires x.position == HoldingOf(e.positions, s).quantity
    requires x.workingBuy == Open(e.parents, s, Buy) && x.workingSell == Open(e.parents, s, Sell)
    requires gross == Min(Gross(e), I128_MAX) && Gross(e) >= 0
    requires CheckNewOrder(e.risk, side, quantity, limit, x, gross).None?
    ensures Room(e, s, side, quantity)
  {
    PassesExactlyWithinLimits(e.risk, side, quantity, limit, x, gross);
    MulMono(0, quantity, x.mid);
  }

  lemma AdmittedExact(e: Engine, s: Symbol)
    requires VenueRests(e) && OrdersRest(e) && InLimits(e) && Sane(e.risk) && s in e.venue.markets
    ensures Mid(e.venue, s) == Some(Refs(e.venue)[s]) && Refs(e.venue)[s] > 0
    ensures var x := ExposureIn(e, s, Refs(e.venue)[s]);
      x.position == HoldingOf(e.positions, s).quantity
      && x.workingBuy == Open(e.parents, s, Buy) && x.workingSell == Open(e.parents, s, Sell)
    ensures TotalGross(e) == Min(Gross(e), I128_MAX) && Gross(e) >= 0
  {
    MarkIsRef(e.venue, s);
    QuotedAtRefs(e.venue);
    StoredAreFillable(e);
    WorkingPhases(e);
    ExposureIsExact(e, s, Refs(e.venue)[s], e.risk.maxPositionQty);
    GrossIsExact(e, e.risk.maxPositionQty);
  }

  lemma AdmittedHasRoom(e: Engine, o: NewOrder, now: U64)
    requires VenueRests(e) && OrdersRest(e) && InLimits(e) && Sane(e.risk) && Admit(e, o, now).Ok?
    ensures e.halted.None? && o.symbol in e.venue.markets && o.quantity > 0 && (o.limit.Some? ==> o.limit.value > 0)
    ensures Room(e, o.symbol, o.side, o.quantity)
  {
    var x, gross := AdmittedPassed(e, o, now);
    AdmittedExact(e, o.symbol);
    PassedHasRoom(e, o.symbol, o.side, o.quantity, o.limit, x, gross);
  }

  lemma WorkingPhases(e: Engine)
    requires Filing(e, {})
    ensures WorkingSet(e)
  {
  }

  /** Accepting an order opens its quantity in its symbol and on its side, and nothing else. */
  lemma AcceptOpens(e: Engine, p: Parent, s: Symbol)
    requires e.nextParentId !in e.parents && p.phase.Working? && p.filled == 0
    ensures var after := Accept(e, p);
      && High(after, s) == High(e, s) + (if OnSide(p, s, Buy) then p.quantity else 0)
      && Low(after, s) == Low(e, s) - (if OnSide(p, s, Sell) then p.quantity else 0)
      && UnitsIn(after, s) == UnitsIn(e, s) + (if p.symbol == s then p.quantity else 0)
  {
    OpenChanges(e.parents, e.nextParentId, p, s, Buy);
    OpenChanges(e.parents, e.nextParentId, p, s, Sell);
  }

  lemma SplitProduct(a: int, b: int, c: int)
    ensures (a + b) * c == a * c + b * c
  {
  }

  lemma AcceptAddsTerm(e: Engine, p: Parent, s: Symbol, ref: int)
    requires e.nextParentId !in e.parents && p.phase.Working? && p.filled == 0
    ensures UnitsIn(Accept(e, p), s) * ref == UnitsIn(e, s) * ref + (if p.symbol == s then p.quantity * ref else 0)
  {
    AcceptOpens(e, p, s);
    SplitProduct(UnitsIn(e, s), p.quantity, ref);
  }

  lemma AcceptAddsGross(e: Engine, p: Parent)
    requires e.nextParentId !in e.parents && p.phase.Working? && p.filled == 0 && p.symbol in e.venue.markets
    ensures Gross(Accept(e, p)) == Gross(e) + p.quantity * Refs(e.venue)[p.symbol]
  {
    var refs := Refs(e.venue);
    var a, b := GrossOf(Accept(e, p), e.venue.markets.Keys), GrossOf(e, e.venue.markets.Keys);
    var more := p.quantity * refs[p.symbol];
    forall s | s in b ensures a[s] == b[s] + (if p.symbol == s then more else 0) {
      AcceptAddsTerm(e, p, s, refs[s]);
    }
    OneTermMore(b, a, p.symbol, more);
  }

  lemma OneTermMore(b: map<Symbol, int>, a: map<Symbol, int>, s: Symbol, more: int)
    requires a.Keys == b.Keys && s in b && forall t :: t in b ==> a[t] == b[t] + (if t == s then more else 0)
    ensures Total(a) == Total(b) + more
  {
    TotalMoves(b, a, s);
  }

  lemma AcceptKeepsLimits(e: Engine, p: Parent)
    requires e.nextParentId !in e.parents && p.phase.Working? && p.filled == 0 && p.symbol in e.venue.markets
    requires InLimits(e) && Room(e, p.symbol, p.side, p.quantity)
    ensures InLimits(Accept(e, p))
  {
    AcceptAddsGross(e, p);
    AcceptKeepsSafe(e, p, e.risk.maxPositionQty);
  }

  lemma AcceptKeepsSafe(e: Engine, p: Parent, limit: int)
    requires e.nextParentId !in e.parents && p.phase.Working? && p.filled == 0 && PositionSafe(e, limit)
    requires if p.side.Buy? then High(e, p.symbol) + p.quantity <= limit else Low(e, p.symbol) - p.quantity >= -limit
    ensures PositionSafe(Accept(e, p), limit)
  {
    var after := Accept(e, p);
    forall s: nat ensures High(after, s) <= limit && Low(after, s) >= -limit {
      AcceptOpens(e, p, s);
      assert High(e, s) <= limit && Low(e, s) >= -limit;
    }
  }

  /** What a submit comes to: nothing, or one new working order with room under every limit. */
  lemma SubmitIsAccept(e: Engine, o: NewOrder, now: U64) returns (p: Parent)
    requires VenueRests(e) && OrdersRest(e) && InLimits(e) && Sane(e.risk)
    ensures SubmitOrder(e, o, now).1.Err? ==> SubmitOrder(e, o, now).0 == e
    ensures SubmitOrder(e, o, now).1.Ok? ==>
      && SubmitOrder(e, o, now) == (Accept(e, p), Ok(e.nextParentId))
      && Stored(p, e.nextParentId, e.venue.markets.Keys) && p.phase.Working? && p.filled == 0 && CaughtUp(p, -1)
      && InLimits(Accept(e, p))
  {
    FreshId(e);
    p := NewParent(e.nextParentId, o, [], 0);
    if SubmitOrder(e, o, now).1.Ok? {
      var schedule := BuildSchedule(o).value;
      p := NewParent(e.nextParentId, o, schedule, Admit(e, o, now).value);
      AdmittedHasRoom(e, o, now);
      ScheduleIsGood(o);
      NewParentIsStored(e.nextParentId, o, schedule, Admit(e, o, now).value, e.venue.markets.Keys);
      AcceptKeepsLimits(e, p);
    }
  }

  lemma SameMoney(a: Engine, b: Engine)
    requires a.venue == b.venue && a.positions == b.positions
    ensures TotalPnl(a) == TotalPnl(b)
  {
  }

  /** What an accepted order changes: it is stored and working, and that is all. */
  ghost predicate Accepted(e: Engine, after: Engine, id: nat) {
    && id == e.nextParentId && id !in e.parents && id in after.parents
    && after == e.(parents := e.parents[id := after.parents[id]], working := e.working + {id}, nextParentId := id + 1)
    && CaughtUp(after.parents[id], -1)
  }

  /** A submit keeps every promise. */
  lemma SubmitKeeps(e: Engine, o: NewOrder, now: U64)
    requires VenueRests(e) && OrdersRest(e) && InLimits(e) && Sane(e.risk)
    ensures var (after, r) := SubmitOrder(e, o, now);
      && OrdersRest(after) && InLimits(after)
      && if r.Ok? then Accepted(e, after, r.value) else after == e
  {
    var p := SubmitIsAccept(e, o, now);
    if SubmitOrder(e, o, now).1.Ok? {
      AcceptRests(e, p);
    }
  }

  lemma AcceptRests(e: Engine, p: Parent)
    requires OrdersRest(e) && Stored(p, e.nextParentId, e.venue.markets.Keys) && p.phase.Working? && CaughtUp(p, -1)
    ensures OrdersRest(Accept(e, p)) && Accepted(e, Accept(e, p), e.nextParentId)
  {
    FreshId(e);
    AcceptFiles(e, p);
    AcceptStores(e, p);
  }

  // ----------------------------------------------------------- cancel and halt

  /** Winding orders up keeps every promise. */
  lemma StoppedKeeps(e: Engine, after: Engine)
    requires OrdersRest(e) && Filing(after, {}) && OrdersStopped(e.parents, after.parents) && Narrower(e, after)
      && SameBut(e, after)
    requires GoodMarkets(e.venue) && InLimits(e)
    ensures OrdersRest(after) && InLimits(after) && EndedStay(e.parents, after.parents)
  {
    StoppedAreStored(e, after);
    NarrowerKeepsSafe(e, after, e.risk.maxPositionQty);
    NarrowerLowersGross(e, after);
    forall id | id in e.parents && id in after.parents && !e.parents[id].phase.Working?
      ensures after.parents[id] == e.parents[id]
    {
      assert OrderStopped(e.parents[id], after.parents[id]);
    }
  }

  lemma CancelKeeps(e: Engine, id: nat)
    requires GoodMarkets(e.venue) && OrdersRest(e) && InLimits(e)
    ensures var after := CancelOrder(e, id).0;
      && OrdersRest(after) && InLimits(after) && EndedStay(e.parents, after.parents)
      && SameBut(e, after) && after.halted == e.halted && after.working <= e.working
      && (forall i :: i in after.working ==> i in e.parents && i in after.parents && after.parents[i] == e.parents[i])
  {
    if id in e.parents && e.parents[id].phase.Working? {
      StoredAreFillable(e);
      StopFiles(e, id);
      var after := CancelOrder(e, id).0;
      StoppedKeeps(e, after);
      WorkingUntouched(e, after);
    }
  }

  /** An order still working was not stopped. */
  lemma WorkingUntouched(e: Engine, after: Engine)
    requires OrdersStopped(e.parents, after.parents) && Filing(after, {})
    ensures forall i :: i in after.working ==> i in e.parents && i in after.parents && after.parents[i] == e.parents[i]
  {
    forall i | i in after.working ensures i in e.parents && i in after.parents && after.parents[i] == e.parents[i] {
      assert OrderStopped(e.parents[i], after.parents[i]);
    }
  }

  lemma HaltKeeps(e: Engine, reason: HaltReason)
    requires GoodMarkets(e.venue) && OrdersRest(e) && InLimits(e)
    ensures var after := Halt(e, reason);
      && OrdersRest(after) && InLimits(after) && EndedStay(e.parents, after.parents)
      && SameBut(e, after) && after.halted == Some(reason) && after.working == {}
  {
    HaltKeepsOrders(e, reason);
    StoppedKeeps(e, Halt(e, reason));
  }
}
