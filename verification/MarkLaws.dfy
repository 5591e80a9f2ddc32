/** Marking to the reference prices: the engine's saturating totals against the exact ones. */
module MarkLaws {
  import opened Types
  import opened DivMod
  import opened Sums
  import opened VenueSpec
  import opened VenueLaws
  import opened Accounting
  import opened AccountingLaws
  import opened EngineSpec
  import opened DeskLaws
  import opened ExposureLaws

  /** The prices the market maker quotes around, which never move. */
  function Refs(v: Venue): map<Symbol, I64> {
    map s | s in v.markets :: v.markets[s].config.reference
  }

  lemma SameListingSameRefs(v: Venue, w: Venue)
    requires SameListing(v, w)
    ensures Refs(v) == Refs(w)
  {
  }

  /** With every market fully quoted, symbols are marked at their reference prices. */
  lemma MarkIsRef(v: Venue, s: Symbol)
    requires GoodMarkets(v) && FullyQuoted(v) && s in v.markets
    ensures Mid(v, s) == Some(Refs(v)[s]) && Mark(v, s) == Some(Refs(v)[s]) && 0 < Refs(v)[s]
  {
    MidIsReference(v, s);
  }

  /** Every symbol is marked at its reference price. */
  ghost predicate AtRefs(v: Venue) {
    forall s :: s in v.markets ==> Mark(v, s) == Some(Refs(v)[s]) && 0 < Refs(v)[s]
  }

  lemma QuotedAtRefs(v: Venue)
    requires GoodMarkets(v) && FullyQuoted(v)
    ensures AtRefs(v)
  {
    forall s | s in v.markets ensures Mark(v, s) == Some(Refs(v)[s]) && 0 < Refs(v)[s] {
      MarkIsRef(v, s);
    }
  }

  // ------------------------------------------------------------ gross exposure

  ghost function GrossOf(e: Engine, todo: set<Symbol>): map<Symbol, int>
    requires todo <= e.venue.markets.Keys
  {
    map s | s in todo :: UnitsIn(e, s) * Refs(e.venue)[s]
  }

  /** Sum over symbols of what is held and open, at the reference price. */
  ghost function Gross(e: Engine): int {
    Total(GrossOf(e, e.venue.markets.Keys))
  }

  /** Narrowing exposure never raises gross exposure. */
  lemma NarrowerLowersGross(before: Engine, after: Engine)
    requires Narrower(before, after) && GoodMarkets(before.venue) && SameListing(before.venue, after.venue)
    ensures Gross(after) <= Gross(before)
  {
    var a, b := GrossOf(after, after.venue.markets.Keys), GrossOf(before, before.venue.markets.Keys);
    SameListingSameRefs(before.venue, after.venue);
    forall s | s in a ensures a[s] <= b[s] {
      RefIsPositive(before.venue, s);
      MulMono(UnitsIn(after, s), UnitsIn(before, s), Refs(before.venue)[s]);
    }
    TotalMono(a, b);
  }

  lemma RefIsPositive(v: Venue, s: Symbol)
    requires GoodMarkets(v) && s in v.markets
    ensures 0 < Refs(v)[s]
  {
  }

  /** Within the position limit no exposure saturates. */
  lemma ExposureIsExact(e: Engine, s: Symbol, mid: I64, limit: int)
    requires WorkingSet(e) && Fillable(e.parents) && PositionSafe(e, limit) && 0 <= limit <= I64_MAX
    ensures var x := ExposureIn(e, s, mid);
      x.position == HoldingOf(e.positions, s).quantity && x.mid == mid
      && x.workingBuy == Open(e.parents, s, Buy) && x.workingSell == Open(e.parents, s, Sell)
    ensures Units(ExposureIn(e, s, mid)) == UnitsIn(e, s) >= 0
  {
    OpenIsNatural(e.parents, s, Buy);
    OpenIsNatural(e.parents, s, Sell);
    AddWorkingIsOpen(e, s, Buy);
    AddWorkingIsOpen(e, s, Sell);
    assert High(e, s) <= limit && Low(e, s) >= -limit;
  }

  // --------------------------------------- the saturating sum is the exact one

  ghost function Part(terms: map<Symbol, int>, todo: set<Symbol>): map<Symbol, int>
    requires todo <= terms.Keys
  {
    map s | s in todo :: terms[s]
  }

  lemma PartSplits(terms: map<Symbol, int>, todo: set<Symbol>, s: Symbol)
    requires s in todo && todo <= terms.Keys
    ensures Total(Part(terms, todo)) == terms[s] + Total(Part(terms, todo - {s}))
  {
    TotalWithout(Part(terms, todo), s);
    assert Part(terms, todo) - {s} == Part(terms, todo - {s});
  }

  lemma {:induction false} SumOfGains(terms: map<Symbol, I128>, exact: map<Symbol, int>, todo: set<Symbol>, sum: I128)
    requires todo <= terms.Keys == exact.Keys && sum >= 0
    requires forall s :: s in exact ==> exact[s] >= 0 && terms[s] == Min(exact[s], I128_MAX)
    ensures SaturatingSum(terms, todo, sum) == Min(sum + Total(Part(exact, todo)), I128_MAX)
    ensures Total(Part(exact, todo)) >= 0
    decreases todo
  {
    if todo != {} {
      var s := Lowest(todo);
      PartSplits(exact, todo, s);
      SumOfGains(terms, exact, todo - {s}, Min(sum + exact[s], I128_MAX));
    }
  }

  lemma {:induction false} SumOfLosses(terms: map<Symbol, I128>, exact: map<Symbol, int>, todo: set<Symbol>, sum: I128)
    requires todo <= terms.Keys == exact.Keys && sum <= 0
    requires forall s :: s in exact ==> exact[s] <= 0 && terms[s] == Max(exact[s], I128_MIN)
    ensures SaturatingSum(terms, todo, sum) == Max(sum + Total(Part(exact, todo)), I128_MIN)
    ensures Total(Part(exact, todo)) <= 0
    decreases todo
  {
    if todo != {} {
      var s := Lowest(todo);
      PartSplits(exact, todo, s);
      SumOfLosses(terms, exact, todo - {s}, Max(sum + exact[s], I128_MIN));
    }
  }

  /** A symbol's term of the gross exposure, as the engine computes it, is exact until it saturates. */
  lemma GrossTermIsExact(e: Engine, s: Symbol, limit: int)
    requires AtRefs(e.venue) && s in e.venue.markets
    requires WorkingSet(e) && Fillable(e.parents) && PositionSafe(e, limit) && 0 <= limit <= I64_MAX
    ensures Mark(e.venue, s) == Some(Refs(e.venue)[s])
    ensures 0 <= UnitsIn(e, s) * Refs(e.venue)[s]
    ensures GrossIn(e, s, Refs(e.venue)[s]) == Min(UnitsIn(e, s) * Refs(e.venue)[s], I128_MAX)
  {
    ExposureIsExact(e, s, Refs(e.venue)[s], limit);
    MulMono(0, UnitsIn(e, s), Refs(e.venue)[s]);
  }

  ghost predicate GainsExact(terms: map<Symbol, I128>, exact: map<Symbol, int>) {
    && terms.Keys == exact.Keys
    && forall s :: s in exact ==> exact[s] >= 0 && terms[s] == Min(exact[s], I128_MAX)
  }

  lemma GrossTermIsThere(e: Engine, s: Symbol, ref: I64, exact: int)
    requires s in e.venue.markets && Mark(e.venue, s) == Some(ref) && GrossIn(e, s, ref) == Min(exact, I128_MAX)
    ensures s in GrossTerms(e) && GrossTerms(e)[s] == Min(exact, I128_MAX)
  {
  }

  lemma GrossTermsAreExact(e: Engine, limit: int)
    requires AtRefs(e.venue)
    requires WorkingSet(e) && Fillable(e.parents) && PositionSafe(e, limit) && 0 <= limit <= I64_MAX
    ensures GainsExact(GrossTerms(e), GrossOf(e, e.venue.markets.Keys))
  {
    var refs, terms := Refs(e.venue), GrossTerms(e);
    forall s | s in refs
      ensures s in terms && 0 <= UnitsIn(e, s) * refs[s] && terms[s] == Min(UnitsIn(e, s) * refs[s], I128_MAX)
    {
      GrossTermIsExact(e, s, limit);
      GrossTermIsThere(e, s, refs[s], UnitsIn(e, s) * refs[s]);
    }
    GrossTermsMatch(e, terms, refs);
  }

  lemma GrossTermsMatch(e: Engine, terms: map<Symbol, I128>, refs: map<Symbol, I64>)
    requires terms == GrossTerms(e) && refs == Refs(e.venue)
    requires forall s :: s in refs ==>
      s in terms && 0 <= UnitsIn(e, s) * refs[s] && terms[s] == Min(UnitsIn(e, s) * refs[s], I128_MAX)
    ensures GainsExact(terms, GrossOf(e, e.venue.markets.Keys))
  {
  }

  lemma SumOfAllGains(terms: map<Symbol, I128>, exact: map<Symbol, int>)
    requires GainsExact(terms, exact)
    ensures SaturatingSum(terms, terms.Keys, 0) == Min(Total(exact), I128_MAX) && Total(exact) >= 0
  {
    SumOfGains(terms, exact, terms.Keys, 0);
    assert Part(exact, terms.Keys) == exact;
  }

  /** Between ticks the gross exposure the engine checks is the exact one, until it saturates. */
  lemma GrossIsExact(e: Engine, limit: int)
    requires AtRefs(e.venue)
    requires WorkingSet(e) && Fillable(e.parents) && PositionSafe(e, limit) && 0 <= limit <= I64_MAX
    ensures TotalGross(e) == Min(Gross(e), I128_MAX) && Gross(e) >= 0
  {
    GrossTermsAreExact(e, limit);
    SumOfAllGains(GrossTerms(e), GrossOf(e, e.venue.markets.Keys));
  }

  // --------------------------------------------------------------------- P&L

  /** Positions in listed symbols, each sound at its reference price. */
  ghost predicate SoundPositions(positions: map<Symbol, Holding>, refs: map<Symbol, I64>) {
    forall s :: s in positions ==> s in refs && SoundHolding(positions[s], refs[s])
  }

  ghost function PnlIn(positions: map<Symbol, Holding>, refs: map<Symbol, I64>, todo: set<Symbol>): map<Symbol, int>
    requires todo <= positions.Keys <= refs.Keys
  {
    map s | s in todo :: Marked(positions[s], refs[s])
  }

  /** Realized and unrealized P&L over all positions at the reference prices, exactly. */
  ghost function Pnl(positions: map<Symbol, Holding>, refs: map<Symbol, I64>): int
    requires positions.Keys <= refs.Keys
  {
    Total(PnlIn(positions, refs, positions.Keys))
  }

  lemma BoundedProduct(units: nat, price: nat, most: nat)
    requires units <= most && price <= most
    ensures 0 <= units * price <= most * most
  {
    MulMono(units, most, price);
    MulMono(price, most, most);
    MulMono(0, units, price);
  }

  lemma OpenValueFits(p: Holding, mark: I64)
    requires CostInRange(p, 1, I64_MAX) && mark > 0
    ensures UnrealizedPnl(p, mark) == p.quantity * mark - p.costBasis
  {
    var q := Abs(p.quantity);
    BoundedProduct(q, mark, I64_MAX + 1);
    BoundedProduct(q, I64_MAX, I64_MAX + 1);
    Distribute(mark, q, 0);
    Distribute(I64_MAX, q, 0);
    RangeGivesSign(p, 1, I64_MAX);
  }

  /** The P&L the engine computes for one position is exact, until it saturates. */
  lemma PnlOfIsMarked(v: Venue, s: Symbol, p: Holding)
    requires AtRefs(v) && s in v.markets && SoundHolding(p, Refs(v)[s])
    ensures PnlOf(v, s, p) == Max(Marked(p, Refs(v)[s]), I128_MIN)
  {
    OpenValueFits(p, Refs(v)[s]);
  }

  ghost predicate LossesExact(terms: map<Symbol, I128>, exact: map<Symbol, int>) {
    && terms.Keys == exact.Keys
    && forall s :: s in exact ==> exact[s] <= 0 && terms[s] == Max(exact[s], I128_MIN)
  }

  lemma PnlTermsAreExact(e: Engine)
    requires AtRefs(e.venue) && SoundPositions(e.positions, Refs(e.venue))
    ensures e.positions.Keys <= Refs(e.venue).Keys
    ensures LossesExact(PnlTerms(e), PnlIn(e.positions, Refs(e.venue), e.positions.Keys))
  {
    forall s | s in e.positions ensures
      && s in Refs(e.venue) && Marked(e.positions[s], Refs(e.venue)[s]) <= 0
      && PnlTerms(e)[s] == Max(Marked(e.positions[s], Refs(e.venue)[s]), I128_MIN)
    {
      PnlOfIsMarked(e.venue, s, e.positions[s]);
    }
  }

  lemma SumOfAllLosses(terms: map<Symbol, I128>, exact: map<Symbol, int>)
    requires LossesExact(terms, exact)
    ensures SaturatingSum(terms, terms.Keys, 0) == Max(Total(exact), I128_MIN) && Total(exact) <= 0
  {
    SumOfLosses(terms, exact, terms.Keys, 0);
    assert Part(exact, terms.Keys) == exact;
  }

  /** Between ticks the P&L the engine reports is the exact one, until it saturates; it is never a gain. */
  lemma TotalPnlIsExact(e: Engine)
    requires AtRefs(e.venue) && SoundPositions(e.positions, Refs(e.venue))
    ensures e.positions.Keys <= Refs(e.venue).Keys
    ensures TotalPnl(e) == Max(Pnl(e.positions, Refs(e.venue)), I128_MIN) && Pnl(e.positions, Refs(e.venue)) <= 0
  {
    PnlTermsAreExact(e);
    SumOfAllLosses(PnlTerms(e), PnlIn(e.positions, Refs(e.venue), e.positions.Keys));
  }

  // ---------------------------------------------------------------- slippage

  /** What fills cost against the reference prices of their symbols. */
  function Slippage(fills: seq<FillReport>, refs: map<Symbol, I64>): int {
    if fills == [] then 0
    else
      var last := fills[|fills| - 1];
      Slippage(fills[..|fills| - 1], refs)
      + (if last.symbol in refs then Slip(last.side, last.price, last.quantity, refs[last.symbol]) else 0)
  }

  /** Fills of one symbol add to the total exactly what they add to that symbol. */
  lemma {:induction false} SlippageOfSymbol(before: seq<FillReport>, after: seq<FillReport>, refs: map<Symbol, I64>,
                                            s: Symbol)
    requires before <= after && s in refs && forall i :: |before| <= i < |after| ==> after[i].symbol == s
    ensures Slippage(after, refs) - Slippage(before, refs)
      == SlippageIn(after, s, refs[s]) - SlippageIn(before, s, refs[s])
  {
    if before != after {
      SlippageOfSymbol(before, after[..|after| - 1], refs, s);
    } else {
      assert before == after;
    }
  }

  /** A position that changes moves the total P&L by its own change; one that appears starts from nothing. */
  lemma PnlChanges(before: map<Symbol, Holding>, after: map<Symbol, Holding>, refs: map<Symbol, I64>, s: Symbol)
    requires before.Keys <= after.Keys <= before.Keys + {s} && after.Keys <= refs.Keys && s in refs
    requires forall t :: t != s ==> HoldingOf(after, t) == HoldingOf(before, t)
    ensures Pnl(after, refs) - Pnl(before, refs)
      == Marked(HoldingOf(after, s), refs[s]) - Marked(HoldingOf(before, s), refs[s])
  {
    var a, b := PnlIn(after, refs, after.Keys), PnlIn(before, refs, before.Keys);
    forall t | t in before && t != s ensures a[t] == b[t] {
      assert HoldingOf(after, t) == HoldingOf(before, t);
    }
    MarkedFlat(refs[s]);
    TotalMoves(b, a, s);
  }

  lemma TotalMoves(before: map<Symbol, int>, after: map<Symbol, int>, s: Symbol)
    requires before.Keys <= after.Keys <= before.Keys + {s}
    requires forall t :: t in before && t != s ==> after[t] == before[t]
    ensures Total(after) - Total(before)
      == (if s in after then after[s] else 0) - (if s in before then before[s] else 0)
  {
    if s in after {
      assert after == before[s := after[s]];
      TotalUpdate(before, s, after[s]);
    } else {
      assert after == before;
    }
  }

  lemma MarkedFlat(mark: int)
    ensures Marked(FLAT, mark) == 0
  {
  }
}
