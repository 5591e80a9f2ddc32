/** Exposure: open quantity per symbol, and what never widens it. */
module ExposureLaws {
  import opened Types
  import opened Sums
  import opened VenueSpec
  import opened ParentOrders
  import opened EngineSpec
  import opened TurnLaws

  // ------------------------------------------------------------ open quantity

  /** Unfilled quantity of an order, while it works on one side of a symbol. */
  function OpenIn(p: Parent, s: Symbol, side: Side): int {
    if p.phase.Working? && OnSide(p, s, side) then p.quantity - p.filled else 0
  }

  ghost function OpenOf(parents: map<nat, Parent>, ids: set<nat>, s: Symbol, side: Side): map<nat, int>
    requires ids <= parents.Keys
  {
    map id | id in ids :: OpenIn(parents[id], s, side)
  }

  /** Unfilled quantity of every working order on one side of a symbol. */
  ghost function Open(parents: map<nat, Parent>, s: Symbol, side: Side): int {
    Total(OpenOf(parents, parents.Keys, s, side))
  }

  lemma OpenChanges(parents: map<nat, Parent>, id: nat, q: Parent, s: Symbol, side: Side)
    ensures Open(parents[id := q], s, side)
      == Open(parents, s, side) + OpenIn(q, s, side) - (if id in parents then OpenIn(parents[id], s, side) else 0)
  {
    var before, after := OpenOf(parents, parents.Keys, s, side),
      OpenOf(parents[id := q], parents[id := q].Keys, s, side);
    assert after == before[id := OpenIn(q, s, side)];
    TotalUpdate(before, id, OpenIn(q, s, side));
  }

  lemma OpenForgets(parents: map<nat, Parent>, id: nat, s: Symbol, side: Side)
    requires id in parents ==> OpenIn(parents[id], s, side) == 0
    ensures Open(parents - {id}, s, side) == Open(parents, s, side)
  {
    var before, after := OpenOf(parents, parents.Keys, s, side), OpenOf(parents - {id}, (parents - {id}).Keys, s, side);
    assert after == before - {id};
    if id in parents {
      TotalWithout(before, id);
    } else {
      assert before - {id} == before;
    }
  }

  ghost predicate Fillable(parents: map<nat, Parent>) {
    forall id :: id in parents ==> parents[id].filled <= parents[id].quantity
  }

  lemma OpenIsNatural(parents: map<nat, Parent>, s: Symbol, side: Side)
    requires Fillable(parents)
    ensures Open(parents, s, side) >= 0
  {
    TotalNonNegative(OpenOf(parents, parents.Keys, s, side));
  }

  // -------------------------------------- the running sum is the exact sum

  lemma {:induction false} AddWorkingAdds(parents: map<nat, Parent>, todo: set<nat>, s: Symbol, side: Side, sum: U64)
    requires Fillable(parents) && todo <= parents.Keys && forall id :: id in todo ==> parents[id].phase.Working?
    ensures AddWorking(parents, todo, s, side, sum) == Min(sum + Total(OpenOf(parents, todo, s, side)), U64_MAX)
    ensures Total(OpenOf(parents, todo, s, side)) >= 0
    decreases todo
  {
    var all := OpenOf(parents, todo, s, side);
    TotalNonNegative(all);
    if todo != {} {
      var id := Lowest(todo);
      var rest := OpenOf(parents, todo - {id}, s, side);
      TotalWithout(all, id);
      assert all - {id} == rest;
      AddWorkingAdds(parents, todo - {id}, s, side, Clamp(sum + all[id], 0, U64_MAX));
    }
  }

  /** Every order that works is open, and no other is. */
  ghost predicate WorkingSet(e: Engine) {
    && e.working <= e.parents.Keys
    && forall id :: id in e.parents ==> (id in e.working <==> e.parents[id].phase.Working?)
  }

  ghost function Within(m: map<nat, int>, ids: set<nat>): map<nat, int> {
    map id | id in m && id in ids :: m[id]
  }

  lemma {:induction false} ZerosOutside(m: map<nat, int>, ids: set<nat>)
    requires forall id :: id in m && id !in ids ==> m[id] == 0
    ensures Total(m) == Total(Within(m, ids))
    decreases m.Keys
  {
    if m.Keys != {} {
      var k := AnyKey(m);
      ZerosOutside(m - {k}, ids);
      assert Within(m - {k}, ids) == Within(m, ids) - {k};
      if k in ids {
        TotalWithout(Within(m, ids), k);
      } else {
        assert Within(m, ids) - {k} == Within(m, ids);
      }
    } else {
      assert Within(m, ids) == map[];
    }
  }

  lemma OpenIsWorking(e: Engine, s: Symbol, side: Side)
    requires WorkingSet(e)
    ensures Total(OpenOf(e.parents, e.working, s, side)) == Open(e.parents, s, side)
  {
    var all := OpenOf(e.parents, e.parents.Keys, s, side);
    ZerosOutside(all, e.working);
    assert OpenOf(e.parents, e.working, s, side) == Within(all, e.working);
  }

  /** The engine's running sum over its working orders is their exact open quantity, until it saturates. */
  lemma AddWorkingIsOpen(e: Engine, s: Symbol, side: Side)
    requires WorkingSet(e) && Fillable(e.parents)
    ensures AddWorking(e.parents, e.working, s, side, 0) == Min(Open(e.parents, s, side), U64_MAX)
  {
    AddWorkingAdds(e.parents, e.working, s, side, 0);
    OpenIsWorking(e, s, side);
  }

  // ------------------------------------------------------------------ limits

  ghost function High(e: Engine, s: Symbol): int {
    HoldingOf(e.positions, s).quantity + Open(e.parents, s, Buy)
  }

  ghost function Low(e: Engine, s: Symbol): int {
    HoldingOf(e.positions, s).quantity - Open(e.parents, s, Sell)
  }

  ghost function UnitsIn(e: Engine, s: Symbol): int {
    Abs(HoldingOf(e.positions, s).quantity) + Open(e.parents, s, Buy) + Open(e.parents, s, Sell)
  }

  /** However the working orders fill, no position can leave the limit. */
  ghost predicate PositionSafe(e: Engine, limit: int) {
    forall s: nat :: High(e, s) <= limit && Low(e, s) >= -limit
  }

  /** In every symbol, at most as much is held and open as before. */
  ghost predicate Narrower(before: Engine, after: Engine) {
    forall s: nat :: High(after, s) <= High(before, s) && Low(after, s) >= Low(before, s)
      && UnitsIn(after, s) <= UnitsIn(before, s)
  }

  lemma NarrowerChains(a: Engine, b: Engine, c: Engine)
    requires Narrower(a, b) && Narrower(b, c)
    ensures Narrower(a, c)
  {
  }

  lemma NarrowerKeepsSafe(before: Engine, after: Engine, limit: int)
    requires PositionSafe(before, limit) && Narrower(before, after)
    ensures PositionSafe(after, limit)
  {
  }

  /** An order that trades or ends leaves at most as much open as its fills leave. */
  lemma OrderNarrows(p: Parent, q: Parent, s: Symbol, side: Side)
    requires SameRequest(p, q) && p.phase.Working? && p.filled <= q.filled <= q.quantity
    ensures 0 <= OpenIn(q, s, side) <= OpenIn(p, s, side) - (if OnSide(p, s, side) then q.filled - p.filled else 0)
  {
  }

  /** What fills add to a position they take from what is open. */
  lemma TurnNarrowsIn(before: Engine, after: Engine, id: nat, s: Symbol)
    requires id in before.parents && id in after.parents && after.parents == before.parents[id := after.parents[id]]
    requires before.parents[id].phase.Working? && SameRequest(before.parents[id], after.parents[id])
    requires before.parents[id].filled <= after.parents[id].filled <= after.parents[id].quantity
    requires PositionTurned(before, after, id)
    ensures High(after, s) <= High(before, s) && Low(after, s) >= Low(before, s)
      && UnitsIn(after, s) <= UnitsIn(before, s)
  {
    var p, q := before.parents[id], after.parents[id];
    OpenChanges(before.parents, id, q, s, Buy);
    OpenChanges(before.parents, id, q, s, Sell);
    OrderNarrows(p, q, s, Buy);
    OrderNarrows(p, q, s, Sell);
  }

  lemma TurnNarrows(r: Round, after: Round, id: nat, now: nat)
    requires TurnShape(r, after, id) && r.engine.parents[id].phase.Working?
    requires OrderTurned(r.engine.parents[id], after.engine.parents[id], now)
    requires PositionTurned(r.engine, after.engine, id)
    ensures Narrower(r.engine, after.engine)
  {
    forall s: nat ensures
      High(after.engine, s) <= High(r.engine, s) && Low(after.engine, s) >= Low(r.engine, s)
      && UnitsIn(after.engine, s) <= UnitsIn(r.engine, s)
    {
      TurnNarrowsIn(r.engine, after.engine, id, s);
    }
  }

  /** Stopping an order only takes quantity away. */
  lemma StopNarrows(before: Engine, after: Engine, id: nat)
    requires id in before.parents && before.parents[id].filled <= before.parents[id].quantity
    requires after.parents == before.parents[id := Stop(before.parents[id])] && after.positions == before.positions
    ensures Narrower(before, after)
  {
    forall s: nat ensures
      High(after, s) <= High(before, s) && Low(after, s) >= Low(before, s) && UnitsIn(after, s) <= UnitsIn(before, s)
    {
      OpenChanges(before.parents, id, Stop(before.parents[id]), s, Buy);
      OpenChanges(before.parents, id, Stop(before.parents[id]), s, Sell);
    }
  }

  /** Forgetting a finished order changes nothing that is held or open. */
  lemma ForgetNarrows(before: Engine, after: Engine, id: nat)
    requires id in before.parents ==> !before.parents[id].phase.Working?
    requires after.parents == before.parents - {id} && after.positions == before.positions
    ensures Narrower(before, after)
  {
    forall s: nat ensures
      High(after, s) <= High(before, s) && Low(after, s) >= Low(before, s) && UnitsIn(after, s) <= UnitsIn(before, s)
    {
      OpenForgets(before.parents, id, s, Buy);
      OpenForgets(before.parents, id, s, Sell);
    }
  }
}
