/** Filing finished orders: stored orders are the working ones and the retained finished ones, and no others. */
module RetireLaws {
  import opened Types
  import opened VenueSpec
  import opened ParentOrders
  import opened EngineSpec
  import opened ExposureLaws
  import opened TickLaws

  // ------------------------------------------------------------------ lists

  lemma {:induction false} ListsTail(list: seq<nat>, ids: set<nat>)
    requires Lists(list, ids) && list != []
    ensures list[0] in ids && Lists(list[1..], ids - {list[0]})
  {
    var last, init := list[|list| - 1], list[..|list| - 1];
    if |list| > 1 {
      ListsTail(init, ids - {last});
      assert list[1..][..|list| - 2] == init[1..];
      assert ids - {last} - {list[0]} == ids - {list[0]} - {last};
      assert list[1..][|list| - 2] == last;
      ListsHasNot(init, ids - {last}, last);
      assert init[0] in init && list[0] == init[0];
    } else {
      assert list[1..] == [];
      ListsEmpty(init, ids - {last});
    }
  }

  lemma ListsEmpty(list: seq<nat>, ids: set<nat>)
    requires Lists(list, ids) && list == []
    ensures ids == {}
  {
  }

  lemma {:induction false} ListsHasNot(list: seq<nat>, ids: set<nat>, id: nat)
    requires Lists(list, ids) && id !in ids
    ensures id !in list
  {
    if list != [] {
      var last, init := list[|list| - 1], list[..|list| - 1];
      ListsHasNot(init, ids - {last}, id);
      assert list == init + [last];
    }
  }

  // ----------------------------------------------------------------- filing

  /**
   * Stored orders are the working set and the finished list, disjoint, the list within the retention
   * limit; the working set holds the open orders, and those of `pending`, which have just ended.
   */
  ghost predicate Filing(e: Engine, pending: set<nat>) {
    && e.working <= e.parents.Keys && Lists(e.finished, e.parents.Keys - e.working)
    && |e.finished| <= e.retained
    && PhasesMatch(e, pending)
  }

  ghost predicate PhasesMatch(e: Engine, pending: set<nat>) {
    && pending <= e.working
    && forall id :: id in e.parents ==> (id in e.working && id !in pending <==> e.parents[id].phase.Working?)
  }

  /** Only finished orders were forgotten. */
  ghost predicate Shrunk(a: Engine, b: Engine) {
    && b == a.(finished := b.finished, parents := b.parents)
    && a.working <= b.parents.Keys <= a.parents.Keys
    && forall id :: id in b.parents ==> b.parents[id] == a.parents[id]
  }

  lemma ShrunkChains(a: Engine, b: Engine, c: Engine)
    requires Shrunk(a, b) && Shrunk(b, c)
    ensures Shrunk(a, c)
  {
  }

  lemma ShrunkPhases(a: Engine, b: Engine, pending: set<nat>)
    requires PhasesMatch(a, pending) && Shrunk(a, b)
    ensures PhasesMatch(b, pending)
  {
  }

  lemma {:induction false} PruneFiles(e: Engine)
    requires e.working <= e.parents.Keys && Lists(e.finished, e.parents.Keys - e.working)
    ensures var r := Prune(e);
      Shrunk(e, r) && Lists(r.finished, r.parents.Keys - r.working) && |r.finished| <= r.retained
    decreases |e.finished|
  {
    if |e.finished| > e.retained {
      var oldest := e.finished[0];
      var next := e.(finished := e.finished[1..], parents := e.parents - {oldest});
      ListsTail(e.finished, e.parents.Keys - e.working);
      assert next.parents.Keys - next.working == e.parents.Keys - e.working - {oldest};
      PruneFiles(next);
      ShrunkChains(e, next, Prune(next));
    }
  }

  lemma {:induction false} PruneNarrows(e: Engine)
    requires e.working <= e.parents.Keys && Lists(e.finished, e.parents.Keys - e.working)
    requires forall id :: id in e.parents && id !in e.working ==> !e.parents[id].phase.Working?
    ensures Narrower(e, Prune(e))
    decreases |e.finished|
  {
    if |e.finished| > e.retained {
      var oldest := e.finished[0];
      var next := e.(finished := e.finished[1..], parents := e.parents - {oldest});
      ListsTail(e.finished, e.parents.Keys - e.working);
      assert next.parents.Keys - next.working == e.parents.Keys - e.working - {oldest};
      ForgetNarrows(e, next, oldest);
      PruneNarrows(next);
      NarrowerChains(e, next, Prune(next));
    }
  }

  lemma SameOrdersNarrow(a: Engine, b: Engine)
    requires a.parents == b.parents && a.positions == b.positions
    ensures Narrower(a, b)
  {
  }

  /** Retiring an order that has ended. */
  lemma RetireFiles(e: Engine, pending: set<nat>, id: nat)
    requires Filing(e, pending) && id in pending
    ensures Filing(Retire(e, id), pending - {id}) && Shrunk(e.(working := e.working - {id}), Retire(e, id))
    ensures Narrower(e, Retire(e, id))
  {
    var filed := e.(working := e.working - {id}, finished := e.finished + [id]);
    ListsMore(e.finished, e.parents.Keys - e.working, id);
    assert filed.parents.Keys - filed.working == e.parents.Keys - e.working + {id};
    PruneFiles(filed);
    PruneNarrows(filed);
    ShrunkPhases(filed, Prune(filed), pending - {id});
    SameOrdersNarrow(e, filed);
    NarrowerChains(e, filed, Prune(filed));
  }

  /** What retiring and cancelling leave alone. */
  ghost predicate Wound(a: Engine, b: Engine) {
    && b == a.(working := b.working, finished := b.finished, parents := b.parents)
    && b.parents.Keys <= a.parents.Keys && b.working <= a.working
  }

  lemma {:induction false} RetireAllFiles(e: Engine, ids: seq<nat>, pending: set<nat>, done: set<nat>)
    requires Filing(e, pending) && Lists(ids, done) && done <= pending
    ensures var r := RetireAll(e, ids);
      && Filing(r, pending - done) && Wound(e, r) && r.working == e.working - done
      && (forall id :: id in r.parents ==> r.parents[id] == e.parents[id])
    ensures Narrower(e, RetireAll(e, ids))
  {
    if ids != [] {
      var last, init := ids[|ids| - 1], ids[..|ids| - 1];
      RetireAllFiles(e, init, pending, done - {last});
      var earlier := RetireAll(e, init);
      RetireFiles(earlier, pending - (done - {last}), last);
      assert pending - (done - {last}) - {last} == pending - done;
      NarrowerChains(e, earlier, RetireAll(e, ids));
    } else {
      assert pending - done == pending;
      assert e.working - done == e.working;
      SameOrdersNarrow(e, e);
    }
  }

  // ------------------------------------------------------------- cancelling

  /** Orders kept are as they were, or were open and are now cancelled. */
  ghost predicate OrdersStopped(before: map<nat, Parent>, after: map<nat, Parent>) {
    forall id :: id in after ==> id in before && OrderStopped(before[id], after[id])
  }

  ghost predicate OrderStopped(p: Parent, q: Parent) {
    q == p || (p.phase.Working? && q == Stop(p))
  }

  lemma StoppedChains(a: map<nat, Parent>, b: map<nat, Parent>, c: map<nat, Parent>)
    requires OrdersStopped(a, b) && OrdersStopped(b, c)
    ensures OrdersStopped(a, c)
  {
    forall id | id in c ensures id in a && OrderStopped(a[id], c[id]) {
      assert OrderStopped(b[id], c[id]) && OrderStopped(a[id], b[id]);
    }
  }

  lemma StopPends(e: Engine, id: nat)
    requires Filing(e, {}) && id in e.working
    ensures var stopped := e.(parents := e.parents[id := Stop(e.parents[id])]);
      Filing(stopped, {id}) && OrdersStopped(e.parents, stopped.parents)
  {
    var stopped := e.(parents := e.parents[id := Stop(e.parents[id])]);
    assert stopped.parents.Keys == e.parents.Keys;
  }

  lemma StopFiles(e: Engine, id: nat)
    requires Filing(e, {}) && Fillable(e.parents) && id in e.working
    ensures var r := Retire(e.(parents := e.parents[id := Stop(e.parents[id])]), id);
      && Filing(r, {}) && Wound(e, r) && r.working == e.working - {id} && OrdersStopped(e.parents, r.parents)
    ensures Narrower(e, Retire(e.(parents := e.parents[id := Stop(e.parents[id])]), id))
  {
    var stopped := e.(parents := e.parents[id := Stop(e.parents[id])]);
    StopPends(e, id);
    StopNarrows(e, stopped, id);
    RetireFiles(stopped, {id}, id);
    assert {id} - {id} == {};
    StoppedChains(e.parents, stopped.parents, Retire(stopped, id).parents);
    NarrowerChains(e, stopped, Retire(stopped, id));
  }

  lemma StillFillable(a: Engine, b: Engine)
    requires Fillable(a.parents) && OrdersStopped(a.parents, b.parents)
    ensures Fillable(b.parents)
  {
    forall id | id in b.parents ensures b.parents[id].filled <= b.parents[id].quantity {
      assert OrderStopped(a.parents[id], b.parents[id]);
    }
  }

  lemma StopAllStep(e: Engine, todo: set<nat>) returns (id: nat, next: Engine)
    requires Filing(e, {}) && Fillable(e.parents) && {} < todo <= e.working
    ensures id in todo && StopAll(e, todo) == StopAll(next, todo - {id})
    ensures Filing(next, {}) && Fillable(next.parents) && Wound(e, next) && next.working == e.working - {id}
    ensures OrdersStopped(e.parents, next.parents) && Narrower(e, next)
  {
    id := Lowest(todo);
    next := Retire(e.(parents := e.parents[id := Stop(e.parents[id])]), id);
    StopFiles(e, id);
    StillFillable(e, next);
  }

  lemma {:induction false} StopAllFiles(e: Engine, todo: set<nat>)
    requires Filing(e, {}) && Fillable(e.parents) && todo <= e.working
    ensures var r := StopAll(e, todo);
      Filing(r, {}) && Wound(e, r) && r.working == e.working - todo && OrdersStopped(e.parents, r.parents)
    ensures Narrower(e, StopAll(e, todo))
    decreases todo
  {
    if todo != {} {
      var id, next := StopAllStep(e, todo);
      StopAllFiles(next, todo - {id});
      StoppedChains(e.parents, next.parents, StopAll(next, todo - {id}).parents);
      NarrowerChains(e, next, StopAll(next, todo - {id}));
    } else {
      assert e.working - todo == e.working;
      SameOrdersNarrow(e, e);
    }
  }

  /** A halt leaves no order working, cancels those that were, and touches nothing else. */
  lemma HaltFiles(e: Engine, reason: HaltReason)
    requires Filing(e, {}) && Fillable(e.parents)
    ensures var r := Halt(e, reason);
      && Filing(r, {}) && r.working == {} && r.halted == Some(reason)
      && Wound(e, r.(halted := e.halted)) && OrdersStopped(e.parents, r.parents)
    ensures Narrower(e, Halt(e, reason))
  {
    StopAllFiles(e, e.working);
    var r := StopAll(e, e.working);
    SameOrdersNarrow(r, r.(halted := Some(reason)));
    NarrowerChains(e, r, Halt(e, reason));
  }
}
