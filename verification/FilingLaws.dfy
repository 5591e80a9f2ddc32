/** What cancelling, halting and retiring leave behind: which orders are stopped, kept and forgotten. */
module FilingLaws {
  import opened Types
  import opened VenueSpec
  import opened ParentOrders
  import opened EngineSpec
  import opened TickLaws
  import opened RetireLaws
  import opened SafetyLaws

  // ------------------------------------------------------------------ the queue

  /** How many of `n` are too many. */
  function Excess(n: nat, retained: nat): nat {
    if n <= retained then 0 else n - retained
  }

  /** The last of a list, as many as are retained. */
  function Kept(list: seq<nat>, retained: nat): seq<nat> {
    list[Excess(|list|, retained)..]
  }

  /** The others: the oldest, and no more than there are too many. */
  function Dropped(list: seq<nat>, retained: nat): seq<nat> {
    list[..Excess(|list|, retained)]
  }

  function Members(list: seq<nat>): set<nat> {
    set id | id in list
  }

  /** The orders of `gone` are forgotten, and no other is touched. */
  ghost predicate Forgot(before: map<nat, Parent>, after: map<nat, Parent>, gone: seq<nat>) {
    && after.Keys == before.Keys - Members(gone)
    && forall id :: id in after ==> after[id] == before[id]
  }

  /**
   * `ended` no longer work and stand last in the queue, which keeps its newest; what falls off its other end is
   * forgotten. `parents` are the orders as they ended, and nothing else has changed.
   */
  ghost predicate Filed(e: Engine, r: Engine, ended: seq<nat>, parents: map<nat, Parent>) {
    && r == e.(working := e.working - Members(ended), finished := Kept(e.finished + ended, e.retained),
               parents := r.parents)
    && Forgot(parents, r.parents, Dropped(e.finished + ended, e.retained))
  }

  lemma ForgotTwice(a: map<nat, Parent>, b: map<nat, Parent>, c: map<nat, Parent>, x: seq<nat>, y: seq<nat>)
    requires Forgot(a, b, x) && Forgot(b, c, y)
    ensures Forgot(a, c, x + y)
  {
    assert Members(x + y) == Members(x) + Members(y);
  }

  /** Pruning drops the oldest, and no more than it must. */
  lemma {:induction false} PruneDropsOldest(e: Engine)
    ensures Prune(e) == e.(finished := Kept(e.finished, e.retained), parents := Prune(e).parents)
    ensures Forgot(e.parents, Prune(e).parents, Dropped(e.finished, e.retained))
    decreases |e.finished|
  {
    if |e.finished| > e.retained {
      var next := e.(finished := e.finished[1..], parents := e.parents - {e.finished[0]});
      PruneDropsOldest(next);
      assert Members([e.finished[0]]) == {e.finished[0]};
      ForgotTwice(e.parents, next.parents, Prune(next).parents, [e.finished[0]],
                  Dropped(next.finished, e.retained));
      assert [e.finished[0]] + Dropped(next.finished, e.retained) == Dropped(e.finished, e.retained);
    }
  }

  lemma RetireIsFiled(e: Engine, id: nat)
    ensures Filed(e, Retire(e, id), [id], e.parents)
  {
    assert Members([id]) == {id};
    PruneDropsOldest(e.(working := e.working - {id}, finished := e.finished + [id]));
  }

  lemma KeptTwice(list: seq<nat>, more: seq<nat>, retained: nat)
    ensures Kept(Kept(list, retained) + more, retained) == Kept(list + more, retained)
    ensures Dropped(list, retained) + Dropped(Kept(list, retained) + more, retained) == Dropped(list + more, retained)
  {
  }

  lemma FiledTwice(e: Engine, mid: Engine, r: Engine, x: seq<nat>, y: seq<nat>, all: map<nat, Parent>,
                   first: map<nat, Parent>, second: map<nat, Parent>)
    requires Filed(e, mid, x, first) && Filed(mid, r, y, second)
    requires all.Keys == first.Keys && second.Keys == mid.parents.Keys
    requires forall id :: id in second ==> id in all && second[id] == all[id]
    ensures Filed(e, r, x + y, all)
  {
    KeptTwice(e.finished + x, y, e.retained);
    assert e.finished + x + y == e.finished + (x + y);
    assert Members(x + y) == Members(x) + Members(y);
    var dx := Dropped(e.finished + x, e.retained);
    var dy := Dropped(Kept(e.finished + x, e.retained) + y, e.retained);
    assert Members(dx + dy) == Members(dx) + Members(dy);
  }

  /** Retiring a list files it in order, whatever it pushes out. */
  lemma {:induction false} RetireAllIsFiled(e: Engine, ids: seq<nat>)
    requires |e.finished| <= e.retained
    ensures Filed(e, RetireAll(e, ids), ids, e.parents)
  {
    if ids == [] {
      assert e.finished + ids == e.finished;
    } else {
      var init, last := ids[..|ids| - 1], ids[|ids| - 1];
      var mid := RetireAll(e, init);
      RetireAllIsFiled(e, init);
      RetireIsFiled(mid, last);
      FiledTwice(e, mid, RetireAll(e, ids), init, [last], e.parents, e.parents, mid.parents);
      assert init + [last] == ids;
    }
  }

  // ------------------------------------------------------------------ cancelling

  /** An order that ends is the newest of the ended ones, and where there is no room for it the oldest goes. */
  ghost predicate FiledLast(e: Engine, r: Engine, id: nat, ended: map<nat, Parent>) {
    && r == e.(working := e.working - {id}, finished := r.finished, parents := r.parents)
    && if e.retained == 0 then r.finished == [] && r.parents == ended - {id}
       else if |e.finished| < e.retained then r.finished == e.finished + [id] && r.parents == ended
       else r.finished == e.finished[1..] + [id] && r.parents == ended - {e.finished[0]} && e.finished[0] != id
  }

  lemma SameOrders(a: map<nat, Parent>, b: map<nat, Parent>, gone: seq<nat>, ids: set<nat>)
    requires Forgot(a, b, gone) && Members(gone) == ids
    ensures b == a - ids
  {
  }

  lemma OneFiledLast(e: Engine, r: Engine, id: nat, ended: map<nat, Parent>)
    requires Filed(e, r, [id], ended) && |e.finished| <= e.retained && id !in e.finished
    ensures FiledLast(e, r, id, ended)
  {
    var list, gone := e.finished + [id], Dropped(e.finished + [id], e.retained);
    assert Members([id]) == {id};
    if |e.finished| < e.retained {
      assert Members(gone) == {};
      SameOrders(ended, r.parents, gone, {});
    } else {
      assert gone == [list[0]];
      SameOrders(ended, r.parents, gone, {list[0]});
    }
  }

  /** The first order to be stopped. */
  lemma StopsFirst(e: Engine, id: nat) returns (stopped: map<nat, Parent>, next: Engine)
    requires Filing(e, {}) && id in e.working
    ensures stopped == e.parents[id := e.parents[id].(phase := Phase.Cancelled)]
    ensures next == Retire(e.(parents := stopped), id)
    ensures Filed(e, next, [id], stopped) && Filing(next, {}) && id !in e.finished
  {
    stopped := e.parents[id := Stop(e.parents[id])];
    next := Retire(e.(parents := stopped), id);
    ListsHasNot(e.finished, e.parents.Keys - e.working, id);
    StopPends(e, id);
    RetireFiles(e.(parents := stopped), {id}, id);
    RetireIsFiled(e.(parents := stopped), id);
    assert {id} - {id} == {};
  }

  /** A cancel of a working order stops it and files it: it is only forgotten where nothing is retained. */
  lemma CancelStops(e: Engine, id: nat)
    requires Filing(e, {}) && id in e.working
    ensures var (r, reply) := CancelOrder(e, id);
      reply == Ok(()) && FiledLast(e, r, id, e.parents[id := e.parents[id].(phase := Phase.Cancelled)])
  {
    var stopped, next := StopsFirst(e, id);
    OneFiledLast(e, next, id, stopped);
  }

  /** Nothing else can be cancelled: the reply says why, and nothing changes. */
  lemma CancelRefuses(e: Engine, id: nat)
    requires Filing(e, {}) && id !in e.working
    ensures CancelOrder(e, id)
      == (e, Err(if id in e.parents then NotWorking(id, e.parents[id].phase) else Unknown(id)))
  {
  }

  // -------------------------------------------------------------------- halting

  /** The ids of a set, lowest first. */
  function Ascending(ids: set<nat>): seq<nat>
    decreases ids
  {
    if ids == {} then [] else [Lowest(ids)] + Ascending(ids - {Lowest(ids)})
  }

  ghost predicate Rising(list: seq<nat>) {
    forall i, j :: 0 <= i < j < |list| ==> list[i] < list[j]
  }

  lemma LowestFirst(ids: set<nat>, id: nat, rest: seq<nat>)
    requires id in ids && (forall other :: other in ids ==> id <= other) && Members(rest) == ids - {id} && Rising(rest)
    ensures Members([id] + rest) == ids && Rising([id] + rest)
  {
    assert Members([id] + rest) == {id} + Members(rest);
    forall j | 0 <= j < |rest| ensures id < rest[j] {
      assert rest[j] in Members(rest);
    }
  }

  lemma {:induction false} AscendingIs(ids: set<nat>)
    ensures Members(Ascending(ids)) == ids && Rising(Ascending(ids))
    decreases ids
  {
    if ids != {} {
      AscendingIs(ids - {Lowest(ids)});
      LowestFirst(ids, Lowest(ids), Ascending(ids - {Lowest(ids)}));
    }
  }

  function StoppedOf(parents: map<nat, Parent>, ids: set<nat>): map<nat, Parent> {
    map id | id in parents :: if id in ids then parents[id].(phase := Phase.Cancelled) else parents[id]
  }

  lemma StopsOne(e: Engine, todo: set<nat>) returns (id: nat, stopped: map<nat, Parent>, next: Engine)
    requires Filing(e, {}) && {} < todo <= e.working
    ensures id in todo && id in e.parents && stopped == e.parents[id := e.parents[id].(phase := Phase.Cancelled)]
    ensures Filing(next, {}) && todo - {id} <= next.working && Filed(e, next, [id], stopped)
    ensures StopAll(e, todo) == StopAll(next, todo - {id}) && Ascending(todo) == [id] + Ascending(todo - {id})
  {
    id := Lowest(todo);
    stopped, next := StopsFirst(e, id);
    assert Members([id]) == {id};
  }

  lemma {:induction false} StopAllIsFiled(e: Engine, todo: set<nat>)
    requires Filing(e, {}) && todo <= e.working
    ensures Filed(e, StopAll(e, todo), Ascending(todo), StoppedOf(e.parents, todo))
    decreases todo
  {
    if todo == {} {
      assert e.finished + [] == e.finished;
      assert StoppedOf(e.parents, todo) == e.parents;
    } else {
      var id, stopped, next := StopsOne(e, todo);
      StopAllIsFiled(next, todo - {id});
      StopsRest(e, id, todo, stopped, next, StopAll(next, todo - {id}), Ascending(todo - {id}));
    }
  }

  lemma StoppedRest(all: map<nat, Parent>, stopped: map<nat, Parent>, left: map<nat, Parent>, id: nat, todo: set<nat>)
    requires id in all && id in todo && stopped == all[id := all[id].(phase := Phase.Cancelled)]
    requires forall i :: i in left ==> i in stopped && left[i] == stopped[i]
    ensures StoppedOf(all, todo).Keys == stopped.Keys && StoppedOf(left, todo - {id}).Keys == left.Keys
    ensures forall i :: i in left ==> StoppedOf(left, todo - {id})[i] == StoppedOf(all, todo)[i]
  {
  }

  lemma StopsRest(e: Engine, id: nat, todo: set<nat>, stopped: map<nat, Parent>, next: Engine, r: Engine,
                  rest: seq<nat>)
    requires id in e.parents && id in todo && stopped == e.parents[id := e.parents[id].(phase := Phase.Cancelled)]
    requires Filed(e, next, [id], stopped) && Filed(next, r, rest, StoppedOf(next.parents, todo - {id}))
    ensures Filed(e, r, [id] + rest, StoppedOf(e.parents, todo))
  {
    StoppedRest(e.parents, stopped, next.parents, id, todo);
    FiledTwice(e, next, r, [id], rest, StoppedOf(e.parents, todo), stopped, StoppedOf(next.parents, todo - {id}));
  }

  /** A halt cancels every working order, and no other, and files them by id. */
  lemma HaltStopsAll(e: Engine, reason: HaltReason)
    requires Filing(e, {})
    ensures var r := Halt(e, reason);
      && Filed(e.(halted := Some(reason)), r, Ascending(e.working), StoppedOf(e.parents, e.working))
      && r.working == {} && r.halted == Some(reason)
  {
    StopAllIsFiled(e, e.working);
    AscendingIs(e.working);
  }

  // ----------------------------------------------------------------------- ticks

  /** These ended, in this order: they no longer work, and the oldest beyond the retained are no longer stored. */
  ghost predicate EndedInOrder(e: Engine, after: Engine, ended: seq<nat>) {
    && after.retained == e.retained && after.finished == Kept(e.finished + ended, e.retained)
    && after.working == e.working - Members(ended)
    && after.parents.Keys == e.parents.Keys - Members(Dropped(e.finished + ended, e.retained))
  }

  lemma FiledEnded(e: Engine, r: Engine, ended: seq<nat>, parents: map<nat, Parent>)
    requires Filed(e, r, ended, parents) && parents.Keys == e.parents.Keys
    ensures EndedInOrder(e, r, ended)
  {
  }

  lemma EndedTwice(e: Engine, mid: Engine, r: Engine, x: seq<nat>, y: seq<nat>)
    requires EndedInOrder(e, mid, x) && EndedInOrder(mid, r, y)
    ensures EndedInOrder(e, r, x + y)
  {
    KeptTwice(e.finished + x, y, e.retained);
    assert e.finished + x + y == e.finished + (x + y);
    assert Members(x + y) == Members(x) + Members(y);
    var dx := Dropped(e.finished + x, e.retained);
    var dy := Dropped(Kept(e.finished + x, e.retained) + y, e.retained);
    assert Members(dx + dy) == Members(dx) + Members(dy);
  }

  lemma {:induction false} ListedMembers(list: seq<nat>, ids: set<nat>)
    requires Lists(list, ids)
    ensures Members(list) == ids && |list| == |ids|
  {
    if list != [] {
      var init, last := list[..|list| - 1], list[|list| - 1];
      ListedMembers(init, ids - {last});
      assert list == init + [last];
      assert Members(init + [last]) == Members(init) + {last};
    }
  }

  lemma RetiredEnded(e: Engine, now: U64) returns (w: Round, retired: Engine)
    requires VenueRests(e) && OrdersRest(e) && Worked(e, now).engine.nextChildId < QUOTE_ID_BASE
    ensures w == Worked(e, now) && retired == RetireAll(w.engine, w.finished) && OrdersRest(retired)
    ensures EndedInOrder(e, retired, w.finished) && Members(w.finished) <= e.working
  {
    w, retired := RetiredRests(e, now);
    RetireAllIsFiled(w.engine, w.finished);
    FiledEnded(w.engine, retired, w.finished, w.engine.parents);
    TickIsReady(e);
    LoopListsEnded(Opening(e), e.working, now, {});
    ListedMembers(w.finished, {} + Ended(w.engine.parents, e.working));
  }

  lemma HaltEnded(e: Engine, reason: HaltReason)
    requires Filing(e, {})
    ensures EndedInOrder(e, Halt(e, reason), Ascending(e.working)) && Members(Ascending(e.working)) == e.working
  {
    HaltStopsAll(e, reason);
    AscendingIs(e.working);
    FiledEnded(e.(halted := Some(reason)), Halt(e, reason), Ascending(e.working), StoppedOf(e.parents, e.working));
  }

  /** What still worked when the engine halted ends after what ended in the tick. */
  lemma EndedThenHalted(e: Engine, retired: Engine, venue: Venue, r: Engine, x: seq<nat>, y: seq<nat>)
    requires EndedInOrder(e, retired, x) && Members(x) <= e.working
    requires EndedInOrder(retired.(venue := venue), r, y) && Members(y) <= retired.working
    ensures EndedInOrder(e, r, x + y) && Members(x + y) <= e.working
  {
    EndedTwice(e, retired.(venue := venue), r, x, y);
    assert Members(x + y) == Members(x) + Members(y);
  }

  lemma SettleEnded(w: Round, retired: Engine) returns (more: seq<nat>, venue: Venue)
    requires retired == RetireAll(w.engine, w.finished) && OrdersRest(retired)
    ensures EndedInOrder(retired.(venue := venue), Settle(w), more) && Members(more) <= retired.working
  {
    var requoted, halt := SettleEnds(w, retired);
    venue := requoted.venue;
    if halt.Some? {
      RequoteKeepsOrders(retired, requoted);
      HaltEnded(requoted, halt.value);
      more := Ascending(requoted.working);
    } else {
      more := [];
      NothingEnded(requoted);
    }
  }

  lemma NothingEnded(e: Engine)
    requires |e.finished| <= e.retained
    ensures EndedInOrder(e, e, [])
  {
    RetireAllIsFiled(e, []);
    FiledEnded(e, e, [], e.parents);
  }

  /** What ends in a tick is filed behind what had ended before; only the oldest are forgotten, and as few as can be. */
  lemma TickFiles(e: Engine, now: U64, after: Engine) returns (ended: seq<nat>)
    requires VenueRests(e) && OrdersRest(e) && Worked(e, now).engine.nextChildId < QUOTE_ID_BASE
    requires after == Settle(Worked(e, now))
    ensures EndedInOrder(e, after, ended) && Members(ended) <= e.working
  {
    var w, retired := RetiredEnded(e, now);
    var more, venue := SettleEnded(w, retired);
    ended := w.finished + more;
    EndedThenHalted(e, retired, venue, after, w.finished, more);
  }
}
