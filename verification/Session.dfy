/**
 * The client's session protocol: one UI thread that starts sessions, and workers that write replies
 * into locked stores. Every lock, check, write and release is a step of its own, in any interleaving.
 */
module Session {
  import opened Types

  datatype Store = Tracked | Orders | Positions | Fills | HaltReason

  const ALL_STORES: seq<Store> := [Tracked, Orders, Positions, Fills, HaltReason]

  const MAX_FILLS: nat := 500

  /** One thing per store. */
  datatype PerStore<T> = PerStore(tracked: T, orders: T, positions: T, fills: T, haltReason: T) {
    function Get(s: Store): T {
      match s
      case Tracked => tracked
      case Orders => orders
      case Positions => positions
      case Fills => fills
      case HaltReason => haltReason
    }

    function Set(s: Store, t: T): (r: PerStore<T>)
      ensures r.Get(s) == t && forall other :: other != s ==> r.Get(other) == Get(other)
    {
      match s
      case Tracked => this.(tracked := t)
      case Orders => this.(orders := t)
      case Positions => this.(positions := t)
      case Fills => this.(fills := t)
      case HaltReason => this.(haltReason := t)
    }
  }

  /**
   * A stored entry, stamped with the session whose worker wrote its content; `known` is false once the engine
   * disowns it.
   */
  datatype Entry = Entry(session: nat, id: nat, content: nat, known: bool := true)

  /** What a worker does once it holds its locks and its session is still current. */
  datatype Job =
    | TrackOrder(id: nat)
    | UpdateOrder(id: nat, content: nat)
    | ForgetOrder(id: nat)
    | PushFill(content: nat)
    | ReplacePositions(rows: seq<nat>)
    | SetHaltReason(reason: Option<nat>)

  /** Stores a job locks, in the order it locks them. */
  function Locks(job: Job): seq<Store> {
    match job
    case TrackOrder(_) => [Tracked]
    case UpdateOrder(_, _) => [Orders]
    case ForgetOrder(_) => [Tracked, Orders]
    case PushFill(_) => [Fills]
    case ReplacePositions(_) => [Positions]
    case SetHaltReason(_) => [HaltReason]
  }

  datatype Phase = Locking(held: nat) | Current | Written | Finished

  datatype Worker = Worker(session: nat, job: Job, phase: Phase) {
    /** The stores this worker holds the lock of. */
    function Holds(): seq<Store> {
      match phase
      case Locking(held) => if held <= |Locks(job)| then Locks(job)[..held] else []
      case Current => Locks(job)
      case Written => Locks(job)
      case Finished => []
    }
  }

  /** `clearing` is what the UI thread still has to clear of the session it is starting. */
  datatype State = State(
    generation: nat,
    clearing: seq<Store>,
    contents: PerStore<seq<Entry>>,
    locks: PerStore<Option<nat>>,
    workers: map<nat, Worker>,
    clearedIn: PerStore<nat>)

  const START: State :=
    State(0, [], PerStore([], [], [], [], []), PerStore(None, None, None, None, None), map[], PerStore(0, 0, 0, 0, 0))

  // -------------------------------------------------------------- the writes

  predicate HasId(entries: seq<Entry>, id: nat) {
    exists i :: 0 <= i < |entries| && entries[i].id == id
  }

  /** Rewrites the first entry with this id. */
  function ReplaceFirst(entries: seq<Entry>, entry: Entry): seq<Entry> {
    if entries == [] then []
    else if entries[0].id == entry.id then [entry] + entries[1..]
    else [entries[0]] + ReplaceFirst(entries[1..], entry)
  }

  /** Marks the first entry with this id, and leaves what it holds alone. */
  function MarkUnknown(entries: seq<Entry>, id: nat): seq<Entry> {
    if entries == [] then []
    else if entries[0].id == id then [entries[0].(known := false)] + entries[1..]
    else [entries[0]] + MarkUnknown(entries[1..], id)
  }

  function DropId(entries: seq<Entry>, id: nat): seq<Entry> {
    if entries == [] then []
    else (if entries[0].id == id then [] else [entries[0]]) + DropId(entries[1..], id)
  }

  function Newest(entries: seq<Entry>): seq<Entry> {
    if |entries| <= MAX_FILLS then entries else entries[|entries| - MAX_FILLS..]
  }

  function Rows(session: nat, rows: seq<nat>): seq<Entry> {
    if rows == [] then [] else [Entry(session, |rows|, rows[0])] + Rows(session, rows[1..])
  }

  function Perform(c: PerStore<seq<Entry>>, session: nat, job: Job): PerStore<seq<Entry>> {
    match job
    case TrackOrder(id) =>
      if HasId(c.tracked, id) then c else c.(tracked := c.tracked + [Entry(session, id, id)])
    case UpdateOrder(id, content) =>
      var row := Entry(session, id, content);
      c.(orders := if HasId(c.orders, id) then ReplaceFirst(c.orders, row) else [row] + c.orders)
    case ForgetOrder(id) =>
      c.(tracked := DropId(c.tracked, id), orders := MarkUnknown(c.orders, id))
    case PushFill(content) => c.(fills := Newest(c.fills + [Entry(session, 0, content)]))
    case ReplacePositions(rows) => c.(positions := Rows(session, rows))
    case SetHaltReason(reason) =>
      c.(haltReason := match reason case None => [] case Some(text) => [Entry(session, 0, text)])
  }

  // ------------------------------------------------------------------- steps

  datatype Step =
    | BumpGeneration
    | ClearNext
    | Spawn(w: nat, session: nat, job: Job)
    | AcquireNext(w: nat)
    | CheckCurrent(w: nat)
    | Write(w: nat)
    | Release(w: nat)

  function Unlock(locks: PerStore<Option<nat>>, stores: seq<Store>): PerStore<Option<nat>>
    decreases |stores|
  {
    if stores == [] then locks else Unlock(locks.Set(stores[0], None), stores[1..])
  }

  predicate Enabled(s: State, step: Step) {
    match step
    case BumpGeneration => s.clearing == []
    case ClearNext => s.clearing != [] && s.locks.Get(s.clearing[0]).None?
    case Spawn(w, session, _) => w !in s.workers && session <= s.generation
    case AcquireNext(w) =>
      w in s.workers && s.workers[w].phase.Locking?
      && s.workers[w].phase.held < |Locks(s.workers[w].job)|
      && s.locks.Get(Locks(s.workers[w].job)[s.workers[w].phase.held]).None?
    case CheckCurrent(w) =>
      w in s.workers && s.workers[w].phase == Locking(|Locks(s.workers[w].job)|)
    case Write(w) => w in s.workers && s.workers[w].phase.Current?
    case Release(w) => w in s.workers && s.workers[w].phase.Written?
  }

  function Next(s: State, step: Step): State
    requires Enabled(s, step)
  {
    match step
    case BumpGeneration => s.(generation := s.generation + 1, clearing := ALL_STORES)
    case ClearNext =>
      var store := s.clearing[0];
      s.(clearing := s.clearing[1..], contents := s.contents.Set(store, []),
         clearedIn := s.clearedIn.Set(store, s.generation))
    case Spawn(w, session, job) => s.(workers := s.workers[w := Worker(session, job, Locking(0))])
    case AcquireNext(w) =>
      var worker := s.workers[w];
      var held := worker.phase.held;
      s.(locks := s.locks.Set(Locks(worker.job)[held], Some(w)),
         workers := s.workers[w := worker.(phase := Locking(held + 1))])
    case CheckCurrent(w) =>
      // A worker whose session is over gives up and lets go of its locks.
      var worker := s.workers[w];
      if worker.session == s.generation then s.(workers := s.workers[w := worker.(phase := Current)])
      else s.(locks := Unlock(s.locks, Locks(worker.job)), workers := s.workers[w := worker.(phase := Finished)])
    case Write(w) =>
      var worker := s.workers[w];
      s.(contents := Perform(s.contents, worker.session, worker.job),
         workers := s.workers[w := worker.(phase := Written)])
    case Release(w) =>
      var worker := s.workers[w];
      s.(locks := Unlock(s.locks, Locks(worker.job)), workers := s.workers[w := worker.(phase := Finished)])
  }

  /** The state a sequence of steps leads to, if every step was possible when it was taken. */
  function Run(steps: seq<Step>): Option<State> {
    if steps == [] then Some(START)
    else
      match Run(steps[..|steps| - 1])
      case None => None
      case Some(s) => if Enabled(s, steps[|steps| - 1]) then Some(Next(s, steps[|steps| - 1])) else None
  }

  // --------------------------------------------------------------- invariant

  /** Entries of a store come from sessions no older than the one that last cleared it. */
  ghost predicate NothingOlder(s: State) {
    forall store, e :: e in s.contents.Get(store) ==> s.clearedIn.Get(store) <= e.session <= s.generation
  }

  /** A lock is held by exactly the worker that has taken it. */
  ghost predicate LocksHeld(s: State) {
    && (forall w, store :: w in s.workers && store in s.workers[w].Holds() ==> s.locks.Get(store) == Some(w))
    && (forall store :: s.locks.Get(store).Some? ==>
          var w := s.locks.Get(store).value; w in s.workers && store in s.workers[w].Holds())
    && (forall w :: w in s.workers && s.workers[w].phase.Locking? ==>
        s.workers[w].phase.held <= |Locks(s.workers[w].job)|)
  }

  /** A worker that saw its session current may only write where no newer session has cleared. */
  ghost predicate WritersNotStale(s: State) {
    forall w, store :: w in s.workers && s.workers[w].phase.Current? && store in Locks(s.workers[w].job) ==>
      s.clearedIn.Get(store) <= s.workers[w].session <= s.generation
  }

  ghost predicate Inv(s: State) {
    && NothingOlder(s) && LocksHeld(s) && WritersNotStale(s)
    && (forall store :: s.clearedIn.Get(store) <= s.generation)
    && (forall store :: store in s.clearing || s.clearedIn.Get(store) == s.generation)
  }

  lemma {:induction false} UnlockFrees(locks: PerStore<Option<nat>>, stores: seq<Store>)
    ensures forall store :: Unlock(locks, stores).Get(store) == if store in stores then None else locks.Get(store)
    decreases |stores|
  {
    if stores != [] {
      UnlockFrees(locks.Set(stores[0], None), stores[1..]);
      assert stores == [stores[0]] + stores[1..];
    }
  }

  lemma {:induction false} ReplaceFirstFrom(entries: seq<Entry>, entry: Entry)
    ensures forall e :: e in ReplaceFirst(entries, entry) ==> e in entries || e == entry
  {
    if entries != [] {
      ReplaceFirstFrom(entries[1..], entry);
    }
  }

  lemma {:induction false} MarkUnknownFrom(entries: seq<Entry>, id: nat)
    ensures forall e :: e in MarkUnknown(entries, id) ==> SessionIn(e.session, entries)
  {
    if entries != [] {
      MarkUnknownFrom(entries[1..], id);
      forall e | e in MarkUnknown(entries, id) ensures SessionIn(e.session, entries) {
        if e in MarkUnknown(entries[1..], id) || e in entries[1..] {
          var o :| o in entries[1..] && o.session == e.session;
          assert o in entries;
        } else {
          assert entries[0] in entries;
        }
      }
    }
  }

  /** Some entry is of this session. */
  ghost predicate SessionIn(session: nat, entries: seq<Entry>) {
    exists e :: e in entries && e.session == session
  }

  lemma {:induction false} DropIdFrom(entries: seq<Entry>, id: nat)
    ensures forall e :: e in DropId(entries, id) ==> e in entries
  {
    if entries != [] {
      DropIdFrom(entries[1..], id);
    }
  }

  lemma {:induction false} RowsFrom(session: nat, rows: seq<nat>)
    ensures forall e :: e in Rows(session, rows) ==> e.session == session
  {
    if rows != [] {
      RowsFrom(session, rows[1..]);
    }
  }

  /** A write touches only locked stores, and puts only content of its own session there. */
  lemma PerformWritesOwn(c: PerStore<seq<Entry>>, session: nat, job: Job, store: Store)
    ensures forall e :: e in Perform(c, session, job).Get(store) ==>
      SessionIn(e.session, c.Get(store)) || (e.session == session && store in Locks(job))
  {
    match job
    case TrackOrder(id) =>
    case UpdateOrder(id, content) => ReplaceFirstFrom(c.orders, Entry(session, id, content));
    case ForgetOrder(id) =>
      DropIdFrom(c.tracked, id);
      MarkUnknownFrom(c.orders, id);
    case PushFill(content) =>
    case ReplacePositions(rows) => RowsFrom(session, rows);
    case SetHaltReason(reason) =>
  }

  /** Two workers never hold the same lock, and a free lock has no holder. */
  lemma HolderIsUnique(s: State, w: nat, other: nat, store: Store)
    requires LocksHeld(s) && w in s.workers && other in s.workers
    requires store in s.workers[w].Holds() && store in s.workers[other].Holds()
    ensures w == other
  {
    assert s.locks.Get(store) == Some(w) && s.locks.Get(store) == Some(other);
  }

  lemma BumpKeeps(s: State)
    requires Inv(s) && Enabled(s, BumpGeneration)
    ensures Inv(Next(s, BumpGeneration))
  {
    forall store: Store ensures store in ALL_STORES {
      match store
      case Tracked => assert ALL_STORES[0] == store;
      case Orders => assert ALL_STORES[1] == store;
      case Positions => assert ALL_STORES[2] == store;
      case Fills => assert ALL_STORES[3] == store;
      case HaltReason => assert ALL_STORES[4] == store;
    }
  }

  /** Clearing needs the lock, so no writer is at work on the store being cleared. */
  lemma ClearKeeps(s: State)
    requires Inv(s) && Enabled(s, ClearNext)
    ensures Inv(Next(s, ClearNext))
  {
    var after, store := Next(s, ClearNext), s.clearing[0];
    forall w, at | w in after.workers && after.workers[w].phase.Current? && at in Locks(after.workers[w].job)
      ensures after.clearedIn.Get(at) <= after.workers[w].session <= after.generation
    {
      assert at in s.workers[w].Holds();
      assert at != store;
    }
    assert s.clearing == [store] + s.clearing[1..];
  }

  lemma SpawnKeeps(s: State, w: nat, session: nat, job: Job)
    requires Inv(s) && Enabled(s, Spawn(w, session, job))
    ensures Inv(Next(s, Spawn(w, session, job)))
  {
  }

  lemma AcquireKeeps(s: State, w: nat)
    requires Inv(s) && Enabled(s, AcquireNext(w))
    ensures Inv(Next(s, AcquireNext(w)))
  {
    var after, worker := Next(s, AcquireNext(w)), s.workers[w];
    var held := worker.phase.held;
    var taken := Locks(worker.job)[held];
    assert Locks(worker.job)[..held + 1] == Locks(worker.job)[..held] + [taken];
    forall v, store | v in after.workers && store in after.workers[v].Holds()
      ensures after.locks.Get(store) == Some(v)
    {
      if v == w {
        assert store == taken || store in worker.Holds();
      }
    }
  }

  lemma LetGoKeeps(s: State, w: nat)
    requires Inv(s) && w in s.workers && s.workers[w].Holds() == Locks(s.workers[w].job)
    ensures Inv(s.(locks := Unlock(s.locks, Locks(s.workers[w].job)),
                   workers := s.workers[w := s.workers[w].(phase := Finished)]))
  {
    var worker := s.workers[w];
    var after := s.(locks := Unlock(s.locks, Locks(worker.job)), workers := s.workers[w := worker.(phase := Finished)]);
    UnlockFrees(s.locks, Locks(worker.job));
    forall v, store | v in after.workers && store in after.workers[v].Holds()
      ensures after.locks.Get(store) == Some(v)
    {
      assert v != w && after.workers[v] == s.workers[v];
      if store in Locks(worker.job) {
        HolderIsUnique(s, w, v, store);
      }
    }
    forall store | after.locks.Get(store).Some?
      ensures var v := after.locks.Get(store).value; v in after.workers && store in after.workers[v].Holds()
    {
      assert store !in Locks(worker.job) && s.locks.Get(store) == after.locks.Get(store);
      assert s.locks.Get(store).value != w;
    }
    assert LocksHeld(after);
    forall v, store | v in after.workers && after.workers[v].phase.Current? && store in Locks(after.workers[v].job)
      ensures after.clearedIn.Get(store) <= after.workers[v].session <= after.generation
    {
      assert v != w && after.workers[v] == s.workers[v];
    }
    assert NothingOlder(after) && WritersNotStale(after);
  }

  lemma CheckKeeps(s: State, w: nat)
    requires Inv(s) && Enabled(s, CheckCurrent(w))
    ensures Inv(Next(s, CheckCurrent(w)))
  {
    var worker := s.workers[w];
    assert Locks(worker.job)[..|Locks(worker.job)|] == Locks(worker.job);
    if worker.session != s.generation {
      LetGoKeeps(s, w);
    }
  }

  /** A write lands only where its session is not older than the last clearing. */
  lemma WriteKeeps(s: State, w: nat)
    requires Inv(s) && Enabled(s, Write(w))
    ensures Inv(Next(s, Write(w)))
  {
    var after, worker := Next(s, Write(w)), s.workers[w];
    forall store, e | e in after.contents.Get(store)
      ensures after.clearedIn.Get(store) <= e.session <= after.generation
    {
      PerformWritesOwn(s.contents, worker.session, worker.job, store);
    }
  }

  lemma StepKeeps(s: State, step: Step)
    requires Inv(s) && Enabled(s, step)
    ensures Inv(Next(s, step))
  {
    match step
    case BumpGeneration => BumpKeeps(s);
    case ClearNext => ClearKeeps(s);
    case Spawn(w, session, job) => SpawnKeeps(s, w, session, job);
    case AcquireNext(w) => AcquireKeeps(s, w);
    case CheckCurrent(w) => CheckKeeps(s, w);
    case Write(w) => WriteKeeps(s, w);
    case Release(w) => LetGoKeeps(s, w);
  }

  // -------------------------------------------------------------- isolation

  lemma {:induction false} RunKeeps(steps: seq<Step>)
    requires Run(steps).Some?
    ensures Inv(Run(steps).value)
  {
    if steps != [] {
      RunKeeps(steps[..|steps| - 1]);
      StepKeeps(Run(steps[..|steps| - 1]).value, steps[|steps| - 1]);
    }
  }

  lemma ClearedOnlyRises(s: State, step: Step, store: Store)
    requires Inv(s) && Enabled(s, step)
    ensures s.clearedIn.Get(store) <= Next(s, step).clearedIn.Get(store)
  {
  }

  /**
   * In every interleaving: from the moment a session has cleared a store, no entry of an earlier
   * session is ever in it again, however late a worker of that session wakes up.
   */
  lemma {:induction false} SessionIsolation(steps: seq<Step>, cut: nat, store: Store)
    requires Run(steps).Some? && cut <= |steps|
    ensures Run(steps[..cut]).Some?
    ensures Run(steps[..cut]).value.clearedIn.Get(store) <= Run(steps).value.clearedIn.Get(store)
    ensures forall e :: e in Run(steps).value.contents.Get(store) ==>
      Run(steps[..cut]).value.clearedIn.Get(store) <= e.session
  {
    RunKeeps(steps);
    if cut == |steps| {
      assert steps[..cut] == steps;
    } else {
      var init := steps[..|steps| - 1];
      SessionIsolation(init, cut, store);
      assert init[..cut] == steps[..cut];
      RunKeeps(init);
      ClearedOnlyRises(Run(init).value, steps[|steps| - 1], store);
    }
  }

  /** Between sessions, when the UI thread has finished clearing, every store holds this session's entries only. */
  lemma OnlyThisSession(steps: seq<Step>)
    requires Run(steps).Some? && Run(steps).value.clearing == []
    ensures var s := Run(steps).value; forall store, e :: e in s.contents.Get(store) ==> e.session == s.generation
  {
    RunKeeps(steps);
  }

  // ------------------------------------------------------------ no deadlock

  /** The step that takes a worker further, once nothing it waits for is locked. */
  function Advance(worker: Worker, w: nat): Step {
    match worker.phase
    case Locking(held) => if held < |Locks(worker.job)| then AcquireNext(w) else CheckCurrent(w)
    case Current => Write(w)
    case Written => Release(w)
    case Finished => Release(w)
  }

  /** A worker that holds the lock of the orders store waits for nothing. */
  lemma OrdersHolderAdvances(s: State, w: nat)
    requires Inv(s) && w in s.workers && Orders in s.workers[w].Holds()
    ensures Enabled(s, Advance(s.workers[w], w))
  {
  }

  /** A worker that holds any lock either advances or waits for one that does. */
  lemma HolderAdvances(s: State, w: nat)
    requires Inv(s) && w in s.workers && s.workers[w].Holds() != []
    ensures exists v :: v in s.workers && Enabled(s, Advance(s.workers[v], v))
  {
    var worker := s.workers[w];
    if worker.phase.Locking? && worker.phase.held < |Locks(worker.job)| {
      assert Locks(worker.job)[worker.phase.held] == Orders;
      if s.locks.Get(Orders).Some? {
        OrdersHolderAdvances(s, s.locks.Get(Orders).value);
      } else {
        assert Enabled(s, Advance(worker, w));
      }
    } else {
      assert Enabled(s, Advance(worker, w));
    }
  }

  /**
   * Nothing ever gets stuck: while a worker is unfinished or a session is still being started, some
   * worker can take its next step or the next store can be cleared. The order in which the two
   * order stores are locked is what makes this so.
   */
  lemma NoDeadlock(steps: seq<Step>)
    requires Run(steps).Some?
    requires var s := Run(steps).value; s.clearing != [] || exists w :: w in s.workers && !s.workers[w].phase.Finished?
    ensures var s := Run(steps).value;
      Enabled(s, ClearNext) || exists v :: v in s.workers && Enabled(s, Advance(s.workers[v], v))
  {
    RunKeeps(steps);
    var s := Run(steps).value;
    if s.clearing != [] {
      if s.locks.Get(s.clearing[0]).Some? {
        HolderAdvances(s, s.locks.Get(s.clearing[0]).value);
      }
    } else {
      var w :| w in s.workers && !s.workers[w].phase.Finished?;
      var worker := s.workers[w];
      if worker.phase.Locking? && worker.phase.held < |Locks(worker.job)|
        && s.locks.Get(Locks(worker.job)[worker.phase.held]).Some? {
        HolderAdvances(s, s.locks.Get(Locks(worker.job)[worker.phase.held]).value);
      } else {
        assert Enabled(s, Advance(worker, w));
      }
    }
  }

  // ------------------------------------------------------------- writes land

  /** `k` is the first place of an entry with this id. */
  ghost predicate FirstAt(entries: seq<Entry>, id: nat, k: nat) {
    k < |entries| && entries[k].id == id && forall i :: 0 <= i < k ==> entries[i].id != id
  }

  lemma {:induction false} RowChanged(entries: seq<Entry>, entry: Entry) returns (k: nat)
    ensures if HasId(entries, entry.id) then
              && FirstAt(entries, entry.id, k)
              && ReplaceFirst(entries, entry) == entries[k := entry]
              && MarkUnknown(entries, entry.id) == entries[k := entries[k].(known := false)]
            else ReplaceFirst(entries, entry) == entries == MarkUnknown(entries, entry.id)
  {
    k := 0;
    if entries != [] && entries[0].id != entry.id {
      k := RowChanged(entries[1..], entry);
      if HasId(entries, entry.id) {
        var i :| 0 <= i < |entries| && entries[i].id == entry.id;
        assert entries[1..][i - 1] == entries[i];
        k := k + 1;
      }
    } else if entries != [] {
      assert entries[0].id == entry.id;
    }
  }

  lemma {:induction false} IdDropped(entries: seq<Entry>, id: nat, e: Entry)
    ensures multiset(DropId(entries, id))[e] == if e.id == id then 0 else multiset(entries)[e]
  {
    if entries != [] {
      IdDropped(entries[1..], id, e);
      assert entries == [entries[0]] + entries[1..];
    }
  }

  lemma {:induction false} RowsAt(session: nat, rows: seq<nat>)
    ensures |Rows(session, rows)| == |rows|
    ensures forall i :: 0 <= i < |rows| ==>
      Rows(session, rows)[i].session == session && Rows(session, rows)[i].content == rows[i]
  {
    if rows != [] {
      RowsAt(session, rows[1..]);
    }
  }

  /** What a job was to write is there, and nothing else has changed. */
  ghost predicate Landed(a: PerStore<seq<Entry>>, b: PerStore<seq<Entry>>, session: nat, job: Job) {
    match job
    case TrackOrder(id) =>
      b == a.(tracked := if HasId(a.tracked, id) then a.tracked else a.tracked + [Entry(session, id, id)])
    case UpdateOrder(id, content) =>
      var row := Entry(session, id, content);
      && b == a.(orders := b.orders)
      && if HasId(a.orders, id) then exists k: nat :: FirstAt(a.orders, id, k) && b.orders == a.orders[k := row]
         else b.orders == [row] + a.orders
    case ForgetOrder(id) =>
      && b == a.(tracked := b.tracked, orders := b.orders)
      && (forall e :: multiset(b.tracked)[e] == if e.id == id then 0 else multiset(a.tracked)[e])
      && if HasId(a.orders, id) then
           exists k: nat :: FirstAt(a.orders, id, k) && b.orders == a.orders[k := a.orders[k].(known := false)]
         else b.orders == a.orders
    case PushFill(content) =>
      && b == a.(fills := b.fills) && |b.fills| == Min(|a.fills| + 1, 500)
      && b.fills == (a.fills + [Entry(session, 0, content)])[|a.fills| + 1 - |b.fills|..]
    case ReplacePositions(rows) =>
      && b == a.(positions := b.positions) && |b.positions| == |rows|
      && forall i :: 0 <= i < |rows| ==> b.positions[i].session == session && b.positions[i].content == rows[i]
    case SetHaltReason(reason) =>
      && b == a.(haltReason := b.haltReason)
      && if reason.Some? then b.haltReason == [Entry(session, 0, reason.value)] else b.haltReason == []
  }

  lemma PerformLands(c: PerStore<seq<Entry>>, session: nat, job: Job)
    ensures Landed(c, Perform(c, session, job), session, job)
  {
    match job
    case TrackOrder(id) =>
    case UpdateOrder(id, content) => var k := RowChanged(c.orders, Entry(session, id, content));
    case ForgetOrder(id) =>
      forall e ensures multiset(DropId(c.tracked, id))[e] == if e.id == id then 0 else multiset(c.tracked)[e] {
        IdDropped(c.tracked, id, e);
      }
      var k := RowChanged(c.orders, Entry(0, id, 0));
    case PushFill(content) =>
    case ReplacePositions(rows) => RowsAt(session, rows);
    case SetHaltReason(reason) =>
  }

  /**
   * A worker that saw its session current writes all it was to write; one whose session is over writes nothing and
   * lets go of its locks. Nothing but a write puts anything into a store, and only the UI thread clears one.
   */
  lemma StepWrites(s: State, step: Step)
    requires Inv(s) && Enabled(s, step)
    ensures step.Write? ==>
      Landed(s.contents, Next(s, step).contents, s.workers[step.w].session, s.workers[step.w].job)
    ensures step.ClearNext? ==>
      Next(s, step).contents.Get(s.clearing[0]) == []
      && forall store :: store != s.clearing[0] ==> Next(s, step).contents.Get(store) == s.contents.Get(store)
    ensures !step.Write? && !step.ClearNext? ==> Next(s, step).contents == s.contents
    ensures step.CheckCurrent? ==>
      Next(s, step).workers[step.w].phase ==
      if s.workers[step.w].session == s.generation then Current else Finished
  {
    if step.Write? {
      PerformLands(s.contents, s.workers[step.w].session, s.workers[step.w].job);
    }
  }
}
