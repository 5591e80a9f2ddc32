/** A parent order's lifecycle: what it has released, what it has filled, and how it ends. */
module ParentOrders {
  import opened Types
  import opened Schedule

  /** A child order that was sent. */
  datatype ChildView = ChildView(id: nat, sentAt: nat, qty: nat, filled: nat)

  datatype Phase = Working | Filled | Cancelled | Expired

  /** A parent order's fields, as values. */
  datatype Parent = Parent(
    id: nat,
    symbol: nat,
    side: Side,
    quantity: U64,
    limit: Option<I64>,
    start: nat,
    end: nat,
    arrivalMid: int,
    phase: Phase,
    schedule: seq<Child>,
    nextSlice: nat,
    released: nat,
    filled: nat,
    notional: I128,
    children: seq<ChildView>)

  // ----------------------------------------------------------- transitions

  /** First slice from `k` on that is not due yet. */
  function DueEnd(schedule: seq<Child>, k: nat, now: nat): (n: nat)
    ensures k <= n && (n > k || k <= |schedule| ==> n <= |schedule|)
    decreases |schedule| - k
  {
    if k < |schedule| && schedule[k].time <= now then DueEnd(schedule, k + 1, now) else k
  }

  /** Releases what is due; the second part is what to send now. */
  function ReleaseDue(p: Parent, now: nat): (Parent, int) {
    var n := DueEnd(p.schedule, p.nextSlice, now);
    if n == p.nextSlice then (p, 0)
    else
      var released := p.released + TotalQty(p.schedule[p.nextSlice..n]);
      (p.(nextSlice := n, released := released), released - p.filled)
  }

  function RecordChild(p: Parent, id: nat, now: nat, qty: nat): Parent {
    p.(children := p.children + [ChildView(id, now, qty, 0)])
  }

  /** A fill of the most recent child. */
  function RecordFill(p: Parent, price: int, qty: nat): Parent {
    var last := |p.children| - 1;
    p.(filled := p.filled + qty,
       notional := Clamp(p.notional + price * qty, I128_MIN, I128_MAX),
       children := if last < 0 then p.children
                   else p.children[last := p.children[last].(filled := p.children[last].filled + qty)])
  }

  function FinishIfFilled(p: Parent): Parent {
    if p.filled == p.quantity then p.(phase := Filled) else p
  }

  function FinishWindow(p: Parent): Parent {
    if p.filled == p.quantity then p.(phase := Filled) else p.(phase := Expired)
  }

  function Stop(p: Parent): Parent {
    p.(phase := Cancelled)
  }

  // -------------------------------------------------------------- invariant

  function ChildFills(children: seq<ChildView>): nat {
    if children == [] then 0 else ChildFills(children[..|children| - 1]) + children[|children| - 1].filled
  }

  /** Quantity scheduled at or before `now`. */
  function DueQty(schedule: seq<Child>, now: int): nat {
    if schedule == [] then 0
    else
      var last := schedule[|schedule| - 1];
      DueQty(schedule[..|schedule| - 1], now) + (if last.time <= now then last.qty else 0)
  }

  /** The ledger of an order: what was released and filled, slice by slice and child by child. */
  ghost predicate Ledger(p: Parent) {
    && p.quantity > 0
    && GoodSchedule(p.schedule, p.quantity, p.start, p.end)
    && p.nextSlice <= |p.schedule| && p.released == TotalQty(p.schedule[..p.nextSlice])
    && ChildFills(p.children) == p.filled <= p.released <= p.quantity
    && (forall i :: 0 <= i < |p.children| ==> p.children[i].filled <= p.children[i].qty)
  }

  /** An order at rest between ticks. */
  ghost predicate Settled(p: Parent) {
    && Ledger(p)
    && (p.phase.Filled? <==> p.filled == p.quantity)
    && (p.phase.Expired? ==> p.nextSlice == |p.schedule|)
  }

  // ------------------------------------------------------------------ class

  /** The order as the source updates it: what the client asked for is fixed, the rest changes in place. */
  class ParentOrder {
    const request: Parent
    var phase: Phase
    var nextSlice: nat
    var released: nat
    var filled: nat
    var notional: I128
    var children: seq<ChildView>

    function View(): Parent
      reads this
    {
      request.(phase := phase, nextSlice := nextSlice, released := released, filled := filled,
               notional := notional, children := children)
    }

    constructor (start: Parent)
      ensures View() == start
    {
      request := start;
      phase, nextSlice, released, filled := start.phase, start.nextSlice, start.released, start.filled;
      notional, children := start.notional, start.children;
    }

    /** Releases every slice due by `now` and returns what to send: everything released but not filled. */
    method Release(now: nat) returns (qty: int)
      modifies this`nextSlice, this`released
      ensures (View(), qty) == ReleaseDue(old(View()), now)
    {
      var schedule, releasedAny := request.schedule, false;
      ghost var start := nextSlice;
      while nextSlice < |schedule| && schedule[nextSlice].time <= now
        invariant start <= nextSlice && (nextSlice > start ==> nextSlice <= |schedule|)
        invariant released == old(released) + (if nextSlice > start then TotalQty(schedule[start..nextSlice]) else 0)
        invariant DueEnd(schedule, nextSlice, now) == DueEnd(schedule, start, now)
        invariant releasedAny == (nextSlice > start)
      {
        ghost var due := schedule[start..nextSlice + 1];
        assert due[..|due| - 1] == schedule[start..nextSlice];
        released := released + schedule[nextSlice].qty;
        nextSlice := nextSlice + 1;
        releasedAny := true;
      }
      qty := if releasedAny then released - filled else 0;
    }

    method AddChild(id: nat, now: nat, qty: nat)
      modifies this`children
      ensures View() == RecordChild(old(View()), id, now, qty)
    {
      children := children + [ChildView(id, now, qty, 0)];
    }

    method AddFill(price: int, qty: nat)
      modifies this`filled, this`notional, this`children
      ensures View() == RecordFill(old(View()), price, qty)
    {
      filled := filled + qty;
      notional := Clamp(notional + price * qty, I128_MIN, I128_MAX);
      var last := |children| - 1;
      if last >= 0 {
        children := children[last := children[last].(filled := children[last].filled + qty)];
      }
    }

    method CloseIfFilled()
      modifies this`phase
      ensures View() == FinishIfFilled(old(View()))
      ensures phase == if filled == request.quantity then Filled else old(phase)
    {
      if filled == request.quantity {
        phase := Filled;
      }
    }

    method CloseWindow()
      modifies this`phase
      ensures View() == FinishWindow(old(View()))
      ensures phase == if filled == request.quantity then Filled else Expired
    {
      phase := if filled == request.quantity then Filled else Expired;
    }

    method Cancel()
      modifies this`phase
      ensures View() == Stop(old(View())) && phase == Cancelled
    {
      phase := Cancelled;
    }
  }

  // ------------------------------------------------------------------- laws

  lemma {:induction false} TotalQtyConcat(a: seq<Child>, b: seq<Child>)
    ensures TotalQty(a + b) == TotalQty(a) + TotalQty(b)
  {
    if b == [] {
      assert a + b == a;
    } else {
      assert (a + b)[..|a + b| - 1] == a + b[..|b| - 1];
      TotalQtyConcat(a, b[..|b| - 1]);
    }
  }

  lemma {:induction false} DueEndSplits(schedule: seq<Child>, k: nat, now: nat)
    requires k <= |schedule|
    ensures var n := DueEnd(schedule, k, now);
      && (forall i :: k <= i < n ==> schedule[i].time <= now)
      && (n < |schedule| ==> schedule[n].time > now)
    decreases |schedule| - k
  {
    if k < |schedule| && schedule[k].time <= now {
      DueEndSplits(schedule, k + 1, now);
    }
  }

  /** Slices up to `n` due and the rest not yet: `n` slices' quantity is what is due. */
  lemma {:induction false} DueQtyIsPrefix(schedule: seq<Child>, n: nat, now: int)
    requires n <= |schedule|
    requires forall i :: 0 <= i < n ==> schedule[i].time <= now
    requires forall i :: n <= i < |schedule| ==> schedule[i].time > now
    ensures DueQty(schedule, now) == TotalQty(schedule[..n])
  {
    if schedule != [] {
      var init := schedule[..|schedule| - 1];
      if n < |schedule| {
        DueQtyIsPrefix(init, n, now);
        assert init[..n] == schedule[..n];
      } else {
        DueQtyIsPrefix(init, n - 1, now);
        assert schedule[..n] == schedule && init[..n - 1] == init;
      }
    }
  }

  lemma PrefixQty(schedule: seq<Child>, total: int, start: nat, end: nat, k: nat, n: nat)
    requires GoodSchedule(schedule, total, start, end) && k <= n <= |schedule|
    ensures TotalQty(schedule[..k]) + TotalQty(schedule[k..n]) == TotalQty(schedule[..n]) <= total
  {
    GoodScheduleMeans(schedule, total, start, end);
    QtySplits(schedule, n);
    QtySplits(schedule[..n], k);
    assert schedule[..n][..k] == schedule[..k] && schedule[..n][k..] == schedule[k..n];
  }

  lemma QtySplits(schedule: seq<Child>, n: nat)
    requires n <= |schedule|
    ensures TotalQty(schedule[..n]) + TotalQty(schedule[n..]) == TotalQty(schedule)
  {
    assert schedule[..n] + schedule[n..] == schedule;
    TotalQtyConcat(schedule[..n], schedule[n..]);
  }

  /** The slices released are exactly those due by `latest`. */
  ghost predicate CaughtUp(p: Parent, latest: int) {
    && p.nextSlice <= |p.schedule|
    && (forall i :: 0 <= i < p.nextSlice ==> p.schedule[i].time <= latest)
    && (forall i :: p.nextSlice <= i < |p.schedule| ==> p.schedule[i].time > latest)
  }

  /** However ticks are spaced, what is released is what the schedule wants by the latest one. */
  lemma ReleasedIsDue(p: Parent, latest: int)
    requires Ledger(p) && CaughtUp(p, latest)
    ensures p.released == DueQty(p.schedule, latest)
  {
    DueQtyIsPrefix(p.schedule, p.nextSlice, latest);
  }

  lemma ReleaseKeepsLedger(p: Parent, now: nat)
    requires Ledger(p)
    ensures var (after, qty) := ReleaseDue(p, now);
      && Ledger(after) && 0 <= qty
      && (qty > 0 ==> p.filled + qty == after.released)
      && (now >= p.end ==> after.nextSlice == |p.schedule|)
  {
    var n := DueEnd(p.schedule, p.nextSlice, now);
    PrefixQty(p.schedule, p.quantity, p.start, p.end, p.nextSlice, n);
    DueEndSplits(p.schedule, p.nextSlice, now);
    GoodScheduleMeans(p.schedule, p.quantity, p.start, p.end);
  }

  lemma ReleaseCatchesUp(p: Parent, now: nat, latest: int)
    requires Ledger(p) && CaughtUp(p, latest)
    ensures CaughtUp(ReleaseDue(p, now).0, Max(latest, now))
  {
    var n := DueEnd(p.schedule, p.nextSlice, now);
    DueEndSplits(p.schedule, p.nextSlice, now);
    GoodScheduleMeans(p.schedule, p.quantity, p.start, p.end);
  }

  lemma ChildKeepsLedger(p: Parent, id: nat, now: nat, qty: nat)
    requires Ledger(p)
    ensures Ledger(RecordChild(p, id, now, qty))
  {
    assert (p.children + [ChildView(id, now, qty, 0)])[..|p.children|] == p.children;
  }

  /** The child on the wire still wants at least `open` units, and they are released. */
  ghost predicate Awaits(p: Parent, open: nat) {
    && p.children != []
    && p.children[|p.children| - 1].filled + open <= p.children[|p.children| - 1].qty
    && p.filled + open <= p.released
  }

  lemma FillKeepsLedger(p: Parent, price: int, qty: nat, open: nat)
    requires Ledger(p) && Awaits(p, open) && qty <= open
    ensures Ledger(RecordFill(p, price, qty)) && Awaits(RecordFill(p, price, qty), open - qty)
  {
    var last := |p.children| - 1;
    var after := RecordFill(p, price, qty);
    assert after.children[..last] == p.children[..last];
  }
}
