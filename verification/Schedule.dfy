/** What the schedulers share: windows, equal slices, and schedules made of slice quantities. */
module Schedule {
  import opened Types
  import opened DivMod

  const MAX_SLICES: nat := 1_000_000

  /** One child order of a schedule. */
  datatype Child = Child(time: nat, qty: nat)

  datatype ScheduleError =
    | ZeroQuantity
    | ZeroSlices
    | TooManySlices(numSlices: nat)
    | InvalidTimeRange(start: nat, end: nat)
    | WindowTooShort(duration: nat, numSlices: nat)
    | InvalidProfileEntry(index: nat)
    | EmptyProfile
    | UnsortedMarketData(index: nat)
    | InvalidParameter

  function ValidateWindow(start: U64, end: U64, total: U64, n: nat): (r: Result<U64, ScheduleError>)
    ensures r.Ok? <==> total > 0 && 0 < n <= MAX_SLICES && start + n <= end
    ensures r.Err? ==>
      match r.error
      case ZeroQuantity => total == 0
      case ZeroSlices => n == 0
      case TooManySlices(k) => k == n > MAX_SLICES
      case InvalidTimeRange(from, to) => from == start && to == end && end <= start
      case WindowTooShort(d, k) => start < end && d == end - start < n == k
      case _ => false
  {
    if total == 0 then Err(ZeroQuantity)
    else if n == 0 then Err(ZeroSlices)
    else if n > MAX_SLICES then Err(TooManySlices(n))
    else if end <= start then Err(InvalidTimeRange(start, end))
    else if end - start < n then Err(WindowTooShort(end - start, n))
    else Ok(end - start)
  }

  /** Start of slice `index` of `n`; index `n` gives the end of the window. */
  function SliceStart(start: nat, duration: nat, n: nat, index: nat): nat
    requires n > 0
  {
    start + duration * index / n
  }

  /** Slices are at least 1 long, start at the window's start and end at its end. */
  lemma SlicesPartition(start: nat, duration: nat, n: nat, index: nat)
    requires 0 < n <= duration && index < n
    ensures start <= SliceStart(start, duration, n, index) < SliceStart(start, duration, n, index + 1)
      <= start + duration
    ensures SliceStart(start, duration, n, 0) == start && SliceStart(start, duration, n, n) == start + duration
  {
    MulMono(0, duration, index);
    DivMono(0, duration * index, n);
    assert duration * (index + 1) == duration * index + duration;
    DivAdd(1, duration * index, n);
    DivMono(1 * n + duration * index, duration * (index + 1), n);
    MulMono(index + 1, n, duration);
    DivMono(duration * (index + 1), duration * n, n);
    MulDiv(duration, n);
    assert duration * 0 == 0;
  }

  /** A boundary is its share of the window from the start on, rounded down. */
  lemma BoundaryIsShare(start: nat, duration: nat, n: nat, index: nat)
    requires n > 0
    ensures var offset := SliceStart(start, duration, n, index) - start;
      offset * n <= duration * index < (offset + 1) * n
  {
    DivBounds(duration * index, n);
    var offset := duration * index / n;
    assert (offset + 1) * n == offset * n + n;
  }

  function Sum(quantities: seq<nat>): nat {
    if quantities == [] then 0 else Sum(quantities[..|quantities| - 1]) + quantities[|quantities| - 1]
  }

  function TotalQty(children: seq<Child>): nat {
    if children == [] then 0 else TotalQty(children[..|children| - 1]) + children[|children| - 1].qty
  }

  /** One child per slice that has something to trade. */
  function Assemble(times: seq<nat>, quantities: seq<nat>): seq<Child>
    requires |times| == |quantities|
  {
    if times == [] then []
    else
      var last := |times| - 1;
      var earlier := Assemble(times[..last], quantities[..last]);
      if quantities[last] > 0 then earlier + [Child(times[last], quantities[last])] else earlier
  }

  ghost predicate Increasing(times: seq<nat>) {
    forall i, j :: 0 <= i < j < |times| ==> times[i] < times[j]
  }

  /**
   * What an accepted schedule promises: real orders, in strict time order inside the window, that
   * add up to the order. Read from the last child back, which bounds the times before it.
   */
  predicate GoodSchedule(children: seq<Child>, total: int, start: nat, end: nat) {
    if children == [] then total == 0
    else
      var last := children[|children| - 1];
      last.qty > 0 && start <= last.time < end
      && GoodSchedule(children[..|children| - 1], total - last.qty, start, last.time)
  }

  /** The same promise, spelled out child by child. */
  lemma {:induction false} GoodScheduleMeans(children: seq<Child>, total: int, start: nat, end: nat)
    requires GoodSchedule(children, total, start, end)
    ensures TotalQty(children) == total
    ensures forall i :: 0 <= i < |children| ==> children[i].qty > 0 && start <= children[i].time < end
    ensures forall i, j :: 0 <= i < j < |children| ==> children[i].time < children[j].time
  {
    if children != [] {
      var last, init := children[|children| - 1], children[..|children| - 1];
      GoodScheduleMeans(init, total - last.qty, start, last.time);
      forall i | 0 <= i < |children| ensures children[i].qty > 0 && start <= children[i].time < end {
        assert i < |init| ==> init[i] == children[i];
      }
      forall i, j | 0 <= i < j < |children| ensures children[i].time < children[j].time {
        assert init[i] == children[i];
        assert j < |init| ==> init[j] == children[j];
      }
    }
  }

  /** Any slice quantities at increasing times make a good schedule of their sum. */
  lemma {:induction false} AssembleIsGood(times: seq<nat>, quantities: seq<nat>, start: nat, end: nat)
    requires |times| == |quantities| && Increasing(times)
    requires forall i :: 0 <= i < |times| ==> start <= times[i] < end
    ensures GoodSchedule(Assemble(times, quantities), Sum(quantities), start, end)
  {
    if times != [] {
      var last := |times| - 1;
      AssembleIsGood(times[..last], quantities[..last], start, times[last]);
      var earlier := Assemble(times[..last], quantities[..last]);
      assert (earlier + [Child(times[last], quantities[last])])[..|earlier|] == earlier;
    }
  }

  /** Times of the equal slices. */
  function SliceStarts(start: nat, duration: nat, n: nat): (times: seq<nat>)
    requires n > 0
    ensures |times| == n && forall k :: 0 <= k < n ==> times[k] == SliceStart(start, duration, n, k)
  {
    seq(n, k requires 0 <= k < n => SliceStart(start, duration, n, k))
  }

  lemma {:induction false} SliceStartsIncrease(start: nat, duration: nat, n: nat, i: nat, j: nat)
    requires 0 < n <= duration && i < j < n
    ensures SliceStart(start, duration, n, i) < SliceStart(start, duration, n, j)
  {
    SlicesPartition(start, duration, n, j - 1);
    if i < j - 1 {
      SliceStartsIncrease(start, duration, n, i, j - 1);
    }
  }

  /** Quantities released at slice starts form a good schedule, whichever scheduler computed them. */
  lemma SlicedScheduleIsGood(start: nat, duration: nat, n: nat, quantities: seq<nat>)
    requires 0 < n <= duration && |quantities| <= n
    ensures GoodSchedule(Assemble(SliceStarts(start, duration, n)[..|quantities|], quantities), Sum(quantities), start,
                         start + duration)
  {
    var times := SliceStarts(start, duration, n)[..|quantities|];
    forall i, j | 0 <= i < j < |times| ensures times[i] < times[j] {
      SliceStartsIncrease(start, duration, n, i, j);
    }
    forall i | 0 <= i < |times| ensures start <= times[i] < start + duration {
      SlicesPartition(start, duration, n, i);
    }
    AssembleIsGood(times, quantities, start, start + duration);
  }

  /** The same with a quantity for every slice. */
  lemma WholeScheduleIsGood(start: nat, duration: nat, n: nat, quantities: seq<nat>)
    requires 0 < n <= duration && |quantities| == n
    ensures GoodSchedule(Assemble(SliceStarts(start, duration, n), quantities), Sum(quantities), start,
                         start + duration)
  {
    SlicedScheduleIsGood(start, duration, n, quantities);
    var starts := SliceStarts(start, duration, n);
    assert starts[..n] == starts;
  }
}
