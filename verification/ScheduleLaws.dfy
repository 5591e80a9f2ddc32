/** An order's schedule follows the algorithm it asked for: what is due before each slice, and where children stand. */
module ScheduleLaws {
  import opened Types
  import opened Schedule
  import opened Cumulative
  import opened Vwap
  import opened AlmgrenChriss
  import opened ParentOrders
  import opened EngineSpec
  import Twap
  import IS = ImplementationShortfall

  // ------------------------------------------------------- schedules of slices

  /** Due by `now` is what the slices up to then trade. */
  lemma {:induction false} AssembleDue(times: seq<nat>, quantities: seq<nat>, k: nat, now: int)
    requires |times| == |quantities| && k <= |times|
    requires forall i :: 0 <= i < k ==> times[i] <= now
    requires forall i :: k <= i < |times| ==> times[i] > now
    ensures DueQty(Assemble(times, quantities), now) == Schedule.Sum(quantities[..k])
  {
    if times != [] {
      var last := |times| - 1;
      var earlier := Assemble(times[..last], quantities[..last]);
      var j := Min(k, last);
      AssembleDue(times[..last], quantities[..last], j, now);
      assert quantities[..last][..j] == quantities[..j];
      DueQtyLast(earlier, Child(times[last], quantities[last]), now);
      if k > last {
        assert quantities[..k] == quantities && quantities[..j] == quantities[..last];
      }
    }
  }

  lemma DueQtyLast(earlier: seq<Child>, last: Child, now: int)
    ensures DueQty(earlier + [last], now) == DueQty(earlier, now) + (if last.time <= now then last.qty else 0)
  {
    assert (earlier + [last])[..|earlier|] == earlier;
  }

  /** A child stands at its own slice's time, with its slice's quantity. */
  ghost predicate OfSlice(c: Child, times: seq<nat>, quantities: seq<nat>)
    requires |times| == |quantities|
  {
    exists k :: 0 <= k < |times| && c.time == times[k] && c.qty == quantities[k]
  }

  lemma {:induction false} AssembleOfSlices(times: seq<nat>, quantities: seq<nat>)
    requires |times| == |quantities|
    ensures forall c :: c in Assemble(times, quantities) ==> OfSlice(c, times, quantities)
  {
    if times != [] {
      var last := |times| - 1;
      AssembleOfSlices(times[..last], quantities[..last]);
      forall c | c in Assemble(times, quantities) ensures OfSlice(c, times, quantities) {
        if c in Assemble(times[..last], quantities[..last]) {
          var k :| 0 <= k < last && c.time == times[..last][k] && c.qty == quantities[..last][k];
          assert c.time == times[k] && c.qty == quantities[k];
        }
      }
    }
  }

  lemma StartsInOrder(start: nat, duration: nat, n: nat, i: nat, j: nat)
    requires 0 < n <= duration && i < j <= n
    ensures SliceStart(start, duration, n, i) < SliceStart(start, duration, n, j)
  {
    SlicesPartition(start, duration, n, i);
    if j < n {
      SliceStartsIncrease(start, duration, n, i, j);
    }
  }

  /** Every child at the start of a slice. */
  ghost predicate AtStarts(schedule: seq<Child>, start: nat, duration: nat, n: nat)
    requires n > 0
  {
    forall c :: c in schedule ==> exists k: nat :: k < n && c.time == SliceStart(start, duration, n, k)
  }

  /** What is due before slice `k` starts; before slice `n` is the whole window. */
  function DueBefore(schedule: seq<Child>, start: nat, duration: nat, n: nat, k: nat): nat
    requires n > 0
  {
    DueQty(schedule, SliceStart(start, duration, n, k) - 1)
  }

  /** The schedule the slicing schedulers make of their quantities. */
  function Sliced(start: nat, duration: nat, n: nat, quantities: seq<nat>): seq<Child>
    requires |quantities| <= n && n > 0
  {
    Assemble(SliceStarts(start, duration, n)[..|quantities|], quantities)
  }

  lemma SlicedDue(start: nat, duration: nat, n: nat, quantities: seq<nat>, k: nat)
    requires 0 < n <= duration && |quantities| <= n && k <= n
    ensures DueBefore(Sliced(start, duration, n, quantities), start, duration, n, k)
      == Schedule.Sum(quantities[..Min(k, |quantities|)])
  {
    var times, j, now := SliceStarts(start, duration, n)[..|quantities|], Min(k, |quantities|),
      SliceStart(start, duration, n, k) - 1;
    forall i | 0 <= i < j ensures times[i] <= now {
      StartsInOrder(start, duration, n, i, k);
    }
    forall i | j <= i < |times| ensures times[i] > now {
      if k < i {
        StartsInOrder(start, duration, n, k, i);
      }
    }
    AssembleDue(times, quantities, j, now);
  }

  lemma SlicedAtStarts(start: nat, duration: nat, n: nat, quantities: seq<nat>)
    requires 0 < n <= duration && |quantities| <= n
    ensures AtStarts(Sliced(start, duration, n, quantities), start, duration, n)
  {
    var times := SliceStarts(start, duration, n)[..|quantities|];
    AssembleOfSlices(times, quantities);
    forall c | c in Sliced(start, duration, n, quantities)
      ensures exists k: nat :: k < n && c.time == SliceStart(start, duration, n, k)
    {
      assert OfSlice(c, times, quantities);
      var k: nat :| k < |times| && c.time == times[k] && c.qty == quantities[k];
      assert times[k] == SliceStart(start, duration, n, k);
    }
  }

  // ------------------------------------------------------------- the algorithms

  /** The even split: what is due before each slice is its share of the time, to the nearest unit. */
  ghost predicate FollowsTime(schedule: seq<Child>, start: nat, duration: nat, n: nat, total: nat) {
    && n > 0 && AtStarts(schedule, start, duration, n)
    && forall k: nat :: 0 < k <= n ==>
         -(n as int) <= 2 * (total * k) - 2 * (DueBefore(schedule, start, duration, n, k) * n) < n
  }

  lemma TwapFollows(start: nat, duration: nat, n: nat, total: nat)
    requires 0 < n <= duration
    ensures FollowsTime(Sliced(start, duration, n, Twap.Quantities(total, n)), start, duration, n, total)
  {
    var quantities := Twap.Quantities(total, n);
    SlicedAtStarts(start, duration, n, quantities);
    forall k: nat | 0 < k <= n ensures -(n as int)
      <= 2 * (total * k) - 2 * (DueBefore(Sliced(start, duration, n, quantities), start, duration, n, k) * n) < n
    {
      SlicedDue(start, duration, n, quantities, k);
      Twap.PrefixSums(total, n, k);
      Twap.PrefixWithinHalf(total, n, k);
    }
  }

  /** The profile: what is due before each slice is the volume share of the slices before it, to the nearest unit. */
  ghost predicate FollowsVolume(schedule: seq<Child>, start: nat, duration: nat, profile: seq<real>, total: nat) {
    && |profile| > 0 && NonNegative(profile) && Weight(profile, |profile|) > 0.0
    && AtStarts(schedule, start, duration, |profile|)
    && forall k: nat :: 0 < k <= |profile| ==>
         WithinHalf(DueBefore(schedule, start, duration, |profile|, k), total, Share(profile, k))
  }

  lemma FullShare(profile: seq<real>, k: nat)
    requires NonNegative(profile) && Weight(profile, |profile|) > 0.0 && Traded(profile, |profile|) <= k <= |profile|
    ensures Share(profile, k) == 1.0
  {
    WeightGrows(profile, Traded(profile, |profile|), k);
    WeightGrows(profile, k, |profile|);
    WholeShare(profile, k);
  }

  lemma VwapPrefix(total: nat, profile: seq<real>, k: nat)
    requires NonNegative(profile) && Weight(profile, |profile|) > 0.0 && 0 < k <= |profile|
    ensures var quantities := VwapQuantities(total, profile);
      && |quantities| <= |profile|
      && WithinHalf(Schedule.Sum(quantities[..Min(k, |quantities|)]), total, Share(profile, k))
  {
    var quantities, m := VwapQuantities(total, profile), Traded(profile, |profile|);
    LastSliceCompletes(total, profile);
    SumBothWays(quantities[..Min(k, m)]);
    if k < m {
      VwapFollowsProfile(total, profile, k - 1);
    } else {
      FullShare(profile, k);
    }
  }

  lemma VwapFollows(start: nat, duration: nat, profile: seq<real>, total: nat, quantities: seq<nat>)
    requires 0 < |profile| <= duration && NonNegative(profile) && Weight(profile, |profile|) > 0.0
    requires quantities == VwapQuantities(total, profile) && |quantities| <= |profile|
    ensures FollowsVolume(Sliced(start, duration, |profile|, quantities), start, duration, profile, total)
  {
    var n := |profile|;
    SlicedAtStarts(start, duration, n, quantities);
    forall k: nat | 0 < k <= n
      ensures WithinHalf(DueBefore(Sliced(start, duration, n, quantities), start, duration, n, k), total,
                         Share(profile, k))
    {
      SlicedDue(start, duration, n, quantities, k);
      VwapPrefix(total, profile, k);
    }
  }

  /** The optimal trajectory: what is due before each slice is what it has sold by then, to the nearest unit. */
  ghost predicate FollowsTrajectory(schedule: seq<Child>, start: nat, duration: nat, n: nat, z: real, total: nat) {
    && n > 0 && AtStarts(schedule, start, duration, n)
    && forall k: nat :: 0 < k <= n ==>
         WithinHalf(DueBefore(schedule, start, duration, n, k), total, 1.0 - RemainingFraction(z, n, k))
  }

  lemma IsPrefix(total: nat, n: nat, z: real, k: nat)
    requires 0.0 < z <= 1.0 && 0 < k <= n
    ensures var quantities := IS.IsQuantities(total, n, z);
      |quantities| == n && WithinHalf(Schedule.Sum(quantities[..k]), total, 1.0 - RemainingFraction(z, n, k))
  {
    var quantities := IS.IsQuantities(total, n, z);
    IS.IsCompletes(total, n, z);
    SumBothWays(quantities[..k]);
    if k < n {
      IS.ChildrenFollowOptimum(total, n, z, k - 1);
    } else {
      assert quantities[..k] == quantities;
      FractionFalls(z, n, 0);
    }
  }

  lemma IsFollows(start: nat, duration: nat, n: nat, z: real, total: nat)
    requires 0 < n <= duration && 0.0 < z <= 1.0 && |IS.IsQuantities(total, n, z)| == n
    ensures FollowsTrajectory(Sliced(start, duration, n, IS.IsQuantities(total, n, z)), start, duration, n, z, total)
  {
    var quantities := IS.IsQuantities(total, n, z);
    SlicedAtStarts(start, duration, n, quantities);
    forall k: nat | 0 < k <= n ensures
      WithinHalf(DueBefore(Sliced(start, duration, n, quantities), start, duration, n, k), total,
                 1.0 - RemainingFraction(z, n, k))
    {
      SlicedDue(start, duration, n, quantities, k);
      IsPrefix(total, n, z, k);
      assert Min(k, |quantities|) == k;
    }
  }

  // ------------------------------------------------------------------ the order

  /** A schedule is what the order asked for. */
  ghost predicate AsAsked(o: NewOrder, schedule: seq<Child>) {
    && o.start < o.end
    && match o.algorithm
       case TwapSpec(n) => FollowsTime(schedule, o.start, o.end - o.start, n, o.quantity)
       case VwapSpec(profile) => FollowsVolume(schedule, o.start, o.end - o.start, profile, o.quantity)
       case IsSpec(n, decay) =>
         decay.Some? && FollowsTrajectory(schedule, o.start, o.end - o.start, n, decay.value, o.quantity)
  }

  lemma WholeSliced(start: nat, duration: nat, n: nat, quantities: seq<nat>)
    requires |quantities| == n > 0
    ensures Assemble(SliceStarts(start, duration, n), quantities) == Sliced(start, duration, n, quantities)
  {
    assert SliceStarts(start, duration, n)[..n] == SliceStarts(start, duration, n);
  }

  /** An order that gets a schedule gets the one it asked for. */
  lemma ScheduleFollows(o: NewOrder)
    requires BuildSchedule(o).Ok?
    ensures AsAsked(o, BuildSchedule(o).value)
  {
    var duration := o.end as int - o.start as int;
    match o.algorithm
    case TwapSpec(n) =>
      WholeSliced(o.start, duration, n, Twap.Quantities(o.quantity, n));
      TwapFollows(o.start, duration, n, o.quantity);
    case VwapSpec(profile) =>
      VwapFollows(o.start, duration, profile, o.quantity, ProfileQuantities(o.quantity, profile).value);
    case IsSpec(n, decay) =>
      IS.IsCompletes(o.quantity, n, decay.value);
      WholeSliced(o.start, duration, n, IS.IsQuantities(o.quantity, n, decay.value));
      IsFollows(o.start, duration, n, decay.value, o.quantity);
  }
}
