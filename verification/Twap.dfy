/** Time-weighted schedules: integer cumulative rounding, plain and at randomized times. */
module Twap {
  import opened Types
  import opened DivMod
  import opened Schedule
  import opened SplitMix

  datatype TwapParams = TwapParams(start: U64, end: U64, total: U64, numSlices: nat)

  /** `x / n` rounded to the nearest integer, ties up. */
  function Nearest(x: nat, n: nat): nat
    requires n > 0
  {
    x / n + (if 2 * (x % n) >= n then 1 else 0)
  }

  /** Quantity complete after `k` of `n` slices, as the source computes it: `total = q*n + r`. */
  function Target(total: nat, n: nat, k: nat): nat
    requires n > 0
  {
    (total / n) * k + Nearest((total % n) * k, n)
  }

  // --------------------------------------------------------- rounding laws

  lemma NearestShifts(whole: nat, x: nat, n: nat)
    requires n > 0
    ensures Nearest(whole * n + x, n) == whole + Nearest(x, n)
  {
    DivBounds(x, n);
    QuotientIs(whole * n + x, n, whole + x / n, x % n);
  }

  lemma NearestWithinHalf(x: nat, n: nat)
    requires n > 0
    ensures -(n as int) <= 2 * x - 2 * (Nearest(x, n) * n) < n
  {
    var e := if 2 * (x % n) >= n then 1 else 0;
    assert (x / n + e) * n == (x / n) * n + e * n;
  }

  /** Splitting the total changes nothing: the target is `total * k / n`, rounded. */
  lemma TargetIsNearest(total: nat, n: nat, k: nat)
    requires n > 0
    ensures Target(total, n, k) == Nearest(total * k, n)
  {
    var q, r := total / n, total % n;
    assert total * k == (q * k) * n + r * k by {
      assert (q * n + r) * k == (q * n) * k + r * k;
      assert (q * n) * k == (q * k) * n;
    }
    MulMono(0, q, k);
    MulMono(0, r, k);
    NearestShifts(q * k, r * k, n);
  }

  /** Every prefix is the even split rounded to the nearest unit, halves up, and the last one completes the order. */
  lemma PrefixWithinHalf(total: nat, n: nat, k: nat)
    requires n > 0
    ensures -(n as int) <= 2 * (total * k) - 2 * (Target(total, n, k) * n) < n
    ensures Target(total, n, 0) == 0 && Target(total, n, n) == total
  {
    TargetIsNearest(total, n, k);
    NearestWithinHalf(total * k, n);
    TargetIsNearest(total, n, 0);
    TargetIsNearest(total, n, n);
    QuotientIs(total * n, n, total, 0);
    assert total * 0 == 0;
  }

  lemma NearestMono(x: nat, y: nat, n: nat)
    requires n > 0 && x <= y <= x + n
    ensures Nearest(x, n) <= Nearest(y, n) <= Nearest(x, n) + 1
  {
    assert x == (x / n) * n + x % n && y == (y / n) * n + y % n;
    QuotientsClose(x / n, x % n, y / n, y % n, n);
  }

  /** Numbers at most `n` apart have equal quotients, or the next quotient and no larger a remainder. */
  lemma QuotientsClose(a: int, r: int, b: int, s: int, n: nat)
    requires 0 <= r < n && 0 <= s < n && a * n + r <= b * n + s <= a * n + r + n
    ensures (b == a && r <= s) || (b == a + 1 && s <= r)
  {
    if b <= a - 1 {
      MulMono(b, a - 1, n);
    } else if b >= a + 2 {
      MulMono(a + 2, b, n);
    }
  }

  lemma TargetStep(total: nat, n: nat, k: nat)
    requires n > 0
    ensures total / n <= Target(total, n, k + 1) - Target(total, n, k) <= total / n + (if total % n == 0 then 0 else 1)
  {
    var q, r := total / n, total % n;
    assert q * (k + 1) == q * k + q && r * (k + 1) == r * k + r;
    NearestMono(r * k, r * k + r, n);
  }

  /** What slice `k` trades, zero included. */
  function Quantity(total: nat, n: nat, k: nat): nat
    requires n > 0
  {
    TargetStep(total, n, k);
    DivMono(0, total, n);
    Target(total, n, k + 1) - Target(total, n, k)
  }

  /** Each slice trades the floor or the ceiling of `total / n`. */
  lemma QuantitiesDifferByOne(total: nat, n: nat, k: nat)
    requires n > 0
    ensures Quantity(total, n, k) == total / n || (total % n > 0 && Quantity(total, n, k) == total / n + 1)
  {
    TargetStep(total, n, k);
  }

  // ----------------------------------------------------------- the schedule

  lemma {:induction false} TargetsGrow(total: nat, n: nat, j: nat, k: nat)
    requires n > 0 && j <= k
    ensures Target(total, n, j) <= Target(total, n, k)
  {
    if j < k {
      TargetsGrow(total, n, j, k - 1);
      TargetStep(total, n, k - 1);
      DivMono(0, total, n);
    }
  }

  /** Per-slice quantities, zeros included. */
  function Quantities(total: nat, n: nat): (quantities: seq<nat>)
    requires n > 0
    ensures |quantities| == n && forall k :: 0 <= k < n ==> quantities[k] == Quantity(total, n, k)
  {
    seq(n, k requires 0 <= k < n => Quantity(total, n, k))
  }

  lemma {:induction false} PrefixSums(total: nat, n: nat, k: nat)
    requires n > 0 && k <= n
    ensures Sum(Quantities(total, n)[..k]) == Target(total, n, k)
  {
    if k == 0 {
      PrefixWithinHalf(total, n, 0);
    } else {
      PrefixSums(total, n, k - 1);
      var quantities := Quantities(total, n);
      assert quantities[..k][..k - 1] == quantities[..k - 1];
    }
  }

  function ComputeSchedule(p: TwapParams): Result<seq<Child>, ScheduleError> {
    match ValidateWindow(p.start, p.end, p.total, p.numSlices)
    case Err(e) => Err(e)
    case Ok(duration) =>
      Ok(Assemble(SliceStarts(p.start, duration, p.numSlices), Quantities(p.total, p.numSlices)))
  }

  /** An accepted order is scheduled in full, in real orders at increasing times inside its window. */
  lemma TwapIsGood(p: TwapParams)
    requires ComputeSchedule(p).Ok?
    ensures GoodSchedule(ComputeSchedule(p).value, p.total, p.start, p.end)
  {
    var n, quantities := p.numSlices, Quantities(p.total, p.numSlices);
    PrefixSums(p.total, n, n);
    PrefixWithinHalf(p.total, n, n);
    assert quantities[..n] == quantities;
    WholeScheduleIsGood(p.start, p.end - p.start, n, quantities);
  }

  lemma TargetInRange(total: U64, n: nat, k: nat)
    requires 0 < n <= MAX_SLICES && 0 < k <= n
    ensures 0 <= (total % n) * k <= MAX_SLICES * MAX_SLICES
    ensures Target(total, n, k - 1) <= Target(total, n, k) <= total
  {
    TargetsGrow(total, n, k - 1, k);
    TargetsGrow(total, n, k, n);
    PrefixWithinHalf(total, n, n);
    MulMono(0, total % n, k);
    MulMono(total % n, MAX_SLICES, k);
    MulMono(k, MAX_SLICES, MAX_SLICES);
  }

  /** The running loop over the slices, with every intermediate in the machine's range. */
  method RunQuantities(total: U64, n: nat) returns (quantities: seq<U64>)
    requires 0 < n <= MAX_SLICES
    ensures |quantities| == n && forall k :: 0 <= k < n ==> quantities[k] == Quantities(total, n)[k]
  {
    var quotient, remainder := total / n, total % n;
    var done: U64 := 0;
    quantities := [];
    PrefixWithinHalf(total, n, 0);
    for k := 1 to n + 1
      invariant done == Target(total, n, k - 1) && |quantities| == k - 1
      invariant forall j :: 0 <= j < k - 1 ==> quantities[j] == Quantity(total, n, j)
    {
      TargetInRange(total, n, k);
      var partial := remainder * k;
      var target: U64 := quotient * k + partial / n + (if 2 * (partial % n) >= n then 1 else 0);
      quantities := quantities + [target - done];
      done := target;
    }
  }

  // ---------------------------------------------------------- random release

  /** Release time of slice `k`: the total does not appear in it. */
  function ReleaseTime(start: nat, duration: nat, n: nat, stream: Stream, k: nat): nat
    requires n > 0
  {
    var from, to := SliceStart(start, duration, n, k), SliceStart(start, duration, n, k + 1);
    from + Reduce(stream(k), if to >= from then to - from else 0)
  }

  function ReleaseTimes(start: nat, duration: nat, n: nat, stream: Stream): (times: seq<nat>)
    requires n > 0
    ensures |times| == n && forall k :: 0 <= k < n ==> times[k] == ReleaseTime(start, duration, n, stream, k)
  {
    seq(n, k requires 0 <= k < n => ReleaseTime(start, duration, n, stream, k))
  }

  lemma AssembleNext(times: seq<nat>, quantities: seq<nat>, k: nat)
    requires |times| == |quantities| && k < |times|
    ensures Assemble(times[..k + 1], quantities[..k + 1]) ==
      Assemble(times[..k], quantities[..k]) + (if quantities[k] > 0 then [Child(times[k], quantities[k])] else [])
  {
    assert times[..k + 1][..k] == times[..k] && quantities[..k + 1][..k] == quantities[..k];
  }

  lemma RandomizedNext(start: nat, duration: nat, n: nat, stream: Stream, quantities: seq<nat>, k: nat, from: nat,
                       to: nat)
    requires 0 < n <= duration && k < n == |quantities|
    requires from == SliceStart(start, duration, n, k) && to == SliceStart(start, duration, n, k + 1)
    ensures from < to
    ensures var times := ReleaseTimes(start, duration, n, stream);
      Assemble(times[..k + 1], quantities[..k + 1]) == Assemble(times[..k], quantities[..k]) +
        (if quantities[k] > 0 then [Child(from + Reduce(stream(k), to - from), quantities[k])] else [])
  {
    SlicesPartition(start, duration, n, k);
    AssembleNext(ReleaseTimes(start, duration, n, stream), quantities, k);
  }

  method ComputeRandomized(p: TwapParams, seed: U64) returns (r: Result<seq<Child>, ScheduleError>)
    ensures match ValidateWindow(p.start, p.end, p.total, p.numSlices)
            case Err(e) => r == Err(e)
            case Ok(duration) =>
              r == Ok(Assemble(ReleaseTimes(p.start, duration, p.numSlices, Draws(seed)),
                               Quantities(p.total, p.numSlices)))
  {
    var window := ValidateWindow(p.start, p.end, p.total, p.numSlices);
    if window.Err? {
      return Err(window.error);
    }
    var n, duration := p.numSlices, window.value;
    var rng := new SplitMix64(seed);
    var quantities := RunQuantities(p.total, n);
    ghost var stream := Draws(seed);
    ghost var times, spec := ReleaseTimes(p.start, duration, n, stream), Quantities(p.total, n);
    var schedule: seq<Child> := [];
    for k := 0 to n
      invariant rng.Valid() && rng.seed == seed && rng.drawn == k && fresh(rng)
      invariant schedule == Assemble(times[..k], spec[..k])
    {
      var from, to := SliceStart(p.start, duration, n, k), SliceStart(p.start, duration, n, k + 1);
      RandomizedNext(p.start, duration, n, stream, spec, k, from, to);
      var offset := rng.Below(to - from);
      assert offset == Reduce(stream(k), to - from);
      if quantities[k] > 0 {
        schedule := schedule + [Child(from + offset, quantities[k])];
      }
    }
    assert times[..n] == times && spec[..n] == spec;
    r := Ok(schedule);
  }

  /** Each slice is released inside its own bounds. */
  lemma ReleasedInsideSlice(start: nat, duration: nat, n: nat, stream: Stream, k: nat)
    requires 0 < n <= duration && k < n
    ensures SliceStart(start, duration, n, k) <= ReleaseTime(start, duration, n, stream, k)
      < SliceStart(start, duration, n, k + 1)
  {
    SlicesPartition(start, duration, n, k);
  }

  /** Where inside it, the slice's own draw decides: it is scaled to the slice's length. */
  lemma ReleasedByDraw(start: nat, duration: nat, n: nat, stream: Stream, k: nat)
    requires 0 < n <= duration && k < n
    ensures var from, to := SliceStart(start, duration, n, k), SliceStart(start, duration, n, k + 1);
      var offset := ReleaseTime(start, duration, n, stream, k) - from;
      offset * WORD <= stream(k) * (to - from) < (offset + 1) * WORD
  {
    SlicesPartition(start, duration, n, k);
    ReduceScales(stream(k), SliceStart(start, duration, n, k + 1) - SliceStart(start, duration, n, k));
  }

  lemma {:induction false} ReleasesIncrease(start: nat, duration: nat, n: nat, stream: Stream, i: nat, j: nat)
    requires 0 < n <= duration && i < j < n
    ensures ReleaseTime(start, duration, n, stream, i) < ReleaseTime(start, duration, n, stream, j)
  {
    ReleasedInsideSlice(start, duration, n, stream, i);
    ReleasedInsideSlice(start, duration, n, stream, j);
    if i + 1 < j {
      SliceStartsIncrease(start, duration, n, i + 1, j);
    }
  }

  /** The randomized schedule is as good as the plain one, and trades the same quantities. */
  lemma RandomizedIsGood(p: TwapParams, stream: Stream)
    requires ComputeSchedule(p).Ok?
    ensures var times := ReleaseTimes(p.start, p.end - p.start, p.numSlices, stream);
      var children := Assemble(times, Quantities(p.total, p.numSlices));
      && GoodSchedule(children, p.total, p.start, p.end)
      && |children| == |ComputeSchedule(p).value|
      && forall i :: 0 <= i < |children| ==> children[i].qty == ComputeSchedule(p).value[i].qty
  {
    var n, quantities, duration := p.numSlices, Quantities(p.total, p.numSlices), p.end - p.start;
    PrefixSums(p.total, n, n);
    PrefixWithinHalf(p.total, n, n);
    assert quantities[..n] == quantities;
    var times := ReleaseTimes(p.start, duration, n, stream);
    forall i, j | 0 <= i < j < n ensures times[i] < times[j] {
      ReleasesIncrease(p.start, duration, n, stream, i, j);
    }
    forall i | 0 <= i < n ensures p.start <= times[i] < p.end {
      ReleasedInsideSlice(p.start, duration, n, stream, i);
      SlicesPartition(p.start, duration, n, i);
    }
    AssembleIsGood(times, quantities, p.start, p.end);
    SameQuantities(times, SliceStarts(p.start, duration, n), quantities);
  }

  lemma {:induction false} SameQuantities(times: seq<nat>, others: seq<nat>, quantities: seq<nat>)
    requires |times| == |others| == |quantities|
    ensures var a, b := Assemble(times, quantities), Assemble(others, quantities);
      |a| == |b| && forall i :: 0 <= i < |a| ==> a[i].qty == b[i].qty
  {
    if times != [] {
      var last := |times| - 1;
      SameQuantities(times[..last], others[..last], quantities[..last]);
    }
  }

  lemma {:induction false} SliceTrades(times: seq<nat>, quantities: seq<nat>, k: nat)
    requires |times| == |quantities| && k < |times| && quantities[k] > 0
    ensures Child(times[k], quantities[k]) in Assemble(times, quantities)
  {
    var last := |times| - 1;
    if k < last {
      SliceTrades(times[..last], quantities[..last], k);
    }
  }

  /** Orders of any two sizes release the slices both of them trade at the same times. */
  lemma ReleaseTimesIgnoreTotal(start: nat, duration: nat, n: nat, stream: Stream, total: nat, other: nat, k: nat)
    requires 0 < n <= duration && k < n
    requires Quantity(total, n, k) > 0 && Quantity(other, n, k) > 0
    ensures var times := ReleaseTimes(start, duration, n, stream);
      && Child(times[k], Quantity(total, n, k)) in Assemble(times, Quantities(total, n))
      && Child(times[k], Quantity(other, n, k)) in Assemble(times, Quantities(other, n))
  {
    var times := ReleaseTimes(start, duration, n, stream);
    SliceTrades(times, Quantities(total, n), k);
    SliceTrades(times, Quantities(other, n), k);
  }
}
