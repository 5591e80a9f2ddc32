/** Volume-weighted schedules: bucketing historical volume by slice, and following a volume profile. */
module Vwap {
  import opened Types
  import opened DivMod
  import opened Schedule
  import opened Cumulative

  // ------------------------------------------------------ finding the slice

  /** The slice of a window that contains an offset, in one division. */
  function SliceContaining(offset: nat, duration: nat, n: nat): nat
    requires duration > 0 && n > 0
  {
    ((offset + 1) * n - 1) / duration
  }

  lemma StartsByThen(offset: nat, duration: nat, n: nat, k: nat)
    requires duration > 0 && n > 0
    ensures SliceStart(0, duration, n, k) <= offset <==> k <= SliceContaining(offset, duration, n)
  {
    QuotientAtLeast(offset + 1, duration * k, n);
    QuotientAtLeast(k, (offset + 1) * n - 1, duration);
    assert k * duration == duration * k;
  }

  /**
   * `SliceContaining` inverts the scheduler's slice boundaries: every offset in the window lies in
   * the slice it names, and in no other.
   */
  lemma SliceContainingIsInverse(offset: nat, duration: nat, n: nat, k: nat)
    requires 0 < n <= duration && offset < duration && k < n
    ensures SliceContaining(offset, duration, n) < n
    ensures SliceStart(0, duration, n, k) <= offset < SliceStart(0, duration, n, k + 1)
      <==> k == SliceContaining(offset, duration, n)
  {
    SlicesPartition(0, duration, n, 0);
    StartsByThen(offset, duration, n, n);
    StartsByThen(offset, duration, n, k);
    StartsByThen(offset, duration, n, k + 1);
  }

  // ------------------------------------------------------- bucketing volume

  datatype Bar = Bar(time: U64, volume: U64)

  datatype IntradayWindow = IntradayWindow(startOffset: U64, duration: U64, dayLength: U64)

  predicate GoodWindow(w: IntradayWindow, n: nat) {
    0 < n <= w.duration && w.startOffset + w.duration <= w.dayLength
  }

  /** Whether a time of day falls in slice `k` of the window, by the scheduler's boundaries. */
  predicate InSlice(timeOfDay: nat, w: IntradayWindow, n: nat, k: nat)
    requires GoodWindow(w, n)
  {
    SliceStart(w.startOffset, w.duration, n, k) <= timeOfDay < SliceStart(w.startOffset, w.duration, n, k + 1)
  }

  /** Volume of the bars that fall in slice `k`. */
  function VolumeIn(bars: seq<Bar>, w: IntradayWindow, n: nat, k: nat): nat
    requires GoodWindow(w, n)
  {
    if bars == [] then 0
    else
      var last := bars[|bars| - 1];
      VolumeIn(bars[..|bars| - 1], w, n, k) + (if InSlice(last.time % w.dayLength, w, n, k) then last.volume else 0)
  }

  /** One pass over the bars puts each slice's volume, and nothing else, in its bucket. */
  method BucketVolume(bars: seq<Bar>, w: IntradayWindow, n: nat) returns (volumes: array<nat>)
    requires GoodWindow(w, n)
    ensures fresh(volumes) && volumes.Length == n
    ensures forall k :: 0 <= k < n ==> volumes[k] == VolumeIn(bars, w, n, k)
  {
    volumes := new nat[n](_ => 0);
    for i := 0 to |bars|
      invariant forall k :: 0 <= k < n ==> volumes[k] == VolumeIn(bars[..i], w, n, k)
    {
      assert bars[..i + 1][..i] == bars[..i];
      var timeOfDay := bars[i].time % w.dayLength;
      if w.startOffset <= timeOfDay && timeOfDay - w.startOffset < w.duration {
        var slice := SliceContaining(timeOfDay - w.startOffset, w.duration, n);
        InsideWindow(timeOfDay, w, n, 0);
        forall k: nat | k < n ensures InSlice(timeOfDay, w, n, k) <==> k == slice {
          InsideWindow(timeOfDay, w, n, k);
        }
        volumes[slice] := volumes[slice] + bars[i].volume;
      } else {
        OutsideWindow(timeOfDay, w, n);
      }
    }
    assert bars[..|bars|] == bars;
  }

  lemma InsideWindow(timeOfDay: nat, w: IntradayWindow, n: nat, k: nat)
    requires GoodWindow(w, n) && w.startOffset <= timeOfDay < w.startOffset + w.duration && k < n
    ensures var slice := SliceContaining(timeOfDay - w.startOffset, w.duration, n);
            slice < n && (InSlice(timeOfDay, w, n, k) <==> k == slice)
  {
    var offset := timeOfDay - w.startOffset;
    SliceContainingIsInverse(offset, w.duration, n, k);
    InSliceByOffset(w, n, k, offset);
  }

  lemma OutsideWindow(timeOfDay: nat, w: IntradayWindow, n: nat)
    requires GoodWindow(w, n) && !(w.startOffset <= timeOfDay < w.startOffset + w.duration)
    ensures forall k: nat :: k < n ==> !InSlice(timeOfDay, w, n, k)
  {
    forall k: nat | k < n ensures !InSlice(timeOfDay, w, n, k) {
      SlicesPartition(w.startOffset, w.duration, n, k);
    }
  }

  lemma InSliceByOffset(w: IntradayWindow, n: nat, k: nat, offset: nat)
    requires GoodWindow(w, n)
    ensures InSlice(w.startOffset + offset, w, n, k)
      <==> SliceStart(0, w.duration, n, k) <= offset < SliceStart(0, w.duration, n, k + 1)
  {
  }

  // ------------------------------------------------------- following a profile

  function Weight(profile: seq<real>, k: nat): real
    requires k <= |profile|
  {
    if k == 0 then 0.0 else Weight(profile, k - 1) + profile[k - 1]
  }

  /** Share of the profile's volume in its first `k` slices. */
  function Share(profile: seq<real>, k: nat): real
    requires k <= |profile| && Weight(profile, |profile|) > 0.0
  {
    Weight(profile, k) / Weight(profile, |profile|)
  }

  predicate NonNegative(profile: seq<real>) {
    forall k :: 0 <= k < |profile| ==> profile[k] >= 0.0
  }

  lemma {:induction false} WeightGrows(profile: seq<real>, j: nat, k: nat)
    requires NonNegative(profile) && j <= k <= |profile|
    ensures 0.0 <= Weight(profile, j) <= Weight(profile, k)
  {
    if j < k {
      WeightGrows(profile, j, k - 1);
    } else if 0 < j {
      WeightGrows(profile, j - 1, j - 1);
    }
  }

  /** One past the last slice that has volume, or 0 if none has. */
  function Traded(profile: seq<real>, k: nat): (m: nat)
    requires k <= |profile| && NonNegative(profile)
    ensures m <= k && (m > 0 ==> profile[m - 1] > 0.0) && forall j :: m <= j < k ==> profile[j] == 0.0
    ensures Weight(profile, m) == Weight(profile, k)
    ensures m > 0 ==> Weight(profile, k) > 0.0
  {
    if k == 0 then 0
    else if profile[k - 1] > 0.0 then WeightGrows(profile, 0, k - 1); k
    else Traded(profile, k - 1)
  }

  function Curve(profile: seq<real>, m: nat): (curve: seq<real>)
    requires m <= |profile| && Weight(profile, |profile|) > 0.0
    ensures |curve| == m && forall k :: 0 <= k < m ==> curve[k] == Share(profile, k + 1)
  {
    seq(m, k requires 0 <= k < m => Share(profile, k + 1))
  }

  lemma ShareGrows(profile: seq<real>, j: nat, k: nat)
    requires NonNegative(profile) && j <= k <= |profile| && Weight(profile, |profile|) > 0.0
    ensures 0.0 <= Share(profile, j) <= Share(profile, k) <= 1.0
  {
    WeightGrows(profile, j, k);
    WeightGrows(profile, k, |profile|);
    RatioMono(Weight(profile, j), Weight(profile, k), Weight(profile, |profile|));
    RatioMono(Weight(profile, k), Weight(profile, |profile|), Weight(profile, |profile|));
  }

  lemma CurveRises(profile: seq<real>, m: nat)
    requires NonNegative(profile) && m <= |profile| && Weight(profile, |profile|) > 0.0
    ensures RisingCurve(Curve(profile, m))
  {
    forall k | 0 <= k < m ensures 0.0 <= Curve(profile, m)[k] <= 1.0 {
      ShareGrows(profile, k + 1, k + 1);
    }
    forall j, k | 0 <= j < k < m ensures Curve(profile, m)[j] <= Curve(profile, m)[k] {
      ShareGrows(profile, j + 1, k + 1);
    }
  }

  datatype VwapParams = VwapParams(start: U64, end: U64, total: U64)

  /** What each slice trades: the curve stops at the last slice with volume, which completes the order. */
  function VwapQuantities(total: nat, profile: seq<real>): seq<nat>
    requires NonNegative(profile) && Weight(profile, |profile|) > 0.0
  {
    Quantities(total, Ideals(total, Curve(profile, Traded(profile, |profile|))), 0)
  }

  /**
   * A slice without volume trades nothing, the order is complete with the last slice that has some,
   * and every prefix is within half a unit of its share of the volume.
   */
  lemma VwapFollowsProfile(total: nat, profile: seq<real>, k: nat)
    requires NonNegative(profile) && Weight(profile, |profile|) > 0.0
    requires k < Traded(profile, |profile|)
    ensures var quantities := VwapQuantities(total, profile);
      && |quantities| == Traded(profile, |profile|)
      && (profile[k] == 0.0 ==> quantities[k] == 0)
      && WithinHalf(SumFront(quantities[..k + 1]), total, Share(profile, k + 1))
  {
    var m := Traded(profile, |profile|);
    if k + 1 < m {
      CurveRises(profile, m);
      FollowsTheCurve(total, Curve(profile, m), k);
      if profile[k] == 0.0 {
        NoVolumeNoMove(profile, k);
      }
    } else {
      LastSliceCompletes(total, profile);
    }
  }

  lemma NoVolumeNoMove(profile: seq<real>, k: nat)
    requires NonNegative(profile) && Weight(profile, |profile|) > 0.0 && k < |profile| && profile[k] == 0.0
    ensures Share(profile, k + 1) == Share(profile, k)
    ensures Share(profile, 0) == 0.0
  {
    assert Weight(profile, k + 1) == Weight(profile, k);
  }

  lemma LastSliceCompletes(total: nat, profile: seq<real>)
    requires NonNegative(profile) && Weight(profile, |profile|) > 0.0
    ensures var quantities, m := VwapQuantities(total, profile), Traded(profile, |profile|);
      && 0 < m == |quantities| && SumFront(quantities) == total
      && quantities[..m] == quantities && Share(profile, m) == 1.0
  {
    var m := Traded(profile, |profile|);
    WholeShare(profile, m);
    CompletesTheOrder(total, Ideals(total, Curve(profile, m)), 0);
  }

  lemma WholeShare(profile: seq<real>, m: nat)
    requires m <= |profile| && Weight(profile, m) == Weight(profile, |profile|) > 0.0
    ensures Share(profile, m) == 1.0
  {
  }

  // ----------------------------------------------------------- the schedule

  /** The largest weight, or what is wrong with the profile. */
  method LargestWeight(profile: seq<real>) returns (r: Result<real, ScheduleError>)
    ensures r.Ok? <==> NonNegative(profile) && exists k :: 0 <= k < |profile| && profile[k] > 0.0
    ensures r.Ok? ==> r.value > 0.0 && r.value in profile && forall k :: 0 <= k < |profile| ==> profile[k] <= r.value
    ensures r.Err? && r.error.InvalidProfileEntry? ==>
      && r.error.index < |profile| && profile[r.error.index] < 0.0
      && forall k :: 0 <= k < r.error.index ==> profile[k] >= 0.0
    ensures r.Err? ==> r.error.InvalidProfileEntry? || (r.error.EmptyProfile? && NonNegative(profile))
  {
    var largest := 0.0;
    for k := 0 to |profile|
      invariant largest >= 0.0 && (largest > 0.0 ==> largest in profile)
      invariant forall j :: 0 <= j < k ==> 0.0 <= profile[j] <= largest
    {
      if profile[k] < 0.0 {
        return Err(InvalidProfileEntry(k));
      }
      if profile[k] > largest {
        largest := profile[k];
      }
    }
    if largest > 0.0 {
      return Ok(largest);
    }
    return Err(EmptyProfile);
  }

  lemma {:induction false} SomeVolume(profile: seq<real>, k: nat)
    requires NonNegative(profile) && k < |profile| && profile[k] > 0.0
    ensures Weight(profile, |profile|) > 0.0
  {
    WeightGrows(profile, 0, k);
    WeightGrows(profile, k + 1, |profile|);
  }

  /** The cumulative curve as the source sums it, with every weight first divided by the largest. */
  method RunningCurve(profile: seq<real>, largest: real) returns (curve: seq<real>)
    requires NonNegative(profile) && largest > 0.0 && Weight(profile, |profile|) > 0.0
    ensures curve == Curve(profile, Traded(profile, |profile|))
  {
    var total := 0.0;
    for k := 0 to |profile|
      invariant total == Weight(profile, k) / largest
    {
      RatioAdd(Weight(profile, k), profile[k], largest);
      total := total + profile[k] / largest;
    }
    var m := |profile|;
    while m > 0 && profile[m - 1] <= 0.0
      invariant 0 <= m <= |profile| && Traded(profile, m) == Traded(profile, |profile|)
    {
      m := m - 1;
    }
    curve := [];
    var running := 0.0;
    for k := 0 to m
      invariant running == Weight(profile, k) / largest && |curve| == k
      invariant forall j :: 0 <= j < k ==> curve[j] == Share(profile, j + 1)
    {
      RatioAdd(Weight(profile, k), profile[k], largest);
      running := running + profile[k] / largest;
      ScaleCancels(Weight(profile, k + 1), Weight(profile, |profile|), largest);
      curve := curve + [running / total];
    }
  }

  lemma ScaleCancels(a: real, b: real, c: real)
    requires b > 0.0 && c > 0.0
    ensures b / c > 0.0 && (a / c) / (b / c) == a / b
  {
    RatioMono(0.0, b, c);
    var x, y, z := a / c, b / c, a / b;
    assert x * c == a && y * c == b && z * b == a;
    assert (z * y) * c == z * (y * c);
    RatioIs(a, c, z * y);
    assert y != 0.0 by {
      RealMulStrict(0.0, b, 1.0);
    }
    RatioIs(x, y, z);
  }

  /** The first entry from `k` on that no profile may have, or the profile's length. */
  function FirstNegative(profile: seq<real>, k: nat): (n: nat)
    requires k <= |profile| && forall j :: 0 <= j < k ==> profile[j] >= 0.0
    ensures n <= |profile| && (forall j :: 0 <= j < n ==> profile[j] >= 0.0) && (n < |profile| ==> profile[n] < 0.0)
    decreases |profile| - k
  {
    if k < |profile| && profile[k] >= 0.0 then FirstNegative(profile, k + 1) else k
  }

  /** Slice quantities for a profile, or what is wrong with it. */
  function ProfileQuantities(total: nat, profile: seq<real>): (r: Result<seq<nat>, ScheduleError>)
    ensures r.Ok? ==> |r.value| <= |profile| && Schedule.Sum(r.value) == total
  {
    var bad := FirstNegative(profile, 0);
    if bad < |profile| then Err(InvalidProfileEntry(bad))
    else if Weight(profile, |profile|) <= 0.0 then Err(EmptyProfile)
    else
      LastSliceCompletes(total, profile);
      SumBothWays(VwapQuantities(total, profile));
      Ok(VwapQuantities(total, profile))
  }

  function VwapSchedule(p: VwapParams, profile: seq<real>): Result<seq<Child>, ScheduleError> {
    match ValidateWindow(p.start, p.end, p.total, |profile|)
    case Err(e) => Err(e)
    case Ok(duration) =>
      match ProfileQuantities(p.total, profile)
      case Err(e) => Err(e)
      case Ok(quantities) => Ok(Assemble(SliceStarts(p.start, duration, |profile|)[..|quantities|], quantities))
  }

  /** An accepted profile schedules the whole order at increasing times inside the window. */
  lemma VwapIsGood(p: VwapParams, profile: seq<real>)
    requires VwapSchedule(p, profile).Ok?
    ensures GoodSchedule(VwapSchedule(p, profile).value, p.total, p.start, p.end)
  {
    SlicedScheduleIsGood(p.start, p.end - p.start, |profile|, ProfileQuantities(p.total, profile).value);
  }

  lemma {:induction false} NoVolume(profile: seq<real>, k: nat)
    requires k <= |profile| && forall j :: 0 <= j < k ==> profile[j] == 0.0
    ensures Weight(profile, k) == 0.0
  {
    if k > 0 {
      NoVolume(profile, k - 1);
    }
  }

  method QuantitiesFor(total: U64, profile: seq<real>) returns (r: Result<seq<nat>, ScheduleError>)
    ensures r == ProfileQuantities(total, profile)
    ensures r.Ok? <==> NonNegative(profile) && exists k :: 0 <= k < |profile| && profile[k] > 0.0
  {
    var largest := LargestWeight(profile);
    if largest.Err? {
      if largest.error.EmptyProfile? {
        NoVolume(profile, |profile|);
      }
      return Err(largest.error);
    }
    ghost var k :| 0 <= k < |profile| && profile[k] > 0.0;
    SomeVolume(profile, k);
    var curve := RunningCurve(profile, largest.value);
    var quantities := RunQuantities(total, curve);
    r := Ok(quantities);
  }

  method ComputeVwap(p: VwapParams, profile: seq<real>) returns (r: Result<seq<Child>, ScheduleError>)
    ensures r == VwapSchedule(p, profile)
    ensures r.Ok? <==>
      && ValidateWindow(p.start, p.end, p.total, |profile|).Ok? && NonNegative(profile)
      && exists k :: 0 <= k < |profile| && profile[k] > 0.0
  {
    var window := ValidateWindow(p.start, p.end, p.total, |profile|);
    if window.Err? {
      return Err(window.error);
    }
    var quantities := QuantitiesFor(p.total, profile);
    if quantities.Err? {
      return Err(quantities.error);
    }
    var starts := SliceStarts(p.start, window.value, |profile|);
    r := Ok(Assemble(starts[..|quantities.value|], quantities.value));
  }

  // ------------------------------------------------------ a profile from bars

  /** Volume of the bars in the first `k` slices. */
  function VolumeBefore(bars: seq<Bar>, w: IntradayWindow, n: nat, k: nat): nat
    requires GoodWindow(w, n)
  {
    if k == 0 then 0 else VolumeBefore(bars, w, n, k - 1) + VolumeIn(bars, w, n, k - 1)
  }

  lemma {:induction false} SharesAddUp(bars: seq<Bar>, w: IntradayWindow, n: nat, profile: seq<real>, k: nat)
    requires GoodWindow(w, n) && k <= |profile| && VolumeBefore(bars, w, n, n) > 0
    requires forall j :: 0 <= j < |profile| ==>
      profile[j] == VolumeIn(bars, w, n, j) as real / VolumeBefore(bars, w, n, n) as real
    ensures Weight(profile, k) == VolumeBefore(bars, w, n, k) as real / VolumeBefore(bars, w, n, n) as real
  {
    var total := VolumeBefore(bars, w, n, n) as real;
    if k > 0 {
      SharesAddUp(bars, w, n, profile, k - 1);
      RatioAdd(VolumeBefore(bars, w, n, k - 1) as real, VolumeIn(bars, w, n, k - 1) as real, total);
    } else {
      RatioIs(0.0, total, 0.0);
    }
  }

  method TotalVolume(bars: seq<Bar>, w: IntradayWindow, n: nat, volumes: seq<nat>) returns (total: nat)
    requires GoodWindow(w, n) && |volumes| == n && forall k :: 0 <= k < n ==> volumes[k] == VolumeIn(bars, w, n, k)
    ensures total == VolumeBefore(bars, w, n, n)
  {
    total := 0;
    for k := 0 to n
      invariant total == VolumeBefore(bars, w, n, k)
    {
      total := total + volumes[k];
    }
  }

  method Fractions(volumes: seq<nat>, total: nat) returns (profile: seq<real>)
    requires total > 0
    ensures |profile| == |volumes| && NonNegative(profile)
    ensures forall k :: 0 <= k < |volumes| ==> profile[k] == volumes[k] as real / total as real
  {
    profile := [];
    for k := 0 to |volumes|
      invariant |profile| == k && NonNegative(profile)
      invariant forall j :: 0 <= j < k ==> profile[j] == volumes[j] as real / total as real
    {
      RatioMono(0.0, volumes[k] as real, total as real);
      profile := profile + [volumes[k] as real / total as real];
    }
  }

  /** Each slice's exact share of the window's volume; the shares add up to one. */
  method ProfileFromBars(bars: seq<Bar>, w: IntradayWindow, n: nat) returns (r: Result<seq<real>, ScheduleError>)
    ensures r.Ok? <==> n <= MAX_SLICES && GoodWindow(w, n) && VolumeBefore(bars, w, n, n) > 0
    ensures r.Ok? ==>
      && |r.value| == n && NonNegative(r.value) && Weight(r.value, n) == 1.0
      && forall k :: 0 <= k < n ==> r.value[k] == VolumeIn(bars, w, n, k) as real / VolumeBefore(bars, w, n, n) as real
  {
    if n == 0 {
      return Err(ZeroSlices);
    }
    if n > MAX_SLICES {
      return Err(TooManySlices(n));
    }
    if w.dayLength == 0 {
      return Err(InvalidParameter);
    }
    if w.duration < n {
      return Err(WindowTooShort(w.duration, n));
    }
    if w.startOffset + w.duration > w.dayLength {
      return Err(InvalidParameter);
    }
    var volumes := BucketVolume(bars, w, n);
    var total := TotalVolume(bars, w, n, volumes[..]);
    if total == 0 {
      return Err(EmptyProfile);
    }
    var profile := Fractions(volumes[..], total);
    SharesAddUp(bars, w, n, profile, n);
    RatioIs(total as real, total as real, 1.0);
    r := Ok(profile);
  }
}
