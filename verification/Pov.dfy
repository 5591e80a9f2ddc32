/** Percentage-of-volume schedules: a fixed share of observed volume, never ahead of it. */
module Pov {
  import opened Types
  import opened DivMod
  import opened Schedule

  const BPS_PER_UNIT: nat := 10_000

  /** Volume that became known at a time. */
  datatype Observation = Observation(time: U64, volume: U64)

  datatype PovParams = PovParams(start: U64, end: U64, total: U64, rate: nat)

  datatype PovSchedule = PovSchedule(children: seq<Child>, scheduled: nat, shortfall: nat)

  /** Quantity the participation rate allows against `volume`. */
  function Allowed(p: PovParams, volume: nat): nat {
    Min(p.total, volume * p.rate / BPS_PER_UNIT)
  }

  // --------------------------------------------------- the running schedule

  /** Loop state: volume counted so far, and the schedule it allowed. */
  datatype Progress = Progress(volume: nat, scheduled: nat, children: seq<Child>)

  const NOTHING: Progress := Progress(0, 0, [])

  /** Adds `qty` at `time`, to the last child if it has that time already. */
  function AddChild(children: seq<Child>, time: nat, qty: nat): seq<Child> {
    if children != [] && children[|children| - 1].time == time then
      children[..|children| - 1] + [Child(time, children[|children| - 1].qty + qty)]
    else children + [Child(time, qty)]
  }

  function Take(p: PovParams, s: Progress, seen: Observation): Progress {
    if seen.time < p.start || seen.time >= p.end || s.scheduled == p.total then s
    else
      var volume := s.volume + seen.volume;
      var target := Allowed(p, volume);
      if target > s.scheduled then
        Progress(volume, target, AddChild(s.children, seen.time, target - s.scheduled))
      else Progress(volume, s.scheduled, s.children)
  }

  function TakeAll(p: PovParams, tape: seq<Observation>): Progress {
    if tape == [] then NOTHING else Take(p, TakeAll(p, tape[..|tape| - 1]), tape[|tape| - 1])
  }

  /** Volume observed inside the window. */
  function VolumeInWindow(p: PovParams, tape: seq<Observation>): nat {
    if tape == [] then 0
    else
      var last := tape[|tape| - 1];
      VolumeInWindow(p, tape[..|tape| - 1]) + (if p.start <= last.time < p.end then last.volume else 0)
  }

  ghost predicate TimeOrdered(tape: seq<Observation>) {
    forall i, j :: 0 <= i < j < |tape| ==> tape[i].time <= tape[j].time
  }

  // ----------------------------------------------------------------- method

  method FindUnsorted(tape: seq<Observation>) returns (index: Option<nat>)
    ensures index.None? ==> TimeOrdered(tape)
    ensures index.Some? ==>
      && 0 < index.value < |tape| && tape[index.value].time < tape[index.value - 1].time
      && TimeOrdered(tape[..index.value])
  {
    var k := 1;
    while k < |tape|
      invariant 1 <= k && forall i, j :: 0 <= i < j < k && j < |tape| ==> tape[i].time <= tape[j].time
    {
      if tape[k].time < tape[k - 1].time {
        return Some(k);
      }
      k := k + 1;
    }
    return None;
  }

  method ComputeSchedule(p: PovParams, tape: seq<Observation>) returns (r: Result<PovSchedule, ScheduleError>)
    ensures r.Ok? <==> p.total > 0 && p.start < p.end && 0 < p.rate <= BPS_PER_UNIT && TimeOrdered(tape)
    ensures r.Ok? ==>
      var s := TakeAll(p, tape);
      s.scheduled <= p.total && r.value == PovSchedule(s.children, s.scheduled, p.total - s.scheduled)
  {
    if p.total == 0 {
      return Err(ZeroQuantity);
    }
    if p.end <= p.start {
      return Err(InvalidTimeRange(p.start, p.end));
    }
    if p.rate == 0 || p.rate > BPS_PER_UNIT {
      return Err(InvalidParameter);
    }
    var unsorted := FindUnsorted(tape);
    if unsorted.Some? {
      return Err(UnsortedMarketData(unsorted.value));
    }
    var scheduled, children := Participate(p, tape);
    ScheduledIsAllowed(p, tape);
    r := Ok(PovSchedule(children, scheduled, p.total - scheduled));
  }

  /** The loop over the data, in time order. */
  method Participate(p: PovParams, tape: seq<Observation>) returns (scheduled: nat, children: seq<Child>)
    requires TimeOrdered(tape)
    ensures var s := TakeAll(p, tape); s.scheduled == scheduled && s.children == children
  {
    var volume: nat := 0;
    scheduled, children := 0, [];
    for i := 0 to |tape|
      invariant TakeAll(p, tape[..i]) == Progress(volume, scheduled, children)
    {
      NextObserved(p, tape, i);
      var seen := tape[i];
      if seen.time < p.start {
        continue;
      }
      if seen.time >= p.end || scheduled == p.total {
        RestIsIgnored(p, tape, i);
        break;
      }
      ghost var before := Progress(volume, scheduled, children);
      volume := volume + seen.volume;
      var target := Allowed(p, volume);
      TakeIs(p, before, seen, volume, target);
      if target > scheduled {
        var qty := target - scheduled;
        ghost var added := AddChild(children, seen.time, qty);
        var last := |children| - 1;
        if 0 <= last && children[last].time == seen.time {
          children := children[..last] + [Child(seen.time, children[last].qty + qty)];
        } else {
          children := children + [Child(seen.time, qty)];
        }
        assert children == added;
        scheduled := target;
      }
    }
    assert tape[..|tape|] == tape;
  }

  lemma TakeIs(p: PovParams, s: Progress, seen: Observation, volume: nat, target: nat)
    requires p.start <= seen.time < p.end && s.scheduled != p.total
    requires volume == s.volume + seen.volume && target == Allowed(p, volume)
    ensures Take(p, s, seen) == if target > s.scheduled
      then Progress(volume, target, AddChild(s.children, seen.time, target - s.scheduled))
      else Progress(volume, s.scheduled, s.children)
  {
  }

  lemma NextObserved(p: PovParams, tape: seq<Observation>, i: nat)
    requires i < |tape|
    ensures TakeAll(p, tape[..i + 1]) == Take(p, TakeAll(p, tape[..i]), tape[i])
  {
    assert tape[..i + 1][..i] == tape[..i];
  }

  /** After the window or a complete order, later observations change nothing: the loop may stop. */
  lemma {:induction false} RestIsIgnored(p: PovParams, tape: seq<Observation>, i: nat)
    requires i < |tape| && TimeOrdered(tape)
    requires tape[i].time >= p.end || TakeAll(p, tape[..i]).scheduled == p.total
    ensures TakeAll(p, tape) == TakeAll(p, tape[..i])
  {
    assert tape[..|tape|] == tape;
    var k := i;
    while k < |tape|
      invariant i <= k <= |tape| && TakeAll(p, tape[..k]) == TakeAll(p, tape[..i])
    {
      NextObserved(p, tape, k);
      k := k + 1;
    }
  }

  // ---------------------------------------------------------- participation

  lemma AllowedGrows(p: PovParams, a: nat, b: nat)
    requires a <= b
    ensures Allowed(p, a) <= Allowed(p, b) <= p.total
    ensures Allowed(p, b) * BPS_PER_UNIT <= b * p.rate
  {
    MulMono(a, b, p.rate);
    DivMono(a * p.rate, b * p.rate, BPS_PER_UNIT);
    DivBounds(b * p.rate, BPS_PER_UNIT);
  }

  /** Released is what is allowed, and counting stops only once the order is complete. */
  predicate OnPace(p: PovParams, s: Progress, volume: nat) {
    s.scheduled == Allowed(p, volume) && s.volume <= volume && (s.scheduled < p.total ==> s.volume == volume)
  }

  lemma TakeKeepsPace(p: PovParams, s: Progress, volume: nat, seen: Observation, after: nat)
    requires OnPace(p, s, volume)
    requires after == volume + (if p.start <= seen.time < p.end then seen.volume else 0)
    ensures OnPace(p, Take(p, s, seen), after)
    ensures Allowed(p, after) <= p.total && Allowed(p, after) * BPS_PER_UNIT <= after * p.rate
  {
    AllowedGrows(p, volume, after);
  }

  /**
   * After every observation the schedule has released exactly what the rate allows against the
   * volume seen in the window so far: never more, and as soon as possible.
   */
  lemma {:induction false} ScheduledIsAllowed(p: PovParams, tape: seq<Observation>)
    requires p.total > 0
    ensures var s := TakeAll(p, tape);
      && s.scheduled == Allowed(p, VolumeInWindow(p, tape))
      && s.scheduled * BPS_PER_UNIT <= VolumeInWindow(p, tape) * p.rate
      && s.scheduled <= p.total
      && s.volume <= VolumeInWindow(p, tape) && (s.scheduled < p.total ==> s.volume == VolumeInWindow(p, tape))
  {
    if tape == [] {
      AllowedGrows(p, 0, 0);
      assert 0 * p.rate == 0;
    } else {
      var init := tape[..|tape| - 1];
      ScheduledIsAllowed(p, init);
      TakeKeepsPace(p, TakeAll(p, init), VolumeInWindow(p, init), tape[|tape| - 1], VolumeInWindow(p, tape));
    }
  }

  /** Nothing is held back: one unit more would exceed the order or the rate. */
  lemma NothingHeldBack(p: PovParams, tape: seq<Observation>)
    requires p.total > 0
    ensures var scheduled := TakeAll(p, tape).scheduled;
      scheduled == p.total || (scheduled + 1) * BPS_PER_UNIT > VolumeInWindow(p, tape) * p.rate
  {
    ScheduledIsAllowed(p, tape);
    var scheduled := TakeAll(p, tape).scheduled;
    DivBounds(VolumeInWindow(p, tape) * p.rate, BPS_PER_UNIT);
    assert (scheduled + 1) * BPS_PER_UNIT == scheduled * BPS_PER_UNIT + BPS_PER_UNIT;
  }

  // ----------------------------------------------------------- the children

  lemma AddChildKeepsGood(children: seq<Child>, total: int, start: nat, time: nat, qty: nat, end: nat)
    requires GoodSchedule(children, total, start, time + 1) && qty > 0 && start <= time < end
    ensures GoodSchedule(AddChild(children, time, qty), total + qty, start, end)
  {
    if children != [] && children[|children| - 1].time == time {
      assert AddChild(children, time, qty)[..|children| - 1] == children[..|children| - 1];
    } else {
      assert (children + [Child(time, qty)])[..|children|] == children;
    }
  }

  lemma EarlierEnd(children: seq<Child>, total: int, start: nat, end: nat, later: nat)
    requires GoodSchedule(children, total, start, end) && end <= later
    ensures GoodSchedule(children, total, start, later)
  {
  }

  lemma TakeKeepsGood(p: PovParams, s: Progress, seen: Observation)
    requires GoodSchedule(s.children, s.scheduled, p.start, Min(p.end, seen.time + 1))
    ensures var after := Take(p, s, seen);
            GoodSchedule(after.children, after.scheduled, p.start, Min(p.end, seen.time + 1))
  {
    var after := Take(p, s, seen);
    if after.children != s.children {
      EarlierEnd(s.children, s.scheduled, p.start, Min(p.end, seen.time + 1), seen.time + 1);
      AddChildKeepsGood(s.children, s.scheduled, p.start, seen.time, after.scheduled - s.scheduled,
                        Min(p.end, seen.time + 1));
    }
  }

  /** Latest time a child can have by the data seen, exclusive. */
  function Horizon(p: PovParams, tape: seq<Observation>): nat {
    if tape == [] then p.start else Min(p.end, tape[|tape| - 1].time + 1)
  }

  /** Children are real orders at strictly increasing times in the window, no later than the data. */
  lemma {:induction false} PovIsGood(p: PovParams, tape: seq<Observation>)
    requires TimeOrdered(tape)
    ensures var s := TakeAll(p, tape); GoodSchedule(s.children, s.scheduled, p.start, Horizon(p, tape))
  {
    if tape != [] {
      var last, init := tape[|tape| - 1], tape[..|tape| - 1];
      PovIsGood(p, init);
      var s := TakeAll(p, init);
      if init == [] {
        assert s == NOTHING;
      } else {
        assert init[|init| - 1].time <= last.time;
        EarlierEnd(s.children, s.scheduled, p.start, Horizon(p, init), Horizon(p, tape));
      }
      TakeKeepsGood(p, s, last);
    }
  }

  // -------------------------------------------------------------- causality

  /** The children released before `time`. */
  function Before(children: seq<Child>, time: nat): seq<Child> {
    if children == [] then []
    else
      var last := children[|children| - 1];
      var earlier := Before(children[..|children| - 1], time);
      if last.time < time then earlier + [last] else earlier
  }

  lemma AddChildIsLate(children: seq<Child>, at: nat, qty: nat, time: nat)
    requires time <= at
    ensures Before(AddChild(children, at, qty), time) == Before(children, time)
  {
    if children != [] && children[|children| - 1].time == at {
      assert AddChild(children, at, qty)[..|children| - 1] == children[..|children| - 1];
    } else {
      assert (children + [Child(at, qty)])[..|children|] == children;
    }
  }

  /**
   * Once every observation at a time has been seen, the children released up to then are settled:
   * data from `time` on never changes what was released before it.
   */
  lemma {:induction false} LaterDataChangesNothing(p: PovParams, tape: seq<Observation>, cut: nat, time: nat)
    requires cut <= |tape| && forall i :: cut <= i < |tape| ==> time <= tape[i].time
    ensures Before(TakeAll(p, tape).children, time) == Before(TakeAll(p, tape[..cut]).children, time)
  {
    if cut == |tape| {
      assert tape[..cut] == tape;
    } else {
      var last, init := tape[|tape| - 1], tape[..|tape| - 1];
      LaterDataChangesNothing(p, init, cut, time);
      assert init[..cut] == tape[..cut];
      var s := TakeAll(p, init);
      AddChildIsLate(s.children, last.time, Max(0, Allowed(p, s.volume + last.volume) - s.scheduled), time);
    }
  }

  // ---------------------------------------------- splitting an observation

  /** Same schedule; the volume counted may differ only once the order is complete. */
  predicate SameSchedule(p: PovParams, a: Progress, b: Progress) {
    a.scheduled == b.scheduled && a.children == b.children && (a.scheduled == p.total || a.volume == b.volume)
  }

  lemma AddTwice(children: seq<Child>, time: nat, a: nat, b: nat)
    ensures AddChild(AddChild(children, time, a), time, b) == AddChild(children, time, a + b)
  {
    if children != [] && children[|children| - 1].time == time {
      var init, last := children[..|children| - 1], children[|children| - 1];
      assert (init + [Child(time, last.qty + a)])[..|init|] == init;
    } else {
      assert (children + [Child(time, a)])[..|children|] == children;
    }
  }

  lemma SplitTake(p: PovParams, s: Progress, time: U64, a: U64, b: U64)
    requires a + b <= U64_MAX && s.scheduled <= p.total
    ensures SameSchedule(p, Take(p, Take(p, s, Observation(time, a)), Observation(time, b)),
                         Take(p, s, Observation(time, a + b)))
  {
    AllowedGrows(p, s.volume + a, s.volume + a + b);
    var once, twice := Allowed(p, s.volume + a), Allowed(p, s.volume + a + b);
    AddTwice(s.children, time, Max(0, once - s.scheduled), Max(0, twice - once));
  }

  lemma {:induction false} SameAfter(p: PovParams, a: Progress, b: Progress, seen: Observation)
    requires SameSchedule(p, a, b)
    ensures SameSchedule(p, Take(p, a, seen), Take(p, b, seen))
  {
  }

  /** Reporting one time's volume in two parts leaves the schedule unchanged, wherever it stands in the data. */
  lemma {:induction false} SplittingChangesNothing(
      p: PovParams, before: seq<Observation>, time: U64, a: U64, b: U64, after: seq<Observation>)
    requires p.total > 0 && a + b <= U64_MAX
    ensures var whole := TakeAll(p, before + [Observation(time, a + b)] + after);
            var split := TakeAll(p, before + [Observation(time, a), Observation(time, b)] + after);
            split.scheduled == whole.scheduled && split.children == whole.children && SameSchedule(p, split, whole)
  {
    var whole := before + [Observation(time, a + b)] + after;
    var split := before + [Observation(time, a), Observation(time, b)] + after;
    if after == [] {
      assert whole[..|before|] == before;
      assert split[..|before| + 1] == before + [Observation(time, a)];
      assert (before + [Observation(time, a)])[..|before|] == before;
      ScheduledIsAllowed(p, before);
      SplitTake(p, TakeAll(p, before), time, a, b);
    } else {
      var init := after[..|after| - 1];
      SplittingChangesNothing(p, before, time, a, b, init);
      assert whole[..|whole| - 1] == before + [Observation(time, a + b)] + init;
      assert split[..|split| - 1] == before + [Observation(time, a), Observation(time, b)] + init;
      SameAfter(p, TakeAll(p, split[..|split| - 1]), TakeAll(p, whole[..|whole| - 1]), after[|after| - 1]);
    }
  }
}
