/** The Almgren-Chriss schedule: optimal holdings rounded into child orders. */
module ImplementationShortfall {
  import opened Types
  import opened DivMod
  import opened Schedule
  import opened Cumulative
  import opened AlmgrenChriss
  import Twap

  /** Share of the order traded by the end of each slice. */
  function TradedCurve(n: nat, z: real): (curve: seq<real>)
    requires n > 0
    ensures |curve| == n && forall k :: 0 <= k < n ==> curve[k] == 1.0 - RemainingFraction(z, n, k + 1)
  {
    seq(n, k requires 0 <= k < n => 1.0 - RemainingFraction(z, n, k + 1))
  }

  /** Slice quantities: exactly the even split when there is no urgency, the rounded optimum otherwise. */
  function IsQuantities(total: nat, n: nat, z: real): seq<nat>
    requires n > 0
  {
    if z == 1.0 then Twap.Quantities(total, n) else Cumulative.Quantities(total, Ideals(total, TradedCurve(n, z)), 0)
  }

  lemma CurveRises(n: nat, z: real)
    requires n > 0 && 0.0 < z <= 1.0
    ensures RisingCurve(TradedCurve(n, z))
  {
    var curve := TradedCurve(n, z);
    forall k | 0 <= k < n ensures 0.0 <= curve[k] <= 1.0 {
      FractionFallsTo(z, n, k + 1, k + 1);
    }
    forall j, k | 0 <= j < k < n ensures curve[j] <= curve[k] {
      FractionFallsTo(z, n, j + 1, k + 1);
    }
  }

  lemma IsCompletes(total: nat, n: nat, z: real)
    requires n > 0
    ensures |IsQuantities(total, n, z)| == n && Schedule.Sum(IsQuantities(total, n, z)) == total
  {
    var quantities := IsQuantities(total, n, z);
    if z == 1.0 {
      Twap.PrefixSums(total, n, n);
      Twap.PrefixWithinHalf(total, n, n);
      assert quantities[..n] == quantities;
    } else {
      CompletesTheOrder(total, Ideals(total, TradedCurve(n, z)), 0);
      SumBothWays(quantities);
    }
  }

  /** Every prefix of the children is within half a unit of the optimal trajectory, with urgency or without. */
  lemma ChildrenFollowOptimum(total: nat, n: nat, z: real, k: nat)
    requires 0.0 < z <= 1.0 && k + 1 < n
    ensures |IsQuantities(total, n, z)| == n
    ensures WithinHalf(SumFront(IsQuantities(total, n, z)[..k + 1]), total, 1.0 - RemainingFraction(z, n, k + 1))
  {
    if z == 1.0 {
      EvenSplitFollows(total, n, k);
    } else {
      CurveRises(n, z);
      FollowsTheCurve(total, TradedCurve(n, z), k);
    }
  }

  lemma EvenSplitFollows(total: nat, n: nat, k: nat)
    requires k + 1 < n
    ensures WithinHalf(SumFront(Twap.Quantities(total, n)[..k + 1]), total, 1.0 - RemainingFraction(1.0, n, k + 1))
  {
    Twap.PrefixSums(total, n, k + 1);
    Twap.PrefixWithinHalf(total, n, k + 1);
    SumBothWays(Twap.Quantities(total, n)[..k + 1]);
    PowBounds(1.0, 2 * n);
    var t, m := Twap.Target(total, n, k + 1), k + 1;
    HalfOfScaled(t, total, n, m, t * n, total * m);
  }

  lemma HalfOfScaled(t: int, total: nat, n: nat, m: nat, tn: int, totalM: int)
    requires 0 < n && m <= n && tn == t * n && totalM == total * m && -(n as int) <= 2 * totalM - 2 * tn < n
    ensures WithinHalf(t, total, 1.0 - (n - m) as real / n as real)
  {
    var done := 1.0 - (n - m) as real / n as real;
    ShareDone(n as real, m as real, (n - m) as real, done);
    ScaledShare(total as real, done, n as real, m as real);
    ProductAsReal(total, m, totalM);
    ProductAsReal(t, n, tn);
    OffByHalf(t as real - total as real * done, n as real, tn as real, totalM as real, t as real, total as real * done);
  }

  lemma ShareDone(w: real, m: real, left: real, done: real)
    requires w > 0.0 && left == w - m && done == 1.0 - left / w
    ensures done * w == m
  {
    assert (left / w) * w == left;
  }

  lemma ProductAsReal(a: int, b: int, ab: int)
    requires ab == a * b
    ensures ab as real == a as real * b as real
  {
  }

  lemma ScaledShare(total: real, share: real, w: real, m: real)
    requires share * w == m
    ensures (total * share) * w == total * m
  {
  }

  lemma OffByHalf(off: real, w: real, tw: real, sw: real, t: real, s: real)
    requires w > 0.0 && off == t - s && tw == t * w && sw == s * w && -w <= 2.0 * sw - 2.0 * tw < w
    ensures -0.5 < off <= 0.5
  {
    assert off * w == tw - sw;
    if off > 0.5 {
      RealMulStrict(0.5, off, w);
    } else if off < -0.5 {
      RealMulStrict(off, -0.5, w);
    }
  }

  method ComputeHoldings(total: real, n: nat, z: real) returns (holdings: seq<real>)
    requires n > 0 && 0.0 < z <= 1.0
    ensures holdings == Holdings(total, n, z)
  {
    HeldEnds(total, n, z);
    holdings := [total];
    for j := 1 to n
      invariant |holdings| == j && forall i :: 0 <= i < j ==> holdings[i] == Held(total, n, z, i)
    {
      holdings := holdings + [total * RemainingFraction(z, n, j)];
    }
    holdings := holdings + [0.0];
  }

  /** The factor `e^(-kappa tau)` by which the holdings decay per slice; 1 without urgency. */
  type DecayFactor = z: real | 0.0 < z <= 1.0 witness 1.0

  /** `z` is absent when the model refuses its parameters, which it looks at after the window. */
  function IsSchedule(start: U64, end: U64, total: U64, n: nat,
                      z: Option<DecayFactor>): Result<seq<Child>, ScheduleError> {
    match ValidateWindow(start, end, total, n)
    case Err(e) => Err(e)
    case Ok(duration) =>
      if z.None? then Err(InvalidParameter)
      else
        IsCompletes(total, n, z.value);
        Ok(Assemble(SliceStarts(start, duration, n), IsQuantities(total, n, z.value)))
  }

  lemma IsIsGood(start: U64, end: U64, total: U64, n: nat, z: Option<DecayFactor>)
    requires IsSchedule(start, end, total, n, z).Ok?
    ensures GoodSchedule(IsSchedule(start, end, total, n, z).value, total, start, end)
  {
    IsCompletes(total, n, z.value);
    WholeScheduleIsGood(start, end - start, n, IsQuantities(total, n, z.value));
  }

  method ComputeSchedule(start: U64, end: U64, total: U64, n: nat, z: Option<DecayFactor>)
    returns (r: Result<(seq<Child>, seq<real>), ScheduleError>)
    ensures r.Ok? ==> z.Some? && n > 0 && r.value.1 == Holdings(total as real, n, z.value)
    ensures match r
      case Ok((children, _)) => IsSchedule(start, end, total, n, z) == Ok(children)
      case Err(e) => IsSchedule(start, end, total, n, z) == Err(e)
  {
    var window := ValidateWindow(start, end, total, n);
    if window.Err? {
      return Err(window.error);
    }
    if z.None? {
      return Err(InvalidParameter);
    }
    var holdings := ComputeHoldings(total as real, n, z.value);
    var quantities := RoundHoldings(total, n, z.value == 1.0, holdings, z.value);
    IsCompletes(total, n, z.value);
    r := Ok((Assemble(SliceStarts(start, window.value, n), quantities), holdings));
  }

  /** Without urgency the even split exactly; otherwise the holdings, rounded. */
  method RoundHoldings(total: U64, n: nat, linear: bool, holdings: seq<real>, ghost z: real)
    returns (quantities: seq<nat>)
    requires total > 0 && 0 < n <= MAX_SLICES && holdings == Holdings(total as real, n, z) && (linear <==> z == 1.0)
    ensures quantities == IsQuantities(total, n, z)
  {
    if linear {
      var even := Twap.RunQuantities(total, n);
      quantities := even;
    } else {
      var curve := TradedShares(total as real, n, holdings, z);
      quantities := Cumulative.RunQuantities(total, curve);
    }
  }

  /** `1 - x_k / X` at each slice end. */
  method TradedShares(total: real, n: nat, holdings: seq<real>, ghost z: real) returns (curve: seq<real>)
    requires total > 0.0 && n > 0 && holdings == Holdings(total, n, z)
    ensures curve == TradedCurve(n, z)
  {
    curve := [];
    for k := 1 to n + 1
      invariant |curve| == k - 1 && forall i :: 0 <= i < k - 1 ==> curve[i] == TradedCurve(n, z)[i]
    {
      RatioIs(holdings[k], total, RemainingFraction(z, n, k));
      curve := curve + [1.0 - holdings[k] / total];
    }
  }
}
