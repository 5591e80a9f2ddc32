/** The Almgren-Chriss model from its parameters: validation, urgency, cost, and the whole computation. */
module ShortfallModel {
  import opened Types
  import DivMod
  import opened Schedule
  import opened AlmgrenChriss
  import opened ImplementationShortfall

  const NANOS_PER_SECOND: real := 1_000_000_000.0

  datatype IsParams = IsParams(
    start: U64,
    end: U64,
    total: U64,
    numSlices: nat,
    riskAversion: real,
    volatility: real,
    temporaryImpact: real,
    permanentImpact: real)

  datatype IsReport =
    IsReport(children: seq<Child>, holdings: seq<real>, kappa: real, expectedCost: real, costVariance: real)

  /** The functions of the mathematics library, over the reals. */
  datatype Library = Library(sqrt: real -> real, exp: real -> real, log: real -> real) {
    ghost predicate Sound() {
      && (forall x :: x >= 0.0 ==> IsRootOf(sqrt(x), x))
      && exp(0.0) == 1.0 && (forall a, b :: AddsUp(a, b))
      && (forall x :: x > 0.0 ==> exp(log(x)) == x) && (forall x :: LogUndoes(x))
    }

    ghost predicate AddsUp(a: real, b: real) {
      exp(a + b) == exp(a) * exp(b)
    }

    ghost predicate LogUndoes(x: real) {
      log(exp(x)) == x
    }
  }

  // -------------------------------------------------------------- the model

  /** Slice length in seconds. */
  function Tau(p: IsParams): real
    requires p.numSlices > 0
  {
    (p.end as int - p.start as int) as real / NANOS_PER_SECOND / p.numSlices as real
  }

  /** What the model makes sense for: permanent impact over half a slice must stay below temporary impact. */
  predicate Sensible(p: IsParams) {
    && ValidateWindow(p.start, p.end, p.total, p.numSlices).Ok?
    && p.riskAversion >= 0.0 && p.volatility >= 0.0 && p.permanentImpact >= 0.0
    && p.temporaryImpact > 0.0 && p.temporaryImpact > 0.5 * p.permanentImpact * Tau(p)
  }

  /** The validated model; the window is looked at before the impact parameters. */
  function NewModel(p: IsParams): (r: Result<Model, ScheduleError>)
    ensures r.Ok? ==> r.value.Valid() && ValidateWindow(p.start, p.end, p.total, p.numSlices).Ok?
    ensures r.Err? ==> match ValidateWindow(p.start, p.end, p.total, p.numSlices)
                       case Err(e) => r.error == e
                       case Ok(_) => r.error == InvalidParameter
  {
    match ValidateWindow(p.start, p.end, p.total, p.numSlices)
    case Err(e) => Err(e)
    case Ok(duration) =>
      if p.riskAversion < 0.0 || p.volatility < 0.0 || p.permanentImpact < 0.0 || p.temporaryImpact <= 0.0 then
        Err(InvalidParameter)
      else
        SliceIsPositive(duration as real, p.numSlices as real);
        var tau := duration as real / NANOS_PER_SECOND / p.numSlices as real;
        var etaTilde := p.temporaryImpact - 0.5 * p.permanentImpact * tau;
        if etaTilde <= 0.0 then Err(InvalidParameter)
        else Ok(Model(tau, etaTilde, p.permanentImpact, p.riskAversion, p.volatility))
  }

  /** Exactly the sensible parameters are accepted, and the model's numbers are theirs in its own units. */
  lemma ModelIsSensible(p: IsParams)
    ensures NewModel(p).Ok? <==> Sensible(p)
    ensures NewModel(p).Ok? ==>
      var m := NewModel(p).value;
      && m.tau * p.numSlices as real * NANOS_PER_SECOND == (p.end - p.start) as real
      && m.etaTilde + 0.5 * m.gamma * m.tau == p.temporaryImpact
      && m.gamma == p.permanentImpact && m.lambda == p.riskAversion && m.sigma == p.volatility
  {
    if ValidateWindow(p.start, p.end, p.total, p.numSlices).Ok? {
      SliceIsPositive((p.end - p.start) as real, p.numSlices as real);
    }
  }

  lemma SliceIsPositive(duration: real, n: real)
    requires duration > 0.0 && n > 0.0
    ensures duration / NANOS_PER_SECOND / n > 0.0
    ensures duration / NANOS_PER_SECOND / n * n * NANOS_PER_SECOND == duration
  {
    var seconds := duration / NANOS_PER_SECOND;
    QuotientIsPositive(duration, NANOS_PER_SECOND, seconds);
    QuotientIsPositive(seconds, n, seconds / n);
  }

  lemma QuotientIsPositive(a: real, b: real, q: real)
    requires a > 0.0 && b > 0.0 && q == a / b
    ensures q > 0.0 && q * b == a
  {
    assert q * b == a;
    if q <= 0.0 {
      ProductSign(b, q);
    }
  }

  // ---------------------------------------------------------------- urgency

  /** What the square root is taken of: for large `y` it is factored out first. */
  function UnderRoot(y: real): (x: real)
    requires y >= 0.0
    ensures x >= 0.0
  {
    UnderRootIsNatural(y);
    if y > 1.0 then 1.0 + 2.0 / y else y * (y + 2.0)
  }

  lemma UnderRootIsNatural(y: real)
    requires y >= 0.0
    ensures y > 1.0 ==> 2.0 / y >= 0.0
    ensures y * (y + 2.0) >= 0.0
  {
    if y > 1.0 {
      QuotientIsPositive(2.0, y, 2.0 / y);
    }
    ScaleOrder(y, 0.0, y + 2.0);
  }

  predicate IsRootOf(root: real, square: real) {
    root >= 0.0 && root * root == square
  }

  /** `e^(kappa tau)`, given the square root. */
  function Growth(y: real, root: real): real
    requires y >= 0.0
  {
    1.0 + y + (if y > 1.0 then y * root else root)
  }

  lemma GrowthSolves(y: real, root: real)
    requires y >= 0.0 && IsRootOf(root, UnderRoot(y))
    ensures Growth(y, root) >= 1.0 && Decay(1.0 / Growth(y, root), y)
  {
    var full := if y > 1.0 then y * root else root;
    if y > 1.0 {
      FactoredRoot(y, root);
      ScaleOrder(y, 0.0, root);
    }
    KappaSolvesTheModel(y, full);
  }

  /** `y`, with `cosh(kappa tau) == 1 + y`. */
  function Urgency(p: IsParams): (y: real)
    ensures y >= 0.0
    ensures NewModel(p).Ok? ==> y == NewModel(p).value.Y()
  {
    if NewModel(p).Err? then 0.0
    else
      YIsNonNegative(NewModel(p).value);
      NewModel(p).value.Y()
  }

  /** The square root taken of the model's urgency. */
  function RootOf(lib: Library, p: IsParams): real {
    lib.sqrt(UnderRoot(Urgency(p)))
  }

  lemma RootIsRoot(lib: Library, x: real)
    requires lib.Sound() && x >= 0.0
    ensures IsRootOf(lib.sqrt(x), x)
  {
  }

  /** `kappa`, from `kappa * tau == ln(1 + y + root)`. */
  function Kappa(lib: Library, p: IsParams): real
    requires NewModel(p).Ok?
  {
    lib.log(Growth(Urgency(p), RootOf(lib, p))) / NewModel(p).value.tau
  }

  /** The factor by which holdings decay per slice, for parameters the model accepts. */
  function DecayOf(lib: Library, p: IsParams): (z: Option<DecayFactor>)
    requires lib.Sound()
    ensures z.Some? <==> NewModel(p).Ok?
    ensures z.Some? ==> Decay(z.value, NewModel(p).value.Y())
  {
    if NewModel(p).Err? then None
    else
      RootIsRoot(lib, UnderRoot(Urgency(p)));
      GrowthSolves(Urgency(p), RootOf(lib, p));
      Some(1.0 / Growth(Urgency(p), RootOf(lib, p)))
  }

  // ------------------------------------------------------------------- cost

  /** Expected cost and variance, summed in one pass over the holdings. */
  method Cost(model: Model, holdings: seq<real>) returns (expected: real, variance: real)
    requires model.Valid() && holdings != []
    ensures expected == model.Expected(holdings) && variance == model.Variance(holdings)
  {
    var trades, held := 0.0, 0.0;
    for k := 0 to |holdings| - 1
      invariant trades == AlmgrenChriss.Sum(SquaredTrades(holdings), k)
      invariant held == AlmgrenChriss.Sum(SquaredHoldings(holdings, model.sigma), k)
    {
      TermsAt(holdings, 0.0, model.sigma, k);
      trades := trades + Square(holdings[k] - holdings[k + 1]);
      held := held + Square(model.sigma * holdings[k + 1]);
    }
    expected := 0.5 * model.gamma * holdings[0] * holdings[0] + model.etaTilde / model.tau * trades;
    variance := model.tau * held;
  }

  /** The cost of any trajectory of the order: as many holdings as boundaries, from the whole order to nothing. */
  function CostOf(p: IsParams, holdings: seq<real>): Result<(real, real), ScheduleError> {
    match NewModel(p)
    case Err(e) => Err(e)
    case Ok(model) =>
      if |holdings| != p.numSlices + 1 || holdings[0] != p.total as real || holdings[p.numSlices] != 0.0 then
        Err(InvalidParameter)
      else Ok((model.Expected(holdings), model.Variance(holdings)))
  }

  /** Expected cost plus weighted variance: what the schedule minimizes. */
  function Burden(p: IsParams, cost: (real, real)): real {
    cost.0 + p.riskAversion * cost.1
  }

  // ------------------------------------------- the formula for the holdings

  lemma ExpAdds(lib: Library, a: real, b: real, sum: real)
    requires lib.Sound() && sum == a + b
    ensures lib.exp(sum) == lib.exp(a) * lib.exp(b)
  {
    assert lib.AddsUp(a, b);
  }

  lemma {:induction false} ExpPower(lib: Library, x: real, k: nat, kx: real, z: real)
    requires lib.Sound() && kx == k as real * x && z == lib.exp(x)
    ensures lib.exp(kx) == Pow(z, k)
  {
    if k == 0 {
      assert kx == 0.0;
    } else {
      OneLess(k as real, (k - 1) as real, x, kx);
      ExpPower(lib, x, k - 1, kx - x, z);
      ExpAdds(lib, x, kx - x, kx);
    }
  }

  lemma OneLess(k: real, less: real, x: real, kx: real)
    requires less == k - 1.0 && kx == k * x
    ensures kx - x == less * x
  {
  }

  lemma Exponents(kappa: real, tau: real, n: real, j: real, x: real, t: real, horizon: real)
    requires x == -(kappa * tau) && t == tau * j && horizon == tau * n
    ensures -kappa * t == j * x
    ensures -2.0 * kappa * horizon == (2.0 * n) * x
    ensures -2.0 * kappa * (horizon - t) == (2.0 * (n - j)) * x
  {
  }

  lemma LinearShare(tau: real, n: real, j: real, left: real, t: real, horizon: real)
    requires tau > 0.0 && n > 0.0 && left == n - j && t == tau * j && horizon == tau * n
    ensures horizon > 0.0 && (horizon - t) / horizon == left / n
  {
    PositiveProduct(tau, n, horizon);
    ShareScales(tau, n, left, horizon - t, horizon, left / n);
  }

  lemma ShareScales(tau: real, n: real, left: real, rest: real, horizon: real, q: real)
    requires n > 0.0 && horizon > 0.0 && horizon == tau * n && rest == tau * left && q == left / n
    ensures rest / horizon == q
  {
    assert q * n == left;
    assert q * (tau * n) == tau * (q * n);
    DivMod.RatioIs(rest, horizon, q);
  }

  /** At a slice boundary the exponentials of the formula are powers of the decay factor. */
  lemma ExponentialsArePowers(lib: Library, kappa: real, tau: real, n: nat, j: nat, x: real, z: real, t: real,
                              horizon: real)
    requires lib.Sound() && 0 < n && j <= n
    requires x == -(kappa * tau) && z == lib.exp(x) && t == tau * j as real && horizon == tau * n as real
    ensures lib.exp(-kappa * t) == Pow(z, j)
    ensures lib.exp(-2.0 * kappa * horizon) == Pow(z, 2 * n)
    ensures lib.exp(-2.0 * kappa * (horizon - t)) == Pow(z, 2 * (n - j))
  {
    Exponents(kappa, tau, n as real, j as real, x, t, horizon);
    ExpPower(lib, x, j, -kappa * t, z);
    ExpPower(lib, x, 2 * n, -2.0 * kappa * horizon, z);
    ExpPower(lib, x, 2 * (n - j), -2.0 * kappa * (horizon - t), z);
  }

  lemma RemainingIsShare(z: real, n: nat, j: nat, falling: real, whole: real, left: real, linear: real)
    requires 0 < n && j <= n && falling == Pow(z, j) && whole == Pow(z, 2 * n) && left == Pow(z, 2 * (n - j))
    requires linear == (n - j) as real / n as real
    ensures ShareFrom(falling, whole, left, linear) == RemainingFraction(z, n, j)
  {
  }

  /** Share of the order still held at time `t` of `horizon`: at a boundary, the power form of the decay factor. */
  method RemainingAt(lib: Library, kappa: real, t: real, horizon: real,
                     ghost tau: real, ghost n: nat, ghost j: nat, ghost x: real, ghost z: real) returns (share: real)
    requires lib.Sound() && tau > 0.0 && 0 < n && j <= n
    requires x == -(kappa * tau) && z == lib.exp(x) && t == tau * j as real && horizon == tau * n as real
    ensures share == RemainingFraction(z, n, j)
  {
    LinearShare(tau, n as real, j as real, (n - j) as real, t, horizon);
    ExponentialsArePowers(lib, kappa, tau, n, j, x, z, t, horizon);
    var whole, left, falling := lib.exp(-2.0 * kappa * horizon), lib.exp(-2.0 * kappa * (horizon - t)),
      lib.exp(-kappa * t);
    var linear := (horizon - t) / horizon;
    RemainingIsShare(z, n, j, falling, whole, left, linear);
    share := ShareFrom(falling, whole, left, linear);
  }

  /** `kappa` and the slice length of a model, and the exponential they make: `e^(-kappa tau)`, the decay factor. */
  lemma KappaDecays(lib: Library, p: IsParams) returns (kappa: real, tau: real, x: real, z: real)
    requires lib.Sound() && NewModel(p).Ok?
    ensures kappa == Kappa(lib, p) && tau == NewModel(p).value.tau > 0.0 && DecayOf(lib, p) == Some(z)
    ensures x == -(kappa * tau) && lib.exp(x) == z && (kappa == 0.0 <==> z == 1.0)
  {
    var y, root := Urgency(p), RootOf(lib, p);
    RootIsRoot(lib, UnderRoot(y));
    GrowthSolves(y, root);
    tau, kappa, z := NewModel(p).value.tau, Kappa(lib, p), 1.0 / Growth(y, root);
    x := LogOfGrowth(lib, Growth(y, root), tau, kappa, z);
  }

  lemma LogOfGrowth(lib: Library, grown: real, tau: real, kappa: real, z: real) returns (x: real)
    requires lib.Sound() && grown >= 1.0 && tau > 0.0 && kappa == lib.log(grown) / tau && z == 1.0 / grown
    ensures x == -(kappa * tau) && lib.exp(x) == z && (kappa == 0.0 <==> z == 1.0)
  {
    var l := lib.log(grown);
    x := -l;
    assert kappa * tau == l;
    ExpAdds(lib, l, x, 0.0);
    SameFactor(grown, lib.exp(x), z);
    assert lib.LogUndoes(0.0);
    if kappa == 0.0 {
      assert l == 0.0;
    }
    if z == 1.0 {
      assert grown == 1.0;
      ZeroQuotient(l, tau, kappa);
    }
  }

  lemma ZeroQuotient(a: real, b: real, q: real)
    requires a == 0.0 && b > 0.0 && q == a / b
    ensures q == 0.0
  {
  }

  lemma SameFactor(a: real, b: real, c: real)
    requires a >= 1.0 && a * b == 1.0 && a * c == 1.0
    ensures b == c
  {
    assert a * (b - c) == 0.0;
    if b - c > 0.0 {
      PositiveProduct(a, b - c, a * (b - c));
    } else if b - c < 0.0 {
      PositiveProduct(a, c - b, a * (c - b));
    }
  }

  // ------------------------------------------------------- the computation

  /** The holdings, boundary by boundary. */
  method Trajectory(lib: Library, total: real, n: nat, kappa: real, tau: real, ghost x: real, ghost z: real)
    returns (holdings: seq<real>)
    requires lib.Sound() && n > 0 && tau > 0.0 && x == -(kappa * tau) && z == lib.exp(x) && 0.0 < z <= 1.0
    ensures holdings == Holdings(total, n, z)
  {
    var horizon := tau * n as real;
    HeldEnds(total, n, z);
    holdings := [total];
    for j := 1 to n
      invariant |holdings| == j && forall i :: 0 <= i < j ==> holdings[i] == Held(total, n, z, i)
    {
      var t := tau * j as real;
      var share := RemainingAt(lib, kappa, t, horizon, tau, n, j, x, z);
      holdings := holdings + [total * share];
    }
    holdings := holdings + [0.0];
  }

  /** The whole computation. */
  method Compute(lib: Library, p: IsParams) returns (r: Result<IsReport, ScheduleError>)
    requires lib.Sound()
    ensures r.Err? ==> NewModel(p) == Err(r.error)
    ensures r.Ok? ==>
      && NewModel(p).Ok? && p.numSlices > 0 && r.value.kappa == Kappa(lib, p)
      && r.value.holdings == Holdings(p.total as real, p.numSlices, DecayOf(lib, p).value)
      && CostOf(p, r.value.holdings) == Ok((r.value.expectedCost, r.value.costVariance))
    ensures match r
      case Ok(report) => IsSchedule(p.start, p.end, p.total, p.numSlices, DecayOf(lib, p)) == Ok(report.children)
      case Err(e) => IsSchedule(p.start, p.end, p.total, p.numSlices, DecayOf(lib, p)) == Err(e)
  {
    var model := NewModel(p);
    if model.Err? {
      return Err(model.error);
    }
    var n, kappa := p.numSlices, Kappa(lib, p);
    ghost var k, tau, x, z := KappaDecays(lib, p);
    var holdings := Trajectory(lib, p.total as real, n, kappa, model.value.tau, x, z);
    var report := Report(p, model.value, kappa, holdings, z);
    r := Ok(report);
  }

  /** The holdings rounded into children, and what they cost. */
  method Report(p: IsParams, model: Model, kappa: real, holdings: seq<real>, ghost z: DecayFactor) returns (r: IsReport)
    requires NewModel(p) == Ok(model) && (kappa == 0.0 <==> z == 1.0)
    requires p.numSlices > 0 && holdings == Holdings(p.total as real, p.numSlices, z)
    ensures r.holdings == holdings && r.kappa == kappa && CostOf(p, holdings) == Ok((r.expectedCost, r.costVariance))
    ensures IsSchedule(p.start, p.end, p.total, p.numSlices, Some(z)) == Ok(r.children)
  {
    var n := p.numSlices;
    var quantities := RoundHoldings(p.total, n, kappa == 0.0, holdings, z);
    IsCompletes(p.total, n, z);
    var children := Assemble(SliceStarts(p.start, p.end - p.start, n), quantities);
    TrajectoryIsAccepted(p, z);
    var expected, variance := Cost(model, holdings);
    r := IsReport(children, holdings, kappa, expected, variance);
  }

  lemma TrajectoryIsAccepted(p: IsParams, z: DecayFactor)
    requires NewModel(p).Ok?
    ensures CostOf(p, Holdings(p.total as real, p.numSlices, z)).Ok?
  {
    HeldEnds(p.total as real, p.numSlices, z);
  }

  /** Neither trajectory is refused, and `x` is cheaper than any other. */
  ghost predicate Cheapest(p: IsParams, x: seq<real>, other: seq<real>) {
    && CostOf(p, x).Ok? && CostOf(p, other).Ok?
    && Burden(p, CostOf(p, x).value) <= Burden(p, CostOf(p, other).value)
    && (Burden(p, CostOf(p, x).value) == Burden(p, CostOf(p, other).value) ==> other == x)
  }

  lemma BalancedIsCheapest(p: IsParams, model: Model, z: DecayFactor, other: seq<real>)
    requires NewModel(p) == Ok(model) && Decay(z, model.Y()) && CostOf(p, other).Ok?
    ensures Cheapest(p, Holdings(p.total as real, p.numSlices, z), other)
  {
    TrajectoryIsAccepted(p, z);
    HoldingsAreOptimal(model, p.total as real, p.numSlices, z, other);
    BurdenIsObjective(p, model, Holdings(p.total as real, p.numSlices, z));
    BurdenIsObjective(p, model, other);
  }

  lemma BurdenIsObjective(p: IsParams, model: Model, holdings: seq<real>)
    requires NewModel(p) == Ok(model) && CostOf(p, holdings).Ok?
    ensures Burden(p, CostOf(p, holdings).value) == model.Objective(holdings)
  {
  }

  /**
   * No trajectory the cost function accepts has a lower expected cost plus risk than the computed one, and
   * only the computed one has as low.
   */
  lemma NoTrajectoryIsCheaper(lib: Library, p: IsParams, other: seq<real>)
    requires lib.Sound() && NewModel(p).Ok? && CostOf(p, other).Ok?
    ensures Cheapest(p, Holdings(p.total as real, p.numSlices, DecayOf(lib, p).value), other)
  {
    BalancedIsCheapest(p, NewModel(p).value, DecayOf(lib, p).value, other);
  }
}
