/**
 * The Almgren-Chriss trajectory over the reals. `z` stands for `exp(-kappa * tau)`, the factor by
 * which holdings decay over one slice; `z == 1` is the risk-neutral, linear case.
 */
module AlmgrenChriss {
  import opened DivMod

  function Pow(z: real, k: nat): real {
    if k == 0 then 1.0 else z * Pow(z, k - 1)
  }

  function Square(x: real): real {
    x * x
  }

  /** Validated model parameters, in the source's units. */
  datatype Model = Model(tau: real, etaTilde: real, gamma: real, lambda: real, sigma: real) {
    predicate Valid() {
      tau > 0.0 && etaTilde > 0.0 && gamma >= 0.0 && lambda >= 0.0 && sigma >= 0.0
    }

    /** `y` with `cosh(kappa * tau) == 1 + y`. */
    function Y(): real
      requires Valid()
    {
      0.5 * (lambda * sigma * sigma / etaTilde) * tau * tau
    }

    /** Expected cost of a trajectory. */
    function Expected(holdings: seq<real>): real
      requires Valid() && holdings != []
    {
      0.5 * gamma * holdings[0] * holdings[0] + etaTilde / tau * Sum(SquaredTrades(holdings), |holdings| - 1)
    }

    /** Variance of its cost. */
    function Variance(holdings: seq<real>): real
      requires Valid() && holdings != []
    {
      tau * Sum(SquaredHoldings(holdings, sigma), |holdings| - 1)
    }

    function Objective(holdings: seq<real>): real
      requires Valid() && holdings != []
    {
      Expected(holdings) + lambda * Variance(holdings)
    }
  }

  /** Sum of the first `m` terms. */
  function Sum(terms: seq<real>, m: nat): real
    requires m <= |terms|
  {
    if m == 0 then 0.0 else Sum(terms, m - 1) + terms[m - 1]
  }

  /** Each slice's trade, squared. */
  function SquaredTrades(v: seq<real>): (terms: seq<real>)
    requires v != []
    ensures |terms| == |v| - 1
  {
    if |v| == 1 then [] else SquaredTrades(v[..|v| - 1]) + [Square(v[|v| - 2] - v[|v| - 1])]
  }

  /** What is held after each slice, scaled and squared. */
  function SquaredHoldings(v: seq<real>, sigma: real): (terms: seq<real>)
    requires v != []
    ensures |terms| == |v| - 1
  {
    if |v| == 1 then [] else SquaredHoldings(v[..|v| - 1], sigma) + [Square(sigma * v[|v| - 1])]
  }

  // -------------------------------------------------------- the decay factor

  /** `z + 1/z == 2 + 2y` in the unit interval: what `kappa` is chosen for. */
  predicate Decay(z: real, y: real) {
    0.0 < z <= 1.0 && z * z + 1.0 == (2.0 + 2.0 * y) * z
  }

  lemma ProductSign(a: real, b: real)
    requires a >= 0.0 && b <= 0.0
    ensures a * b <= 0.0
  {
  }

  lemma PositiveInverse(w: real, z: real)
    requires w >= 1.0 && w * z == 1.0
    ensures 0.0 < z <= 1.0 && (z == 1.0 <==> w == 1.0)
  {
    if z <= 0.0 {
      ProductSign(w, z);
    } else if w > 1.0 {
      RealMulStrict(1.0, w, z);
    }
  }

  lemma ConjugateRoots(y: real, root: real)
    requires root * root == y * (y + 2.0)
    ensures (1.0 + y + root) * (1.0 + y - root) == 1.0
  {
    assert (1.0 + y + root) * (1.0 + y - root) == (1.0 + y) * (1.0 + y) - root * root;
    assert (1.0 + y) * (1.0 + y) == 1.0 + y * (y + 2.0);
  }

  /** Two numbers with product 1 and a given sum both solve the equation. */
  lemma RootsSum(w: real, z: real, sum: real)
    requires w * z == 1.0 && w + z == sum
    ensures z * z + 1.0 == sum * z
  {
    assert sum * z == (w + z) * z;
    assert (w + z) * z == w * z + z * z;
  }

  lemma ZeroRoot(root: real, square: real)
    requires root >= 0.0 && root * root == square && square == 0.0
    ensures root == 0.0
  {
    if root > 0.0 {
      PositiveProduct(root, root, square);
    }
  }

  lemma InverseIs(w: real, z: real)
    requires w * z == 1.0
    ensures w != 0.0 && 1.0 / w == z
  {
    assert w != 0.0;
    RatioIs(1.0, w, z);
  }

  lemma RootsDecay(y: real, root: real, w: real, z: real)
    requires y >= 0.0 && root >= 0.0 && w == 1.0 + y + root && z == 1.0 + y - root && w * z == 1.0
    ensures Decay(z, y) && (z == 1.0 <==> w == 1.0)
  {
    PositiveInverse(w, z);
    RootsSum(w, z, 2.0 + 2.0 * y);
  }

  /** The source's formula: with `root` the square root of `y * (y + 2)`, `exp(kappa * tau) == 1 + y + root`. */
  lemma KappaSolvesTheModel(y: real, root: real)
    requires y >= 0.0 && root >= 0.0 && root * root == y * (y + 2.0)
    ensures Decay(1.0 / (1.0 + y + root), y)
    ensures 1.0 / (1.0 + y + root) == 1.0 <==> y == 0.0
  {
    var w, z := 1.0 + y + root, 1.0 + y - root;
    ConjugateRoots(y, root);
    RootsDecay(y, root, w, z);
    InverseIs(w, z);
    if y == 0.0 {
      ZeroRoot(root, y * (y + 2.0));
    }
  }

  /** The form used for large `y`, which factors `y` out of the root, is the same root. */
  lemma FactoredRoot(y: real, s: real)
    requires y > 0.0 && s >= 0.0 && s * s == 1.0 + 2.0 / y
    ensures (y * s) * (y * s) == y * (y + 2.0)
  {
    assert (y * s) * (y * s) == y * y * (s * s);
    assert y * (2.0 / y) == 2.0;
    assert y * y * (1.0 + 2.0 / y) == y * y + y * (y * (2.0 / y));
  }

  // ------------------------------------------------------------- trajectory

  /** One holding and its neighbours satisfy the recurrence. */
  predicate BalancedAround(before: real, here: real, after: real, c: real) {
    before + after == (2.0 + c) * here
  }

  function Ratio(a: real, b: real): real
    requires b != 0.0
  {
    a / b
  }

  /** The share still held, from what is left of `e^(-kappa t)`; `linear` is what it tends to without urgency. */
  function ShareFrom(falling: real, whole: real, left: real, linear: real): real {
    if whole - 1.0 == 0.0 then linear else Ratio(falling * (left - 1.0), whole - 1.0)
  }

  /** Share of the order still held at boundary `j`, in the overflow-free form of the source. */
  function RemainingFraction(z: real, n: nat, j: nat): real
    requires 0 < n && j <= n
  {
    ShareFrom(Pow(z, j), Pow(z, 2 * n), Pow(z, 2 * (n - j)), (n - j) as real / n as real)
  }

  function Held(total: real, n: nat, z: real, j: nat): real
    requires 0 < n && j <= n
  {
    total * RemainingFraction(z, n, j)
  }

  function Holdings(total: real, n: nat, z: real): (holdings: seq<real>)
    requires n > 0
    ensures |holdings| == n + 1 && forall j :: 0 <= j <= n ==> holdings[j] == Held(total, n, z, j)
  {
    seq(n + 1, j requires 0 <= j < n + 1 => Held(total, n, z, j))
  }

  lemma {:induction false} PowAdd(z: real, a: nat, b: nat)
    ensures Pow(z, a + b) == Pow(z, a) * Pow(z, b)
  {
    if a > 0 {
      PowAdd(z, a - 1, b);
    }
  }

  lemma {:induction false} PowBounds(z: real, k: nat)
    requires 0.0 < z <= 1.0
    ensures 0.0 < Pow(z, k) <= 1.0
    ensures z < 1.0 && k > 0 ==> Pow(z, k) <= z
    ensures z == 1.0 ==> Pow(z, k) == 1.0
    ensures Pow(z, k + 1) <= Pow(z, k)
  {
    if k > 0 {
      PowBounds(z, k - 1);
    }
  }

  /** `z^j - z^(2n - j)`: the numerator of the trajectory, without the division. */
  function Shape(z: real, n: nat, j: nat): real
    requires j <= n
  {
    Pow(z, j) - Pow(z, 2 * n - j)
  }

  lemma FractionIsShape(z: real, n: nat, j: nat)
    requires 0.0 < z < 1.0 && 0 < n && j <= n
    ensures Shape(z, n, 0) > 0.0
    ensures RemainingFraction(z, n, j) == Ratio(Shape(z, n, j), Shape(z, n, 0))
  {
    PowBounds(z, 2 * n);
    PowAdd(z, j, 2 * (n - j));
    assert j + 2 * (n - j) == 2 * n - j;
    NegatedShape(Pow(z, j), Pow(z, 2 * (n - j)), Pow(z, 2 * n - j));
    NegatedRatio(Shape(z, n, j), Shape(z, n, 0));
    var numerator, denominator := Pow(z, j) * (Pow(z, 2 * (n - j)) - 1.0), Pow(z, 2 * n) - 1.0;
    assert numerator == -Shape(z, n, j) && denominator == -Shape(z, n, 0);
    assert RemainingFraction(z, n, j) == Ratio(numerator, denominator);
  }

  lemma NegatedShape(a: real, b: real, ab: real)
    requires ab == a * b
    ensures a * (b - 1.0) == -(a - ab)
  {
  }

  lemma NegatedRatio(a: real, b: real)
    requires b != 0.0
    ensures Ratio(-a, -b) == Ratio(a, b)
  {
    RatioIs(-a, -b, a / b);
  }

  lemma ShapeRecurrence(z: real, y: real, n: nat, j: nat)
    requires Decay(z, y) && 0 < j < n
    ensures BalancedAround(Shape(z, n, j - 1), Shape(z, n, j), Shape(z, n, j + 1), 2.0 * y)
  {
    PowStep(z, y, j - 1);
    PowStep(z, y, 2 * n - j - 1);
  }

  /** Three powers in a row satisfy the recurrence. */
  lemma PowStep(z: real, y: real, k: nat)
    requires Decay(z, y)
    ensures Pow(z, k) + Pow(z, k + 2) == (2.0 + 2.0 * y) * Pow(z, k + 1)
  {
    var p := Pow(z, k);
    assert Pow(z, k + 1) == z * p && Pow(z, k + 2) == z * (z * p);
    assert p + z * (z * p) == (z * z + 1.0) * p;
    assert (2.0 + 2.0 * y) * (z * p) == ((2.0 + 2.0 * y) * z) * p;
  }

  /** Both the decaying and the linear trajectory start full, end empty and never rise. */
  lemma FractionFalls(z: real, n: nat, j: nat)
    requires 0.0 < z <= 1.0 && 0 < n && j < n
    ensures 0.0 <= RemainingFraction(z, n, j + 1) <= RemainingFraction(z, n, j) <= 1.0
    ensures RemainingFraction(z, n, 0) == 1.0 && RemainingFraction(z, n, n) == 0.0
  {
    PowBounds(z, 2 * n);
    if z == 1.0 {
      LinearFalls(n, j);
    } else {
      FractionIsShape(z, n, j);
      FractionIsShape(z, n, j + 1);
      FractionIsShape(z, n, 0);
      FractionIsShape(z, n, n);
      ShapeFalls(z, n, j);
      ShapeFromStart(z, n, j);
      var top := Shape(z, n, 0);
      RatioMono(Shape(z, n, j + 1), Shape(z, n, j), top);
      RatioMono(Shape(z, n, j), top, top);
      RatioIs(top, top, 1.0);
    }
  }

  lemma LinearFalls(n: nat, j: nat)
    requires 0 < n && j < n
    ensures 0.0 <= (n - j - 1) as real / n as real <= (n - j) as real / n as real <= 1.0
    ensures n as real / n as real == 1.0 && 0.0 / n as real == 0.0
  {
    RatioMono((n - j - 1) as real, (n - j) as real, n as real);
    RatioMono((n - j) as real, n as real, n as real);
    RatioIs(n as real, n as real, 1.0);
  }

  lemma ShapeFalls(z: real, n: nat, j: nat)
    requires 0.0 < z <= 1.0 && j < n
    ensures 0.0 <= Shape(z, n, j + 1) <= Shape(z, n, j)
  {
    PowBounds(z, j);
    PowBounds(z, 2 * n - j - 1);
    PowFalls(z, j + 1, 2 * n - j - 1);
  }

  lemma {:induction false} PowFalls(z: real, a: nat, b: nat)
    requires 0.0 < z <= 1.0 && a <= b
    ensures Pow(z, b) <= Pow(z, a)
  {
    if a < b {
      PowFalls(z, a, b - 1);
      PowBounds(z, b - 1);
    }
  }

  lemma {:induction false} ShapeFromStart(z: real, n: nat, j: nat)
    requires 0.0 < z <= 1.0 && j <= n
    ensures Shape(z, n, j) <= Shape(z, n, 0)
  {
    if j > 0 {
      ShapeFalls(z, n, j - 1);
      ShapeFromStart(z, n, j - 1);
    }
  }

  /** Each interior holding balances its neighbours: the optimality condition of the model. */
  lemma FractionRecurrence(z: real, y: real, n: nat, j: nat)
    requires Decay(z, y) && 0 < j < n
    ensures BalancedAround(RemainingFraction(z, n, j - 1), RemainingFraction(z, n, j), RemainingFraction(z, n, j + 1),
                           2.0 * y)
  {
    if z == 1.0 {
      PowBounds(z, 2 * n);
      assert y == 0.0;
      LinearRecurrence(n, j);
    } else {
      FractionIsShape(z, n, j - 1);
      FractionIsShape(z, n, j);
      FractionIsShape(z, n, j + 1);
      ShapeRecurrence(z, y, n, j);
      RatioRecurrence(Shape(z, n, j - 1), Shape(z, n, j), Shape(z, n, j + 1), Shape(z, n, 0), 2.0 * y);
    }
  }

  lemma RatioRecurrence(a: real, s: real, b: real, top: real, c: real)
    requires top != 0.0 && BalancedAround(a, s, b, c)
    ensures BalancedAround(Ratio(a, top), Ratio(s, top), Ratio(b, top), c)
  {
    RatioAdd(a, b, top);
    ScaledRatio(2.0 + c, s, top);
  }

  lemma ScaledRatio(c: real, a: real, b: real)
    requires b != 0.0
    ensures (c * a) / b == c * (a / b)
  {
    var q := a / b;
    assert c * a == c * (q * b);
    assert c * (q * b) == (c * q) * b;
    RatioIs(c * a, b, c * q);
  }

  lemma LinearRecurrence(n: nat, j: nat)
    requires 0 < j < n
    ensures (n - (j - 1)) as real / n as real + (n - (j + 1)) as real / n as real == 2.0 * ((n - j) as real / n as real)
  {
    var w := n as real;
    RatioAdd((n - (j - 1)) as real, (n - (j + 1)) as real, w);
    ScaledRatio(2.0, (n - j) as real, w);
    assert (n - (j - 1)) as real + (n - (j + 1)) as real == 2.0 * (n - j) as real;
  }

  // ------------------------------------------------------------- optimality

  /** What one slice adds to the objective, up to scale: its trade, and risk on what is held after it. */
  function SliceCost(before: real, after: real, c: real): real {
    Square(before - after) + c * Square(after)
  }

  function SliceCosts(v: seq<real>, c: real): (terms: seq<real>)
    requires v != []
    ensures |terms| == |v| - 1
  {
    if |v| == 1 then [] else SliceCosts(v[..|v| - 1], c) + [SliceCost(v[|v| - 2], v[|v| - 1], c)]
  }

  lemma {:induction false} SliceCostAt(v: seq<real>, c: real, k: nat)
    requires k + 1 < |v|
    ensures SliceCosts(v, c)[k] == SliceCost(v[k], v[k + 1], c)
  {
    if k + 2 < |v| {
      SliceCostAt(v[..|v| - 1], c, k);
    }
  }

  lemma {:induction false} SquaredTradeAt(v: seq<real>, k: nat)
    requires k + 1 < |v|
    ensures SquaredTrades(v)[k] == Square(v[k] - v[k + 1])
  {
    if k + 2 < |v| {
      SquaredTradeAt(v[..|v| - 1], k);
    }
  }

  lemma {:induction false} SquaredHoldingAt(v: seq<real>, sigma: real, k: nat)
    requires k + 1 < |v|
    ensures SquaredHoldings(v, sigma)[k] == Square(sigma * v[k + 1])
  {
    if k + 2 < |v| {
      SquaredHoldingAt(v[..|v| - 1], sigma, k);
    }
  }

  lemma TermsAt(v: seq<real>, c: real, sigma: real, k: nat)
    requires k + 1 < |v|
    ensures SliceCosts(v, c)[k] == SliceCost(v[k], v[k + 1], c)
    ensures SquaredTrades(v)[k] == Square(v[k] - v[k + 1])
    ensures SquaredHoldings(v, sigma)[k] == Square(sigma * v[k + 1])
  {
    SliceCostAt(v, c, k);
    SquaredTradeAt(v, k);
    SquaredHoldingAt(v, sigma, k);
  }

  /** What the objective weighs, up to positive scale and a constant of the order. */
  function Weighed(v: seq<real>, c: real): real
    requires v != []
  {
    Sum(SliceCosts(v, c), |v| - 1)
  }

  /** Interior holdings satisfy the recurrence. */
  ghost predicate Balanced(x: seq<real>, c: real) {
    forall k :: 0 < k && k + 1 < |x| ==> BalancedAround(x[k - 1], x[k], x[k + 1], c)
  }

  lemma PositiveProduct(a: real, b: real, ab: real)
    requires a > 0.0 && b > 0.0 && ab == a * b
    ensures ab > 0.0
  {
  }

  lemma NegativeProduct(a: real, b: real, ab: real)
    requires a < 0.0 && b < 0.0 && ab == a * b
    ensures ab > 0.0
  {
    PositiveProduct(-a, -b, ab);
  }

  lemma SquareSign(a: real)
    ensures Square(a) >= 0.0 && (a != 0.0 ==> Square(a) > 0.0)
  {
    if a > 0.0 {
      PositiveProduct(a, a, Square(a));
    } else if a < 0.0 {
      NegativeProduct(a, a, Square(a));
    }
  }

  /** Summation by parts, one slice of it: `e` and `f` are how far the other trajectory is off before and after. */
  lemma GapIdentity(a: real, b: real, next: real, ua: real, ub: real, c: real)
    ensures var e, f := ua - a, ub - b;
      (ua - ub) * (ua - ub) + c * (ub * ub) - ((a - b) * (a - b) + c * (b * b)) - 2.0 * ((a - b) * e)
        + 2.0 * ((b - next) * f)
      == (e - f) * (e - f) + c * (f * f) + 2.0 * (f * (c * b + 2.0 * b - a - next))
  {
  }

  lemma GapSign(gap: real, q: real, qq: real, ff: real, cff: real, c: real, rest: real)
    requires gap == qq + cff + 2.0 * rest && rest == 0.0 && qq == q * q && cff == c * ff && c >= 0.0 && ff >= 0.0
    ensures gap >= 0.0 && (q != 0.0 ==> gap > 0.0)
  {
    ScaleOrder(c, 0.0, ff);
    if q > 0.0 {
      PositiveProduct(q, q, qq);
    } else if q < 0.0 {
      NegativeProduct(q, q, qq);
    }
  }

  lemma OwnProduct(f: real, ff: real)
    requires ff == f * f
    ensures ff >= 0.0
  {
    if f > 0.0 {
      PositiveProduct(f, f, ff);
    } else if f < 0.0 {
      NegativeProduct(f, f, ff);
    }
  }

  lemma ZeroProduct(f: real, t: real, ft: real)
    requires ft == f * t && (f == 0.0 || t == 0.0)
    ensures ft == 0.0
  {
  }

  lemma Expanded(c: real, b: real, cb: real)
    requires cb == c * b
    ensures (2.0 + c) * b == 2.0 * b + cb
  {
  }

  /**
   * Taking one slice from `a` to `b` elsewhere, from `ua` to `ub`, costs at least the change in the
   * boundary term, by the recurrence; and exactly that only if the slice trades the same.
   */
  lemma SliceGap(a: real, b: real, next: real, ua: real, ub: real, c: real, gap: real)
    requires c >= 0.0 && (a + next == (2.0 + c) * b || ub == b)
    requires gap == (ua - ub) * (ua - ub) + c * (ub * ub) - ((a - b) * (a - b) + c * (b * b))
                    - 2.0 * ((a - b) * (ua - a)) + 2.0 * ((b - next) * (ub - b))
    ensures gap >= 0.0 && (ua - a != ub - b ==> gap > 0.0)
  {
    var e, f := ua - a, ub - b;
    var q, ff, t := e - f, f * f, c * b + 2.0 * b - a - next;
    GapIdentity(a, b, next, ua, ub, c);
    Expanded(c, b, c * b);
    ZeroProduct(f, t, f * t);
    OwnProduct(f, ff);
    GapSign(gap, q, q * q, ff, c * ff, c, f * t);
  }

  /** `(x_k - x_{k+1}) * (u_k - x_k)`: what summation by parts leaves at each of the first `m` boundaries. */
  function Boundaries(x: seq<real>, u: seq<real>, m: nat): (edges: seq<real>)
    requires m < |x| == |u|
    ensures |edges| == m
  {
    if m == 0 then [] else Boundaries(x, u, m - 1) + [(x[m - 1] - x[m]) * (u[m - 1] - x[m - 1])]
  }

  function Edges(x: seq<real>, u: seq<real>): (edges: seq<real>)
    requires |x| == |u| > 0
    ensures |edges| == |x|
  {
    Boundaries(x, u, |x| - 1) + [0.0]
  }

  lemma {:induction false} BoundaryAt(x: seq<real>, u: seq<real>, m: nat, k: nat)
    requires k < m < |x| == |u|
    ensures Boundaries(x, u, m)[k] == (x[k] - x[k + 1]) * (u[k] - x[k])
  {
    if k < m - 1 {
      BoundaryAt(x, u, m - 1, k);
    }
  }

  ghost predicate AreCosts(w: seq<real>, v: seq<real>, c: real) {
    |w| + 1 == |v| && forall k :: 0 <= k < |w| ==> w[k] == SliceCost(v[k], v[k + 1], c)
  }

  ghost predicate AreEdges(edges: seq<real>, x: seq<real>, u: seq<real>) {
    && 0 < |edges| == |x| == |u| && edges[|x| - 1] == 0.0
    && forall k :: 0 <= k < |x| - 1 ==> edges[k] == (x[k] - x[k + 1]) * (u[k] - x[k])
  }

  lemma InnerGap(wu: seq<real>, wx: seq<real>, edges: seq<real>, x: seq<real>, u: seq<real>, c: real, k: nat)
    requires AreCosts(wu, u, c) && AreCosts(wx, x, c) && AreEdges(edges, x, u)
    requires k + 2 < |x| && c >= 0.0 && x[k] + x[k + 2] == (2.0 + c) * x[k + 1]
    ensures var gap := wu[k] - wx[k] - 2.0 * edges[k] + 2.0 * edges[k + 1];
            gap >= 0.0 && (gap == 0.0 ==> u[k] - x[k] == u[k + 1] - x[k + 1])
  {
    NamedGap(wu[k], wx[k], edges[k], edges[k + 1], x[k], x[k + 1], x[k + 2], u[k], u[k + 1], c);
  }

  lemma LastGap(wu: seq<real>, wx: seq<real>, edges: seq<real>, x: seq<real>, u: seq<real>, c: real, k: nat)
    requires AreCosts(wu, u, c) && AreCosts(wx, x, c) && AreEdges(edges, x, u)
    requires k + 2 == |x| && c >= 0.0 && u[k + 1] == x[k + 1]
    ensures var gap := wu[k] - wx[k] - 2.0 * edges[k] + 2.0 * edges[k + 1];
            gap >= 0.0 && (gap == 0.0 ==> u[k] - x[k] == u[k + 1] - x[k + 1])
  {
    var j := k + 1;
    assert edges[j] == 0.0;
    NamedGap(wu[k], wx[k], edges[k], edges[j], x[k], x[j], x[j], u[k], u[j], c);
  }

  lemma SliceGapAt(wu: seq<real>, wx: seq<real>, edges: seq<real>, x: seq<real>, u: seq<real>, c: real, k: nat)
    requires AreCosts(wu, u, c) && AreCosts(wx, x, c) && AreEdges(edges, x, u)
    requires k + 1 < |x| && c >= 0.0 && Balanced(x, c) && u[|u| - 1] == x[|x| - 1]
    ensures var gap := wu[k] - wx[k] - 2.0 * edges[k] + 2.0 * edges[k + 1];
            gap >= 0.0 && (gap == 0.0 ==> u[k] - x[k] == u[k + 1] - x[k + 1])
  {
    if k + 2 < |x| {
      BalancedAt(x, c, k);
      InnerGap(wu, wx, edges, x, u, c, k);
    } else {
      LastGap(wu, wx, edges, x, u, c, k);
    }
  }

  lemma BalancedAt(x: seq<real>, c: real, k: nat)
    requires Balanced(x, c) && k + 2 < |x|
    ensures x[k] + x[k + 2] == (2.0 + c) * x[k + 1]
  {
    var i := k + 1;
    assert BalancedAround(x[i - 1], x[i], x[i + 1], c);
  }

  lemma AllGaps(wu: seq<real>, wx: seq<real>, edges: seq<real>, x: seq<real>, u: seq<real>, c: real)
    requires AreCosts(wu, u, c) && AreCosts(wx, x, c) && AreEdges(edges, x, u)
    requires |x| >= 2 && c >= 0.0 && Balanced(x, c) && u[|u| - 1] == x[|x| - 1]
    ensures forall k: nat :: k < |wu| ==>
      var gap := wu[k] - wx[k] - 2.0 * edges[k] + 2.0 * edges[k + 1];
      gap >= 0.0 && (gap == 0.0 ==> u[k] - x[k] == u[k + 1] - x[k + 1])
  {
    forall k: nat | k < |wu|
      ensures var gap := wu[k] - wx[k] - 2.0 * edges[k] + 2.0 * edges[k + 1];
              gap >= 0.0 && (gap == 0.0 ==> u[k] - x[k] == u[k + 1] - x[k + 1])
    {
      SliceGapAt(wu, wx, edges, x, u, c, k);
    }
  }

  lemma CostsAre(v: seq<real>, c: real)
    requires v != []
    ensures AreCosts(SliceCosts(v, c), v, c)
  {
    forall k | 0 <= k < |v| - 1 ensures SliceCosts(v, c)[k] == SliceCost(v[k], v[k + 1], c) {
      SliceCostAt(v, c, k);
    }
  }

  lemma EdgesAre(x: seq<real>, u: seq<real>)
    requires |x| == |u| > 0
    ensures AreEdges(Edges(x, u), x, u)
  {
    forall k | 0 <= k < |x| - 1 ensures Boundaries(x, u, |x| - 1)[k] == (x[k] - x[k + 1]) * (u[k] - x[k]) {
      BoundaryAt(x, u, |x| - 1, k);
    }
  }

  lemma CostIs(before: real, after: real, c: real, w: real)
    requires w == SliceCost(before, after, c)
    ensures w == (before - after) * (before - after) + c * (after * after)
  {
  }

  lemma NamedGap(wu: real, wx: real, edge: real, nextEdge: real, a: real, b: real, next: real, ua: real, ub: real,
                 c: real)
    requires wu == SliceCost(ua, ub, c) && wx == SliceCost(a, b, c) && edge == (a - b) * (ua - a) && c >= 0.0
    requires (a + next == (2.0 + c) * b && nextEdge == (b - next) * (ub - b)) || (ub == b && nextEdge == 0.0)
    ensures var gap := wu - wx - 2.0 * edge + 2.0 * nextEdge; gap >= 0.0 && (gap == 0.0 ==> ua - a == ub - b)
  {
    CostIs(ua, ub, c, wu);
    CostIs(a, b, c, wx);
    if ub == b && nextEdge == 0.0 {
      ZeroProduct(b - next, ub - b, (b - next) * (ub - b));
    }
    SliceGap(a, b, next, ua, ub, c, wu - wx - 2.0 * edge + 2.0 * nextEdge);
  }

  /** Gaps that are never negative add up, and to zero only if each is zero. */
  lemma {:induction false} GapsAdd(u: seq<real>, x: seq<real>, edge: seq<real>, m: nat)
    requires m <= |u| == |x| && |edge| == |u| + 1 && edge[0] == 0.0
    requires forall k :: 0 <= k < |u| ==> u[k] - x[k] - 2.0 * edge[k] + 2.0 * edge[k + 1] >= 0.0
    ensures Sum(u, m) - Sum(x, m) + 2.0 * edge[m] >= 0.0
    ensures Sum(u, m) - Sum(x, m) + 2.0 * edge[m] == 0.0 ==>
      forall k :: 0 <= k < m ==> u[k] - x[k] - 2.0 * edge[k] + 2.0 * edge[k + 1] == 0.0
  {
    if m > 0 {
      GapsAdd(u, x, edge, m - 1);
    }
  }

  lemma {:induction false} SameDeviation(x: seq<real>, u: seq<real>, k: nat)
    requires k < |x| == |u| && u[0] == x[0]
    requires forall i :: 0 <= i < |x| - 1 ==> u[i] - x[i] == u[i + 1] - x[i + 1]
    ensures u[k] == x[k]
  {
    if k > 0 {
      SameDeviation(x, u, k - 1);
      var i := k - 1;
      assert u[i] - x[i] == u[i + 1] - x[i + 1];
    }
  }

  /** A balanced trajectory weighs least among all with its endpoints, and is the only one that does. */
  lemma BalancedIsOptimal(x: seq<real>, u: seq<real>, c: real)
    requires |x| == |u| >= 2 && c >= 0.0 && Balanced(x, c)
    requires u[0] == x[0] && u[|u| - 1] == x[|x| - 1]
    ensures Weighed(x, c) <= Weighed(u, c)
    ensures Weighed(x, c) == Weighed(u, c) ==> u == x
  {
    var n := |x| - 1;
    CostsAre(x, c);
    CostsAre(u, c);
    EdgesAre(x, u);
    StartsAtZero(Edges(x, u), x, u);
    AllGaps(SliceCosts(u, c), SliceCosts(x, c), Edges(x, u), x, u, c);
    GapsDecide(SliceCosts(u, c), SliceCosts(x, c), Edges(x, u), x, u);
  }

  lemma StartsAtZero(edges: seq<real>, x: seq<real>, u: seq<real>)
    requires AreEdges(edges, x, u) && u[0] == x[0]
    ensures edges[0] == 0.0
  {
    if 1 < |x| {
      TimesZero(x[0] - x[1], u[0] - x[0], edges[0]);
    }
  }

  lemma TimesZero(a: real, b: real, ab: real)
    requires b == 0.0 && ab == a * b
    ensures ab == 0.0
  {
  }

  lemma GapsDecide(wu: seq<real>, wx: seq<real>, edges: seq<real>, x: seq<real>, u: seq<real>)
    requires |wu| == |wx| == |x| - 1 == |edges| - 1 == |u| - 1 && u[0] == x[0]
    requires edges[0] == 0.0 && edges[|wu|] == 0.0
    requires forall k: nat :: k < |wu| ==>
      var gap := wu[k] - wx[k] - 2.0 * edges[k] + 2.0 * edges[k + 1];
      gap >= 0.0 && (gap == 0.0 ==> u[k] - x[k] == u[k + 1] - x[k + 1])
    ensures Sum(wx, |wx|) <= Sum(wu, |wu|)
    ensures Sum(wx, |wx|) == Sum(wu, |wu|) ==> u == x
  {
    GapsAdd(wu, wx, edges, |wu|);
    if Sum(wx, |wx|) == Sum(wu, |wu|) {
      forall k | 0 <= k < |x| ensures u[k] == x[k] {
        SameDeviation(x, u, k);
      }
    }
  }

  // ------------------------------------------------ the schedule is optimal

  /** Expected cost plus weighted risk is, up to a constant of the order, what the trajectory weighs. */
  lemma ObjectiveIsWeighed(model: Model, v: seq<real>)
    requires model.Valid() && v != []
    ensures model.Objective(v) ==
      0.5 * model.gamma * v[0] * v[0] + model.etaTilde / model.tau * Weighed(v, 2.0 * model.Y())
  {
    var n := |v| - 1;
    forall k: nat | k < n
      ensures model.etaTilde / model.tau * SquaredTrades(v)[k]
        + model.lambda * model.tau * SquaredHoldings(v, model.sigma)[k]
           == model.etaTilde / model.tau * SliceCosts(v, 2.0 * model.Y())[k]
    {
      TermsAt(v, 2.0 * model.Y(), model.sigma, k);
      SliceWeighs(model, v[k], v[k + 1], model.etaTilde / model.tau, model.lambda * model.tau);
    }
    CombineSums(SquaredTrades(v), SquaredHoldings(v, model.sigma), SliceCosts(v, 2.0 * model.Y()),
                model.etaTilde / model.tau, model.lambda * model.tau, n);
    Regroup(model.lambda, model.tau, Sum(SquaredHoldings(v, model.sigma), n));
  }

  lemma Regroup(a: real, b: real, c: real)
    ensures a * (b * c) == a * b * c
  {
  }

  lemma {:induction false} CombineSums(s: seq<real>, t: seq<real>, w: seq<real>, a: real, b: real, m: nat)
    requires m <= |s| == |t| == |w| && forall k :: 0 <= k < |s| ==> a * s[k] + b * t[k] == a * w[k]
    ensures a * Sum(s, m) + b * Sum(t, m) == a * Sum(w, m)
  {
    if m > 0 {
      CombineSums(s, t, w, a, b, m - 1);
      AddScaled(a, b, Sum(s, m - 1), s[m - 1], Sum(t, m - 1), t[m - 1], Sum(w, m - 1), w[m - 1]);
    }
  }

  lemma AddScaled(a: real, b: real, t: real, dt: real, h: real, dh: real, w: real, dw: real)
    requires a * t + b * h == a * w && a * dt + b * dh == a * dw
    ensures a * (t + dt) + b * (h + dh) == a * (w + dw)
  {
  }

  lemma SliceWeighs(model: Model, before: real, after: real, a: real, b: real)
    requires model.Valid() && a == model.etaTilde / model.tau && b == model.lambda * model.tau
    ensures a * Square(before - after) + b * Square(model.sigma * after)
      == a * SliceCost(before, after, 2.0 * model.Y())
  {
    var s := Square(after);
    RiskWeight(model.tau, model.etaTilde, model.lambda, model.sigma, s);
    assert Square(model.sigma * after) == model.sigma * model.sigma * s;
  }

  lemma RiskWeight(tau: real, eta: real, lambda: real, sigma: real, s: real)
    requires tau > 0.0 && eta > 0.0
    ensures lambda * tau * (sigma * sigma * s)
      == eta / tau * (2.0 * (0.5 * (lambda * sigma * sigma / eta) * tau * tau) * s)
  {
    var q, r := lambda * sigma * sigma / eta, eta / tau;
    assert q * eta == lambda * sigma * sigma && r * tau == eta;
    assert 2.0 * (0.5 * q * tau * tau) == q * (tau * tau);
    assert r * (q * (tau * tau) * s) == (r * tau) * (q * tau * s);
    assert eta * (q * tau * s) == (q * eta) * (tau * s);
    assert (lambda * sigma * sigma) * (tau * s) == lambda * tau * (sigma * sigma * s);
  }

  /**
   * The computed holdings start at the order size, end at zero and never rise; and no other
   * trajectory between those ends has a lower expected cost plus `lambda` times variance.
   */
  lemma HoldingsAreOptimal(model: Model, total: real, n: nat, z: real, other: seq<real>)
    requires model.Valid() && total >= 0.0 && n > 0 && Decay(z, model.Y())
    requires |other| == n + 1 && other[0] == total && other[n] == 0.0
    ensures var x := Holdings(total, n, z);
      && x[0] == total && x[n] == 0.0
      && (forall i, j :: 0 <= i <= j <= n ==> 0.0 <= x[j] <= x[i])
      && Balanced(x, 2.0 * model.Y())
      && model.Objective(x) <= model.Objective(other)
      && (model.Objective(x) == model.Objective(other) ==> other == x)
  {
    HoldingsFall(total, n, z);
    HoldingsBalance(total, n, z, model.Y());
    OptimalAmong(model, Holdings(total, n, z), other);
  }

  lemma OptimalAmong(model: Model, x: seq<real>, other: seq<real>)
    requires model.Valid() && |x| == |other| >= 2 && Balanced(x, 2.0 * model.Y())
    requires other[0] == x[0] && other[|other| - 1] == x[|x| - 1]
    ensures model.Objective(x) <= model.Objective(other)
    ensures model.Objective(x) == model.Objective(other) ==> other == x
  {
    YIsNonNegative(model);
    BalancedIsOptimal(x, other, 2.0 * model.Y());
    ObjectiveOrders(model, x, other);
  }

  /** The objective orders trajectories from one start as their weights do. */
  lemma ObjectiveOrders(model: Model, x: seq<real>, other: seq<real>)
    requires model.Valid() && x != [] && other != [] && x[0] == other[0]
    requires Weighed(x, 2.0 * model.Y()) <= Weighed(other, 2.0 * model.Y())
    ensures model.Objective(x) <= model.Objective(other)
    ensures model.Objective(x) == model.Objective(other)
      ==> Weighed(x, 2.0 * model.Y()) == Weighed(other, 2.0 * model.Y())
  {
    ObjectiveIsWeighed(model, x);
    ObjectiveIsWeighed(model, other);
    ScaleStrict(model.etaTilde, model.tau, Weighed(x, 2.0 * model.Y()), Weighed(other, 2.0 * model.Y()));
  }

  lemma HoldingsFall(total: real, n: nat, z: real)
    requires total >= 0.0 && n > 0 && 0.0 < z <= 1.0
    ensures var x := Holdings(total, n, z);
      x[0] == total && x[n] == 0.0 && forall i, j :: 0 <= i <= j <= n ==> 0.0 <= x[j] <= x[i]
  {
    HeldEnds(total, n, z);
    forall i, j | 0 <= i <= j <= n ensures 0.0 <= Held(total, n, z, j) <= Held(total, n, z, i) {
      HeldFalls(total, n, z, i, j);
    }
  }

  lemma HeldEnds(total: real, n: nat, z: real)
    requires n > 0 && 0.0 < z <= 1.0
    ensures Held(total, n, z, 0) == total && Held(total, n, z, n) == 0.0
  {
    FractionFalls(z, n, 0);
  }

  lemma HeldFalls(total: real, n: nat, z: real, i: nat, j: nat)
    requires total >= 0.0 && n > 0 && 0.0 < z <= 1.0 && i <= j <= n
    ensures 0.0 <= Held(total, n, z, j) <= Held(total, n, z, i)
  {
    FractionFallsTo(z, n, i, j);
    ScaleOrder(total, RemainingFraction(z, n, j), RemainingFraction(z, n, i));
  }

  lemma {:induction false} FractionFallsTo(z: real, n: nat, i: nat, j: nat)
    requires 0.0 < z <= 1.0 && 0 < n && i <= j <= n
    ensures 0.0 <= RemainingFraction(z, n, j) <= RemainingFraction(z, n, i) <= 1.0
  {
    if i < j {
      FractionFallsTo(z, n, i, j - 1);
      FractionFalls(z, n, j - 1);
    } else if j < n {
      FractionFalls(z, n, j);
    } else {
      FractionFalls(z, n, 0);
    }
  }

  lemma HoldingsBalance(total: real, n: nat, z: real, y: real)
    requires n > 0 && Decay(z, y)
    ensures Balanced(Holdings(total, n, z), 2.0 * y)
  {
    var x := Holdings(total, n, z);
    forall k | 0 < k && k + 1 < |x| ensures BalancedAround(x[k - 1], x[k], x[k + 1], 2.0 * y) {
      HeldBalances(total, n, z, y, k, x[k - 1], x[k], x[k + 1]);
    }
  }

  lemma HeldBalances(total: real, n: nat, z: real, y: real, k: nat, before: real, here: real, after: real)
    requires 0 < k < n && Decay(z, y)
    requires before == Held(total, n, z, k - 1) && here == Held(total, n, z, k) && after == Held(total, n, z, k + 1)
    ensures BalancedAround(before, here, after, 2.0 * y)
  {
    FractionRecurrence(z, y, n, k);
    BalanceScaled(total, RemainingFraction(z, n, k - 1), RemainingFraction(z, n, k), RemainingFraction(z, n, k + 1),
                  2.0 * y, before, here, after);
  }

  lemma BalanceScaled(t: real, a: real, s: real, b: real, c: real, ta: real, ts: real, tb: real)
    requires BalancedAround(a, s, b, c) && ta == t * a && ts == t * s && tb == t * b
    ensures BalancedAround(ta, ts, tb, c)
  {
    ScaleRecurrence(t, a, s, b, 2.0 + c);
  }

  lemma ScaleOrder(c: real, a: real, b: real)
    requires c >= 0.0 && 0.0 <= a <= b
    ensures 0.0 <= c * a <= c * b
  {
  }

  lemma ScaleRecurrence(t: real, a: real, s: real, b: real, c: real)
    requires a + b == c * s
    ensures t * a + t * b == c * (t * s)
  {
    assert t * a + t * b == t * (a + b);
    assert t * (c * s) == c * (t * s);
  }

  lemma ScaleStrict(eta: real, tau: real, a: real, b: real)
    requires eta > 0.0 && tau > 0.0 && a <= b
    ensures eta / tau * a <= eta / tau * b && (eta / tau * a == eta / tau * b ==> a == b)
  {
    var r := eta / tau;
    assert r * tau == eta;
    if r <= 0.0 {
      ProductSign(tau, r);
    }
    if a < b {
      RealMulStrict(a, b, r);
      assert a * r == r * a && b * r == r * b;
    }
  }

  lemma YIsNonNegative(model: Model)
    requires model.Valid()
    ensures model.Y() >= 0.0
  {
    var s := model.sigma * model.sigma;
    SquareSign(model.sigma);
    assert model.lambda * model.sigma * model.sigma == model.lambda * s;
    ScaleOrder(model.lambda, 0.0, s);
    RatioMono(0.0, model.lambda * s, model.etaTilde);
    var q := model.lambda * s / model.etaTilde;
    ScaleOrder(0.5 * q, 0.0, model.tau);
    ScaleOrder(0.5 * q * model.tau, 0.0, model.tau);
  }
}
