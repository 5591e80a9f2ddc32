/** Integer quantities that follow a cumulative target curve, with the curve taken over the reals. */
module Cumulative {
  import opened Types
  import opened Schedule

  /** Nearest integer to a non-negative real, halves away from zero. */
  function Round(x: real): int {
    (x + 0.5).Floor
  }

  function Unit(x: real): real {
    if x < 0.0 then 0.0 else if x > 1.0 then 1.0 else x
  }

  /** A point of the curve in whole units of the order. */
  function Ideal(total: nat, fraction: real): int {
    Round(total as real * Unit(fraction))
  }

  /** The curve in whole units of the order, each point rounded to the nearest. */
  function Ideals(total: nat, curve: seq<real>): (ideals: seq<int>)
    ensures |ideals| == |curve|
    ensures forall k :: 0 <= k < |curve| ==> ideals[k] == Ideal(total, curve[k])
  {
    seq(|curve|, k requires 0 <= k < |curve| => Ideal(total, curve[k]))
  }

  /** The quantities once `done` units are complete. The last slice completes the order. */
  function Quantities(total: nat, ideals: seq<int>, done: nat): seq<nat>
    requires done <= total
  {
    if ideals == [] then []
    else
      var target := if |ideals| == 1 then total else Clamp(ideals[0], done, total);
      [target - done] + Quantities(total, ideals[1..], target)
  }

  lemma QuantitiesStep(total: nat, ideals: seq<int>, k: nat, done: nat, target: nat, earlier: seq<nat>)
    requires k < |ideals| && done <= target <= total
    requires target == if k + 1 == |ideals| then total else Clamp(ideals[k], done, total)
    ensures earlier + Quantities(total, ideals[k..], done)
      == earlier + [target - done] + Quantities(total, ideals[k + 1..], target)
  {
    assert ideals[k..][1..] == ideals[k + 1..];
    var rest := Quantities(total, ideals[k + 1..], target);
    assert Quantities(total, ideals[k..], done) == [target - done] + rest;
    assert earlier + ([target - done] + rest) == earlier + [target - done] + rest;
  }

  method RunQuantities(total: U64, curve: seq<real>) returns (quantities: seq<nat>)
    ensures quantities == Quantities(total, Ideals(total, curve), 0)
  {
    ghost var ideals := Ideals(total, curve);
    quantities := [];
    var done: U64 := 0;
    assert ideals[0..] == ideals;
    for k := 0 to |curve|
      invariant done <= total
      invariant quantities + Quantities(total, ideals[k..], done) == Quantities(total, ideals, 0)
    {
      var ideal := Ideal(total, curve[k]);
      var target: U64 := if k + 1 == |curve| then total else Clamp(ideal, done, total);
      QuantitiesStep(total, ideals, k, done, target, quantities);
      quantities := quantities + [target - done];
      done := target;
    }
    assert quantities + [] == quantities;
  }

  /** Sum of quantities read from the front. */
  function SumFront(quantities: seq<nat>): nat {
    if quantities == [] then 0 else quantities[0] + SumFront(quantities[1..])
  }

  lemma {:induction false} SumBothWays(quantities: seq<nat>)
    ensures SumFront(quantities) == Sum(quantities)
  {
    if quantities != [] {
      SumFromFront(quantities[0], quantities[1..]);
      assert [quantities[0]] + quantities[1..] == quantities;
      SumBothWays(quantities[1..]);
    }
  }

  lemma {:induction false} SumFromFront(first: nat, rest: seq<nat>)
    ensures Sum([first] + rest) == first + Sum(rest)
  {
    var whole := [first] + rest;
    if rest == [] {
      assert whole[..0] == [];
    } else {
      SumFromFront(first, rest[..|rest| - 1]);
      assert whole[..|whole| - 1] == [first] + rest[..|rest| - 1];
    }
  }

  /** Whatever the curve, the quantities add up to what was left of the order. */
  lemma {:induction false} CompletesTheOrder(total: nat, ideals: seq<int>, done: nat)
    requires done <= total && ideals != []
    ensures |Quantities(total, ideals, done)| == |ideals|
    ensures SumFront(Quantities(total, ideals, done)) == total - done
  {
    var target := if |ideals| == 1 then total else Clamp(ideals[0], done, total);
    var rest := Quantities(total, ideals[1..], target);
    assert ([target - done] + rest)[1..] == rest;
    if |ideals| > 1 {
      CompletesTheOrder(total, ideals[1..], target);
    }
  }

  ghost predicate Rising(total: nat, ideals: seq<int>) {
    && (forall k :: 0 <= k < |ideals| ==> 0 <= ideals[k] <= total)
    && (forall j, k :: 0 <= j < k < |ideals| ==> ideals[j] <= ideals[k])
  }

  lemma {:induction false} PrefixesAreIdeal(total: nat, ideals: seq<int>, done: nat, k: nat)
    requires Rising(total, ideals) && k + 1 < |ideals| && done <= ideals[0]
    ensures |Quantities(total, ideals, done)| == |ideals|
    ensures SumFront(Quantities(total, ideals, done)[..k + 1]) == ideals[k] - done
    ensures Quantities(total, ideals, done)[k] == ideals[k] - (if k == 0 then done else ideals[k - 1])
  {
    CompletesTheOrder(total, ideals, done);
    var target := ideals[0];
    var all, rest := Quantities(total, ideals, done), Quantities(total, ideals[1..], target);
    assert all == [target - done] + rest;
    assert all[..k + 1][1..] == rest[..k];
    if k > 0 {
      PrefixesAreIdeal(total, ideals[1..], target, k - 1);
    }
  }

  /** A curve the schedulers pass: it never falls and stays in the unit interval. */
  ghost predicate RisingCurve(curve: seq<real>) {
    && (forall k :: 0 <= k < |curve| ==> 0.0 <= curve[k] <= 1.0)
    && (forall j, k :: 0 <= j < k < |curve| ==> curve[j] <= curve[k])
  }

  lemma IdealMono(total: nat, x: real, y: real)
    requires 0.0 <= x <= y <= 1.0
    ensures 0 <= Ideal(total, x) <= Ideal(total, y) <= total
  {
    var t := total as real;
    assert 0.0 <= t * x <= t * y <= t;
  }

  /** `n` units is this fraction of the order, rounded to the nearest unit and halves up. */
  ghost predicate WithinHalf(n: int, total: nat, fraction: real) {
    -0.5 < n as real - total as real * fraction <= 0.5
  }

  lemma IdealIsNear(total: nat, x: real)
    requires 0.0 <= x <= 1.0
    ensures WithinHalf(Ideal(total, x), total, x)
    ensures x == 0.0 ==> Ideal(total, x) == 0
  {
  }

  lemma IdealsRise(total: nat, curve: seq<real>)
    requires RisingCurve(curve)
    ensures Rising(total, Ideals(total, curve))
  {
    var ideals := Ideals(total, curve);
    forall k | 0 <= k < |curve| ensures 0 <= ideals[k] <= total {
      IdealMono(total, curve[k], curve[k]);
    }
    forall j, k | 0 <= j < k < |curve| ensures ideals[j] <= ideals[k] {
      IdealMono(total, curve[j], curve[k]);
    }
  }

  /**
   * Each prefix lands within half a unit of its point on the curve, and a slice on which the curve
   * does not move trades nothing. (The last prefix is the whole order.)
   */
  lemma FollowsTheCurve(total: nat, curve: seq<real>, k: nat)
    requires RisingCurve(curve) && k + 1 < |curve|
    ensures var quantities := Quantities(total, Ideals(total, curve), 0);
      && |quantities| == |curve|
      && WithinHalf(SumFront(quantities[..k + 1]), total, curve[k])
      && (curve[k] == (if k == 0 then 0.0 else curve[k - 1]) ==> quantities[k] == 0)
  {
    IdealsRise(total, curve);
    PrefixesAreIdeal(total, Ideals(total, curve), 0, k);
    IdealIsNear(total, curve[k]);
    var ideals := Ideals(total, curve);
    assert ideals[k] == Ideal(total, curve[k]);
  }
}
