/** The SplitMix64 generator: a 64-bit state that advances by a constant, and a mix of it for each draw. */
module SplitMix {
  import opened Types
  import opened DivMod

  /** What a seed fixes: the 64-bit values drawn, in order. */
  type Stream = nat -> U64

  const WORD: int := U64_MAX + 1
  const STEP: U64 := 0x9E37_79B9_7F4A_7C15

  function Power2(n: nat): nat {
    if n == 0 then 1 else 2 * Power2(n - 1)
  }

  /** Exclusive or of the lowest `bits` bits. */
  function Xor(a: nat, b: nat, bits: nat): (r: nat)
    ensures r < Power2(bits)
  {
    if bits == 0 then 0 else 2 * Xor(a / 2, b / 2, bits - 1) + (a + b) % 2
  }

  /** Exclusive or undoes itself. */
  lemma {:induction false} XorTwice(a: nat, b: nat, bits: nat)
    requires a < Power2(bits)
    ensures Xor(Xor(a, b, bits), b, bits) == a
  {
    if bits > 0 {
      XorTwice(a / 2, b / 2, bits - 1);
      LowBit(a, b, Xor(a / 2, b / 2, bits - 1), Xor(a, b, bits));
    }
  }

  /** It differs from its first operand exactly in the bits that the second one has. */
  lemma {:induction false} XorBits(a: nat, b: nat, bits: nat, k: nat)
    requires k < bits
    ensures Bit(Xor(a, b, bits), k) == if Bit(b, k) then !Bit(a, k) else Bit(a, k)
  {
    var rest, both := Xor(a / 2, b / 2, bits - 1), Xor(a, b, bits);
    assert both / 2 == rest && both % 2 == (a + b) % 2;
    if k > 0 {
      XorBits(a / 2, b / 2, bits - 1, k - 1);
    }
  }

  /** Bit `k`, counted from the lowest. */
  predicate Bit(x: nat, k: nat) {
    if k == 0 then x % 2 == 1 else Bit(x / 2, k - 1)
  }

  lemma LowBit(a: nat, b: nat, rest: nat, once: nat)
    requires once == 2 * rest + (a + b) % 2
    ensures once / 2 == rest && (once + b) % 2 == a % 2
  {
  }

  lemma {:induction false} PowerAdds(a: nat, b: nat)
    ensures Power2(a + b) == Power2(a) * Power2(b)
  {
    if a > 0 {
      PowerAdds(a - 1, b);
    }
  }

  lemma WordIsPower()
    ensures Power2(64) == WORD
  {
    assert Power2(8) == 0x100;
    PowerAdds(8, 8);
    PowerAdds(16, 16);
    PowerAdds(32, 32);
  }

  function ShiftRight(x: nat, shift: nat): nat {
    if shift == 0 then x else ShiftRight(x / 2, shift - 1)
  }

  /** A shift moves every bit down by as many places. */
  lemma {:induction false} ShiftMovesBits(x: nat, shift: nat, k: nat)
    ensures Bit(ShiftRight(x, shift), k) == Bit(x, k + shift)
  {
    if shift > 0 {
      ShiftMovesBits(x / 2, shift - 1, k);
    }
  }

  /** `x ^ (x >> shift)` on 64-bit words. */
  function XorShift(x: U64, shift: nat): U64 {
    WordIsPower();
    Xor(x, ShiftRight(x, shift), 64)
  }

  /** The product of 64-bit words, wrapped around. */
  function WrappingMul(x: U64, factor: U64): U64 {
    (x * factor) % WORD
  }

  /** The output for a state. */
  function Mix(state: U64): U64 {
    var first := WrappingMul(XorShift(state, 30), 0xBF58_476D_1CE4_E5B9);
    var second := WrappingMul(XorShift(first, 27), 0x94D0_49BB_1331_11EB);
    XorShift(second, 31)
  }

  /** The next state; it wraps around. */
  function Advance(state: U64): U64 {
    if state + STEP > U64_MAX then state + STEP - WORD else state + STEP
  }

  /** The state after `k` draws. */
  function State(seed: U64, k: nat): U64 {
    if k == 0 then seed else Advance(State(seed, k - 1))
  }

  function Draw(seed: U64, k: nat): U64 {
    Mix(State(seed, k + 1))
  }

  function Draws(seed: U64): Stream {
    (k: nat) => Draw(seed, k)
  }

  lemma DrawIs(seed: U64, k: nat, state: U64)
    requires state == State(seed, k + 1)
    ensures Mix(state) == Draw(seed, k)
  {
  }

  /** Multiply-shift reduction of a 64-bit draw below `bound`. */
  function Reduce(draw: U64, bound: nat): (r: nat)
    ensures bound > 0 ==> r < bound
  {
    MulMono(0, draw, bound);
    if bound > 0 then
      MulMono(draw, U64_MAX, bound);
      DivMono(draw * bound, U64_MAX * bound, U64_MAX + 1);
      DivMono(U64_MAX * bound, (U64_MAX + 1) * bound - 1, U64_MAX + 1);
      QuotientIs((U64_MAX + 1) * bound - 1, U64_MAX + 1, bound - 1, U64_MAX);
      draw * bound / (U64_MAX + 1)
    else draw * bound / (U64_MAX + 1)
  }

  /** The reduction scales a draw from all words to the numbers below the bound, rounding down. */
  lemma ReduceScales(draw: U64, bound: nat)
    ensures Reduce(draw, bound) * WORD <= draw * bound < (Reduce(draw, bound) + 1) * WORD
  {
    DivBounds(draw * bound, WORD);
  }

  class SplitMix64 {
    var state: U64
    ghost const seed: U64
    ghost var drawn: nat

    /** The state is what the draws so far have made of the seed. */
    ghost predicate Valid()
      reads this
    {
      state == State(seed, drawn)
    }

    constructor (seed: U64)
      ensures Valid() && this.seed == seed && drawn == 0
    {
      state, this.seed, drawn := seed, seed, 0;
    }

    method NextU64() returns (r: U64)
      requires Valid()
      modifies this
      ensures Valid() && drawn == old(drawn) + 1 && r == Draws(seed)(old(drawn))
    {
      state := Advance(state);
      DrawIs(seed, drawn, state);
      drawn := drawn + 1;
      r := Mix(state);
    }

    /** One draw, reduced below the bound. */
    method Below(bound: nat) returns (r: nat)
      requires Valid()
      modifies this
      ensures Valid() && drawn == old(drawn) + 1 && r == Reduce(Draws(seed)(old(drawn)), bound)
    {
      var draw := NextU64();
      r := Reduce(draw, bound);
    }
  }
}
