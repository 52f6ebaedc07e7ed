/** The 24-bit linear-feedback shift register behind peer indices. */
module Lfsr {
  const LFSR_MAX: bv32 := 0xffffff
  const LFSR_POLY: bv32 := 0xd80000

  predicate IsRegister(s: bv32) { 0 < s <= LFSR_MAX }

  function Step(s: bv32): bv32 { (s >> 1) ^ ((0 - (s & 1)) & LFSR_POLY) }

  function Index(s: bv32, mask: bv32): bv32 { (s - 1) ^ mask }

  function Iterate(seed: bv32, n: nat): bv32 { if n == 0 then seed else Step(Iterate(seed, n - 1)) }

  lemma StepStays(s: bv32)
    requires IsRegister(s)
    ensures IsRegister(Step(s))
  {
  }

  /** The polynomial has the top bit, so the top bit of the result tells which bit was shifted out. */
  lemma StepInjective(s: bv32, t: bv32)
    requires IsRegister(s) && IsRegister(t) && Step(s) == Step(t)
    ensures s == t
  {
  }

  lemma XorCancels(a: bv32, mask: bv32)
    ensures (a ^ mask) ^ mask == a
  {
  }

  lemma XorStays(a: bv32, mask: bv32)
    requires a <= LFSR_MAX && mask <= LFSR_MAX
    ensures a ^ mask <= LFSR_MAX
  {
  }

  lemma Predecessor(s: bv32)
    requires IsRegister(s)
    ensures s - 1 <= LFSR_MAX && (s - 1) + 1 == s
  {
  }

  lemma IndexInjective(s: bv32, t: bv32, mask: bv32)
    requires IsRegister(s) && IsRegister(t) && mask <= LFSR_MAX
    ensures Index(s, mask) <= LFSR_MAX && (Index(s, mask) == Index(t, mask) ==> s == t)
  {
    Predecessor(s);
    Predecessor(t);
    XorStays(s - 1, mask);
    XorCancels(s - 1, mask);
    XorCancels(t - 1, mask);
  }

  lemma {:induction false} IterateStays(seed: bv32, n: nat)
    requires IsRegister(seed)
    ensures IsRegister(Iterate(seed, n))
  {
    if n > 0 {
      IterateStays(seed, n - 1);
      StepStays(Iterate(seed, n - 1));
    }
  }

  /** Whatever register value comes back, the seed came back first. */
  lemma {:induction false} SeedReturnsFirst(seed: bv32, i: nat, j: nat)
    requires IsRegister(seed) && i <= j && Iterate(seed, i) == Iterate(seed, j)
    ensures Iterate(seed, j - i) == seed
  {
    if i > 0 {
      IterateStays(seed, i - 1);
      IterateStays(seed, j - 1);
      StepInjective(Iterate(seed, i - 1), Iterate(seed, j - 1));
      SeedReturnsFirst(seed, i - 1, j - 1);
    }
  }

  ghost predicate NeverReturned(seed: bv32, n: nat) { forall i :: 0 < i <= n ==> Iterate(seed, i) != seed }

  /** Until the seed returns, all indices are different 24-bit numbers. */
  lemma IndicesDistinct(seed: bv32, mask: bv32, n: nat, i: nat, j: nat)
    requires IsRegister(seed) && mask <= LFSR_MAX && NeverReturned(seed, n) && i < j <= n
    ensures Index(Iterate(seed, i), mask) != Index(Iterate(seed, j), mask)
    ensures Index(Iterate(seed, i), mask) <= LFSR_MAX
  {
    IterateStays(seed, i);
    IterateStays(seed, j);
    IndexInjective(Iterate(seed, i), Iterate(seed, j), mask);
    if Iterate(seed, i) == Iterate(seed, j) {
      SeedReturnsFirst(seed, i, j);
      assert false;
    }
  }

  lemma RegisterBound(s: bv32)
    requires IsRegister(s)
    ensures s <= LFSR_MAX
  {
  }
}
