/** Peer indices: the exact number of them, and that they differ. */
module PeerIndices {
  import opened Common
  import opened Lfsr
  import opened LfsrPeriod

  /** The seed has not returned for `n` steps exactly as long as n is below the period. */
  lemma NeverReturnedExactly(seed: bv32, n: nat)
    requires IsRegister(seed)
    ensures NeverReturned(seed, n) <==> n < PERIOD
  {
    hide Iterate, IsRegister;
    forall i: nat | 0 < i <= PERIOD ensures Iterate(seed, i) == seed <==> i == PERIOD {
      PeriodExact(seed, i);
    }
    PeriodExact(seed, PERIOD);
  }

  /** As many different indices as there are steps in the period, less the one that closes it. */
  lemma AllDistinct(seed: bv32, mask: bv32, i: nat, j: nat)
    requires IsRegister(seed) && mask <= LFSR_MAX && i < j < PERIOD
    ensures Index(Iterate(seed, i), mask) != Index(Iterate(seed, j), mask)
    ensures Index(Iterate(seed, i), mask) <= LFSR_MAX
  {
    hide Iterate, IsRegister, Index;
    NeverReturnedExactly(seed, PERIOD - 1);
    IndicesDistinct(seed, mask, PERIOD - 1, i, j);
  }

  method RandomIndex(draws: seq<bv32>) returns (r: bv32)
    requires exists i :: 0 <= i < |draws| && draws[i] & LFSR_MAX != 0
    ensures IsRegister(r)
    ensures exists i :: 0 <= i < |draws| && r == draws[i] & LFSR_MAX && forall k :: 0 <= k < i ==>
            draws[k] & LFSR_MAX == 0
  {
    var i := 0;
    ghost var last :| 0 <= last < |draws| && draws[last] & LFSR_MAX != 0;
    while draws[i] & LFSR_MAX == 0
      invariant 0 <= i <= last
      invariant forall k :: 0 <= k < i ==> draws[k] & LFSR_MAX == 0
      decreases last - i
    {
      i := i + 1;
    }
    r := draws[i] & LFSR_MAX;
  }

  class IndexLfsr {
    const initial: bv32
    var lfsr: bv32
    const mask: bv32
    ghost var issued: seq<bv32>

    ghost predicate Valid()
      reads this
    {
      && IsRegister(initial) && IsRegister(mask) && IsRegister(lfsr)
      && |issued| < PERIOD && lfsr == Iterate(initial, |issued|)
      && (forall i :: 0 <= i < |issued| ==> issued[i] == Index(Iterate(initial, i), mask))
    }

    /** `draws` stands for the random number generator, which does not draw zeros for ever. */
    constructor (draws: seq<bv32>, maskDraws: seq<bv32>)
      requires (exists i :: 0 <= i < |draws| && draws[i] & LFSR_MAX != 0)
      requires (exists i :: 0 <= i < |maskDraws| && maskDraws[i] & LFSR_MAX != 0)
      ensures Valid() && issued == [] && lfsr == initial
    {
      var seed := RandomIndex(draws);
      initial, lfsr := seed, seed;
      var m := RandomIndex(maskDraws);
      mask := m;
      issued := [];
    }

    /** `None` is the failed assertion that there are not too many peers: on exactly the last step of the period. */
    method Next() returns (r: Option<bv32>)
      requires Valid()
      modifies this
      ensures r.None? <==> |old(issued)| == PERIOD - 1
      ensures r.Some? ==>
                && Valid() && issued == old(issued) + [r.value]
                && r.value !in old(issued) && r.value <= LFSR_MAX
    {
      var value := lfsr - 1;
      var index := value ^ mask;
      assert index == Index(lfsr, mask);
      hide Step, Index, IsRegister;
      StepStays(lfsr);
      lfsr := Step(lfsr);
      ghost var n := |issued|;
      PeriodExact(initial, n + 1);
      if lfsr == initial { return None; }
      RegisterBound(mask);
      forall i | 0 <= i < n ensures issued[i] != index {
        AllDistinct(initial, mask, i, n);
      }
      IndexInjective(Iterate(initial, n), initial, mask);
      issued := issued + [index];
      r := Some(index);
    }
  }
}
