/**
 Iterating the register is multiplication in a finite field.

 `Mul(s, v)` adds up `v` stepped once for every place a set bit of `s` is below the top. `ONE`, the
 top bit, is neutral, and n steps multiply by n steps of `ONE`. So powers can be computed by squaring.
 */
module LfsrField {
  import opened Lfsr

  const ONE: bv32 := 0x800000

  function Add(a: bv32, b: bv32): bv32 { a ^ b }

  function Term(s: bv32, bit: bv32, v: bv32): bv32 { if s & bit != 0 then v else 0 }

  function Step4(v: bv32): bv32 { Step(Step(Step(Step(v)))) }

  /** Four places, from `bit` downwards. */
  function Four(bit: bv32, s: bv32, v: bv32): bv32 {
    Add(Add(Term(s, bit, v), Term(s, bit >> 1, Step(v))),
        Add(Term(s, bit >> 2, Step(Step(v))), Term(s, bit >> 3, Step(Step(Step(v))))))
  }

  function Mul(s: bv32, v: bv32): bv32 {
    var v1 := Step4(v);
    var v2 := Step4(v1);
    var v3 := Step4(v2);
    var v4 := Step4(v3);
    var v5 := Step4(v4);
    Add(Add(Four(0x800000, s, v), Four(0x80000, s, v1)),
        Add(Add(Four(0x8000, s, v2), Four(0x800, s, v3)), Add(Four(0x80, s, v4), Four(0x8, s, v5))))
  }

  // ---------- Multiplication is linear and commutes with the step ----------

  lemma StepXor(a: bv32, b: bv32)
    ensures Step(a ^ b) == Step(a) ^ Step(b)
  {
  }

  lemma StepAdd(a: bv32, b: bv32)
    ensures Step(Add(a, b)) == Add(Step(a), Step(b))
  {
    hide Step;
    StepXor(a, b);
  }

  lemma XorInterchange(a: bv32, b: bv32, c: bv32, d: bv32)
    ensures (a ^ b) ^ (c ^ d) == (a ^ c) ^ (b ^ d)
  {
  }

  lemma Interchange(a: bv32, b: bv32, c: bv32, d: bv32)
    ensures Add(Add(a, b), Add(c, d)) == Add(Add(a, c), Add(b, d))
  {
    calc {
      Add(Add(a, b), Add(c, d));
      Add(a, b) ^ Add(c, d);
      (a ^ b) ^ (c ^ d);
      { XorInterchange(a, b, c, d); }
      (a ^ c) ^ (b ^ d);
      Add(a, c) ^ Add(b, d);
      Add(Add(a, c), Add(b, d));
    }
  }

  lemma TermStep(s: bv32, bit: bv32, v: bv32)
    ensures Step(Term(s, bit, v)) == Term(s, bit, Step(v))
  {
  }

  lemma TermAdd(s: bv32, bit: bv32, v: bv32, w: bv32)
    ensures Term(s, bit, Add(v, w)) == Add(Term(s, bit, v), Term(s, bit, w))
  {
  }

  lemma FourStep(bit: bv32, s: bv32, v: bv32)
    ensures Step(Four(bit, s, v)) == Four(bit, s, Step(v))
  {
    hide Step, Term, Add;
    var v1 := Step(v);
    var v2 := Step(v1);
    var v3 := Step(v2);
    var a, b, c, d := Term(s, bit, v), Term(s, bit >> 1, v1), Term(s, bit >> 2, v2), Term(s, bit >> 3, v3);
    StepAdd(Add(a, b), Add(c, d));
    StepAdd(a, b);
    StepAdd(c, d);
    TermStep(s, bit, v);
    TermStep(s, bit >> 1, v1);
    TermStep(s, bit >> 2, v2);
    TermStep(s, bit >> 3, v3);
  }

  lemma MulStep(s: bv32, v: bv32)
    ensures Mul(s, Step(v)) == Step(Mul(s, v))
  {
    hide Step, Four, Add;
    var v1 := Step4(v);
    var v2 := Step4(v1);
    var v3 := Step4(v2);
    var v4 := Step4(v3);
    var v5 := Step4(v4);
    var a, b, c, d, e, f := Four(0x800000, s, v), Four(0x80000, s, v1), Four(0x8000, s, v2), Four(0x800, s, v3),
        Four(0x80, s, v4), Four(0x8, s, v5);
    StepAdd(Add(a, b), Add(Add(c, d), Add(e, f)));
    StepAdd(a, b);
    StepAdd(Add(c, d), Add(e, f));
    StepAdd(c, d);
    StepAdd(e, f);
    FourStep(0x800000, s, v);
    FourStep(0x80000, s, v1);
    FourStep(0x8000, s, v2);
    FourStep(0x800, s, v3);
    FourStep(0x80, s, v4);
    FourStep(0x8, s, v5);
  }

  lemma FourAdd(bit: bv32, s: bv32, v: bv32, w: bv32)
    ensures Four(bit, s, Add(v, w)) == Add(Four(bit, s, v), Four(bit, s, w))
  {
    hide Step, Term, Add;
    var v1, w1 := Step(v), Step(w);
    var v2, w2 := Step(v1), Step(w1);
    var v3, w3 := Step(v2), Step(w2);
    StepAdd(v, w);
    StepAdd(v1, w1);
    StepAdd(v2, w2);
    TermAdd(s, bit, v, w);
    TermAdd(s, bit >> 1, v1, w1);
    TermAdd(s, bit >> 2, v2, w2);
    TermAdd(s, bit >> 3, v3, w3);
    var a, b, c, d := Term(s, bit, v), Term(s, bit >> 1, v1), Term(s, bit >> 2, v2), Term(s, bit >> 3, v3);
    var a', b', c', d' := Term(s, bit, w), Term(s, bit >> 1, w1), Term(s, bit >> 2, w2), Term(s, bit >> 3, w3);
    Interchange(a, a', b, b');
    Interchange(c, c', d, d');
    Interchange(Add(a, b), Add(a', b'), Add(c, d), Add(c', d'));
  }

  lemma Step4Add(v: bv32, w: bv32)
    ensures Step4(Add(v, w)) == Add(Step4(v), Step4(w))
  {
    hide Step, Add;
    StepAdd(v, w);
    StepAdd(Step(v), Step(w));
    StepAdd(Step(Step(v)), Step(Step(w)));
    StepAdd(Step(Step(Step(v))), Step(Step(Step(w))));
  }

  lemma MulAdd(s: bv32, v: bv32, w: bv32)
    ensures Mul(s, Add(v, w)) == Add(Mul(s, v), Mul(s, w))
  {
    hide Step4, Four, Add;
    var v1, w1 := Step4(v), Step4(w);
    var v2, w2 := Step4(v1), Step4(w1);
    var v3, w3 := Step4(v2), Step4(w2);
    var v4, w4 := Step4(v3), Step4(w3);
    var v5, w5 := Step4(v4), Step4(w4);
    Step4Add(v, w);
    Step4Add(v1, w1);
    Step4Add(v2, w2);
    Step4Add(v3, w3);
    Step4Add(v4, w4);
    FourAdd(0x800000, s, v, w);
    FourAdd(0x80000, s, v1, w1);
    FourAdd(0x8000, s, v2, w2);
    FourAdd(0x800, s, v3, w3);
    FourAdd(0x80, s, v4, w4);
    FourAdd(0x8, s, v5, w5);
    var a, b, c, d, e, f := Four(0x800000, s, v), Four(0x80000, s, v1), Four(0x8000, s, v2), Four(0x800, s, v3),
        Four(0x80, s, v4), Four(0x8, s, v5);
    var a', b', c', d', e', f' := Four(0x800000, s, w), Four(0x80000, s, w1), Four(0x8000, s, w2), Four(0x800, s, w3),
        Four(0x80, s, w4), Four(0x8, s, w5);
    Interchange(a, a', b, b');
    Interchange(c, c', d, d');
    Interchange(e, e', f, f');
    Interchange(Add(c, d), Add(c', d'), Add(e, f), Add(e', f'));
    Interchange(Add(a, b), Add(a', b'), Add(Add(c, d), Add(e, f)), Add(Add(c', d'), Add(e', f')));
  }

  lemma Nibbles(s: bv32)
    requires s <= LFSR_MAX
    ensures Add(Add(s & 0xf00000, s & 0xf0000), Add(Add(s & 0xf000, s & 0xf00), Add(s & 0xf0, s & 0xf))) == s
  {
  }

  lemma PowersOfOne()
    ensures Step4(0x800000) == 0x80000 && Step4(0x80000) == 0x8000 && Step4(0x8000) == 0x800
    ensures Step4(0x800) == 0x80 && Step4(0x80) == 0x8
  {
  }

  lemma FourNibbles(s: bv32)
    ensures Four(0x800000, s, 0x800000) == s & 0xf00000
    ensures Four(0x80000, s, 0x80000) == s & 0xf0000
    ensures Four(0x8000, s, 0x8000) == s & 0xf000
    ensures Four(0x800, s, 0x800) == s & 0xf00
    ensures Four(0x80, s, 0x80) == s & 0xf0
    ensures Four(0x8, s, 0x8) == s & 0xf
  {
  }

  lemma MulOne(s: bv32)
    requires s <= LFSR_MAX
    ensures Mul(s, ONE) == s
  {
    hide Step4, Four, Add;
    PowersOfOne();
    FourNibbles(s);
    Nibbles(s);
  }

  lemma AddSelf(a: bv32)
    ensures Add(a, a) == 0
  {
  }

  lemma MulZero(s: bv32)
    ensures Mul(s, 0) == 0
  {
    hide Mul, Add;
    AddSelf(0);
    MulAdd(s, 0, 0);
    AddSelf(Mul(s, 0));
  }

  // ---------- Steps as powers ----------

  lemma TermMul(s: bv32, u: bv32, bit: bv32, v: bv32)
    ensures Mul(s, Term(u, bit, v)) == Term(u, bit, Mul(s, v))
  {
    hide Mul;
    MulZero(s);
  }

  lemma FourMul(s: bv32, bit: bv32, u: bv32, v: bv32)
    ensures Mul(s, Four(bit, u, v)) == Four(bit, u, Mul(s, v))
  {
    hide Mul, Step, Term, Add;
    var v1 := Step(v);
    var v2 := Step(v1);
    var v3 := Step(v2);
    var a, b, c, d := Term(u, bit, v), Term(u, bit >> 1, v1), Term(u, bit >> 2, v2), Term(u, bit >> 3, v3);
    MulAdd(s, Add(a, b), Add(c, d));
    MulAdd(s, a, b);
    MulAdd(s, c, d);
    TermMul(s, u, bit, v);
    TermMul(s, u, bit >> 1, v1);
    TermMul(s, u, bit >> 2, v2);
    TermMul(s, u, bit >> 3, v3);
    MulStep(s, v);
    MulStep(s, v1);
    MulStep(s, v2);
  }

  lemma Step4Mul(s: bv32, v: bv32)
    ensures Mul(s, Step4(v)) == Step4(Mul(s, v))
  {
    hide Mul, Step;
    MulStep(s, v);
    MulStep(s, Step(v));
    MulStep(s, Step(Step(v)));
    MulStep(s, Step(Step(Step(v))));
  }

  /** The two left factors may be exchanged. */
  lemma MulMul(s: bv32, u: bv32, v: bv32)
    ensures Mul(s, Mul(u, v)) == Mul(u, Mul(s, v))
  {
    var v1 := Step4(v);
    var v2 := Step4(v1);
    var v3 := Step4(v2);
    var v4 := Step4(v3);
    var v5 := Step4(v4);
    var a, b, c, d, e, f := Four(0x800000, u, v), Four(0x80000, u, v1), Four(0x8000, u, v2), Four(0x800, u, v3),
        Four(0x80, u, v4), Four(0x8, u, v5);
    assert Mul(u, v) == Add(Add(a, b), Add(Add(c, d), Add(e, f)));
    MulIs(u, Mul(s, v));
    hide Mul, Step4, Four, Add;
    MulAdd(s, Add(a, b), Add(Add(c, d), Add(e, f)));
    MulAdd(s, a, b);
    MulAdd(s, Add(c, d), Add(e, f));
    MulAdd(s, c, d);
    MulAdd(s, e, f);
    Step4Mul(s, v);
    Step4Mul(s, v1);
    Step4Mul(s, v2);
    Step4Mul(s, v3);
    Step4Mul(s, v4);
    FourMul(s, 0x800000, u, v);
    FourMul(s, 0x80000, u, v1);
    FourMul(s, 0x8000, u, v2);
    FourMul(s, 0x800, u, v3);
    FourMul(s, 0x80, u, v4);
    FourMul(s, 0x8, u, v5);
  }

  lemma MulIs(u: bv32, v: bv32)
    ensures var v1 := Step4(v); var v2 := Step4(v1); var v3 := Step4(v2); var v4 := Step4(v3); var v5 := Step4(v4);
            Mul(u, v) == Add(Add(Four(0x800000, u, v), Four(0x80000, u, v1)),
                             Add(Add(Four(0x8000, u, v2), Four(0x800, u, v3)),
                                 Add(Four(0x80, u, v4), Four(0x8, u, v5))))
  {
  }

  /** n steps multiply by n steps of one. */
  lemma {:induction false} IterateIsMul(s: bv32, n: nat)
    requires s <= LFSR_MAX
    ensures Iterate(s, n) == Mul(s, Iterate(ONE, n))
  {
    hide Mul, Step;
    if n == 0 {
      MulOne(s);
    } else {
      IterateIsMul(s, n - 1);
      MulStep(s, Iterate(ONE, n - 1));
    }
  }

  lemma {:induction false} IterateIterate(s: bv32, m: nat, n: nat)
    ensures Iterate(s, m + n) == Iterate(Iterate(s, m), n)
  {
    hide Step;
    if n > 0 { IterateIterate(s, m, n - 1); }
  }

  /** If n steps of one, less one, have an inverse, n steps move every register. */
  lemma Moves(s: bv32, n: nat, inverse: bv32)
    requires IsRegister(s) && Mul(inverse, Add(Iterate(ONE, n), ONE)) == ONE
    ensures Iterate(s, n) != s
  {
    hide Mul, Add, Iterate;
    RegisterBound(s);
    IterateIsMul(s, n);
    MulOne(s);
    if Iterate(s, n) == s {
      MulAdd(s, Iterate(ONE, n), ONE);
      AddSelf(s);
      MulMul(s, inverse, Add(Iterate(ONE, n), ONE));
      MulZero(inverse);
    }
  }
}
