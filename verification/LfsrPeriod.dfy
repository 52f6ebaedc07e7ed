/** The period of the register: every seed returns after exactly 2^24 - 1 steps. */
module LfsrPeriod {
  import opened Lfsr
  import opened LfsrField

  const PERIOD: nat := 0xFFFFFF

  // ---------- Powers of one ----------

  ghost predicate Is(n: nat, v: bv32) { Iterate(ONE, n) == v }

  lemma Power(m: nat, n: nat, v: bv32, w: bv32, product: bv32)
    requires Is(m, v) && Is(n, w) && Mul(v, w) == product && v <= LFSR_MAX
    ensures Is(m + n, product)
  {
    hide Mul, Iterate;
    IterateIterate(ONE, m, n);
    IterateIsMul(v, n);
  }

  lemma OneStep(one: nat)
    requires one == 1
    ensures Is(one, 0x400000)
  {
  }

  lemma SixteenSteps()
    ensures Is(1, 0x400000) && Is(16, 0x000080)
  {
    hide Is;
    OneStep(1);
    Power(1, 1, 0x400000, 0x400000, 0x200000);
    Power(2, 2, 0x200000, 0x200000, 0x080000);
    Power(4, 4, 0x080000, 0x080000, 0x008000);
    Power(8, 8, 0x008000, 0x008000, 0x000080);
  }

  /** Up to 256 steps. */
  lemma Squares()
    requires Is(16, 0x000080)
    ensures Is(256, 0x4530cf)
  {
    hide Is;
    Power(16, 16, 0x000080, 0x000080, 0x00d800);
    Power(32, 32, 0x00d800, 0x00d800, 0xd800a2);
    Power(64, 64, 0xd800a2, 0xd800a2, 0x7a558d);
    Power(128, 128, 0x7a558d, 0x7a558d, 0x4530cf);
  }

  /** Up to 4096 steps. */
  lemma MoreSquares()
    requires Is(256, 0x4530cf)
    ensures Is(4096, 0x821085)
  {
    hide Is;
    Power(256, 256, 0x4530cf, 0x4530cf, 0xa2ccea);
    Power(512, 512, 0xa2ccea, 0xa2ccea, 0xbeebf5);
    Power(1024, 1024, 0xbeebf5, 0xbeebf5, 0x06a87d);
    Power(2048, 2048, 0x06a87d, 0x06a87d, 0x821085);
  }

  /** From 4097 to fifteen times as many steps. */
  lemma Multiples()
    requires Is(4097, 0x990842)
    ensures Is(12291, 0x60219f) && Is(24582, 0xa9bb88) && Is(61455, 0xfd8e4d)
  {
    hide Is;
    Power(4097, 4097, 0x990842, 0x990842, 0x82b40d);
    Power(8194, 4097, 0x82b40d, 0x990842, 0x60219f);
    Power(12291, 12291, 0x60219f, 0x60219f, 0xa9bb88);
    Power(24582, 24582, 0xa9bb88, 0xa9bb88, 0x5eba52);
    Power(49164, 12291, 0x5eba52, 0x60219f, 0xfd8e4d);
  }

  /** To 105 times as many. */
  lemma MoreMultiples()
    requires Is(61455, 0xfd8e4d)
    ensures Is(430185, 0x10a565)
  {
    hide Is;
    Power(61455, 61455, 0xfd8e4d, 0xfd8e4d, 0x13146d);
    Power(122910, 61455, 0x13146d, 0xfd8e4d, 0xe01968);
    Power(184365, 184365, 0xe01968, 0xe01968, 0x735b5a);
    Power(368730, 61455, 0x735b5a, 0xfd8e4d, 0x10a565);
  }

  /** A thirteenth. */
  lemma Thirteenth()
    requires Is(430185, 0x10a565)
    ensures Is(1290555, 0x13f7c0) && Is(5162220, 0xe45d55)
  {
    hide Is;
    Power(430185, 430185, 0x10a565, 0x10a565, 0x6d5b3d);
    Power(860370, 430185, 0x6d5b3d, 0x10a565, 0x13f7c0);
    Power(1290555, 1290555, 0x13f7c0, 0x13f7c0, 0x3a04aa);
    Power(2581110, 2581110, 0x3a04aa, 0x3a04aa, 0xe45d55);
  }

  /** A third, and the whole. */
  lemma Third()
    requires Is(430185, 0x10a565) && Is(5162220, 0xe45d55)
    ensures Is(5592405, 0x720800) && Is(16777215, 0x800000)
  {
    hide Is;
    Power(5162220, 430185, 0xe45d55, 0x10a565, 0x720800);
    Power(5592405, 5592405, 0x720800, 0x720800, 0xf20800);
    Power(11184810, 5592405, 0xf20800, 0x720800, 0x800000);
  }

  /** Multiples of nine times 4097. */
  lemma Ninths()
    requires Is(12291, 0x60219f) && Is(24582, 0xa9bb88)
    ensures Is(36873, 0x5d65f2) && Is(73746, 0xcf22c5) && Is(294984, 0xc624ad) && Is(589968, 0xccfd65)
  {
    hide Is;
    Power(24582, 12291, 0xa9bb88, 0x60219f, 0x5d65f2);
    Power(36873, 36873, 0x5d65f2, 0x5d65f2, 0xcf22c5);
    Power(73746, 73746, 0xcf22c5, 0xcf22c5, 0xf7c43d);
    Power(147492, 147492, 0xf7c43d, 0xf7c43d, 0xc624ad);
    Power(294984, 294984, 0xc624ad, 0xc624ad, 0xccfd65);
  }

  /** A seventh. */
  lemma Seventh()
    requires Is(36873, 0x5d65f2) && Is(589968, 0xccfd65)
    ensures Is(2359872, 0x56c92a) && Is(2396745, 0xb54700)
  {
    hide Is;
    Power(589968, 589968, 0xccfd65, 0xccfd65, 0x17fb1f);
    Power(1179936, 1179936, 0x17fb1f, 0x17fb1f, 0x56c92a);
    Power(2359872, 36873, 0x56c92a, 0x5d65f2, 0xb54700);
  }

  /** A fifth. */
  lemma Fifth()
    requires Is(36873, 0x5d65f2) && Is(73746, 0xcf22c5) && Is(294984, 0xc624ad) && Is(589968, 0xccfd65)
             && Is(2359872, 0x56c92a)
    ensures Is(3355443, 0xd59b8f)
  {
    hide Is;
    Power(73746, 36873, 0xcf22c5, 0x5d65f2, 0x59692d);
    Power(294984, 110619, 0xc624ad, 0x59692d, 0xf76f72);
    Power(589968, 405603, 0xccfd65, 0xf76f72, 0x05a295);
    Power(2359872, 995571, 0x56c92a, 0x05a295, 0xd59b8f);
  }

  /** A two hundred and forty-first. */
  lemma Rest()
    requires Is(4095, 0xb4210b)
    ensures Is(8190, 0x0b40de) && Is(16380, 0xd867a3) && Is(32760, 0x18b5a6) && Is(65520, 0xef3531)
            && Is(69615, 0x5e700d)
  {
    hide Is;
    Power(4095, 4095, 0xb4210b, 0xb4210b, 0x0b40de);
    Power(8190, 8190, 0x0b40de, 0x0b40de, 0xd867a3);
    Power(16380, 16380, 0xd867a3, 0xd867a3, 0x18b5a6);
    Power(32760, 32760, 0x18b5a6, 0x18b5a6, 0xef3531);
    Power(65520, 4095, 0xef3531, 0xb4210b, 0x5e700d);
  }

  /** Fifteen times 4095 steps. */
  lemma Fifteenfold()
    requires Is(4095, 0xb4210b) && Is(8190, 0x0b40de) && Is(16380, 0xd867a3) && Is(32760, 0x18b5a6)
    ensures Is(61425, 0x446fbd)
  {
    hide Is;
    Power(8190, 4095, 0x0b40de, 0xb4210b, 0x6867d2);
    Power(16380, 12285, 0xd867a3, 0x6867d2, 0x2b6466);
    Power(32760, 28665, 0x18b5a6, 0x2b6466, 0x446fbd);
  }

  /** A seventeenth. */
  lemma Seventeenth()
    requires Is(4095, 0xb4210b) && Is(61425, 0x446fbd)
    ensures Is(986895, 0x5d1147)
  {
    hide Is;
    Power(61425, 61425, 0x446fbd, 0x446fbd, 0x9a1625);
    Power(122850, 122850, 0x9a1625, 0x9a1625, 0xe305b7);
    Power(245700, 245700, 0xe305b7, 0xe305b7, 0x1fbcd8);
    Power(491400, 491400, 0x1fbcd8, 0x1fbcd8, 0xec4732);
    Power(982800, 4095, 0xec4732, 0xb4210b, 0x5d1147);
  }

  /** One step less than 4096. */
  lemma OneLess(n: nat)
    requires n == 4095 && Is(n + 1, 0x821085)
    ensures Is(n, 0xb4210b)
  {
    IterateStays(ONE, n);
    assert Step(0xb4210b) == 0x821085;
    StepInjective(Iterate(ONE, n), 0xb4210b);
  }

  /** All powers that matter. */
  lemma Powers()
    ensures Is(5592405, 0x720800)
    ensures Is(3355443, 0xd59b8f)
    ensures Is(2396745, 0xb54700)
    ensures Is(1290555, 0x13f7c0)
    ensures Is(986895, 0x5d1147)
    ensures Is(69615, 0x5e700d)
    ensures Is(16777215, ONE)
  {
    hide Is;
    SixteenSteps();
    Squares();
    MoreSquares();
    OneLess(4095);
    Power(4096, 1, 0x821085, 0x400000, 0x990842);
    Multiples();
    MoreMultiples();
    Thirteenth();
    Third();
    Ninths();
    Seventh();
    Fifth();
    Rest();
    Fifteenfold();
    Seventeenth();
  }

  lemma MovesBy(s: bv32, n: nat, v: bv32, inverse: bv32)
    requires IsRegister(s) && Is(n, v) && Mul(inverse, Add(v, ONE)) == ONE
    ensures Iterate(s, n) != s
  {
    hide Mul, Add, IsRegister, Iterate;
    Moves(s, n, inverse);
  }

  /** No register returns after the period divided by one of its prime factors. */
  lemma NotSooner(s: bv32, n: nat)
    requires IsRegister(s)
    requires n in {5592405, 3355443, 2396745, 1290555, 986895, 69615}
    ensures Iterate(s, n) != s
  {
    hide Is, Iterate, IsRegister;
    Powers();
    if n == 5592405 {
      MovesBy(s, n, 0x720800, 0x720800);
    } else if n == 3355443 {
      MovesBy(s, n, 0xd59b8f, 0xd189ed);
    } else if n == 2396745 {
      MovesBy(s, n, 0xb54700, 0xb2c220);
    } else if n == 1290555 {
      MovesBy(s, n, 0x13f7c0, 0xdda015);
    } else if n == 986895 {
      MovesBy(s, n, 0x5d1147, 0x4d0fba);
    } else if n == 69615 {
      MovesBy(s, n, 0x5e700d, 0x817fda);
    }
  }

  // ---------- Common periods ----------

  /** Two numbers of steps after which the seed is back have a common divisor with that property. */
  lemma {:induction false} CommonPeriod(s: bv32, a: nat, b: nat) returns (g: nat, i: nat, j: nat)
    requires IsRegister(s) && 0 < a && 0 < b && Iterate(s, a) == s && Iterate(s, b) == s
    ensures 0 < g && Iterate(s, g) == s && a == g * i && b == g * j
    decreases a + b
  {
    hide Iterate, IsRegister;
    if a == b {
      g, i, j := a, 1, 1;
    } else if a > b {
      SeedReturnsFirst(s, b, a);
      g, i, j := CommonPeriod(s, a - b, b);
      i := i + j;
    } else {
      SeedReturnsFirst(s, a, b);
      g, i, j := CommonPeriod(s, a, b - a);
      j := j + i;
    }
  }

  lemma {:induction false} Multiple(s: bv32, g: nat, k: nat)
    requires Iterate(s, g) == s
    ensures Iterate(s, g * k) == s
  {
    hide Iterate;
    if k == 0 {
      NoStep(s, g * k);
    } else {
      Multiple(s, g, k - 1);
      assert g * k == g * (k - 1) + g;
      IterateIterate(s, g * (k - 1), g);
    }
  }

  lemma NoStep(s: bv32, zero: nat)
    requires zero == 0
    ensures Iterate(s, zero) == s
  {
  }

  // ---------- The prime factors of the period ----------

  lemma {:induction false} Bezout(a: nat, b: nat) returns (g: nat, x: int, y: int, i: nat, j: nat)
    requires 0 < a && 0 < b
    ensures 0 < g && a * x + b * y == g && a == g * i && b == g * j
    decreases a + b
  {
    if a == b {
      g, x, y, i, j := a, 1, 0, 1, 1;
    } else if a > b {
      g, x, y, i, j := Bezout(a - b, b);
      assert a * x + b * (y - x) == g;
      y, i := y - x, i + j;
    } else {
      g, x, y, i, j := Bezout(a, b - a);
      assert a * (x - y) + b * y == g;
      x, j := x - y, j + i;
    }
  }

  predicate IsProduct(g: nat, j: nat, n: nat) { g * j == n }

  predicate IsPrime(q: nat) { q > 1 && forall g, j :: 1 < g < q && 1 < j < q ==> !IsProduct(g, j, q) }

  ghost predicate IsMultiple(m: nat, q: nat) { exists i: nat :: IsProduct(q, i, m) }

  lemma Larger(g: nat, j: nat)
    requires 0 < g && 0 < j
    ensures g <= g * j && j <= g * j && (1 < j ==> g < g * j) && (1 < g ==> j < g * j)
  {
  }

  lemma OnlyOne(q: nat, m: nat, g: nat, i: nat, j: nat)
    requires IsPrime(q) && !IsMultiple(m, q) && 0 < g && g * i == m && g * j == q
    ensures g == 1
  {
    assert IsProduct(g, j, q) && IsProduct(g, i, m);
    assert 0 < j;
    Larger(g, j);
  }

  lemma Monotone(q: nat, a: int, b: int)
    requires 0 < q && a < b
    ensures q * a < q * b
  {
    Larger(q, b - a);
    assert q * (b - a) == q * b - q * a;
  }

  lemma Cancel(q: nat, a: int, b: int)
    requires 0 < q && q * a == q * b
    ensures a == b
  {
    if a < b { Monotone(q, a, b); }
    if b < a { Monotone(q, b, a); }
  }

  lemma Quotient(q: nat, k: nat, w: int)
    requires 0 < q && k == q * w
    ensures 0 <= w
  {
  }

  /** A prime that does not divide `m` divides its cofactor. */
  lemma Peel(q: nat, m: nat, k: nat, r: nat) returns (z: nat)
    requires IsPrime(q) && 0 < m && m * k == q * r && !IsMultiple(m, q)
    ensures m * z == r
  {
    hide IsMultiple;
    var g, x, y, i, j := Bezout(m, q);
    OnlyOne(q, m, g, i, j);
    hide IsPrime;
    Cofactor(q, m, k, r, x, y);
    Quotient(q, k, r * x + k * y);
    z := r * x + k * y;
    assert m * (q * z) == q * (m * z);
    Cancel(q, m * z, r);
  }

  lemma NotMultipleOf3(m: nat)
    requires m % 3 != 0
    ensures !IsMultiple(m, 3)
  {
  }

  lemma NotMultipleOf5(m: nat)
    requires m % 5 != 0
    ensures !IsMultiple(m, 5)
  {
  }

  lemma NotMultipleOf7(m: nat)
    requires m % 7 != 0
    ensures !IsMultiple(m, 7)
  {
  }

  lemma NotMultipleOf13(m: nat)
    requires m % 13 != 0
    ensures !IsMultiple(m, 13)
  {
  }

  lemma NotMultipleOf17(m: nat)
    requires m % 17 != 0
    ensures !IsMultiple(m, 17)
  {
  }

  lemma Cofactor(q: int, m: int, k: int, r: int, x: int, y: int)
    requires m * x + q * y == 1 && m * k == q * r
    ensures k == q * (r * x + k * y)
  {
    calc {
      k;
      k * (m * x + q * y);
      (m * k) * x + q * (k * y);
      (q * r) * x + q * (k * y);
      q * (r * x + k * y);
    }
  }

  lemma SmallPrimes()
    ensures IsPrime(3) && IsPrime(5) && IsPrime(7) && IsPrime(13) && IsPrime(17)
  {
    forall g: nat, j: nat | 1 < g < 17 && 1 < j
      ensures g * j != 3 && g * j != 5 && g * j != 7 && g * j != 13 && g * j != 17
    {
      assert g == 2 || g == 3 || g == 4 || g == 5 || g == 6 || g == 7 || g == 8 || 9 <= g;
      if g >= 9 { assert g * j >= 18; }
    }
  }

  lemma LastFactor(m: nat, z: nat)
    requires m * z == 241 && 2 <= m
    ensures m == 241
  {
  }

  /** Every divisor of the period but one has one of these factors. */
  lemma PrimeFactor(m: nat, k: nat)
    requires m * k == PERIOD && 2 <= m
    ensures m % 3 == 0 || m % 5 == 0 || m % 7 == 0 || m % 13 == 0 || m % 17 == 0 || m % 241 == 0
  {
    SmallPrimes();
    hide IsPrime, IsMultiple;
    if m % 3 != 0 && m % 5 != 0 && m % 7 != 0 && m % 13 != 0 && m % 17 != 0 {
      NotMultipleOf3(m);
      NotMultipleOf5(m);
      NotMultipleOf7(m);
      NotMultipleOf13(m);
      NotMultipleOf17(m);
      var z := Peel(3, m, k, 5592405);
      z := Peel(3, m, z, 1864135);
      z := Peel(5, m, z, 372827);
      z := Peel(7, m, z, 53261);
      z := Peel(13, m, z, 4097);
      z := Peel(17, m, z, 241);
      LastFactor(m, z);
    }
  }

  // ---------- The period ----------

  /** The register returns to its seed after exactly 2^24 - 1 steps, whatever the seed. */
  lemma PeriodExact(seed: bv32, n: nat)
    requires IsRegister(seed) && 0 < n <= PERIOD
    ensures Iterate(seed, n) == seed <==> n == PERIOD
  {
    hide Iterate, IsRegister;
    Returns(seed, PERIOD);
    if n < PERIOD && Iterate(seed, n) == seed {
      var g, i, j := CommonPeriod(seed, n, PERIOD);
      TooSoon(seed, g, j);
    }
  }

  lemma Returns(seed: bv32, n: nat)
    requires IsRegister(seed) && n == PERIOD
    ensures Iterate(seed, n) == seed
  {
    hide Iterate, Mul;
    Powers();
    RegisterBound(seed);
    IterateIsMul(seed, n);
    MulOne(seed);
  }

  /** No proper divisor of the period is a period. */
  lemma TooSoon(seed: bv32, g: nat, j: nat)
    requires IsRegister(seed) && 0 < g < PERIOD && g * j == PERIOD
    ensures Iterate(seed, g) != seed
  {
    hide Iterate, IsRegister;
    PrimeFactor(j, g);
    var q := if j % 3 == 0 then 3 else if j % 5 == 0 then 5 else if j % 7 == 0 then 7
             else if j % 13 == 0 then 13 else if j % 17 == 0 then 17 else 241;
    var k := j / q;
    assert q * (g * k) == PERIOD;
    NotSooner(seed, g * k);
    if Iterate(seed, g) == seed { Multiple(seed, g, k); }
  }
}
