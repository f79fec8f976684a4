/** Exponential decay in Q48 fixed point: the table of 2^(-k/1024) and its truncation error. */
module Decay {

  /** 1.0 in Q48. */
  const ONE: nat := 0x1_0000_0000_0000
  const HALF: nat := 0x8000_0000_0000
  const STEPS: nat := 1024

  function MulQ48(a: nat, b: nat): nat { a * b / ONE }

  /** Square-and-multiply from a partial product: what the loop computes. */
  function PowFrom(acc: nat, base: nat, exp: nat): nat
    decreases exp, acc, base
  {
    if exp == 0 then acc
    else PowFrom(if exp % 2 == 1 then MulQ48(acc, base) else acc, MulQ48(base, base), exp / 2)
  }

  method PowQ48(base0: nat, exp0: nat) returns (acc: nat)
    ensures acc == PowFrom(ONE, base0, exp0)
  {
    var base, exp := base0, exp0;
    acc := ONE;
    while exp > 0
      invariant PowFrom(acc, base, exp) == PowFrom(ONE, base0, exp0)
    {
      if exp % 2 == 1 { acc := MulQ48(acc, base); }
      base := MulQ48(base, base);
      exp := exp / 2;
    }
  }

  lemma MulMonotone(a: nat, b: nat, c: nat, d: nat)
    requires a <= c && b <= d
    ensures MulQ48(a, b) <= MulQ48(c, d)
  {
    assert a * b <= c * d by {
      assert a * b <= c * b;
      assert c * b <= c * d;
    }
  }

  lemma MulAtMost(a: nat, b: nat)
    requires b <= ONE
    ensures MulQ48(a, b) <= a
  {
    assert a * b <= a * ONE;
  }

  lemma {:induction false} PowMonotone(acc: nat, acc': nat, base: nat, base': nat, exp: nat)
    requires acc <= acc' && base <= base'
    ensures PowFrom(acc, base, exp) <= PowFrom(acc', base', exp)
    decreases exp
  {
    if exp > 0 {
      MulMonotone(acc, base, acc', base');
      MulMonotone(base, base, base', base');
      PowMonotone(if exp % 2 == 1 then MulQ48(acc, base) else acc, if exp % 2 == 1 then MulQ48(acc', base') else acc',
                  MulQ48(base, base), MulQ48(base', base'), exp / 2);
    }
  }

  lemma {:induction false} PowAtMost(acc: nat, base: nat, exp: nat)
    requires base <= ONE
    ensures PowFrom(acc, base, exp) <= acc
    decreases exp
  {
    if exp > 0 {
      MulAtMost(acc, base);
      MulAtMost(base, base);
      PowAtMost(if exp % 2 == 1 then MulQ48(acc, base) else acc, MulQ48(base, base), exp / 2);
    }
  }

  // ---- the exact power, over the reals ----

  /** The real number a Q48 value stands for; `Exact(1)` is one unit in the last place. */
  function Exact(q: nat): real { q as real / 281474976710656.0 }

  function Power(x: real, n: nat): real
    decreases n, x
  {
    if n == 0 then 1.0 else x * Power(x, n - 1)
  }

  lemma {:induction false} PowerInUnit(x: real, n: nat)
    requires 0.0 <= x <= 1.0
    ensures 0.0 <= Power(x, n) <= 1.0
  {
    if n > 0 {
      PowerInUnit(x, n - 1);
      ProductInUnit(x, Power(x, n - 1));
    }
  }

  lemma ProductInUnit(x: real, y: real)
    requires 0.0 <= x <= 1.0 && 0.0 <= y
    ensures 0.0 <= x * y <= y
  {}

  lemma ProductMonotone(a: real, b: real, c: real, d: real)
    requires 0.0 <= a <= c && 0.0 <= b <= d
    ensures a * b <= c * d
  {
    assert a * b <= c * b;
    assert c * b <= c * d;
  }

  lemma {:induction false} PowerMonotone(x: real, y: real, n: nat)
    requires 0.0 <= x <= y
    ensures 0.0 <= Power(x, n) <= Power(y, n)
  {
    if n > 0 {
      PowerMonotone(x, y, n - 1);
      ProductMonotone(x, Power(x, n - 1), y, Power(y, n - 1));
    }
  }

  lemma {:induction false} PowerOfSquare(x: real, h: nat)
    ensures Power(x * x, h) == Power(x, 2 * h)
  {
    if h > 0 {
      PowerOfSquare(x, h - 1);
      calc {
        Power(x, 2 * h);
        x * Power(x, 2 * h - 1);
        x * (x * Power(x, 2 * h - 2));
        (x * x) * Power(x * x, h - 1);
      }
    }
  }

  lemma {:induction false} PowerDecreasing(x: real, m: nat, n: nat)
    requires 0.0 <= x <= 1.0 && m <= n
    ensures Power(x, n) <= Power(x, m)
    decreases n
  {
    if m < n {
      PowerDecreasing(x, m, n - 1);
      PowerInUnit(x, n - 1);
      ProductInUnit(x, Power(x, n - 1));
    }
  }

  lemma SplitProduct(y: real, p: real, z: real, q: real)
    ensures y * p - z * q == p * (y - z) + z * (p - q)
  {}

  /** Two products differ by no more than their factors do, inside the unit interval. */
  lemma ProductsClose(y: real, p: real, z: real, q: real, d: real, c: real)
    requires 0.0 <= p <= 1.0 && 0.0 <= z <= 1.0 && 0.0 <= c && 0.0 <= d
    requires y - z <= d && p - q <= c
    ensures y * p - z * q <= d + c
  {
    SplitProduct(y, p, z, q);
    UnitTimes(p, y - z, d);
    UnitTimes(z, p - q, c);
  }

  lemma UnitTimes(u: real, x: real, bound: real)
    requires 0.0 <= u <= 1.0 && x <= bound && 0.0 <= bound
    ensures u * x <= bound
  {
    assert 0.0 <= u * (bound - x) == u * bound - u * x;
    assert 0.0 <= (1.0 - u) * bound == bound - u * bound;
  }

  /** `n * m` by repeated addition, so that steps of it are linear. */
  function Times(n: nat, m: nat): nat
    decreases n, m
  {
    if n == 0 then 0 else Times(n - 1, m) + m
  }

  lemma {:induction false} TimesIsProduct(n: nat, m: nat)
    ensures Times(n, m) == n * m
  {
    if n > 0 {
      TimesIsProduct(n - 1, m);
      assert n * m == (n - 1) * m + m;
    }
  }

  /** A power moves at most `n` times as far as its base. */
  lemma {:induction false} PowerLipschitz(z: real, y: real, m: nat, n: nat)
    requires 0.0 <= z <= y <= 1.0 && y - z <= Exact(m)
    ensures Power(y, n) - Power(z, n) <= Exact(Times(n, m))
  {
    if n > 0 {
      PowerLipschitz(z, y, m, n - 1);
      PowerInUnit(y, n - 1);
      ProductsCloseAs(y, Power(y, n - 1), z, Power(z, n - 1), Exact(m), Exact(Times(n - 1, m)), Power(y, n),
                      Power(z, n));
    }
  }

  lemma ProductsCloseAs(y: real, p: real, z: real, q: real, d: real, c: real, yp: real, zq: real)
    requires 0.0 <= p <= 1.0 && 0.0 <= z <= 1.0 && 0.0 <= c && 0.0 <= d
    requires y - z <= d && p - q <= c && yp == y * p && zq == z * q
    ensures yp - zq <= d + c
  {
    ProductsClose(y, p, z, q, d, c);
  }

  // ---- truncation error ----

  lemma MulError(a: nat, b: nat)
    ensures Exact(a) * Exact(b) - Exact(1) <= Exact(MulQ48(a, b)) <= Exact(a) * Exact(b)
  {
    var p, m := a * b, MulQ48(a, b);
    assert m * ONE <= p < m * ONE + ONE;
    assert p as real == a as real * b as real;
    ProductOfQuotients(a as real, b as real);
  }

  lemma ProductOfQuotients(x: real, y: real)
    ensures (x / 281474976710656.0) * (y / 281474976710656.0) == (x * y) / 281474976710656.0 / 281474976710656.0
  {}

  lemma ExactInUnit(q: nat)
    requires q <= ONE
    ensures 0.0 <= Exact(q) <= 1.0
  {}

  lemma PowerSplit(a: real, x: real, exp: nat)
    ensures Folded(a, x, exp % 2 == 1) * Power(x, 2 * (exp / 2)) == a * Power(x, exp)
  {
    if exp % 2 == 1 {
      assert exp == 2 * (exp / 2) + 1;
      AssociateReals(a, x, Power(x, exp - 1));
    }
  }

  lemma AssociateReals(a: real, b: real, c: real)
    ensures a * b * c == a * (b * c)
  {}

  /** The exact value of a computation in progress: `acc * base^exp`. */
  function Goal(acc: nat, base: nat, exp: nat): real { Exact(acc) * Power(Exact(base), exp) }

  /** The computed power never exceeds the exact one. */
  lemma {:induction false} PowUpper(acc: nat, base: nat, exp: nat, goal: real)
    requires base <= ONE && goal == Goal(acc, base, exp)
    ensures Exact(PowFrom(acc, base, exp)) <= goal
    decreases exp
  {
    if exp > 0 {
      var acc', base', h := FoldedQ48(acc, base, exp % 2 == 1), MulQ48(base, base), exp / 2;
      MulAtMost(base, base);
      var goal' := StepUpper(acc, base, exp);
      PowUpper(acc', base', h, goal');
    }
  }

  /** The next partial product, exactly. */
  function Folded(a: real, x: real, isOdd: bool): real { if isOdd then a * x else a }

  function FoldedQ48(acc: nat, base: nat, isOdd: bool): nat { if isOdd then MulQ48(acc, base) else acc }

  lemma FoldError(acc: nat, base: nat, isOdd: bool)
    ensures 0.0 <= Folded(Exact(acc), Exact(base), isOdd)
    ensures Folded(Exact(acc), Exact(base),
              isOdd) - Exact(1) <= Exact(FoldedQ48(acc, base, isOdd)) <= Folded(Exact(acc), Exact(base), isOdd)
  {
    if isOdd { MulError(acc, base); }
  }

  /** One round replaces the goal by one no larger. */
  lemma StepUpper(acc: nat, base: nat, exp: nat) returns (goal': real)
    requires exp > 0
    ensures goal' == Goal(FoldedQ48(acc, base, exp % 2 == 1), MulQ48(base, base), exp / 2)
    ensures goal' <= Goal(acc, base, exp)
  {
    var h, x := exp / 2, Exact(base);
    var a, f := Exact(FoldedQ48(acc, base, exp % 2 == 1)), Folded(Exact(acc), x, exp % 2 == 1);
    var y := Exact(MulQ48(base, base));
    goal' := Goal(FoldedQ48(acc, base, exp % 2 == 1), MulQ48(base, base), h);
    MulError(base, base);
    FoldError(acc, base, exp % 2 == 1);
    PowerMonotone(y, x * x, h);
    PowerOfSquare(x, h);
    ProductMonotone(a, Power(y, h), f, Power(x, 2 * h));
    PowerSplit(Exact(acc), x, exp);
  }

  /** It falls short by at most two units in the last place per unit of exponent. */
  lemma {:induction false} PowLower(acc: nat, base: nat, exp: nat, goal: real)
    requires acc <= ONE && base <= ONE && goal == Goal(acc, base, exp)
    ensures Exact(PowFrom(acc, base, exp)) >= goal - Exact(2 * exp)
    decreases exp
  {
    if exp > 0 {
      var acc', base', h := FoldedQ48(acc, base, exp % 2 == 1), MulQ48(base, base), exp / 2;
      MulAtMost(base, base);
      MulAtMost(acc, base);
      var goal' := StepLower(acc, base, exp);
      PowLower(acc', base', h, goal');
    }
  }

  lemma PowersClose(y: real, xx: real, h: nat)
    requires 0.0 <= y <= xx <= 1.0 && xx - Exact(1) <= y
    ensures 0.0 <= Power(xx, h) <= 1.0 && Power(xx, h) - Power(y, h) <= Exact(h)
  {
    PowerInUnit(xx, h);
    PowerLipschitz(y, xx, 1, h);
    TimesIsProduct(h, 1);
  }

  /** One round loses one unit from the product and at most `h` from the squared base. */
  lemma RoundLoss(f: real, a: real, p: real, q: real, h: nat, exact: real, rounded: real)
    requires 0.0 <= a <= 1.0 && f - Exact(1) <= a
    requires 0.0 <= p <= 1.0 && p - q <= Exact(h)
    requires exact == f * p && rounded == a * q
    ensures rounded >= exact - Exact(h + 1)
  {
    ProductsCloseAs(f, p, a, q, Exact(1), Exact(h), exact, rounded);
  }

  lemma SquareError(base: nat)
    requires base <= ONE
    ensures 0.0 <= Exact(MulQ48(base, base)) <= Exact(base) * Exact(base) <= 1.0
    ensures Exact(base) * Exact(base) - Exact(1) <= Exact(MulQ48(base, base))
  {
    MulError(base, base);
    ExactInUnit(base);
    ProductInUnit(Exact(base), Exact(base));
  }

  lemma SquaredPowersClose(x: real, y: real, h: nat)
    requires 0.0 <= y <= x * x <= 1.0 && x * x - Exact(1) <= y
    ensures 0.0 <= Power(x, 2 * h) <= 1.0 && Power(x, 2 * h) - Power(y, h) <= Exact(h)
  {
    PowersClose(y, x * x, h);
    PowerOfSquare(x, h);
  }

  lemma SquareLoss(base: nat, h: nat)
    requires base <= ONE
    ensures var p := Power(Exact(base), 2 * h); 0.0 <= p <= 1.0 && p - Power(Exact(MulQ48(base, base)), h) <= Exact(h)
  {
    SquareError(base);
    SquaredPowersClose(Exact(base), Exact(MulQ48(base, base)), h);
  }

  lemma FoldLoss(acc: nat, base: nat, odd: bool)
    requires acc <= ONE && base <= ONE
    ensures var a := Exact(FoldedQ48(acc, base, odd));
            0.0 <= a <= 1.0 && Folded(Exact(acc), Exact(base), odd) - Exact(1) <= a
  {
    FoldError(acc, base, odd);
    MulAtMost(acc, base);
    ExactInUnit(FoldedQ48(acc, base, odd));
  }

  /** One round lowers the goal by at most half the exponent plus one unit. */
  lemma StepLower(acc: nat, base: nat, exp: nat) returns (goal': real)
    requires acc <= ONE && base <= ONE && exp > 0
    ensures goal' == Goal(FoldedQ48(acc, base, exp % 2 == 1), MulQ48(base, base), exp / 2)
    ensures goal' >= Goal(acc, base, exp) - Exact(exp / 2 + 1)
  {
    var h, odd := exp / 2, exp % 2 == 1;
    var a', b' := FoldedQ48(acc, base, odd), MulQ48(base, base);
    goal' := Goal(a', b', h);
    var f, p := Folded(Exact(acc), Exact(base), odd), Power(Exact(base), 2 * h);
    FoldLoss(acc, base, odd);
    SquareLoss(base, h);
    var goal := Goal(acc, base, exp);
    PowerSplit(Exact(acc), Exact(base), exp);
    RoundLoss(f, Exact(a'), p, Power(Exact(b'), h), h, goal, goal');
  }

  // ---- the table ----

  /** The largest Q48 value whose 1024th power, as computed, is at most one half. */
  predicate IsRoot(root: nat) {
    HALF <= root < ONE && PowFrom(ONE, root, STEPS) <= HALF < PowFrom(ONE, root + 1, STEPS)
  }

  /** Binary search really finds the largest: every smaller base qualifies and every larger one fails. */
  lemma RootIsLargest(root: nat, base: nat)
    requires IsRoot(root) && base <= ONE
    ensures PowFrom(ONE, base, STEPS) <= HALF <==> base <= root
  {
    if base <= root {
      PowMonotone(ONE, ONE, base, root, STEPS);
    } else {
      PowMonotone(ONE, ONE, root + 1, base, STEPS);
    }
  }

  ghost predicate IsTableOf(table: seq<nat>, root: nat) {
    |table| == STEPS && IsRoot(root) && forall k :: 0 <= k < STEPS ==> table[k] == PowFrom(ONE, root, k)
  }

  ghost predicate IsTable(table: seq<nat>) { exists root :: IsTableOf(table, root) }

  lemma {:induction false} PowOfOne(acc: nat, exp: nat)
    ensures PowFrom(acc, ONE, exp) == acc
    decreases exp
  {
    if exp > 0 {
      assert MulQ48(acc, ONE) == acc && MulQ48(ONE, ONE) == ONE;
      PowOfOne(acc, exp / 2);
    }
  }

  lemma PowUpperOne(base: nat, exp: nat)
    requires base <= ONE
    ensures Exact(PowFrom(ONE, base, exp)) <= Power(Exact(base), exp)
  {
    PowUpper(ONE, base, exp, Power(Exact(base), exp));
  }

  lemma PowLowerOne(base: nat, exp: nat)
    requires base <= ONE
    ensures Exact(PowFrom(ONE, base, exp)) >= Power(Exact(base), exp) - Exact(2 * exp)
  {
    PowLower(ONE, base, exp, Power(Exact(base), exp));
  }

  lemma PowOfHalf(n: nat)
    requires n > 0
    ensures PowFrom(ONE, HALF, n) <= HALF
  {
    var x := Exact(HALF);
    PowUpperOne(HALF, n);
    PowerDecreasing(x, 1, n);
    assert Power(x, 1) == x * Power(x, 0) == x;
  }

  /** Binary search for the largest base whose `n`-th power is at most one half. */
  method FindRoot(n: nat) returns (root: nat)
    requires n > 0
    ensures HALF <= root < ONE && PowFrom(ONE, root, n) <= HALF < PowFrom(ONE, root + 1, n)
  {
    var lo, hi := ONE / 2, ONE;
    PowOfHalf(n);
    PowOfOne(ONE, n);
    while lo + 1 < hi
      invariant HALF <= lo < hi <= ONE
      invariant PowFrom(ONE, lo, n) <= HALF < PowFrom(ONE, hi, n)
    {
      var mid := lo + (hi - lo) / 2;
      var p := PowQ48(mid, n);
      if p <= ONE / 2 { lo := mid; } else { hi := mid; }
    }
    root := lo;
  }

  method BuildDecayTable() returns (table: seq<nat>)
    ensures IsTable(table)
  {
    var root := FindRoot(STEPS);
    table := [];
    for k := 0 to STEPS
      invariant |table| == k && forall i :: 0 <= i < k ==> table[i] == PowFrom(ONE, root, i)
    {
      var p := PowQ48(root, k);
      table := table + [p];
    }
    assert IsTableOf(table, root);
  }

  /** The root stays clear of 1.0: at least 2^37 - 2 units below it. */
  lemma RootBelowOne(root: nat)
    requires IsRoot(root)
    ensures ONE - root >= 0x20_0000_0000 - 2
  {
    var r := Exact(root);
    PowLowerOne(root, STEPS);
    assert Power(r, STEPS) <= Exact(HALF) + Exact(2048);
    PowerLipschitz(r, 1.0, ONE - root, STEPS);
    TimesIsProduct(STEPS, ONE - root);
    PowerOfOne(STEPS);
  }

  lemma {:induction false} PowerOfOne(n: nat)
    ensures Power(1.0, n) == 1.0
  {
    if n > 0 { PowerOfOne(n - 1); }
  }

  /** Just above the root the exact power exceeds one half, so below it every power stays near one half or more. */
  lemma PowersAboveHalf(root: nat, k: nat)
    requires IsRoot(root) && k <= STEPS
    ensures Power(Exact(root + 1), k) > 0.5
    ensures Power(Exact(root), k) > 0.5 - Exact(1024)
  {
    PowUpperOne(root + 1, STEPS);
    assert Power(Exact(root + 1), STEPS) > 0.5;
    ExactInUnit(root + 1);
    PowerDecreasing(Exact(root + 1), k, STEPS);
    PowerLipschitz(Exact(root), Exact(root + 1), 1, k);
    TimesIsProduct(k, 1);
  }

  /** Neighbouring entries are far further apart than the truncation error. */
  lemma TableDecreases(root: nat, k: nat)
    requires IsRoot(root) && k < STEPS
    ensures PowFrom(ONE, root, k + 1) < PowFrom(ONE, root, k)
  {
    var r, p := Exact(root), Power(Exact(root), k);
    RootBelowOne(root);
    PowersAboveHalf(root, k);
    PowUpperOne(root, k + 1);
    PowLowerOne(root, k);
    assert Power(r, k + 1) == r * p;
    assert r <= 1.0 - 1.0 / 4096.0 && p > 0.25;
    Gap(r, p);
  }

  lemma Gap(r: real, p: real)
    requires p > 0.25 && r <= 1.0 - 1.0 / 4096.0
    ensures r * p < p - 1.0 / 16384.0
  {
    assert (1.0 - r) * p >= (1.0 / 4096.0) * p;
  }

  /** The last entry has not yet reached one half: halving boundaries do not jump upwards. */
  lemma LastEntryAboveHalf(root: nat)
    requires IsRoot(root)
    ensures PowFrom(ONE, root, STEPS - 1) >= HALF
  {
    var x := Exact(root + 1);
    RootBelowOne(root);
    PowersAboveHalf(root, STEPS);
    PowersAboveHalf(root, STEPS - 1);
    var y := Power(x, STEPS - 1);
    assert Power(x, STEPS) == x * y;
    Gap(x, y);
    PowerLipschitz(Exact(root), x, 1, STEPS - 1);
    TimesIsProduct(STEPS - 1, 1);
    PowLowerOne(root, STEPS - 1);
  }

  /** Shift right, one bit at a time. */
  function Shr(v: nat, n: nat): nat
    decreases n, v
  {
    if n == 0 then v else Shr(v / 2, n - 1)
  }

  function DecayFactor(table: seq<nat>, steps: nat): nat
    requires |table| == STEPS
  {
    var halvings := steps / STEPS;
    if halvings >= 48 then 0 else Shr(table[steps % STEPS], halvings)
  }

  lemma {:induction false} TableNonIncreasing(root: nat, i: nat, j: nat)
    requires IsRoot(root) && i <= j < STEPS
    ensures PowFrom(ONE, root, j) <= PowFrom(ONE, root, i)
    decreases j
  {
    if i < j {
      TableNonIncreasing(root, i, j - 1);
      TableDecreases(root, j - 1);
    }
  }

  lemma {:induction false} ShrMonotone(v: nat, w: nat, n: nat)
    requires v <= w
    ensures Shr(v, n) <= Shr(w, n)
    decreases n
  {
    if n > 0 { ShrMonotone(v / 2, w / 2, n - 1); }
  }

  lemma {:induction false} ShrMore(v: nat, h: nat, h': nat)
    requires h <= h'
    ensures Shr(v, h') <= Shr(v, h)
    decreases h' - h
  {
    if h < h' {
      ShrMore(v, h + 1, h');
      ShrMonotone(v / 2, v, h);
    }
  }

  /** More elapsed steps never mean a larger factor, across halving boundaries too. */
  lemma DecayFactorNonIncreasing(table: seq<nat>, steps: nat, steps': nat)
    requires IsTable(table) && steps <= steps'
    ensures DecayFactor(table, steps') <= DecayFactor(table, steps) <= ONE
  {
    var root :| IsTableOf(table, root);
    var h, h', i, j := steps / STEPS, steps' / STEPS, steps % STEPS, steps' % STEPS;
    PowAtMost(ONE, root, i);
    PowAtMost(ONE, root, j);
    ShrMore(table[i], 0, h);
    if h' < 48 {
      if h == h' {
        TableNonIncreasing(root, i, j);
        ShrMonotone(table[j], table[i], h);
      } else {
        LastEntryAboveHalf(root);
        TableNonIncreasing(root, i, STEPS - 1);
        ShrMore(table[j], h + 1, h');
        ShrMonotone(table[j] / 2, table[i], h);
      }
    }
  }
}
