/** Fair share: how usage decays per account, and how the factor falls with usage and rises with shares. */
module FairShares {
  import opened Domain
  import opened Decay

  const FACTOR_SCALE: nat := 1_000_000
  const MAX_ACCOUNTS: nat := 1_024
  const NANOS_PER_MILLI: nat := 1_000_000

  function Cap64(x: nat): u64 { Min(x, U64_MAX) }

  // ---- the factor ----

  /** `FACTOR_SCALE * 2^(-(usage/usageTotal) / (shares/sharesTotal))`. */
  function FactorFor(table: seq<nat>, usage: nat, shares: nat, usageTotal: nat, sharesTotal: nat): nat
    requires |table| == STEPS
  {
    if usageTotal == 0 then FACTOR_SCALE
    else if shares == 0 then 0
    else MulQ48(FACTOR_SCALE, DecayFactor(table, Exponent(usage, shares, usageTotal, sharesTotal)))
  }

  /** The exponent in table steps, clamped into `u64`. */
  function Exponent(usage: nat, shares: nat, usageTotal: nat, sharesTotal: nat): u64
    requires usageTotal > 0 && shares > 0
  {
    Cap64((usage * sharesTotal * STEPS) / (usageTotal * shares))
  }

  /** No intermediate product leaves `u128`, for every ledger table the program can hold. */
  lemma FactorArithmeticFits(usage: nat, shares: nat, usageTotal: nat, sharesTotal: nat)
    requires usage <= U64_MAX && shares <= U32_MAX
    requires usageTotal <= MAX_ACCOUNTS * U64_MAX && sharesTotal <= MAX_ACCOUNTS * U32_MAX
    ensures usage * sharesTotal * STEPS < 0x1_0000_0000_0000_0000_0000_0000_0000_0000
    ensures usageTotal * shares < 0x1_0000_0000_0000_0000_0000_0000_0000_0000
  {
    ProductAtMost(usage, U64_MAX, sharesTotal, MAX_ACCOUNTS * U32_MAX);
    ProductAtMost(usageTotal, MAX_ACCOUNTS * U64_MAX, shares, U32_MAX);
  }

  lemma ProductAtMost(a: nat, c: nat, b: nat, d: nat)
    requires a <= c && b <= d
    ensures a * b <= c * d
  {
    assert a * b <= c * b;
    assert c * b <= c * d;
  }

  lemma FactorInRange(table: seq<nat>, usage: nat, shares: nat, usageTotal: nat, sharesTotal: nat)
    requires IsTable(table)
    ensures FactorFor(table, usage, shares, usageTotal, sharesTotal) <= FACTOR_SCALE
  {
    if usageTotal > 0 && shares > 0 {
      var x := Exponent(usage, shares, usageTotal, sharesTotal);
      DecayFactorNonIncreasing(table, x, x);
      MulAtMost(FACTOR_SCALE, DecayFactor(table, x));
    }
  }

  /** Cross-multiplied fractions keep their order after integer division. */
  lemma QuotientOrder(a: nat, b: nat, c: nat, d: nat)
    requires b > 0 && d > 0 && a * d <= c * b
    ensures a / b <= c / d
  {
    var q := a / b;
    assert q * b <= a;
    assert q * b * d <= a * d <= c * b;
    CancelRight(q * d, c, b);
    QuotientAtLeast(c, d, q);
  }

  lemma CancelRight(x: nat, y: nat, b: nat)
    requires b > 0 && x * b <= y * b
    ensures x <= y
  {}

  lemma QuotientAtLeast(c: nat, d: nat, q: nat)
    requires d > 0 && q * d <= c
    ensures q <= c / d
  {
    assert c == (c / d) * d + c % d;
    CancelBelow(q, c / d, d);
  }

  lemma CancelBelow(q: nat, k: nat, d: nat)
    requires d > 0 && q * d < k * d + d
    ensures q <= k
  {
    assert k * d + d == (k + 1) * d;
    if q > k { ProductAtMost(k + 1, q, d, d); }
  }

  /** Using more never raises an account's own factor: its usage is part of the total. */
  lemma FactorFallsWithUsage(table: seq<nat>, usage: nat, usage': nat, others: nat, shares: nat, sharesTotal: nat)
    requires IsTable(table) && usage <= usage'
    ensures FactorFor(table, usage', shares, usage' + others, sharesTotal)
         <= FactorFor(table, usage, shares, usage + others, sharesTotal)
  {
    FactorInRange(table, usage', shares, usage' + others, sharesTotal);
    if usage + others > 0 && shares > 0 {
      ExponentRises(usage, usage', others, shares, sharesTotal);
      LowerExponent(table, Exponent(usage, shares, usage + others, sharesTotal),
          Exponent(usage', shares, usage' + others, sharesTotal));
    }
  }

  lemma ExponentRises(u: nat, u': nat, o: nat, s: nat, t: nat)
    requires u <= u' && u + o > 0 && s > 0
    ensures Exponent(u, s, u + o, t) <= Exponent(u', s, u' + o, t)
  {
    var k := t * STEPS;
    assert u * t * STEPS == u * k && u' * t * STEPS == u' * k;
    UsageCross(u, u', o, s, k);
    QuotientOrder(u * k, (u + o) * s, u' * k, (u' + o) * s);
  }

  lemma ExponentFalls(u: nat, t: nat, s: nat, s': nat, o: nat)
    requires s <= s' && t > 0 && s > 0
    ensures Exponent(u, s', t, s' + o) <= Exponent(u, s, t, s + o)
  {
    var k := u * STEPS;
    assert u * (s' + o) * STEPS == k * (s' + o) && u * (s + o) * STEPS == k * (s + o);
    SharesCross(k, t, s, s', o);
    QuotientOrder(k * (s' + o), t * s', k * (s + o), t * s);
  }

  lemma LowerExponent(table: seq<nat>, x: nat, x': nat)
    requires IsTable(table) && x <= x'
    ensures MulQ48(FACTOR_SCALE, DecayFactor(table, x')) <= MulQ48(FACTOR_SCALE, DecayFactor(table, x))
  {
    DecayFactorNonIncreasing(table, x, x');
    MulMonotone(FACTOR_SCALE, DecayFactor(table, x'), FACTOR_SCALE, DecayFactor(table, x));
  }

  lemma UsageCross(u: nat, u': nat, o: nat, s: nat, t: nat)
    requires u <= u'
    ensures u * t * ((u' + o) * s) <= u' * t * ((u + o) * s)
  {
    assert u * (u' + o) <= u' * (u + o) by {
      assert u * o <= u' * o;
      assert u * (u' + o) == u * u' + u * o && u' * (u + o) == u' * u + u' * o;
    }
    var ts := t * s;
    ProductAtMost(u * (u' + o), u' * (u + o), ts, ts);
    Regroup(u, t, u' + o, s);
    Regroup(u', t, u + o, s);
  }

  lemma Regroup(a: nat, t: nat, b: nat, s: nat)
    ensures a * t * (b * s) == a * b * (t * s)
  {}

  /** A larger share never lowers an account's own factor: its shares are part of the total. */
  lemma FactorRisesWithShares(table: seq<nat>, usage: nat, usageTotal: nat, shares: nat, shares': nat, others: nat)
    requires IsTable(table) && shares <= shares'
    ensures FactorFor(table, usage, shares, usageTotal, shares + others) <= FactorFor(table, usage, shares',
              usageTotal, shares' + others)
  {
    FactorInRange(table, usage, shares, usageTotal, shares + others);
    if usageTotal > 0 && shares > 0 {
      ExponentFalls(usage, usageTotal, shares, shares', others);
      LowerExponent(table, Exponent(usage, shares', usageTotal, shares' + others),
                    Exponent(usage, shares, usageTotal, shares + others));
    }
  }

  lemma SharesCross(u: nat, t: nat, s: nat, s': nat, o: nat)
    requires s <= s'
    ensures u * (s' + o) * (t * s) <= u * (s + o) * (t * s')
  {
    CrossSum(s, s', o);
    ProductAtMost((s' + o) * s, (s + o) * s', u * t, u * t);
    Swap(u, s' + o, t, s);
    Swap(u, s + o, t, s');
  }

  lemma CrossSum(s: nat, s': nat, o: nat)
    requires s <= s'
    ensures (s' + o) * s <= (s + o) * s'
  {
    ProductAtMost(o, o, s, s');
    Distribute(s', o, s);
    Distribute(s, o, s');
    Commute(s, s');
  }

  lemma Distribute(a: nat, b: nat, c: nat)
    ensures (a + b) * c == a * c + b * c
  {}

  lemma Commute(a: nat, b: nat)
    ensures a * b == b * a
  {}

  /** A product of two products with the outer and inner factors paired the other way. */
  lemma Swap(u: nat, b: nat, t: nat, s: nat)
    ensures u * b * (t * s) == b * s * (u * t)
  {
    calc {
      u * b * (t * s);
      { Associate(u, b, t * s); }
      u * (b * (t * s));
      { Associate(b, t, s); Associate(b, s, t); Commute(t, s); }
      u * (b * s * t);
      { Associate(u, b * s, t); Commute(u, b * s); }
      b * s * u * t;
      { Associate(b * s, u, t); }
      b * s * (u * t);
    }
  }

  lemma Associate(a: nat, b: nat, c: nat)
    ensures a * b * c == a * (b * c)
  {}

  // ---- one ledger ----

  datatype Ledger = Ledger(usage: u64, runningCpu: u64, shares: u32, accruedTo: u64, decayedTo: u64)

  const FRESH: Ledger := Ledger(0, 0, 1, 0, 0)

  /** The length of one decay step, at least one nanosecond. */
  function Quantum(halfLife: u64): (q: nat)
    ensures q > 0
  {
    if halfLife / STEPS == 0 then 1 else halfLife / STEPS
  }

  function Decayed(table: seq<nat>, usage: u64, steps: nat): nat
    requires |table| == STEPS
  {
    var halvings := steps / STEPS;
    if halvings >= 64 then 0 else MulQ48(Shr(usage, halvings), table[steps % STEPS])
  }

  lemma DecayedAtMost(table: seq<nat>, usage: u64, steps: nat)
    requires IsTable(table)
    ensures Decayed(table, usage, steps) <= usage
  {
    var root :| IsTableOf(table, root);
    PowAtMost(ONE, root, steps % STEPS);
    ShrMore(usage, 0, steps / STEPS);
    MulAtMost(Shr(usage, steps / STEPS), table[steps % STEPS]);
  }

  /** Whole units of `q` between `from` and `now`. */
  function Whole(from: nat, now: nat, q: nat): nat
    requires q > 0
  {
    Monus(now, from) / q
  }

  /** The mark after consuming those units; the remainder waits. */
  function Advance(from: nat, now: nat, q: nat): (r: nat)
    requires q > 0
    ensures from <= r && (r <= now || r == from)
  {
    assert Whole(from, now, q) * q <= Monus(now, from);
    from + Whole(from, now, q) * q
  }

  /** The ledger brought up to `now`: old usage decayed, recent cpu time added. */
  function Touch(table: seq<nat>, l: Ledger, now: u64, quantum: nat): Ledger
    requires IsTable(table) && quantum > 0
  {
    var steps := Whole(l.decayedTo, now, quantum);
    DecayedAtMost(table, l.usage, steps);
    var usage := if steps > 0 then Decayed(table, l.usage, steps) else l.usage;
    var ms := Whole(l.accruedTo, now, NANOS_PER_MILLI);
    Ledger(if ms > 0 then Cap64(usage + Cap64(l.runningCpu * ms)) else usage, l.runningCpu, l.shares,
           Advance(l.accruedTo, now, NANOS_PER_MILLI), Advance(l.decayedTo, now, quantum))
  }

  // ---- how often a ledger is touched does not matter ----

  lemma QuotientShift(x: nat, k: nat, q: nat)
    requires q > 0 && k * q <= x
    ensures (x - k * q) / q == x / q - k
  {
    var m, r := x / q, x % q;
    assert x == m * q + r;
    QuotientAtLeast(x, q, k);
    assert x - k * q == (m - k) * q + r;
    DivByParts(m - k, q, r);
  }

  lemma DivByParts(m: nat, q: nat, r: nat)
    requires q > 0 && r < q
    ensures (m * q + r) / q == m
  {
    var v := m * q + r;
    QuotientAtLeast(v, q, m);
    assert v == (v / q) * q + v % q;
    CancelBelow(v / q, m, q);
  }

  lemma AdvanceTwice(from: nat, a: nat, b: nat, q: nat)
    requires q > 0 && a <= b
    ensures Advance(Advance(from, a, q), b, q) == Advance(from, b, q)
    ensures Whole(from, a, q) + Whole(Advance(from, a, q), b, q) == Whole(from, b, q)
  {
    var k := Whole(from, a, q);
    if from <= a {
      assert k * q <= a - from;
      QuotientShift(b - from, k, q);
      var m := Whole(from, b, q);
      assert (m - k) * q == m * q - k * q;
    }
  }

  function TouchAll(table: seq<nat>, l: Ledger, times: seq<u64>, quantum: nat): Ledger
    requires IsTable(table) && quantum > 0
  {
    if times == [] then l
    else Touch(table, TouchAll(table, l, times[..|times| - 1], quantum), times[|times| - 1], quantum)
  }

  /** Decay steps applied over a sequence of touches. */
  function StepsOver(table: seq<nat>, l: Ledger, times: seq<u64>, quantum: nat): nat
    requires IsTable(table) && quantum > 0
  {
    if times == [] then 0
    else
      var n := |times| - 1;
      StepsOver(table, l, times[..n], quantum) + Whole(TouchAll(table, l, times[..n], quantum).decayedTo, times[n],
          quantum)
  }

  /** Milliseconds charged over a sequence of touches. */
  function MillisOver(table: seq<nat>, l: Ledger, times: seq<u64>, quantum: nat): nat
    requires IsTable(table) && quantum > 0
  {
    if times == [] then 0
    else
      var n := |times| - 1;
      MillisOver(table, l, times[..n], quantum) + Whole(TouchAll(table, l, times[..n], quantum).accruedTo, times[n],
          NANOS_PER_MILLI)
  }

  ghost predicate NonDecreasing(times: seq<u64>) {
    forall i, j :: 0 <= i < j < |times| ==> times[i] <= times[j]
  }

  /** Any non-decreasing touches leave the marks, the decay steps and the charged time of one touch at the end;
      and the same usage too when no decay step falls inside, saturation included. */
  lemma {:induction false} TouchGranularity(table: seq<nat>, l: Ledger, times: seq<u64>, quantum: nat)
    requires IsTable(table) && quantum > 0 && times != [] && NonDecreasing(times)
    ensures var last := times[|times| - 1];
            var many, once := TouchAll(table, l, times, quantum), Touch(table, l, last, quantum);
            && many.decayedTo == once.decayedTo && many.accruedTo == once.accruedTo
            && many.runningCpu == once.runningCpu && many.shares == once.shares
            && StepsOver(table, l, times, quantum) == Whole(l.decayedTo, last, quantum)
            && MillisOver(table, l, times, quantum) == Whole(l.accruedTo, last, NANOS_PER_MILLI)
            && (Whole(l.decayedTo, last, quantum) == 0 ==> many.usage == once.usage)
  {
    var n := |times| - 1;
    var front, last := times[..n], times[n];
    if front == [] {
      assert TouchAll(table, l, front, quantum) == l;
    } else {
      TouchGranularity(table, l, front, quantum);
      AdvanceTwice(l.decayedTo, front[n - 1], last, quantum);
      AdvanceTwice(l.accruedTo, front[n - 1], last, NANOS_PER_MILLI);
      var many, once := TouchAll(table, l, front, quantum), Touch(table, l, front[n - 1], quantum);
      assert TouchAll(table, l, times, quantum) == Touch(table, many, last, quantum);
      if Whole(l.decayedTo, last, quantum) == 0 {
        TouchTwice(table, l, front[n - 1], last, quantum);
        assert many == once;
      }
    }
  }

  /** Two touches with no decay step between them charge what one does. */
  lemma TouchTwice(table: seq<nat>, l: Ledger, a: u64, b: u64, quantum: nat)
    requires IsTable(table) && quantum > 0 && a <= b && Whole(l.decayedTo, b, quantum) == 0
    ensures Whole(l.decayedTo, a, quantum) == 0
    ensures Touch(table, Touch(table, l, a, quantum), b, quantum).usage == Touch(table, l, b, quantum).usage
  {
    AdvanceTwice(l.decayedTo, a, b, quantum);
    AdvanceTwice(l.accruedTo, a, b, NANOS_PER_MILLI);
    TwoCharges(l.usage, l.runningCpu, Whole(l.accruedTo, a, NANOS_PER_MILLI),
               Whole(Advance(l.accruedTo, a, NANOS_PER_MILLI), b, NANOS_PER_MILLI));
  }

  lemma TwoCharges(usage: u64, cpu: u64, a: nat, b: nat)
    ensures Cap64(Cap64(usage + Cap64(cpu * a)) + Cap64(cpu * b)) == Cap64(usage + Cap64(cpu * (a + b)))
    ensures Cap64(usage + Cap64(cpu * 0)) == usage
  {
    assert cpu * (a + b) == cpu * a + cpu * b;
  }

  // ---- every account ----

  function SumShares(ledgers: seq<Ledger>): nat {
    if ledgers == [] then 0 else SumShares(ledgers[..|ledgers| - 1]) + ledgers[|ledgers| - 1].shares
  }

  function SumUsage(ledgers: seq<Ledger>): nat {
    if ledgers == [] then 0 else SumUsage(ledgers[..|ledgers| - 1]) + ledgers[|ledgers| - 1].usage
  }

  /** Every ledger brought up to `now`. */
  function Touched(table: seq<nat>, ledgers: seq<Ledger>, now: u64, quantum: nat): (r: seq<Ledger>)
    requires IsTable(table) && quantum > 0
    ensures |r| == |ledgers| && forall i :: 0 <= i < |r| ==> r[i] == Touch(table, ledgers[i], now, quantum)
  {
    seq(|ledgers|, i requires 0 <= i < |ledgers| => Touch(table, ledgers[i], now, quantum))
  }

  /** One account's factor among everybody's ledgers; an account without one has used nothing. */
  function FactorIn(table: seq<nat>, ledgers: seq<Ledger>, account: u32): nat
    requires |table| == STEPS
  {
    if account < |ledgers|
    then FactorFor(table, ledgers[account].usage, ledgers[account].shares, SumUsage(ledgers), SumShares(ledgers))
    else FACTOR_SCALE
  }

  lemma {:induction false} SumSharesUpdate(ledgers: seq<Ledger>, i: nat, l: Ledger)
    requires i < |ledgers|
    ensures SumShares(ledgers[i := l]) + ledgers[i].shares == SumShares(ledgers) + l.shares
  {
    var n := |ledgers| - 1;
    var after := ledgers[i := l];
    if i < n {
      SumSharesUpdate(ledgers[..n], i, l);
      assert after[..n] == ledgers[..n][i := l];
    } else {
      assert after[..n] == ledgers[..n];
    }
  }

  lemma {:induction false} SumSharesSame(a: seq<Ledger>, b: seq<Ledger>)
    requires |a| == |b| && forall i :: 0 <= i < |a| ==> a[i].shares == b[i].shares
    ensures SumShares(a) == SumShares(b)
  {
    if a != [] { SumSharesSame(a[..|a| - 1], b[..|a| - 1]); }
  }

  /** The ledgers once `account` holds `cpu` more. */
  function Taken(table: seq<nat>, ledgers: seq<Ledger>, account: nat, cpu: nat, now: u64,
                 quantum: nat): (r: seq<Ledger>)
    requires IsTable(table) && quantum > 0
  {
    if account < |ledgers| then
      var l := Touch(table, ledgers[account], now, quantum);
      ledgers[account := l.(runningCpu := Cap64(l.runningCpu + cpu))]
    else ledgers
  }

  /** The ledgers once `account` holds `cpu` less. */
  function GivenBack(table: seq<nat>, ledgers: seq<Ledger>, account: nat, cpu: nat, now: u64,
                     quantum: nat): (r: seq<Ledger>)
    requires IsTable(table) && quantum > 0
  {
    if account < |ledgers| then
      var l := Touch(table, ledgers[account], now, quantum);
      ledgers[account := l.(runningCpu := Monus(l.runningCpu, cpu))]
    else ledgers
  }

  method TouchEvery(table: seq<nat>, ledgers: seq<Ledger>, now: u64,
                    quantum: nat) returns (touched: seq<Ledger>, total: nat)
    requires IsTable(table) && quantum > 0
    ensures |touched| == |ledgers| && total == SumUsage(touched)
    ensures forall i :: 0 <= i < |ledgers| ==> touched[i] == Touch(table, ledgers[i], now, quantum)
  {
    touched, total := [], 0;
    for i := 0 to |ledgers|
      invariant |touched| == i && total == SumUsage(touched)
      invariant forall k :: 0 <= k < i ==> touched[k] == Touch(table, ledgers[k], now, quantum)
    {
      var l := Touch(table, ledgers[i], now, quantum);
      assert (touched + [l])[..i] == touched;
      touched := touched + [l];
      total := total + l.usage;
    }
  }

  method FactorEvery(table: seq<nat>, ledgers: seq<Ledger>, total: nat, sharesTotal: nat) returns (factors: seq<nat>)
    requires IsTable(table)
    ensures |factors| == |ledgers|
    ensures forall i :: 0 <= i < |ledgers| ==>
              factors[i] == FactorFor(table, ledgers[i].usage, ledgers[i].shares, total, sharesTotal) <= FACTOR_SCALE
  {
    factors := [];
    for i := 0 to |ledgers|
      invariant |factors| == i
      invariant forall k :: 0 <= k < i ==>
                  factors[k] == FactorFor(table, ledgers[k].usage, ledgers[k].shares, total,
                      sharesTotal) <= FACTOR_SCALE
    {
      FactorInRange(table, ledgers[i].usage, ledgers[i].shares, total, sharesTotal);
      factors := factors + [FactorFor(table, ledgers[i].usage, ledgers[i].shares, total, sharesTotal)];
    }
  }

  class FairShare {
    const table: seq<nat>
    var ledgers: seq<Ledger>
    var factors: seq<nat>
    var sharesTotal: nat

    ghost predicate Valid() reads this {
      && IsTable(table)
      && |ledgers| == |factors| <= MAX_ACCOUNTS
      && sharesTotal == SumShares(ledgers)
      && forall i :: 0 <= i < |factors| ==> factors[i] <= FACTOR_SCALE
    }

    constructor Empty()
      ensures Valid() && ledgers == []
    {
      var t := BuildDecayTable();
      table, ledgers, factors, sharesTotal := t, [], [], 0;
    }

    /** Ledgers exist through `account` afterwards, unless it is out of bounds. */
    method Ensure(account: u32) returns (ok: bool)
      requires Valid()
      modifies this
      ensures Valid() && ok == (account < MAX_ACCOUNTS)
      ensures old(|ledgers|) <= |ledgers| && ledgers[..old(|ledgers|)] == old(ledgers)
      ensures forall i :: old(|ledgers|) <= i < |ledgers| ==> ledgers[i] == FRESH
      ensures |ledgers| == if ok && account >= old(|ledgers|) then account + 1 else old(|ledgers|)
    {
      if account >= MAX_ACCOUNTS { return false; }
      ghost var before := ledgers;
      while |ledgers| <= account
        invariant Valid() && |before| <= |ledgers| && ledgers[..|before|] == before
        invariant forall i :: |before| <= i < |ledgers| ==> ledgers[i] == FRESH
        invariant |ledgers| == |before| || |ledgers| <= account + 1
        decreases account - |ledgers|
      {
        assert (ledgers + [FRESH])[..|ledgers|] == ledgers;
        ledgers, factors, sharesTotal := ledgers + [FRESH], factors + [FACTOR_SCALE], sharesTotal + 1;
      }
      return true;
    }

    /** Exactly `account`'s share changes; ledgers that were missing up to it are opened. */
    method SetShares(account: u32, shares: u32) returns (ok: bool)
      requires Valid()
      modifies this
      ensures Valid() && ok == (account < MAX_ACCOUNTS)
      ensures old(|ledgers|) <= |ledgers| && (!ok ==> ledgers == old(ledgers))
      ensures ok ==> account < |ledgers| && forall i :: 0 <= i < |ledgers| ==>
                var was := if i < old(|ledgers|) then old(ledgers)[i] else FRESH;
                ledgers[i] == if i == account then was.(shares := shares) else was
    {
      ok := Ensure(account);
      if !ok { return; }
      var ledger := ledgers[account];
      SumSharesUpdate(ledgers, account, ledger.(shares := shares));
      sharesTotal := sharesTotal - ledger.shares + shares;
      ledgers := ledgers[account := ledger.(shares := shares)];
    }

    /** `cpu` more is held by `account` from `now` on. */
    method OnDispatch(account: u32, cpu: u32, now: u64, quantum: nat)
      requires Valid() && quantum > 0
      modifies this
      ensures Valid() && factors == old(factors)
      ensures ledgers == Taken(table, old(ledgers), account, cpu, now, quantum)
    {
      if account < |ledgers| {
        var l := Touch(table, ledgers[account], now, quantum);
        SumSharesUpdate(ledgers, account, l.(runningCpu := Cap64(l.runningCpu + cpu)));
        ledgers := ledgers[account := l.(runningCpu := Cap64(l.runningCpu + cpu))];
      }
    }

    /** `cpu` less is held by `account` from `now` on. */
    method OnRelease(account: u32, cpu: u32, now: u64, quantum: nat)
      requires Valid() && quantum > 0
      modifies this
      ensures Valid() && factors == old(factors)
      ensures ledgers == GivenBack(table, old(ledgers), account, cpu, now, quantum)
    {
      if account < |ledgers| {
        var l := Touch(table, ledgers[account], now, quantum);
        SumSharesUpdate(ledgers, account, l.(runningCpu := Monus(l.runningCpu, cpu)));
        ledgers := ledgers[account := l.(runningCpu := Monus(l.runningCpu, cpu))];
      }
    }

    /** All ledgers brought up to `now`, and the factors that follow from them. */
    method Refresh(now: u64, quantum: nat)
      requires Valid() && quantum > 0
      modifies this
      ensures Valid() && ledgers == Touched(table, old(ledgers), now, quantum)
      ensures forall account: u32 :: Factor(account) == FactorIn(table, ledgers, account)
    {
      var touched, total := TouchEvery(table, ledgers, now, quantum);
      SumSharesSame(ledgers, touched);
      var next := FactorEvery(table, touched, total, sharesTotal);
      ledgers, factors := touched, next;
    }

    /** The saved ledgers take the place of the present ones, if there are not too many. */
    method Restore(saved: seq<Ledger>) returns (ok: bool)
      requires Valid()
      modifies this
      ensures Valid() && ok == (|saved| <= MAX_ACCOUNTS)
      ensures ledgers == if ok then saved else old(ledgers)
    {
      if |saved| > MAX_ACCOUNTS { return false; }
      ledgers, factors, sharesTotal := saved, seq(|saved|, _ => FACTOR_SCALE), SumShares(saved);
      return true;
    }

    function Factor(account: u32): (r: nat)
      reads this
      ensures Valid() ==> r <= FACTOR_SCALE
    {
      if account < |factors| then factors[account] else FACTOR_SCALE
    }
  }
}
