/**
  What the arithmetic of intent_settlement guarantees, and the inputs on which
  it does not do what its documentation says.
 */
module SettlementArithmetic {
  import opened Wrappers
  import opened SettlementMath

  // ----- Division -----

  lemma DivisionBetween(n: int, d: int, q: int)
    requires d > 0
    ensures n / d == q <==> q * d <= n < (q + 1) * d
  {
    var k := n / d;
    assert n == k * d + n % d;
    if k < q { assert (k + 1) * d <= q * d; }
    if k > q { assert (q + 1) * d <= k * d; }
  }

  lemma DivisionOrdered(n: int, n': int, d: int)
    requires d > 0 && n <= n'
    ensures n / d <= n' / d
  {
    DivisionBetween(n, d, n / d);
    DivisionBetween(n', d, n' / d);
  }

  lemma ProductOrdered(a: int, b: int, c: int)
    requires a <= b && c >= 0
    ensures a * c <= b * c
  {
  }

  // ----- Slashing -----

  /** The formula of the documentation: a tenth of what is exposed, at least one
      unit, at most a tenth of the bond. */
  function DocumentedSlash(bond: int, unfilled: int): int {
    if bond <= 0 then 0 else
    Max(Min(Min(Max(unfilled, 0), bond) / 10, bond * SLASH_BPS / BPS), 1)
  }

  /** A slash takes something from every positive bond and never more than it,
      a better tier never pays more, and the lowest tier pays the flat rate. */
  lemma SlashWithinBond(bond: int, unfilled: int, tier: nat, better: nat)
    requires tier <= better
    ensures bond <= 0 ==> SlashAmountTiered(bond, unfilled, tier) == 0
    ensures bond > 0 ==> 1 <= SlashAmountTiered(bond, unfilled, tier) <= bond
    ensures SlashAmountTiered(bond, unfilled, better) <= SlashAmountTiered(bond, unfilled, tier)
    ensures SlashAmountTiered(bond, unfilled, 0) == SlashAmount(bond, unfilled)
  {
  }

  /** The slash grows with what the solver left unfilled. */
  lemma SlashOrdered(bond: int, unfilled: int, more: int, tier: nat)
    requires unfilled <= more
    ensures SlashAmountTiered(bond, unfilled, tier) <= SlashAmountTiered(bond, more, tier)
  {
  }

  /** The cap is computed in whole multiples of 10 000 units of bond, so the slash
      is the documented one only while the exposed tenth is under that coarse cap. */
  lemma SlashAsDocumented(bond: int, unfilled: int)
    requires bond > 0
    ensures (SlashAmount(bond, unfilled) == DocumentedSlash(bond, unfilled))
      <==> Min(Max(unfilled, 0), bond) / 10 <= Max(bond / BPS * SLASH_BPS, 1)
  {
  }

  /** A solver that delivers nothing is slashed by exactly a tenth of its bond,
      rounded down, when the bond ends in 0000 to 0009 and otherwise by less. */
  lemma FullDefault(bond: int, unfilled: int)
    requires bond >= 20 && unfilled >= bond
    ensures DocumentedSlash(bond, unfilled) == bond / 10
    ensures SlashAmount(bond, unfilled) <= bond / 10
    ensures SlashAmount(bond, unfilled) == bond / 10 <==> bond % BPS < 10
  {
  }

  /** The unit test at intent_settlement/src/math.rs:308-313 expects 100. */
  lemma SlashTestCounterexample()
    ensures SlashAmount(1_000, 1_000) == 1 && DocumentedSlash(1_000, 1_000) == 100
  {
  }

  // ----- Fill windows -----

  /** A tier lengthens the window, by at most a half, until the product saturates. */
  lemma FillWindowBounds(tier: nat, better: nat, base: nat)
    requires tier <= better
    ensures TierFillWindow(tier, base) >= base <==> base <= U64_MAX / BPS
    ensures TierFillWindow(tier, base) <= base * 3 / 2
    ensures TierFillWindow(tier, base) <= TierFillWindow(better, base)
  {
  }

  // ----- Fees -----

  /** The fee is the rate's share rounded down, never more than the amount, and
      refused exactly when the rate is out of range or the product overflows. */
  lemma FeeRoundsDown(amount: int, bps: int)
    requires amount >= 0
    ensures ComputeFee(amount, bps).Some? <==> 0 <= bps <= BPS && amount * bps <= I128_MAX
    ensures ComputeFee(amount, bps).Some? ==>
              var fee := ComputeFee(amount, bps).value;
              0 <= fee <= amount && fee * BPS <= amount * bps < (fee + 1) * BPS
  {
    if 0 <= bps <= BPS {
      ProductOrdered(0, bps, amount);
      ProductOrdered(bps, BPS, amount);
    }
  }

  /** Splitting a fill never raises the total fee, and saves less than one unit per part. */
  lemma FeeOfParts(a: int, b: int, bps: int)
    requires a >= 0 && b >= 0 && ComputeFee(a + b, bps).Some?
    ensures ComputeFee(a, bps).Some? && ComputeFee(b, bps).Some?
    ensures var whole, parts := ComputeFee(a + b, bps).value, ComputeFee(a, bps).value + ComputeFee(b, bps).value;
            parts <= whole <= parts + 1
  {
  }

  /** A discount lands between a free fill and the undiscounted rate, never raises
      the rate, and a larger one never costs more. */
  lemma DiscountBounds(base: int, discount: int, larger: int)
    requires discount <= larger
    ensures 0 <= ApplyDiscount(base, discount) <= Max(base, 0)
    ensures ApplyDiscount(base, larger) <= ApplyDiscount(base, discount)
    ensures discount <= 0 ==> ApplyDiscount(base, discount) == Max(base, 0)
    ensures discount >= BPS ==> ApplyDiscount(base, discount) == 0
  {
    if base > 0 {
      var d, d' := Max(Min(discount, BPS), 0), Max(Min(larger, BPS), 0);
      ProductOrdered(d, d', base);
      ProductOrdered(d', BPS, base);
      ProductOrdered(0, d, base);
      DivisionOrdered(base * d, base * d', BPS);
      DivisionOrdered(base * d', base * BPS, BPS);
    }
  }

  // ----- Dutch auction -----

  /** The line from the start price to the minimum stays between its ends and meets both. */
  lemma InterpolateBetween(now: int, start: int, min: int, ds: int, de: int)
    requires ds <= now <= de && ds < de && start >= min
    ensures min <= Interpolate(now, start, min, ds, de) <= start
    ensures now == ds ==> Interpolate(now, start, min, ds, de) == start
    ensures now == de ==> Interpolate(now, start, min, ds, de) == min
  {
    var d, e, t := start - min, now - ds, de - ds;
    ProductOrdered(0, e, d);
    ProductOrdered(e, t, d);
    DivisionBetween(d * t, t, d);
    DivisionOrdered(d * e, d * t, t);
    DivisionBetween(0, t, 0);
    DivisionOrdered(0, d * e, t);
  }

  lemma InterpolateOrdered(now: int, later: int, start: int, min: int, ds: int, de: int)
    requires ds <= now <= later <= de && ds < de && start >= min
    ensures Interpolate(later, start, min, ds, de) <= Interpolate(now, start, min, ds, de)
  {
    var d := start - min;
    ProductOrdered(0, now - ds, d);
    ProductOrdered(now - ds, later - ds, d);
    DivisionOrdered(d * (now - ds), d * (later - ds), de - ds);
  }

  /** A well-formed auction starts at its start price, ends at its minimum, stays
      between them and never gets dearer. */
  lemma DecayOrdered(now: nat, later: nat, start: int, min: int, ds: nat, de: nat)
    requires now <= later && ds < de && start >= min
    ensures var price := (t: nat) => DutchDecay(t, Some(start), min, Some(ds), Some(de));
            && min <= price(later) <= price(now) <= start
            && (now <= ds ==> price(now) == start)
            && (now >= de ==> price(now) == min)
  {
    if ds < now < de { InterpolateBetween(now, start, min, ds, de); }
    if ds < later < de {
      InterpolateBetween(later, start, min, ds, de);
      if ds < now { InterpolateOrdered(now, later, start, min, ds, de); }
    }
  }

  /** The pure helper and the contract's own pricing agree exactly when the auction
      is absent, well formed, over, or flat. */
  lemma DecayAgrees(now: nat, start: Option<int>, min: int, ds: Option<nat>, de: Option<nat>)
    ensures (DutchDecay(now, start, min, ds, de) == CurrentMinDst(now, start, min, ds, de))
      <==> start.None? || ds.None? || de.None?
           || (de.value > ds.value && start.value >= min)
           || now >= de.value
           || (now <= ds.value && start.value == min)
  {
  }

  /** No intermediate product of an auction within these bounds leaves 128 bits. */
  lemma DecayFits(now: nat, start: int, min: int, ds: nat, de: nat)
    requires ds <= now <= de && min <= start
    requires start - min <= MAX_AMOUNT && de - ds <= 170_000_000
    ensures FitsI128((start - min) * (now - ds))
  {
    ProductOrdered(0, now - ds, start - min);
    ProductOrdered(start - min, MAX_AMOUNT, now - ds);
    ProductOrdered(now - ds, 170_000_000, MAX_AMOUNT);
  }
}
