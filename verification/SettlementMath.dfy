/**
  The arithmetic of intent_settlement: slashes, fees, fill windows and the
  Dutch-auction price. Amounts are i128 and times are u64 in the source; a
  function says where its code checks, saturates or could overflow.
 */
module SettlementMath {
  import opened Wrappers

  const BPS := 10_000
  const SLASH_BPS := 1_000
  const PROTOCOL_FEE_BPS := 5
  const TIER_FILL_WINDOW_BONUS_BPS := [0, 1_000, 2_000, 3_000, 5_000]
  const TIER_SLASH_BPS := [1_000, 1_000, 800, 600, 500]
  const MIN_SLASH_BPS := 500
  const MAX_AMOUNT := 1_000_000_000_000_000_000_000_000_000_000
  const I128_MAX := 0x7fff_ffff_ffff_ffff_ffff_ffff_ffff_ffff
  const U64_MAX := 0xffff_ffff_ffff_ffff
  const U32_MAX := 0xffff_ffff

  predicate FitsI128(x: int) { -I128_MAX - 1 <= x <= I128_MAX }

  predicate FitsU64(n: int) { 0 <= n <= U64_MAX }

  predicate FitsU32(n: int) { 0 <= n <= U32_MAX }

  // What a caller can pass.
  type I128 = x: int | -I128_MAX - 1 <= x <= I128_MAX
  type U64 = n: nat | n <= U64_MAX
  type U32 = n: nat | n <= U32_MAX
  type Quantity = n: nat | n <= I128_MAX   // an i128 that is not negative

  function SatI128(x: int): int { Max(Min(x, I128_MAX), -I128_MAX - 1) }

  function Min(a: int, b: int): int { if a <= b then a else b }

  function Max(a: int, b: int): int { if a <= b then b else a }

  /** Integer division as Rust rounds it, toward zero. */
  function TruncDiv(a: int, b: int): int
    requires b > 0
  {
    if a >= 0 then a / b else -(-a / b)
  }

  function CheckedMul(a: int, b: int): Option<int> {
    if FitsI128(a * b) then Some(a * b) else None
  }

  function SatAdd(a: nat, b: nat): nat { Min(a + b, U64_MAX) }

  // ----- Slashing -----

  function SlashCap(bond: int, bps: int): int
    requires bond >= 0
  {
    Max(Min((bond / BPS) * bps, bond), 1)
  }

  function SlashAtRate(bond: int, unfilled: int, bps: int): int {
    if bond <= 0 then 0 else
    var exposure := Min(Max(unfilled, 0), bond);
    Min(Max(exposure / 10, 1), SlashCap(bond, bps))
  }

  function SlashAmount(bond: int, unfilled: int): int {
    SlashAtRate(bond, unfilled, SLASH_BPS)
  }

  function SlashAmountTiered(bond: int, unfilled: int, tier: nat): int {
    SlashAtRate(bond, unfilled, TIER_SLASH_BPS[Min(tier, |TIER_SLASH_BPS| - 1)])
  }

  // ----- Windows and fees -----

  function TierFillWindow(tier: nat, base: nat): nat {
    var bonus := TIER_FILL_WINDOW_BONUS_BPS[Min(tier, |TIER_FILL_WINDOW_BONUS_BPS| - 1)];
    Min(base * (BPS + bonus), U64_MAX) / BPS
  }

  /** `None` is the overflow or the rate out of range. */
  function ComputeFee(amount: int, bps: int): Option<int> {
    if bps < 0 || bps > BPS then None else
    match CheckedMul(amount, bps)
    case None => None
    case Some(p) => Some(TruncDiv(p, BPS))
  }

  function ApplyDiscount(baseBps: int, discountBps: int): int {
    if baseBps <= 0 then 0 else
    var capped := Max(Min(discountBps, BPS), 0);
    Max(baseBps - TruncDiv(baseBps * capped, BPS), 0)
  }

  // ----- Dutch auction -----

  function Interpolate(now: int, start: int, min: int, decayStart: int, decayEnd: int): int
    requires decayStart < decayEnd
  {
    start - TruncDiv((start - min) * (now - decayStart), decayEnd - decayStart)
  }

  /** `dutch_decay`: guarded, so a malformed auction is priced at its minimum. */
  function DutchDecay(now: nat, start: Option<int>, min: int, decayStart: Option<nat>, decayEnd: Option<nat>): int {
    match (start, decayStart, decayEnd)
    case (Some(st), Some(ds), Some(de)) =>
      if de > ds && st >= min then
        if now >= de then min else if now <= ds then st else Interpolate(now, st, min, ds, de)
      else min
    case _ => min
  }

  /** `current_min_dst`: the contract's own version, without the guard. */
  function CurrentMinDst(now: nat, start: Option<int>, min: int, decayStart: Option<nat>, decayEnd: Option<nat>): int {
    match (start, decayStart, decayEnd)
    case (Some(st), Some(ds), Some(de)) =>
      if now >= de then min else if now <= ds then st else Interpolate(now, st, min, ds, de)
    case _ => min
  }
}
