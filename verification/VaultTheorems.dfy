/**
  What the vault guarantees: exact books in every run, enough tokens for every
  exit as long as nothing is paid in compensation, and a share price that only
  deposits of a stated kind can lower.
 */
module VaultTheorems {
  import opened Wrappers
  import opened SettlementMath
  import opened VaultModel
  import opened Sums

  ghost function Each(): (Address, int) -> int { (a: Address, n: int) => n }

  ghost predicate Books(s: State) {
    && s.config.Valid()
    && s.assets >= 0 && s.held >= 0
    && (forall a <- s.shares :: s.shares[a] >= 0)
    && (forall a <- s.queue :: s.queue[a] >= 0)
    && s.totalShares == VIRTUAL_SHARES + Total(s.shares, Each())
    && s.totalQueued == Total(s.queue, Each())
    && s.held == s.assets - VIRTUAL_ASSETS + s.donated - s.income
  }

  // ----- Quotients -----

  lemma Quotient(n: int, d: int)
    requires n >= 0 && d > 0
    ensures 0 <= n / d && n / d * d <= n < (n / d + 1) * d
  {
  }

  lemma ProductOrdered(a: int, b: int, c: int)
    requires a <= b && c >= 0
    ensures a * c <= b * c
  {
  }

  lemma ProductCancel(a: int, b: int, c: int)
    requires a * c <= b * c && c > 0
    ensures a <= b
  {
    if b < a { ProductOrdered(b + 1, a, c); }
  }

  /** A share of the total redeems for at most all the assets. */
  lemma RedeemedIs(s: State, x: int)
    requires Books(s) && 0 <= x <= s.totalShares
    ensures Redeemed(s, x).Some? <==> FitsI128(x * s.assets)
    ensures Redeemed(s, x).Some? ==>
              var out := Redeemed(s, x).value;
              out == x * s.assets / s.totalShares && 0 <= out <= s.assets
              && out * s.totalShares <= x * s.assets < (out + 1) * s.totalShares
  {
    TotalNonNegative(s.shares, Each());
    ProductOrdered(0, x, s.assets);
    Quotient(x * s.assets, s.totalShares);
    ProductOrdered(x, s.totalShares, s.assets);
    var out := x * s.assets / s.totalShares;
    ProductCancel(out, s.assets, s.totalShares);
  }

  /** An LP's shares never reach into the virtual seed. */
  lemma OwnShares(s: State, a: Address)
    requires Books(s)
    ensures 0 <= s.SharesOf(a) <= s.totalShares - VIRTUAL_SHARES
  {
    TotalNonNegative(s.shares, Each());
    if a in s.shares { TotalCovers(s.shares, a, Each()); }
  }

  // ----- The books in every run -----

  lemma DepositBooks(s: State, now: nat, a: Address, amount: int)
    requires Books(s) && Deposit(s, now, a, amount).Done?
    ensures Books(Deposit(s, now, a, amount).state)
  {
    OwnShares(s, a);
    TotalUpdate(s.shares, a, Deposit(s, now, a, amount).state.shares[a], Each());
  }

  lemma WithdrawBooks(s: State, now: nat, a: Address, x: int)
    requires Books(s) && Withdraw(s, now, a, x).Done?
    ensures Books(Withdraw(s, now, a, x).state)
  {
    var s' := Withdraw(s, now, a, x).state;
    OwnShares(s, a);
    RedeemedIs(s, x);
    TotalUpdate(s.shares, a, s'.shares[a], Each());
    if s.emergency { TotalUpdate(s.queue, a, s'.queue[a], Each()); }
  }

  lemma ProcessBooks(s: State, a: Address)
    requires Books(s) && ProcessQueued(s, a).Done?
    ensures Books(ProcessQueued(s, a).state)
  {
    TotalUpdate(s.queue, a, 0, Each());
  }

  lemma CoverBooks(s: State, amount: int, to: Address)
    requires Books(s) && Cover(s, amount, to).Done?
    ensures Books(Cover(s, amount, to).state)
  {
  }

  lemma IncomeBooks(s: State, amount: int)
    requires Books(s) && ReceiveIncome(s, amount).Done?
    ensures Books(ReceiveIncome(s, amount).state)
  {
  }

  lemma BooksStep(s: State, c: Call)
    requires Books(s)
    ensures Books(After(s, c))
  {
    if Perform(s, c.now, c.action).Done? {
      match c.action
      case DoDeposit(a, amount) => DepositBooks(s, c.now, a, amount);
      case DoWithdraw(a, x) => WithdrawBooks(s, c.now, a, x);
      case DoProcess(a) => ProcessBooks(s, a);
      case DoCover(amount, to) => CoverBooks(s, amount, to);
      case DoIncome(amount) => IncomeBooks(s, amount);
      case DoSetConfig(config) =>
      case DoSetEmergency(on) =>
      case Send(n) =>
      case Fund(a, n) =>
    }
  }

  /** In every run, compensation and emergency mode included, total shares are the
      seed plus everyone's shares, the total queued is everyone's queue, and the
      tokens held are the assets less the seed, plus what was sent unrecorded. */
  lemma {:induction false} BooksAlways(s: State, calls: seq<Call>)
    requires Books(s)
    ensures Books(Run(s, calls))
  {
    if calls != [] {
      BooksAlways(s, calls[..|calls| - 1]);
      BooksStep(Run(s, calls[..|calls| - 1]), calls[|calls| - 1]);
    }
  }

  /** The `VaultInsolvent` branch is dead. */
  lemma NeverInsolvent(s: State, c: Call)
    requires Books(s)
    ensures Perform(s, c.now, c.action) != Reverted(VaultInsolvent)
  {
    if c.action.DoWithdraw? {
      OwnShares(s, c.action.a);
      if 0 < c.action.x <= s.SharesOf(c.action.a) { RedeemedIs(s, c.action.x); }
    }
  }

  /** Compensation can empty the pool, and so stop every deposit, only when at least
      the seed was sent to the vault without being reported as income. */
  lemma EmptiedOnlyByDonation(s: State)
    requires Books(s) && s.assets == 0
    ensures s.donated - s.income >= VIRTUAL_ASSETS
  {
  }

  // ----- Solvency for everyone -----

  predicate Calm(x: Action) { !x.DoCover? && x != DoSetEmergency(true) }

  /** Every report of income follows the tokens it reports. */
  ghost predicate FundedRun(s: State, calls: seq<Call>) {
    calls == [] ||
    var front, last := Run(s, calls[..|calls| - 1]), calls[|calls| - 1].action;
    FundedRun(s, calls[..|calls| - 1]) && (last.DoIncome? ==> front.income + last.amount <= front.donated)
  }

  ghost predicate Healthy(s: State) {
    Books(s) && !s.emergency && s.assets >= s.totalShares && s.income <= s.donated
  }

  lemma FreshHealthy(funds: map<Address, int>)
    ensures Healthy(Fresh(funds))
  {
  }

  lemma DepositHealthy(s: State, now: nat, a: Address, amount: int)
    requires Healthy(s) && Deposit(s, now, a, amount).Done?
    ensures Healthy(Deposit(s, now, a, amount).state)
  {
    OwnShares(s, a);
    DepositBooks(s, now, a, amount);
    var q := amount * s.totalShares / s.assets;
    ProductOrdered(0, amount, s.totalShares);
    Quotient(amount * s.totalShares, s.assets);
    ProductOrdered(s.totalShares, s.assets, amount);
    ProductCancel(q, amount, s.assets);
  }

  /** A payout of at most the shares' part leaves the rest covered. */
  lemma PayoutKeepsCover(assets: int, total: int, x: int, out: int)
    requires assets >= total > 0 && 0 <= x <= total && out * total <= x * assets
    ensures assets - out >= total - x
  {
    ProductOrdered(total, assets, total - x);
    assert total * (total - x) == total * total - total * x;
    assert assets * (total - x) == assets * total - x * assets;
    assert (assets - out) * total == assets * total - out * total;
    ProductCancel(total - x, assets - out, total);
  }

  lemma WithdrawHealthy(s: State, now: nat, a: Address, x: int)
    requires Healthy(s) && Withdraw(s, now, a, x).Done?
    ensures Healthy(Withdraw(s, now, a, x).state)
  {
    WithdrawBooks(s, now, a, x);
    OwnShares(s, a);
    RedeemedIs(s, x);
    PayoutKeepsCover(s.assets, s.totalShares, x, Withdraw(s, now, a, x).amount);
  }

  lemma HealthyStep(s: State, c: Call)
    requires Healthy(s) && Calm(c.action)
    requires c.action.DoIncome? ==> s.income + c.action.amount <= s.donated
    ensures Healthy(After(s, c))
  {
    BooksStep(s, c);
    if Perform(s, c.now, c.action).Done? {
      match c.action
      case DoDeposit(a, amount) => DepositHealthy(s, c.now, a, amount);
      case DoWithdraw(a, x) => WithdrawHealthy(s, c.now, a, x);
      case DoProcess(a) =>
      case DoCover(amount, to) =>
      case DoIncome(amount) =>
      case DoSetConfig(config) =>
      case DoSetEmergency(on) =>
      case Send(n) =>
      case Fund(a, n) =>
    }
  }

  /** Without compensation and emergency mode, and with income funded, the assets
      never fall below the shares. */
  lemma {:induction false} HealthyAlways(s: State, calls: seq<Call>)
    requires Healthy(s) && FundedRun(s, calls)
    requires forall c <- calls :: Calm(c.action)
    ensures Healthy(Run(s, calls))
  {
    if calls != [] {
      assert calls[|calls| - 1] in calls;
      HealthyAlways(s, calls[..|calls| - 1]);
      HealthyStep(Run(s, calls[..|calls| - 1]), calls[|calls| - 1]);
    }
  }

  /** What `withdraw` pays for a whole position of `n` shares. */
  ghost function Claim(assets: int, total: int): (Address, int) -> int
    requires total > 0
  {
    (a: Address, n: int) => n * assets / total
  }

  lemma {:induction false} ClaimsScaled(shares: map<Address, int>, assets: int, total: int)
    requires total > 0 && assets >= 0 && forall a <- shares :: shares[a] >= 0
    ensures Total(shares, Claim(assets, total)) * total <= Total(shares, Each()) * assets
    decreases |shares|
  {
    if shares != map[] {
      assert shares.Keys != {};
      var a :| a in shares;
      var rest := shares - {a};
      assert shares.Keys == rest.Keys + {a};
      ClaimsScaled(rest, assets, total);
      TotalSplit(shares, a, Each());
      TotalSplit(shares, a, Claim(assets, total));
      ProductOrdered(0, shares[a], assets);
      Quotient(shares[a] * assets, total);
      Scaled(shares[a] * assets / total, Total(rest, Claim(assets, total)), total);
      Scaled(shares[a], Total(rest, Each()), assets);
    }
  }

  lemma Scaled(a: int, b: int, c: int)
    ensures (a + b) * c == a * c + b * c
  {
  }

  lemma SeedCovers(claims: int, assets: int, total: int)
    requires assets >= total > 0
    requires claims * total <= (total - VIRTUAL_SHARES) * assets
    ensures claims <= assets - VIRTUAL_ASSETS
  {
    ProductOrdered(total, assets, VIRTUAL_SHARES);
    assert (total - VIRTUAL_SHARES) * assets == total * assets - VIRTUAL_SHARES * assets;
    assert (assets - VIRTUAL_ASSETS) * total == assets * total - VIRTUAL_ASSETS * total;
    ProductCancel(claims, assets - VIRTUAL_ASSETS, total);
  }

  /** The vault holds enough to pay out every LP in full, all together. */
  lemma EveryoneCovered(s: State)
    requires Healthy(s)
    ensures s.totalShares > 0
    ensures Total(s.shares, Claim(s.assets, s.totalShares)) <= s.held
  {
    TotalNonNegative(s.shares, Each());
    ClaimsScaled(s.shares, s.assets, s.totalShares);
    SeedCovers(Total(s.shares, Claim(s.assets, s.totalShares)), s.assets, s.totalShares);
  }

  /** Exactly which withdrawals succeed, and what they pay; none fails for lack of funds. */
  lemma WithdrawSucceeds(s: State, now: nat, a: Address, x: int)
    requires Healthy(s)
    ensures Withdraw(s, now, a, x).Done?
      <==> 0 < x <= s.SharesOf(a) && now >= s.CooldownOf(a) && FitsI128(x * s.assets)
    ensures Withdraw(s, now, a, x).Done? ==>
              s.totalShares > 0 && Withdraw(s, now, a, x).amount == x * s.assets / s.totalShares <= s.held
  {
    OwnShares(s, a);
    if 0 < x <= s.SharesOf(a) {
      RedeemedIs(s, x);
      EveryoneCovered(s);
      ClaimWithin(s, a, x);
    }
  }

  /** No call of such a run reverts because the vault is short of tokens, whoever leaves first. */
  lemma NeverShort(s: State, c: Call)
    requires Healthy(s) && Calm(c.action)
    ensures Perform(s, c.now, c.action) != Reverted(VaultShort)
  {
    if c.action.DoWithdraw? { WithdrawSucceeds(s, c.now, c.action.a, c.action.x); }
  }

  lemma ClaimWithin(s: State, a: Address, x: int)
    requires Books(s) && s.totalShares > 0 && 0 < x <= s.SharesOf(a)
    ensures x * s.assets / s.totalShares <= Total(s.shares, Claim(s.assets, s.totalShares))
  {
    var w := Claim(s.assets, s.totalShares);
    forall b | b in s.shares ensures w(b, s.shares[b]) >= 0 {
      ProductOrdered(0, s.shares[b], s.assets);
      Quotient(s.shares[b] * s.assets, s.totalShares);
    }
    TotalCovers(s.shares, a, w);
    ProductOrdered(x, s.shares[a], s.assets);
    DivisionOrdered(x * s.assets, s.shares[a] * s.assets, s.totalShares);
  }

  lemma DivisionOrdered(n: int, n': int, d: int)
    requires d > 0 && n <= n'
    ensures n / d <= n' / d
  {
    assert n == n / d * d + n % d && n' == n' / d * d + n' % d;
    if n' / d < n / d { ProductOrdered(n' / d + 1, n / d, d); }
  }

  // ----- Share price -----

  /** Assets per share do not fall. */
  predicate PriceKept(s: State, s': State) { s'.assets * s.totalShares >= s.assets * s'.totalShares }

  function MintedShares(assets: int, total: int, amount: int): int
    requires assets > 0
  {
    Max(amount * total / assets, 1)
  }

  /** What a deposit does to the two totals. */
  lemma DepositIs(s: State, now: nat, a: Address, amount: int)
    requires Books(s) && Deposit(s, now, a, amount).Done?
    ensures s.assets > 0 && s.totalShares > 0 && amount > 0
    ensures var s', minted := Deposit(s, now, a, amount).state, MintedShares(s.assets, s.totalShares, amount);
            && Deposit(s, now, a, amount).amount == minted
            && s'.assets == s.assets + amount && s'.totalShares == s.totalShares + minted
  {
    TotalNonNegative(s.shares, Each());
    ProductOrdered(0, amount, s.totalShares);
  }

  lemma MintedIs(assets: int, total: int, amount: int)
    requires assets > 0 && total > 0 && amount > 0
    ensures MintedShares(assets, total, amount) >= 1
    ensures amount * total >= assets ==> MintedShares(assets, total, amount) * assets <= amount * total
    ensures amount * total < assets ==> MintedShares(assets, total, amount) == 1
  {
    ProductOrdered(0, amount, total);
    Quotient(amount * total, assets);
    if amount * total < assets { ProductCancelStrict(amount * total / assets, 1, assets); }
    if amount * total >= assets { ProductCancelStrict(1, amount * total / assets + 1, assets); }
  }

  lemma ProductCancelStrict(a: int, b: int, c: int)
    requires a * c < b * c && c > 0
    ensures a < b
  {
    if b <= a { ProductOrdered(b, a, c); }
  }

  /** A deposit leaves the price alone or raises it exactly when it buys at least one
      whole share; below that the floor of one share dilutes everyone. */
  lemma DepositPrice(s: State, now: nat, a: Address, amount: int)
    requires Books(s) && Deposit(s, now, a, amount).Done?
    ensures PriceKept(s, Deposit(s, now, a, amount).state) <==> amount * s.totalShares >= s.assets
  {
    DepositIs(s, now, a, amount);
    var minted := MintedShares(s.assets, s.totalShares, amount);
    MintedIs(s.assets, s.totalShares, amount);
    Scaled(s.assets, amount, s.totalShares);
    Scaled(s.totalShares, minted, s.assets);
  }

  /** What the shares minted for `amount` would redeem for at once. */
  function RoundTrip(assets: int, total: int, amount: int): int
    requires assets > 0 && total > 0
  {
    var minted := MintedShares(assets, total, amount);
    minted * (assets + amount) / (total + minted)
  }

  /** A deposit redeemed at once returns no more than was put in, exactly up to the
      point where the floor of one share gives away more than a unit. */
  lemma RoundTripBound(assets: int, total: int, amount: int)
    requires assets > 0 && total > 0 && amount > 0
    ensures RoundTrip(assets, total, amount) <= amount <==> assets <= (amount + 1) * total
  {
    var minted := MintedShares(assets, total, amount);
    MintedIs(assets, total, amount);
    RoundTripMath(assets, total, amount, minted);
    Scaled(amount, 1, total);
  }

  lemma DepositRoundTrip(s: State, now: nat, a: Address, amount: int)
    requires Books(s) && Deposit(s, now, a, amount).Done?
    ensures s.assets > 0 && s.totalShares > 0
    ensures var s', minted := Deposit(s, now, a, amount).state, Deposit(s, now, a, amount).amount;
            Redeemed(s', minted).Some? ==>
              && Redeemed(s', minted).value == RoundTrip(s.assets, s.totalShares, amount)
              && (Redeemed(s', minted).value <= amount <==> s.assets <= (amount + 1) * s.totalShares)
  {
    DepositIs(s, now, a, amount);
    DepositBooks(s, now, a, amount);
    MintedIs(s.assets, s.totalShares, amount);
    RedeemedIs(Deposit(s, now, a, amount).state, Deposit(s, now, a, amount).amount);
    RoundTripBound(s.assets, s.totalShares, amount);
  }

  lemma RoundTripMath(assets: int, t: int, amount: int, minted: int)
    requires assets > 0 && t > 0 && amount >= 0 && minted >= 1
    ensures minted * (assets + amount) / (t + minted) <= amount <==> minted * assets < (amount + 1) * t + minted
  {
    var n, d := minted * (assets + amount), t + minted;
    ProductOrdered(0, minted, assets + amount);
    Quotient(n, d);
    assert n == minted * assets + minted * amount;
    assert (amount + 1) * d == (amount + 1) * t + amount * minted + minted;
    if n / d <= amount { ProductOrdered(n / d + 1, amount + 1, d); } else { ProductOrdered(amount + 1, n / d, d); }
  }

  /** A withdrawal never lowers the price, nor does income. */
  lemma WithdrawPrice(s: State, now: nat, a: Address, x: int)
    requires Books(s) && !s.emergency && Withdraw(s, now, a, x).Done?
    ensures PriceKept(s, Withdraw(s, now, a, x).state)
  {
  }

  lemma IncomePrice(s: State, amount: int)
    requires Books(s) && ReceiveIncome(s, amount).Done?
    ensures PriceKept(s, ReceiveIncome(s, amount).state)
  {
    TotalNonNegative(s.shares, Each());
    ProductOrdered(s.assets, s.assets + amount, s.totalShares);
  }

  // ----- After compensation -----

  /** What the vault holds over the assets less the seed: tokens sent and not reported. */
  function Unreported(s: State): int { s.donated - s.income }

  /** In any state, compensation or not: a withdrawal that passes its guards is refused
      exactly when its part of the assets exceeds the tokens behind them, and pays that
      part otherwise. */
  lemma WithdrawShortExactly(s: State, now: nat, a: Address, x: int)
    requires Books(s) && !s.emergency
    requires 0 < x <= s.SharesOf(a) && now >= s.CooldownOf(a) && FitsI128(x * s.assets)
    ensures s.totalShares > 0
    ensures var part := x * s.assets / s.totalShares;
            && (Withdraw(s, now, a, x) == Reverted(VaultShort) <==> part > s.assets - VIRTUAL_ASSETS + Unreported(s))
            && (Withdraw(s, now, a, x) != Reverted(VaultShort) ==>
                  Withdraw(s, now, a, x).Done? && Withdraw(s, now, a, x).amount == part)
  {
    OwnShares(s, a);
    RedeemedIs(s, x);
  }

  /** The same in every run from a fresh vault. */
  lemma ShortExactlyInRuns(funds: map<Address, int>, calls: seq<Call>, now: nat, a: Address, x: int)
    requires var s := Run(Fresh(funds), calls);
             !s.emergency && 0 < x <= s.SharesOf(a) && now >= s.CooldownOf(a) && FitsI128(x * s.assets)
    ensures var s := Run(Fresh(funds), calls);
            && s.totalShares > 0
            && (Withdraw(s, now, a, x) == Reverted(VaultShort)
                <==> x * s.assets / s.totalShares > s.assets - VIRTUAL_ASSETS + Unreported(s))
  {
    FreshHealthy(funds);
    BooksAlways(Fresh(funds), calls);
    WithdrawShortExactly(Run(Fresh(funds), calls), now, a, x);
  }

  /** The floor of a quotient exceeds a whole number exactly when the dividend reaches the next multiple. */
  lemma FloorExceeds(n: int, d: int, k: int)
    requires n >= 0 && d > 0
    ensures n / d > k <==> n >= (k + 1) * d
  {
    Quotient(n, d);
    if n / d > k { ProductOrdered(k + 1, n / d, d); } else { ProductOrdered(n / d + 1, k + 1, d); }
  }

  lemma LastPart(assets: int, total: int)
    requires assets >= 0 && total >= VIRTUAL_SHARES
    ensures (total - VIRTUAL_SHARES) * assets / total > assets - VIRTUAL_ASSETS
            <==> VIRTUAL_SHARES * (total - assets) >= total
  {
    ProductOrdered(0, total - VIRTUAL_SHARES, assets);
    FloorExceeds((total - VIRTUAL_SHARES) * assets, total, assets - VIRTUAL_ASSETS);
    assert (total - VIRTUAL_SHARES) * assets == total * assets - VIRTUAL_SHARES * assets;
    assert (assets - VIRTUAL_ASSETS + 1) * total == assets * total - VIRTUAL_ASSETS * total + total;
  }

  /** With nothing sent unreported, the last provider is refused its whole position exactly
      when the assets have fallen below the shares by a billionth of the shares or more. */
  lemma LastProviderRefused(s: State, now: nat, a: Address)
    requires Books(s) && !s.emergency && Unreported(s) == 0
    requires 0 < s.SharesOf(a) == s.totalShares - VIRTUAL_SHARES
    requires now >= s.CooldownOf(a) && FitsI128(s.SharesOf(a) * s.assets)
    ensures Withdraw(s, now, a, s.SharesOf(a)) == Reverted(VaultShort)
            <==> VIRTUAL_SHARES * (s.totalShares - s.assets) >= s.totalShares
  {
    WithdrawShortExactly(s, now, a, s.SharesOf(a));
    LastPart(s.assets, s.totalShares);
  }

  /** LP 1 deposits 1000, half of it is paid out in compensation, and two days later
      LP 1 redeems everything it owns. */
  function LastExit(): seq<Call> {
    [Call(0, DoDeposit(1, 10_000_000_000)), Call(0, DoCover(5_000_000_000, 2))]
  }

  /** The seed counts as assets but no tokens stand behind it: after compensation an
      LP can be owed more than the vault holds. */
  lemma CoverBreaksSolvency()
    ensures var s := Run(Fresh(map[1 := 10_000_000_000]), LastExit());
            && s.assets < s.totalShares && s.SharesOf(1) == 10_000_000_000
            && Redeemed(s, 10_000_000_000) == Some(5_454_545_454) && s.held == 5_000_000_000
            && Withdraw(s, COOLDOWN_SECS, 1, 10_000_000_000) == Reverted(VaultShort)
  {
    var s0, calls := Fresh(map[1 := 10_000_000_000]), LastExit();
    assert calls[..1] == [calls[0]] && calls[..1][..0] == [];
    var s1 := After(s0, calls[0]);
    assert Run(s0, calls[..1]) == s1;
    assert Minted(10_000_000_000, VIRTUAL_SHARES, VIRTUAL_ASSETS) == Some(10_000_000_000);
    assert s1.assets == 11_000_000_000 && s1.held == 10_000_000_000;
    var s := After(s1, calls[1]);
    assert s.assets == 6_000_000_000 && s.totalShares == 11_000_000_000;
    assert 10_000_000_000 * 6_000_000_000 / 11_000_000_000 == 5_454_545_454;
  }
}
