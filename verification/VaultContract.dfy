/**
  The backstop vault contract as an object: each entrypoint updates the stored
  totals and balances step by step, and is proved to do what VaultModel says.
 */
module VaultContract {
  import opened Wrappers
  import opened SettlementMath
  import opened VaultModel

  /** The instance entries. */
  datatype Totals = Totals(assets: int, shares: int, queued: int, coverPaid: int, income: int)

  /** The entries per LP. */
  datatype Positions = Positions(shares: map<Address, int>, cooldown: map<Address, nat>, queue: map<Address, int>)

  class BackstopVault {
    var config: Config
    var emergency: bool
    var totals: Totals
    var lps: Positions
    var held: int                    // the vault's balance of the bond token
    var wallets: map<Address, int>   // everyone else's
    ghost var donated: nat           // tokens sent straight to the vault so far

    ghost function View(): State
      reads this
    {
      State(config, totals.assets, totals.shares, lps.shares, lps.cooldown, emergency, lps.queue,
            totals.queued, totals.coverPaid, totals.income, held, wallets, donated)
    }

    /** The call ended as `o` says; an error left nothing changed. */
    ghost predicate Ended(o: Outcome, before: State, amount: int, err: Option<Error>)
      reads this
    {
      match o
      case Done(s, n) => err == None && amount == n && View() == s
      case Reverted(e) => err == Some(e) && View() == before
    }

    constructor (funds: map<Address, int>)
      ensures View() == Fresh(funds)
    {
      config := Config(MIN_DEPOSIT, COOLDOWN_SECS);
      emergency, totals, lps := false, Totals(VIRTUAL_ASSETS, VIRTUAL_SHARES, 0, 0, 0), Positions(map[], map[], map[]);
      held, wallets, donated := 0, funds, 0;
    }

    /** Tokens into the vault. */
    method PullIn(a: Address, amount: int) returns (ok: bool)
      modifies this`held, this`wallets
      ensures ok <==> 0 <= amount <= old(View()).Balance(a)
      ensures ok ==> held == old(held) + amount && wallets == old(wallets)[a := old(View()).Balance(a) - amount]
      ensures !ok ==> held == old(held) && wallets == old(wallets)
    {
      var balance := if a in wallets then wallets[a] else 0;
      ok := 0 <= amount <= balance;
      if ok {
        held := held + amount;
        wallets := wallets[a := balance - amount];
      }
    }

    /** Tokens out of the vault. */
    method PayOut(a: Address, amount: int) returns (ok: bool)
      modifies this`held, this`wallets
      ensures ok <==> 0 <= amount <= old(held)
      ensures ok ==> held == old(held) - amount && wallets == old(wallets)[a := old(View()).Balance(a) + amount]
      ensures !ok ==> held == old(held) && wallets == old(wallets)
    {
      ok := 0 <= amount <= held;
      if ok {
        held := held - amount;
        wallets := wallets[a := (if a in wallets then wallets[a] else 0) + amount];
      }
    }

    method Deposit(now: nat, a: Address, amount: int) returns (minted: int, err: Option<Error>)
      modifies this
      ensures Ended(VaultModel.Deposit(old(View()), now, a, amount), old(View()), minted, err)
    {
      minted := 0;
      if amount < config.minDeposit { return 0, Some(BelowMinDeposit); }
      var quotient := MulDiv(amount, totals.shares, totals.assets);
      if quotient.None? { return 0, Some(ArithmeticOverflow); }
      minted := Max(quotient.value, 1);
      var balance, own := if a in wallets then wallets[a] else 0, if a in lps.shares then lps.shares[a] else 0;
      if amount < 0 || balance < amount { return 0, Some(WalletShort); }

      // The position before this deposit decides whether the cooldown restarts.
      var position := 0;
      if totals.shares > 0 {
        var value := MulDiv(own, totals.assets, totals.shares);
        if value.None? { return 0, Some(ArithmeticOverflow); }
        position := value.value;
      }
      var restart := position <= 0;
      if !restart {
        if !FitsI128(amount * 10_000) || !FitsI128(position * RESET_FRACTION_BPS) { return 0, Some(ArithmeticOverflow); }
        restart := amount * 10_000 >= position * RESET_FRACTION_BPS;
      }

      var paid := PullIn(a, amount);
      lps := lps.(shares := lps.shares[a := own + minted]);
      totals := totals.(shares := totals.shares + minted, assets := totals.assets + amount);
      if restart { lps := lps.(cooldown := lps.cooldown[a := now + config.cooldownSecs]); }
      err := None;
    }

    method Withdraw(now: nat, a: Address, x: int) returns (out: int, err: Option<Error>)
      modifies this
      ensures Ended(VaultModel.Withdraw(old(View()), now, a, x), old(View()), out, err)
    {
      out := 0;
      if x <= 0 { return 0, Some(ZeroAmount); }
      var own := if a in lps.shares then lps.shares[a] else 0;
      if own < x { return 0, Some(InsufficientShares); }
      if now < (if a in lps.cooldown then lps.cooldown[a] else 0) { return 0, Some(CooldownNotExpired); }
      var quotient := MulDiv(x, totals.assets, totals.shares);
      if quotient.None? { return 0, Some(ArithmeticOverflow); }
      out := Max(quotient.value, 0);
      if emergency {
        lps := lps.(queue := lps.queue[a := (if a in lps.queue then lps.queue[a] else 0) + out],
                    shares := lps.shares[a := own - x]);
        totals := totals.(queued := totals.queued + out, shares := totals.shares - x);
        return out, None;
      }
      if out > totals.assets { return 0, Some(VaultInsolvent); }
      var paid := PayOut(a, out);
      if !paid { return 0, Some(VaultShort); }
      lps := lps.(shares := lps.shares[a := own - x]);
      totals := totals.(shares := totals.shares - x, assets := totals.assets - out);
      err := None;
    }

    method ProcessQueuedWithdrawal(a: Address) returns (payout: int, err: Option<Error>)
      modifies this
      ensures Ended(ProcessQueued(old(View()), a), old(View()), payout, err)
    {
      if !emergency { return 0, Some(EmergencyModeNotActive); }
      var queued := if a in lps.queue then lps.queue[a] else 0;
      if queued <= 0 { return 0, Some(NothingQueued); }
      payout := Min(queued, totals.assets);
      var paid := PayOut(a, payout);
      if !paid { return 0, Some(VaultShort); }
      lps := lps.(queue := lps.queue[a := 0]);
      totals := totals.(queued := totals.queued - queued, assets := totals.assets - payout);
      err := None;
    }

    method Cover(amount: int, to: Address) returns (payout: int, err: Option<Error>)
      modifies this
      ensures Ended(VaultModel.Cover(old(View()), amount, to), old(View()), payout, err)
    {
      if amount <= 0 { return 0, Some(ZeroAmount); }
      payout := Min(amount, totals.assets);
      var paid := PayOut(to, payout);
      if !paid { return 0, Some(VaultShort); }
      totals := totals.(assets := totals.assets - payout, coverPaid := totals.coverPaid + payout);
      err := None;
    }

    method ReceiveIncome(amount: int) returns (err: Option<Error>)
      modifies this
      ensures Ended(VaultModel.ReceiveIncome(old(View()), amount), old(View()), amount, err)
    {
      if amount <= 0 { return Some(ZeroAmount); }
      totals := totals.(assets := totals.assets + amount, income := totals.income + amount);
      err := None;
    }

    method SetConfig(c: Config) returns (err: Option<Error>)
      modifies this
      ensures Ended(VaultModel.SetConfig(old(View()), c), old(View()), 0, err)
    {
      if c.minDeposit < MIN_DEPOSIT || c.minDeposit > MIN_DEPOSIT_CEILING { return Some(InvalidConfig); }
      if c.cooldownSecs < COOLDOWN_SECS_MIN || c.cooldownSecs > COOLDOWN_SECS_MAX { return Some(InvalidConfig); }
      config := c;
      err := None;
    }
  }
}
