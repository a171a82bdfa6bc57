/**
  The backstop vault as a transition system: liquidity providers deposit and
  withdraw shares of a pool that earns income and pays compensation.
 */
module VaultModel {
  import opened Wrappers
  import opened SettlementMath

  type Address = nat

  const VIRTUAL_SHARES := 1_000_000_000
  const VIRTUAL_ASSETS := 1_000_000_000
  const MIN_DEPOSIT := 10_000_000
  const MIN_DEPOSIT_CEILING := 10_000_000_000_000
  const COOLDOWN_SECS := 172_800
  const COOLDOWN_SECS_MIN := 3_600
  const COOLDOWN_SECS_MAX := 2_592_000
  const RESET_FRACTION_BPS := 1_000

  datatype Config = Config(minDeposit: int, cooldownSecs: nat) {
    predicate Valid() {
      && MIN_DEPOSIT <= minDeposit <= MIN_DEPOSIT_CEILING
      && COOLDOWN_SECS_MIN <= cooldownSecs <= COOLDOWN_SECS_MAX
    }
  }

  /** `assets` and `totalShares` include the virtual seed. `held` is the vault's
      token balance; `donated`, kept by the model only, is what was sent to it directly. */
  datatype State = State(
    config: Config, assets: int, totalShares: int, shares: map<Address, int>, cooldown: map<Address, nat>,
    emergency: bool, queue: map<Address, int>, totalQueued: int, coverPaid: int, income: int,
    held: int, wallets: map<Address, int>, donated: nat)
  {
    function SharesOf(a: Address): int { if a in shares then shares[a] else 0 }

    function QueuedOf(a: Address): int { if a in queue then queue[a] else 0 }

    function CooldownOf(a: Address): nat { if a in cooldown then cooldown[a] else 0 }

    function Balance(a: Address): int { if a in wallets then wallets[a] else 0 }
  }

  datatype Error =
    | ZeroAmount | BelowMinDeposit | CooldownNotExpired | InsufficientShares | VaultInsolvent
    | EmergencyModeNotActive | NothingQueued | InvalidConfig | ArithmeticOverflow
    | WalletShort   // an LP cannot pay its deposit
    | VaultShort    // the vault's own balance is too small for a transfer out

  datatype Outcome = Done(state: State, amount: int) | Reverted(error: Error)

  function Fresh(funds: map<Address, int>): State {
    State(Config(MIN_DEPOSIT, COOLDOWN_SECS), VIRTUAL_ASSETS, VIRTUAL_SHARES, map[], map[], false, map[], 0, 0, 0,
          0, funds, 0)
  }

  /** `x * y / z` as Rust rounds it, or nothing when the product leaves 128 bits or `z` is zero. */
  function MulDiv(x: int, y: int, z: int): Option<int> {
    if !FitsI128(x * y) || z == 0 then None
    else Some(if z > 0 then TruncDiv(x * y, z) else TruncDiv(-(x * y), -z))
  }

  /** Whether a deposit restarts the cooldown: at least a tenth of the position it
      joins, at the rate before it. `None` is an overflow. */
  function Significant(amount: int, position: int): Option<bool> {
    if position <= 0 then Some(true)
    else if !FitsI128(amount * 10_000) || !FitsI128(position * RESET_FRACTION_BPS) then None
    else Some(amount * 10_000 >= position * RESET_FRACTION_BPS)
  }

  function Minted(amount: int, shares: int, assets: int): Option<int> {
    match MulDiv(amount, shares, assets)
    case None => None
    case Some(q) => Some(Max(q, 1))
  }

  function Deposit(s: State, now: nat, a: Address, amount: int): Outcome {
    if amount < s.config.minDeposit then Reverted(BelowMinDeposit)
    else
      var minted := Minted(amount, s.totalShares, s.assets);
      if minted.None? then Reverted(ArithmeticOverflow)
      else if amount < 0 || s.Balance(a) < amount then Reverted(WalletShort)
      else
        var position := if s.totalShares > 0 then MulDiv(s.SharesOf(a), s.assets, s.totalShares) else Some(0);
        if position.None? then Reverted(ArithmeticOverflow)
        else
          var significant := Significant(amount, position.value);
          if significant.None? then Reverted(ArithmeticOverflow)
          else
            Done(s.(shares := s.shares[a := s.SharesOf(a) + minted.value],
                    totalShares := s.totalShares + minted.value,
                    assets := s.assets + amount,
                    cooldown := if significant.value then s.cooldown[a := now + s.config.cooldownSecs] else s.cooldown,
                    held := s.held + amount,
                    wallets := s.wallets[a := s.Balance(a) - amount]),
                 minted.value)
  }

  /** What `x` shares redeem for. */
  function Redeemed(s: State, x: int): Option<int> {
    match MulDiv(x, s.assets, s.totalShares)
    case None => None
    case Some(q) => Some(Max(q, 0))
  }

  function Withdraw(s: State, now: nat, a: Address, x: int): Outcome {
    if x <= 0 then Reverted(ZeroAmount)
    else if s.SharesOf(a) < x then Reverted(InsufficientShares)
    else if now < s.CooldownOf(a) then Reverted(CooldownNotExpired)
    else
      var out := Redeemed(s, x);
      if out.None? then Reverted(ArithmeticOverflow)
      else
        var burned := s.(shares := s.shares[a := s.SharesOf(a) - x], totalShares := s.totalShares - x);
        if s.emergency then
          Done(burned.(queue := s.queue[a := s.QueuedOf(a) + out.value], totalQueued := s.totalQueued + out.value), out.value)
        else if out.value > s.assets then Reverted(VaultInsolvent)
        else if s.held < out.value then Reverted(VaultShort)
        else
          Done(burned.(assets := s.assets - out.value, held := s.held - out.value,
                       wallets := s.wallets[a := s.Balance(a) + out.value]), out.value)
  }

  function ProcessQueued(s: State, a: Address): Outcome {
    if !s.emergency then Reverted(EmergencyModeNotActive)
    else if s.QueuedOf(a) <= 0 then Reverted(NothingQueued)
    else
      var queued := s.QueuedOf(a);
      var payout := Min(queued, s.assets);
      if payout < 0 || s.held < payout then Reverted(VaultShort)
      else
        Done(s.(queue := s.queue[a := 0], totalQueued := s.totalQueued - queued, assets := s.assets - payout,
                held := s.held - payout, wallets := s.wallets[a := s.Balance(a) + payout]), payout)
  }

  function Cover(s: State, amount: int, to: Address): Outcome {
    if amount <= 0 then Reverted(ZeroAmount)
    else
      var payout := Min(amount, s.assets);
      if payout < 0 || s.held < payout then Reverted(VaultShort)
      else
        Done(s.(assets := s.assets - payout, coverPaid := s.coverPaid + payout,
                held := s.held - payout, wallets := s.wallets[to := s.Balance(to) + payout]), payout)
  }

  function ReceiveIncome(s: State, amount: int): Outcome {
    if amount <= 0 then Reverted(ZeroAmount)
    else Done(s.(assets := s.assets + amount, income := s.income + amount), amount)
  }

  function SetConfig(s: State, c: Config): Outcome {
    if !c.Valid() then Reverted(InvalidConfig) else Done(s.(config := c), 0)
  }

  // ----- Runs -----

  datatype Action =
    | DoDeposit(a: Address, amount: int)
    | DoWithdraw(a: Address, x: int)
    | DoProcess(a: Address)
    | DoCover(amount: int, to: Address)
    | DoIncome(amount: int)
    | DoSetConfig(config: Config)
    | DoSetEmergency(on: bool)
    | Send(donation: nat)              // tokens sent straight to the vault
    | Fund(a: Address, funds: nat)     // the outside world funds a wallet

  datatype Call = Call(now: nat, action: Action)

  function Perform(s: State, now: nat, x: Action): Outcome {
    match x
    case DoDeposit(a, amount) => Deposit(s, now, a, amount)
    case DoWithdraw(a, n) => Withdraw(s, now, a, n)
    case DoProcess(a) => ProcessQueued(s, a)
    case DoCover(amount, to) => Cover(s, amount, to)
    case DoIncome(amount) => ReceiveIncome(s, amount)
    case DoSetConfig(c) => SetConfig(s, c)
    case DoSetEmergency(on) => Done(s.(emergency := on), 0)
    case Send(n) => Done(s.(held := s.held + n, donated := s.donated + n), n)
    case Fund(a, n) => Done(s.(wallets := s.wallets[a := s.Balance(a) + n]), n)
  }

  function After(s: State, c: Call): State {
    match Perform(s, c.now, c.action)
    case Done(s', _) => s'
    case Reverted(_) => s
  }

  function Run(s: State, calls: seq<Call>): State {
    if calls == [] then s else After(Run(s, calls[..|calls| - 1]), calls[|calls| - 1])
  }
}
