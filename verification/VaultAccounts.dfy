/**
  What each call does to each account: its tokens, its shares, its queue entry and its
  cooldown; when a call goes through; and what that makes of every run.
 */
module VaultAccounts {
  import opened Wrappers
  import opened SettlementMath
  import opened VaultModel
  import opened VaultTheorems
  import opened Sums

  // ----- What an account gains by a call that goes through -----

  /** The part of the assets that `x` shares stand for. */
  function Part(s: State, x: int): int {
    if s.totalShares > 0 then x * s.assets / s.totalShares else 0
  }

  /** What leaves the vault. */
  function PaidOut(s: State, x: Action): int {
    match x
    case DoWithdraw(_, n) => if s.emergency then 0 else Part(s, n)
    case DoProcess(a) => Min(s.QueuedOf(a), s.assets)
    case DoCover(amount, _) => Min(amount, s.assets)
    case _ => 0
  }

  /** What leaves it goes to the provider named, or to the recipient of a compensation. */
  predicate Payee(x: Action, a: Address) {
    match x
    case DoWithdraw(b, _) => a == b
    case DoProcess(b) => a == b
    case DoCover(_, to) => a == to
    case _ => false
  }

  function TokensGained(s: State, x: Action, a: Address): int {
    if Payee(x, a) then PaidOut(s, x)
    else if x.DoDeposit? && x.a == a then -x.amount
    else if x.Fund? && x.a == a then x.funds
    else 0
  }

  function SharesGained(s: State, x: Action, a: Address): int {
    if x.DoDeposit? && x.a == a && s.assets > 0 then MintedShares(s.assets, s.totalShares, x.amount)
    else if x.DoWithdraw? && x.a == a then -x.x
    else 0
  }

  /** An exit during an emergency is promised its part; processing the promise clears it. */
  function QueueGained(s: State, x: Action, a: Address): int {
    if x.DoWithdraw? && x.a == a && s.emergency then Part(s, x.x)
    else if x.DoProcess? && x.a == a then -s.QueuedOf(a)
    else 0
  }

  /** A deposit of at least a tenth of what the depositor already owns starts its cooldown again. */
  predicate Restarts(s: State, x: Action, a: Address) {
    x.DoDeposit? && x.a == a && 10 * x.amount >= Part(s, s.SharesOf(a))
  }

  // ----- When a call goes through -----

  predicate May(s: State, now: nat, x: Action) {
    match x
    case DoDeposit(a, amount) => amount >= s.config.minDeposit && s.Balance(a) >= amount && s.assets > 0
    case DoWithdraw(a, n) => 0 < n <= s.SharesOf(a) && now >= s.CooldownOf(a) && PaidOut(s, x) <= s.held
    case DoProcess(a) => s.emergency && s.QueuedOf(a) > 0 && PaidOut(s, x) <= s.held
    case DoCover(amount, _) => amount > 0 && PaidOut(s, x) <= s.held
    case DoIncome(amount) => amount > 0
    case DoSetConfig(c) => c.Valid()
    case _ => true
  }

  /** The products the call checks stay within 128 bits. */
  predicate Fits(s: State, x: Action) {
    match x
    case DoDeposit(a, amount) =>
      && FitsI128(amount * s.totalShares) && FitsI128(s.SharesOf(a) * s.assets)
      && (Part(s, s.SharesOf(a)) > 0 ==> FitsI128(amount * 10_000) && FitsI128(Part(s, s.SharesOf(a)) * 1_000))
    case DoWithdraw(_, n) => FitsI128(n * s.assets)
    case _ => true
  }

  // ----- One call -----

  /** What a call does to account `a`. */
  ghost predicate Moves(s: State, now: nat, x: Action, s': State, a: Address) {
    && s'.Balance(a) == s.Balance(a) + TokensGained(s, x, a)
    && s'.SharesOf(a) == s.SharesOf(a) + SharesGained(s, x, a)
    && s'.QueuedOf(a) == s.QueuedOf(a) + QueueGained(s, x, a)
    && s'.CooldownOf(a) == (if Restarts(s, x, a) then now + s.config.cooldownSecs else s.CooldownOf(a))
  }

  /** What the vault keeps: tokens, and assets by its own account, income included. */
  ghost predicate Pooled(s: State, x: Action, s': State) {
    var came := if x.DoDeposit? then x.amount else 0;
    && s'.held == s.held + came - PaidOut(s, x) + (if x.Send? then x.donation else 0)
    && s'.assets == s.assets + came - PaidOut(s, x) + (if x.DoIncome? then x.amount else 0)
    && s'.emergency == (if x.DoSetEmergency? then x.on else s.emergency)
    && s'.config == (if x.DoSetConfig? then x.config else s.config)
  }

  lemma SeedStays(s: State)
    requires Books(s)
    ensures s.totalShares > 0
  {
    TotalNonNegative(s.shares, Each());
  }

  lemma DepositMoves(s: State, now: nat, b: Address, amount: int, a: Address)
    requires Books(s) && Deposit(s, now, b, amount).Done?
    ensures var s' := Deposit(s, now, b, amount).state;
            Moves(s, now, DoDeposit(b, amount), s', a) && Pooled(s, DoDeposit(b, amount), s')
  {
    DepositIs(s, now, b, amount);
    OwnShares(s, b);
    ProductOrdered(0, s.SharesOf(b), s.assets);
    Quotient(s.SharesOf(b) * s.assets, s.totalShares);
  }

  lemma WithdrawMoves(s: State, now: nat, b: Address, n: int, a: Address)
    requires Books(s) && Withdraw(s, now, b, n).Done?
    ensures var s' := Withdraw(s, now, b, n).state;
            Moves(s, now, DoWithdraw(b, n), s', a) && Pooled(s, DoWithdraw(b, n), s')
  {
    SeedStays(s);
    OwnShares(s, b);
    RedeemedIs(s, n);
  }

  lemma PayoutMoves(s: State, now: nat, x: Action, a: Address)
    requires Books(s) && (x.DoProcess? || x.DoCover?) && Perform(s, now, x).Done?
    ensures Moves(s, now, x, Perform(s, now, x).state, a) && Pooled(s, x, Perform(s, now, x).state)
  {
  }

  lemma PlainMoves(s: State, now: nat, x: Action, a: Address)
    requires !x.DoDeposit? && !x.DoWithdraw? && !x.DoProcess? && !x.DoCover? && Perform(s, now, x).Done?
    ensures Moves(s, now, x, Perform(s, now, x).state, a) && Pooled(s, x, Perform(s, now, x).state)
  {
  }

  /** Every call, for every account: what it is paid, what it pays, and nobody else. */
  lemma AccountsMove(s: State, c: Call, a: Address)
    requires Books(s)
    ensures if Perform(s, c.now, c.action).Done?
            then Moves(s, c.now, c.action, After(s, c), a) && Pooled(s, c.action, After(s, c))
            else After(s, c) == s
  {
    if Perform(s, c.now, c.action).Done? {
      if c.action.DoDeposit? {
        DepositMoves(s, c.now, c.action.a, c.action.amount, a);
      } else if c.action.DoWithdraw? {
        WithdrawMoves(s, c.now, c.action.a, c.action.x, a);
      } else if c.action.DoProcess? || c.action.DoCover? {
        PayoutMoves(s, c.now, c.action, a);
      } else {
        PlainMoves(s, c.now, c.action, a);
      }
    }
  }

  lemma DepositPasses(s: State, now: nat, a: Address, amount: int)
    requires Books(s)
    ensures Deposit(s, now, a, amount).Done? <==> May(s, now, DoDeposit(a, amount)) && Fits(s, DoDeposit(a, amount))
  {
    OwnShares(s, a);
    ProductOrdered(0, s.SharesOf(a), s.assets);
    Quotient(s.SharesOf(a) * s.assets, s.totalShares);
  }

  lemma WithdrawPasses(s: State, now: nat, a: Address, n: int)
    requires Books(s)
    ensures Withdraw(s, now, a, n).Done? <==> May(s, now, DoWithdraw(a, n)) && Fits(s, DoWithdraw(a, n))
  {
    OwnShares(s, a);
    if 0 < n <= s.SharesOf(a) { RedeemedIs(s, n); }
  }

  /** A call goes through exactly when it may and its products fit. */
  lemma PassesExactly(s: State, c: Call)
    requires Books(s)
    ensures Perform(s, c.now, c.action).Done? <==> May(s, c.now, c.action) && Fits(s, c.action)
  {
    SeedStays(s);
    match c.action
    case DoDeposit(a, amount) => DepositPasses(s, c.now, a, amount);
    case DoWithdraw(a, n) => WithdrawPasses(s, c.now, a, n);
    case _ =>
  }

  // ----- Runs -----

  /** What the account was paid by all calls of a run, less what it paid. */
  ghost function Received(s: State, calls: seq<Call>, a: Address): int {
    if calls == [] then 0 else
    var front, last := calls[..|calls| - 1], calls[|calls| - 1];
    Received(s, front, a) +
    (if Perform(Run(s, front), last.now, last.action).Done? then TokensGained(Run(s, front), last.action, a) else 0)
  }

  ghost function Bought(s: State, calls: seq<Call>, a: Address): int {
    if calls == [] then 0 else
    var front, last := calls[..|calls| - 1], calls[|calls| - 1];
    Bought(s, front, a) +
    (if Perform(Run(s, front), last.now, last.action).Done? then SharesGained(Run(s, front), last.action, a) else 0)
  }

  /** In every run, each account has what it began with, plus what each call owed it. */
  lemma {:induction false} StatementOfAccount(s: State, calls: seq<Call>, a: Address)
    requires Books(s)
    ensures Run(s, calls).Balance(a) == s.Balance(a) + Received(s, calls, a)
    ensures Run(s, calls).SharesOf(a) == s.SharesOf(a) + Bought(s, calls, a)
  {
    if calls != [] {
      var front := calls[..|calls| - 1];
      StatementOfAccount(s, front, a);
      BooksAlways(s, front);
      AccountsMove(Run(s, front), calls[|calls| - 1], a);
    }
  }

  /** What the outside world brings in by a call, and by a run. */
  function Brought(x: Action): nat {
    if x.Fund? then x.funds else if x.Send? then x.donation else 0
  }

  function Supplied(calls: seq<Call>): nat {
    if calls == [] then 0 else Supplied(calls[..|calls| - 1]) + Brought(calls[|calls| - 1].action)
  }

  lemma PayoutConserves(s: State, now: nat, x: Action)
    requires (x.DoProcess? || x.DoCover?) && Perform(s, now, x).Done?
    ensures var s' := Perform(s, now, x).state;
            s'.held + Total(s'.wallets, Each()) == s.held + Total(s.wallets, Each())
  {
    var a: Address := if x.DoProcess? then x.a else x.to;
    TotalUpdate(s.wallets, a, s.Balance(a) + Perform(s, now, x).amount, Each());
  }

  lemma PlainConserves(s: State, now: nat, x: Action)
    requires !x.DoDeposit? && !x.DoWithdraw? && !x.DoProcess? && !x.DoCover? && Perform(s, now, x).Done?
    ensures var s' := Perform(s, now, x).state;
            s'.held + Total(s'.wallets, Each()) == s.held + Total(s.wallets, Each()) + Brought(x)
  {
    if x.Fund? { TotalUpdate(s.wallets, x.a, s.Balance(x.a) + x.funds, Each()); }
  }

  lemma WalletsMove(s: State, c: Call)
    ensures After(s, c).held + Total(After(s, c).wallets, Each()) ==
              s.held + Total(s.wallets, Each()) + Brought(c.action)
  {
    if Perform(s, c.now, c.action).Done? {
      if c.action.DoDeposit? {
        DepositConserves(s, c.now, c.action.a, c.action.amount);
      } else if c.action.DoWithdraw? {
        WithdrawConserves(s, c.now, c.action.a, c.action.x);
      } else if c.action.DoProcess? || c.action.DoCover? {
        PayoutConserves(s, c.now, c.action);
      } else {
        PlainConserves(s, c.now, c.action);
      }
    }
  }

  lemma DepositConserves(s: State, now: nat, a: Address, amount: int)
    requires Deposit(s, now, a, amount).Done?
    ensures var s' := Deposit(s, now, a, amount).state;
            s'.held + Total(s'.wallets, Each()) == s.held + Total(s.wallets, Each())
  {
    TotalUpdate(s.wallets, a, s.Balance(a) - amount, Each());
  }

  lemma WithdrawConserves(s: State, now: nat, a: Address, n: int)
    requires Withdraw(s, now, a, n).Done?
    ensures var s' := Withdraw(s, now, a, n).state;
            s'.held + Total(s'.wallets, Each()) == s.held + Total(s.wallets, Each())
  {
    TotalUpdate(s.wallets, a, s.Balance(a) + Withdraw(s, now, a, n).amount, Each());
  }

  /** No call makes or destroys a token: in every run the vault and all wallets hold
      together what they began with and what the outside world brought. */
  lemma {:induction false} TokensConserved(s: State, calls: seq<Call>)
    ensures Run(s, calls).held + Total(Run(s, calls).wallets, Each()) ==
              s.held + Total(s.wallets, Each()) + Supplied(calls)
  {
    if calls != [] {
      var front := calls[..|calls| - 1];
      TokensConserved(s, front);
      WalletsMove(Run(s, front), calls[|calls| - 1]);
    }
  }

  // ----- The cooldown over runs -----

  /** No call of the run starts the account's cooldown again. */
  ghost predicate NoRestart(s: State, calls: seq<Call>, a: Address) {
    calls == [] ||
    var front, last := calls[..|calls| - 1], calls[|calls| - 1];
    NoRestart(s, front, a) &&
    !(Perform(Run(s, front), last.now, last.action).Done? && Restarts(Run(s, front), last.action, a))
  }

  lemma {:induction false} CooldownStays(s: State, calls: seq<Call>, a: Address)
    requires Books(s) && NoRestart(s, calls, a)
    ensures Run(s, calls).CooldownOf(a) == s.CooldownOf(a)
  {
    if calls != [] {
      var front := calls[..|calls| - 1];
      CooldownStays(s, front, a);
      BooksAlways(s, front);
      AccountsMove(Run(s, front), calls[|calls| - 1], a);
    }
  }

  /** Nobody leaves before the cooldown of its last sizeable deposit is over, whatever
      happens in between: smaller deposits, new settings, an emergency. */
  lemma NoEarlyExit(s: State, deposit: Call, calls: seq<Call>, exit: Call)
    requires Books(s) && deposit.action.DoDeposit? && exit.action.DoWithdraw?
    requires Perform(s, deposit.now, deposit.action).Done? && Restarts(s, deposit.action, deposit.action.a)
    requires exit.action.a == deposit.action.a
    requires NoRestart(After(s, deposit), calls, deposit.action.a)
    requires Perform(Run(After(s, deposit), calls), exit.now, exit.action).Done?
    ensures exit.now >= deposit.now + s.config.cooldownSecs
  {
    AccountsMove(s, deposit, deposit.action.a);
    BooksStep(s, deposit);
    CooldownStays(After(s, deposit), calls, deposit.action.a);
    BooksAlways(After(s, deposit), calls);
    PassesExactly(Run(After(s, deposit), calls), exit);
  }
}
