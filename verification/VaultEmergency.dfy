/**
  Emergency mode: an exit is promised its part at once and paid later. Its shares are
  burned but the assets behind them stay counted, so later exits are promised more, and
  the promises can exceed what the vault holds.
 */
module VaultEmergency {
  import opened Wrappers
  import opened SettlementMath
  import opened VaultModel
  import opened VaultTheorems
  import opened VaultAccounts
  import opened Sums

  lemma PartGrows(n: int, total: int, total': int)
    requires n >= 0 && 0 < total' <= total
    ensures n / total <= n / total'
  {
    Quotient(n, total);
    Quotient(n, total');
    ProductOrdered(total', total, n / total);
    if n / total' < n / total { ProductOrdered(n / total' + 1, n / total, total'); }
  }

  /** After an exit in an emergency everyone else's shares stand for as much or more:
      what was promised is still counted for those who stay. */
  lemma LaterExitsPromisedMore(s: State, now: nat, a: Address, x: int, y: int)
    requires Books(s) && s.emergency && Withdraw(s, now, a, x).Done? && y >= 0
    ensures Part(Withdraw(s, now, a, x).state, y) >= Part(s, y)
  {
    var s' := Withdraw(s, now, a, x).state;
    OwnShares(s, a);
    RedeemedIs(s, x);
    ProductOrdered(0, y, s.assets);
    PartGrows(y * s.assets, s.totalShares, s'.totalShares);
  }

  /** In every run from a fresh vault: a promise is refused payment exactly when the
      tokens behind the assets fall short of it, or of the assets if those are less. */
  lemma PromiseRefusedExactly(funds: map<Address, int>, calls: seq<Call>, now: nat, a: Address)
    requires Run(Fresh(funds), calls).emergency && Run(Fresh(funds), calls).QueuedOf(a) > 0
    ensures var s := Run(Fresh(funds), calls);
            Perform(s, now, DoProcess(a)) == Reverted(VaultShort)
            <==> Min(s.QueuedOf(a), s.assets) > s.assets - VIRTUAL_ASSETS + Unreported(s)
  {
    FreshHealthy(funds);
    BooksAlways(Fresh(funds), calls);
  }

  // ----- A promise the vault cannot keep -----

  const UNIT := 1_000_000_000

  /** Two equal providers deposit and leave in an emergency; the first is paid. */
  function TwoExits(): seq<Call> {
    [Call(0, DoDeposit(1, UNIT)), Call(0, DoDeposit(2, UNIT)), Call(0, DoSetEmergency(true)),
     Call(COOLDOWN_SECS, DoWithdraw(1, UNIT)), Call(COOLDOWN_SECS, DoWithdraw(2, UNIT)),
     Call(COOLDOWN_SECS, DoProcess(1))]
  }

  /** What the vault and the two providers have left after `n` of the calls. */
  ghost predicate Stands(s: State, total: int, held: int, own1: int, own2: int, promised1: int, promised2: int) {
    && s.config == Config(MIN_DEPOSIT, COOLDOWN_SECS) && s.coverPaid == 0 && s.totalShares == total && s.held == held
    && s.SharesOf(1) == own1 && s.SharesOf(2) == own2 && s.QueuedOf(1) == promised1 && s.QueuedOf(2) == promised2
    && s.CooldownOf(1) <= COOLDOWN_SECS && s.CooldownOf(2) <= COOLDOWN_SECS
  }

  lemma RunNext(s: State, calls: seq<Call>, n: nat)
    requires n < |calls|
    ensures Run(s, calls[..n + 1]) == After(Run(s, calls[..n]), calls[n])
  {
    assert calls[..n + 1][..n] == calls[..n];
  }

  lemma Enters(s: State, a: Address)
    requires a == 1 || a == 2
    requires Stands(s, a * UNIT, (a - 1) * UNIT, (a - 1) * UNIT, 0, 0, 0) && s.assets == a * UNIT && s.Balance(a) >= UNIT
    ensures var s' := After(s, Call(0, DoDeposit(a, UNIT)));
            Stands(s', (a + 1) * UNIT, a * UNIT, UNIT, (a - 1) * UNIT, 0, 0) && s'.assets == (a + 1) * UNIT
            && s'.emergency == s.emergency && (a == 1 ==> s'.Balance(2) == s.Balance(2))
  {
  }

  lemma FirstLeaves(s: State)
    requires Stands(s, 3 * UNIT, 2 * UNIT, UNIT, UNIT, 0, 0) && s.assets == 3 * UNIT && s.emergency
    ensures var s' := After(s, Call(COOLDOWN_SECS, DoWithdraw(1, UNIT)));
            Stands(s', 2 * UNIT, 2 * UNIT, 0, UNIT, UNIT, 0) && s'.assets == 3 * UNIT && s'.emergency
  {
  }

  lemma SecondLeaves(s: State)
    requires Stands(s, 2 * UNIT, 2 * UNIT, 0, UNIT, UNIT, 0) && s.assets == 3 * UNIT && s.emergency
    ensures var s' := After(s, Call(COOLDOWN_SECS, DoWithdraw(2, UNIT)));
            Stands(s', UNIT, 2 * UNIT, 0, 0, UNIT, 1_500_000_000) && s'.assets == 3 * UNIT && s'.emergency
  {
  }

  lemma FirstIsPaid(s: State)
    requires Stands(s, UNIT, 2 * UNIT, 0, 0, UNIT, 1_500_000_000) && s.assets == 3 * UNIT && s.emergency
    ensures var s' := After(s, Call(COOLDOWN_SECS, DoProcess(1)));
            Stands(s', UNIT, UNIT, 0, 0, 0, 1_500_000_000) && s'.assets == 2 * UNIT && s'.emergency
  {
  }

  lemma BothEnter()
    ensures var s := Run(Fresh(map[1 := UNIT, 2 := UNIT]), TwoExits()[..2]);
            Stands(s, 3 * UNIT, 2 * UNIT, UNIT, UNIT, 0, 0) && s.assets == 3 * UNIT
  {
    var s0, calls := Fresh(map[1 := UNIT, 2 := UNIT]), TwoExits();
    RunNext(s0, calls, 0);
    Enters(s0, 1);
    RunNext(s0, calls, 1);
    Enters(Run(s0, calls[..1]), 2);
  }

  lemma BothLeave()
    ensures var s := Run(Fresh(map[1 := UNIT, 2 := UNIT]), TwoExits()[..5]);
            Stands(s, UNIT, 2 * UNIT, 0, 0, UNIT, 1_500_000_000) && s.assets == 3 * UNIT && s.emergency
  {
    var s0, calls := Fresh(map[1 := UNIT, 2 := UNIT]), TwoExits();
    BothEnter();
    RunNext(s0, calls, 2);
    RunNext(s0, calls, 3);
    FirstLeaves(Run(s0, calls[..3]));
    RunNext(s0, calls, 4);
    SecondLeaves(Run(s0, calls[..4]));
  }

  /** Nobody was compensated, yet the second provider is promised half as much again as it
      put in, and is refused it: the vault holds less. */
  lemma PromisesExceedTokens()
    ensures var s := Run(Fresh(map[1 := UNIT, 2 := UNIT]), TwoExits());
            && s.QueuedOf(2) == 1_500_000_000 && s.held == UNIT && s.coverPaid == 0
            && Perform(s, COOLDOWN_SECS, DoProcess(2)) == Reverted(VaultShort)
  {
    var s0, calls := Fresh(map[1 := UNIT, 2 := UNIT]), TwoExits();
    BothLeave();
    RunNext(s0, calls, 5);
    FirstIsPaid(Run(s0, calls[..5]));
    assert calls[..6] == calls;
  }
}
