/**
  What every call costs and pays: for each token and each party, the contract and
  any wallet, by how much its balance moves, with fees and penalties written out.
  Over a run each balance is what it began with plus the sum of these movements,
  and so is each solver's bond.
 */
module SettlementAccounts {
  import opened Wrappers
  import opened SettlementMath
  import opened SettlementModel
  import opened SettlementFrames
  import opened SettlementLedger
  import opened Sums

  function Holding(bank: Bank, t: Token, p: Party): int {
    match p
    case Contract => bank.Held(t)
    case Wallet(a) => bank.Balance(t, a)
  }

  /** `amount` if the movement is about token `u` and party `q`, else nothing. */
  function At(t: Token, p: Party, u: Token, q: Party, amount: int): int { if t == u && p == q then amount else 0 }

  /** `bps` parts in ten thousand, rounded down. */
  function Parts(amount: int, bps: int): int { amount * bps / 10_000 }

  /** One unit at least, otherwise a tenth of the unfilled amount or of the bond if that
      is less, up to a thousand per whole ten thousand of the bond; nothing without a bond. */
  function Penalty(bond: int, unfilled: int): int {
    if bond <= 0 then 0 else Max(1, Min(Min(Max(unfilled, 0), bond) / 10, bond / 10_000 * 1_000))
  }

  lemma PenaltyIs(bond: int, unfilled: int)
    ensures SlashAmount(bond, unfilled) == Penalty(bond, unfilled)
  {
  }

  /** The solver's bond in token `t`; nobody else has one. */
  function Bonded(s: State, a: Address, t: Token): int { if a in s.solvers then BondOf(s, a, s.solvers[a], t) else 0 }

  /** What the solver assigned to the intent loses in the token it bonded for it. */
  function Forfeit(s: State, id: IntentId): int {
    if id in s.intents && s.intents[id].solver.Some? then
      Penalty(Bonded(s, s.intents[id].solver.value, s.intents[id].bondToken), s.intents[id].minDst - s.intents[id].totalFilled)
    else 0
  }

  function Escrowed(s: State, id: IntentId): int { if id in s.intents then s.intents[id].fillAmount.GetOr(0) else 0 }

  /** What is taken out of an escrow: nothing from a dispute that timed out. */
  function EscrowFeeOf(s: State, id: IntentId): int {
    if id in s.intents && s.intents[id].phase == Filling then Parts(Escrowed(s, id), 5) else 0
  }

  // ----- The movements -----

  /** The escrow of `id` leaves the contract, `fee` of it to the fee recipient and the rest to the user. */
  function FromEscrow(s: State, id: IntentId, fee: int, t: Token, p: Party): int {
    if id !in s.intents then 0 else
    var i := s.intents[id];
    At(t, p, i.dstToken, Wallet(i.user), Escrowed(s, id) - fee) + At(t, p, i.dstToken, Wallet(s.rules.feeRecipient), fee)
      - At(t, p, i.dstToken, Contract, Escrowed(s, id))
  }

  /** The solver's penalty leaves the contract for the fee recipient. */
  function FromBond(s: State, id: IntentId, t: Token, p: Party): int {
    if id !in s.intents then 0 else
    var i := s.intents[id];
    At(t, p, i.bondToken, Wallet(s.rules.feeRecipient), Forfeit(s, id)) - At(t, p, i.bondToken, Contract, Forfeit(s, id))
  }

  /** What a call that goes through moves for party `p` in token `t`. */
  function Gain(s: State, x: Action, t: Token, p: Party): int {
    match x
    case DoRegister(a, u, amount, received) => At(t, p, u, Contract, received) - At(t, p, u, Wallet(a), amount)
    case DoWithdraw(a, u, amount) => At(t, p, u, Wallet(a), amount) - At(t, p, u, Contract, amount)
    case DoDeregister(a) => At(t, p, t, Wallet(a), Bonded(s, a, t)) - At(t, p, t, Contract, Bonded(s, a, t))
    case DoFill(a, id, amount, _, _) =>
      if id !in s.intents then 0 else
      var i, fee := s.intents[id], Parts(amount, s.rules.config.feeBps);
      At(t, p, i.dstToken, Wallet(i.user), amount) + At(t, p, i.dstToken, Wallet(s.rules.feeRecipient), fee)
        - At(t, p, i.dstToken, Wallet(a), amount + fee)
    case DoSlash(id, _) => FromBond(s, id, t, p)
    case DoBeginFill(a, id, amount, received) =>
      if id !in s.intents then 0 else
      At(t, p, s.intents[id].dstToken, Contract, received) - At(t, p, s.intents[id].dstToken, Wallet(a), amount)
    case DoResolve(_, id, ruling) =>
      if ruling == Upheld then FromEscrow(s, id, 0, t, p) + FromBond(s, id, t, p)
      else FromEscrow(s, id, Parts(Escrowed(s, id), 5), t, p)
    case DoRelease(id) => FromEscrow(s, id, EscrowFeeOf(s, id), t, p)
    case Mint(u, a, n) => At(t, p, u, Wallet(a), n)
    case _ => 0
  }

  // ----- Single transfers -----

  lemma SendMoves(bank: Bank, u: Token, a: Address, amount: int, why: Purpose, t: Token, p: Party)
    requires bank.Send(u, a, amount, why).Some?
    ensures Holding(bank.Send(u, a, amount, why).value, t, p)
              == Holding(bank, t, p) + At(t, p, u, Wallet(a), amount) - At(t, p, u, Contract, amount)
  {
  }

  lemma PullMoves(bank: Bank, u: Token, a: Address, amount: int, received: nat, why: Purpose, t: Token, p: Party)
    requires bank.Pull(u, a, amount, received, why).Some?
    ensures Holding(bank.Pull(u, a, amount, received, why).value, t, p)
              == Holding(bank, t, p) + At(t, p, u, Contract, received) - At(t, p, u, Wallet(a), amount)
  {
  }

  lemma DirectMoves(bank: Bank, u: Token, from: Address, to: Address, amount: int, why: Purpose, t: Token, p: Party)
    requires bank.Direct(u, from, to, amount, why).Some?
    ensures Holding(bank.Direct(u, from, to, amount, why).value, t, p)
              == Holding(bank, t, p) + At(t, p, u, Wallet(to), amount) - At(t, p, u, Wallet(from), amount)
  {
  }

  lemma EscrowMoves(bank: Bank, i: Intent, id: IntentId, escrow: int, fee: int, r: Address, t: Token, p: Party)
    requires fee >= 0 && PayEscrow(bank, i, id, escrow, fee, r).Some?
    ensures Holding(PayEscrow(bank, i, id, escrow, fee, r).value, t, p)
              == Holding(bank, t, p) + At(t, p, i.dstToken, Wallet(i.user), escrow - fee)
                 + At(t, p, i.dstToken, Wallet(r), fee) - At(t, p, i.dstToken, Contract, escrow)
  {
    var b := bank.Send(i.dstToken, i.user, escrow - fee, Delivery(id)).value;
    SendMoves(bank, i.dstToken, i.user, escrow - fee, Delivery(id), t, p);
    if fee > 0 { SendMoves(b, i.dstToken, r, fee, EscrowFee(id), t, p); }
  }

  lemma IfAnyMoves(bank: Bank, u: Token, a: Address, amount: int, why: Purpose, t: Token, p: Party)
    requires amount >= 0 && SendIfAny(bank, u, a, amount, why).Some?
    ensures Holding(SendIfAny(bank, u, a, amount, why).value, t, p)
              == Holding(bank, t, p) + At(t, p, u, Wallet(a), amount) - At(t, p, u, Contract, amount)
  {
    if amount > 0 { SendMoves(bank, u, a, amount, why, t, p); }
  }

  lemma FillMoves(bank: Bank, i: Intent, id: IntentId, a: Address, amount: int, fee: int, r: Address, t: Token, p: Party)
    requires fee >= 0 && PayFill(bank, i, id, a, amount, fee, r).Some?
    ensures Holding(PayFill(bank, i, id, a, amount, fee, r).value, t, p)
              == Holding(bank, t, p) + At(t, p, i.dstToken, Wallet(i.user), amount)
                 + At(t, p, i.dstToken, Wallet(r), fee) - At(t, p, i.dstToken, Wallet(a), amount + fee)
  {
    var b := bank.Direct(i.dstToken, a, i.user, amount, Delivery(id)).value;
    DirectMoves(bank, i.dstToken, a, i.user, amount, Delivery(id), t, p);
    if fee > 0 { DirectMoves(b, i.dstToken, a, r, fee, Purpose.FillFee, t, p); }
  }

  lemma {:induction false} RefundMoves(bank: Bank, a: Address, refunds: seq<(Token, int)>, t: Token, p: Party)
    requires PayRefunds(bank, a, refunds).Some?
    ensures Holding(PayRefunds(bank, a, refunds).value, t, p)
              == Holding(bank, t, p) + At(t, p, t, Wallet(a), LogSum(refunds, RefundIn(t)))
                 - At(t, p, t, Contract, LogSum(refunds, RefundIn(t)))
  {
    if refunds != [] {
      var front, last := refunds[..|refunds| - 1], refunds[|refunds| - 1];
      RefundMoves(bank, a, front, t, p);
      SendMoves(PayRefunds(bank, a, front).value, last.0, a, last.1, BondOut, t, p);
    }
  }

  // ----- Calls -----

  /** The party's balance after the call is what it was plus its gain. */
  ghost predicate Moves(s: State, x: Action, o: Outcome, t: Token, p: Party) {
    o.Done? ==> Holding(o.state.bank, t, p) == Holding(s.bank, t, p) + Gain(s, x, t, p)
  }

  lemma RegisterMoves(s: State, c: Call, t: Token, p: Party)
    requires c.action.DoRegister?
    ensures Moves(s, c.action, Perform(s, c.now, c.action), t, p)
  {
    var x := c.action;
    if Perform(s, c.now, x).Done? {
      Enlists(s, x.a, x.t, x.amount, x.received);
      PullMoves(s.bank, x.t, x.a, x.amount, x.received, Purpose.BondIn, t, p);
    }
  }

  lemma WithdrawMoves(s: State, c: Call, t: Token, p: Party)
    requires c.action.DoWithdraw?
    ensures Moves(s, c.action, Perform(s, c.now, c.action), t, p)
  {
    var x := c.action;
    if Perform(s, c.now, x).Done? { SendMoves(s.bank, x.t, x.a, x.amount, BondOut, t, p); }
  }

  lemma DeregisterMoves(s: State, c: Call, t: Token, p: Party)
    requires Ledger(s) && c.action.DoDeregister?
    ensures Moves(s, c.action, Perform(s, c.now, c.action), t, p)
  {
    var a := c.action.a;
    if Perform(s, c.now, c.action).Done? {
      RefundsAreBonds(s, a, t);
      RefundMoves(s.bank, a, Refunds(s, a, s.solvers[a]), t, p);
    }
  }

  /** Rounding down is rounding toward zero for what is not negative. */
  lemma PartsRounded(amount: int, bps: int)
    requires amount >= 0 && bps >= 0
    ensures TruncDiv(amount * bps, BPS) == Parts(amount, bps) >= 0
  {
    assert amount * bps >= 0;
  }

  lemma FillCallMoves(s: State, c: Call, t: Token, p: Party)
    requires c.action.DoFill? && s.rules.config.feeBps >= 0
    ensures Moves(s, c.action, Perform(s, c.now, c.action), t, p)
  {
    var x := c.action;
    if Perform(s, c.now, x).Done? {
      PartsRounded(x.amount, s.rules.config.feeBps);
      FillMoves(s.bank, s.intents[x.id], x.id, x.a, x.amount, Parts(x.amount, s.rules.config.feeBps), s.rules.feeRecipient, t, p);
    }
  }

  lemma BeginFillMoves(s: State, c: Call, t: Token, p: Party)
    requires c.action.DoBeginFill?
    ensures Moves(s, c.action, Perform(s, c.now, c.action), t, p)
  {
    var x := c.action;
    if Perform(s, c.now, x).Done? {
      PullMoves(s.bank, s.intents[x.id].dstToken, x.a, x.amount, x.received, Purpose.EscrowIn(x.id), t, p);
    }
  }

  lemma PenaltyBounds(bond: int, unfilled: int)
    ensures 0 <= Penalty(bond, unfilled) <= Max(bond, 0)
  {
  }

  lemma SlashMoves(s: State, c: Call, t: Token, p: Party)
    requires c.action.DoSlash?
    ensures Moves(s, c.action, Perform(s, c.now, c.action), t, p)
    ensures Perform(s, c.now, c.action).Done? ==>
              Perform(s, c.now, c.action).events
                == [SolverSlashed(s.intents[c.action.id].solver.value, c.action.id, Forfeit(s, c.action.id))]
  {
    var id := c.action.id;
    if Perform(s, c.now, c.action).Done? {
      var i := s.intents[id];
      var bond := BondOf(s, i.solver.value, s.solvers[i.solver.value], i.bondToken);
      PenaltyIs(bond, i.minDst - i.totalFilled);
      PenaltyBounds(bond, i.minDst - i.totalFilled);
      IfAnyMoves(s.bank, i.bondToken, s.rules.feeRecipient, Forfeit(s, id), Purpose.Penalty, t, p);
    }
  }

  lemma ReleaseMoves(s: State, c: Call, t: Token, p: Party)
    requires Ledger(s) && c.action.DoRelease?
    ensures Moves(s, c.action, Perform(s, c.now, c.action), t, p)
  {
    var id := c.action.id;
    if Perform(s, c.now, c.action).Done? {
      PartsRounded(Escrowed(s, id), 5);
      EscrowMoves(s.bank, s.intents[id], id, Escrowed(s, id), EscrowFeeOf(s, id), s.rules.feeRecipient, t, p);
    }
  }

  lemma UpholdMoves(s: State, now: U64, id: IntentId, a: Address, t: Token, p: Party)
    requires id in s.intents && a in s.solvers && s.intents[id].solver == Some(a) && Uphold(s, now, id, a).Done?
    ensures Holding(Uphold(s, now, id, a).state.bank, t, p)
              == Holding(s.bank, t, p) + FromEscrow(s, id, 0, t, p) + FromBond(s, id, t, p)
  {
    var i, r := s.intents[id], s.rules.feeRecipient;
    var bond := BondOf(s, a, s.solvers[a], i.bondToken);
    PenaltyIs(bond, i.minDst - i.totalFilled);
    PenaltyBounds(bond, i.minDst - i.totalFilled);
    var paid := PayEscrow(s.bank, i, id, Escrowed(s, id), 0, r).value;
    EscrowMoves(s.bank, i, id, Escrowed(s, id), 0, r, t, p);
    IfAnyMoves(paid, i.bondToken, r, Forfeit(s, id), Purpose.Penalty, t, p);
  }

  lemma DismissMoves(s: State, now: U64, id: IntentId, a: Address, t: Token, p: Party)
    requires id in s.intents && a in s.solvers && Escrowed(s, id) >= 0 && Dismiss(s, now, id, a).Done?
    ensures Holding(Dismiss(s, now, id, a).state.bank, t, p)
              == Holding(s.bank, t, p) + FromEscrow(s, id, Parts(Escrowed(s, id), 5), t, p)
  {
    PartsRounded(Escrowed(s, id), 5);
    EscrowMoves(s.bank, s.intents[id], id, Escrowed(s, id), Parts(Escrowed(s, id), 5), s.rules.feeRecipient, t, p);
  }

  lemma ResolveMoves(s: State, c: Call, t: Token, p: Party)
    requires Ledger(s) && c.action.DoResolve?
    ensures Moves(s, c.action, Perform(s, c.now, c.action), t, p)
  {
    var x := c.action;
    if Perform(s, c.now, x).Done? {
      var a := s.intents[x.id].solver.value;
      if x.ruling == Upheld { UpholdMoves(s, c.now, x.id, a, t, p); } else { DismissMoves(s, c.now, x.id, a, t, p); }
    }
  }

  lemma QuietMoves(s: State, c: Call, t: Token, p: Party)
    requires c.action.DoSubmit? || c.action.DoCancel? || c.action.DoAmend? || c.action.DoExpire? || c.action.DoDispute?
             || c.action.DoExtend? || c.action.DoClose? || c.action.DoBid?
    ensures Moves(s, c.action, Perform(s, c.now, c.action), t, p)
  {
  }

  lemma AcceptMoves(s: State, c: Call, t: Token, p: Party)
    requires c.action.DoAccept?
    ensures Moves(s, c.action, Perform(s, c.now, c.action), t, p)
  {
  }

  lemma OutsideMoves(s: State, c: Call, t: Token, p: Party)
    requires c.action.DoAdminister? || c.action.Mint? || c.action.DoSettleBids?
    ensures Moves(s, c.action, Perform(s, c.now, c.action), t, p)
  {
    if Perform(s, c.now, c.action).Done? {
      if c.action.DoAdminister? { AdministerSilent(s, c.action.change); }
      if c.action.DoSettleBids? { BidsSettled(s, c.now, c.action.id); }
    }
  }

  /** What every call that goes through moves, for every party and token: nothing but
      its gain. A direct fill costs the solver the amount and the fee on top; an
      undisputed or dismissed escrow pays the user all but 5 basis points and a timed-out
      or upheld one everything; a slash moves exactly the penalty of the unfilled amount. */
  lemma BalancesMove(s: State, c: Call, t: Token, p: Party)
    requires Ledger(s) && s.rules.config.feeBps >= 0
    ensures Moves(s, c.action, Perform(s, c.now, c.action), t, p)
  {
    var x := c.action;
    if x.DoRegister? {
      RegisterMoves(s, c, t, p);
    } else if x.DoWithdraw? {
      WithdrawMoves(s, c, t, p);
    } else if x.DoDeregister? {
      DeregisterMoves(s, c, t, p);
    } else if x.DoFill? {
      FillCallMoves(s, c, t, p);
    } else if x.DoBeginFill? {
      BeginFillMoves(s, c, t, p);
    } else if x.DoSlash? {
      SlashMoves(s, c, t, p);
    } else if x.DoResolve? {
      ResolveMoves(s, c, t, p);
    } else if x.DoRelease? {
      ReleaseMoves(s, c, t, p);
    } else if x.DoAccept? {
      AcceptMoves(s, c, t, p);
    } else if x.DoAdminister? || x.Mint? || x.DoSettleBids? {
      OutsideMoves(s, c, t, p);
    } else {
      QuietMoves(s, c, t, p);
    }
  }
}
