/**
  What every call does to a solver's standing: its bond in every token, what it has
  completed, failed and delivered, and whether it may go on. Over a run a bond is what
  the solver put in, less what it took out and what it forfeited.
 */
module SettlementStandings {
  import opened Wrappers
  import opened SettlementMath
  import opened SettlementModel
  import opened SettlementFrames
  import opened SettlementLedger
  import opened SettlementAccounts
  import opened Sums

  /** The call ends an obligation of `a` against it. */
  predicate Penalizes(s: State, x: Action, a: Address) {
    && (x.DoSlash? || (x.DoResolve? && x.ruling == Upheld))
    && x.id in s.intents && s.intents[x.id].solver == Some(a)
  }

  /** The call pays out an escrow of `a` as delivered. */
  predicate Credits(s: State, x: Action, a: Address) {
    && (x.DoRelease? || (x.DoResolve? && x.ruling == Dismissed))
    && x.id in s.intents && s.intents[x.id].solver == Some(a)
    && (x.DoRelease? ==> s.intents[x.id].phase == Filling)
  }

  predicate Fills(s: State, x: Action, a: Address) { x.DoFill? && x.a == a && x.id in s.intents }

  function BondGain(s: State, x: Action, a: Address, t: Token): int {
    match x
    case DoRegister(b, u, _, received) => if b == a && u == t then received else 0
    case DoWithdraw(b, u, amount) => if b == a && u == t then -(amount as int) else 0
    case DoDeregister(b) => if b == a then -Bonded(s, a, t) else 0
    case _ => if Penalizes(s, x, a) && s.intents[x.id].bondToken == t then -Forfeit(s, x.id) else 0
  }

  function CompletedGain(s: State, x: Action, a: Address): nat {
    if Credits(s, x, a)
       || (Fills(s, x, a) && s.intents[x.id].totalFilled + x.amount >= s.intents[x.id].minDst) then 1 else 0
  }

  function FailedGain(s: State, x: Action, a: Address): nat { if Penalizes(s, x, a) then 1 else 0 }

  function VolumeGain(s: State, x: Action, a: Address): int {
    if Credits(s, x, a) then Escrowed(s, x.id) else if Fills(s, x, a) then x.amount else 0
  }

  /** A solver that stays registered keeps its record but for this. */
  ghost predicate Stands(s: State, now: nat, x: Action, o: Outcome, a: Address) {
    o.Done? && a in s.solvers && a in o.state.solvers ==>
      var rec, rec' := s.solvers[a], o.state.solvers[a];
      && rec'.completed == rec.completed + CompletedGain(s, x, a)
      && rec'.failed == rec.failed + FailedGain(s, x, a)
      && rec'.volume == rec.volume + VolumeGain(s, x, a)
      && rec'.lastSlash == (if Penalizes(s, x, a) then now else rec.lastSlash)
      && rec'.active == ((x.DoRegister? && x.a == a)
                         || (rec.active && (Penalizes(s, x, a) ==>
                               Bonded(o.state, a, s.intents[x.id].bondToken) >= MinBondFor(s, s.intents[x.id].bondToken))))
  }

  ghost predicate BondMoves(s: State, x: Action, o: Outcome, a: Address, t: Token) {
    o.Done? ==> Bonded(o.state, a, t) == Bonded(s, a, t) + BondGain(s, x, a, t)
  }

  /** One bond is written, of a solver perhaps new; every other stays. */
  lemma Rebonded(s: State, s': State, b: Address, u: Token, amount: int, a: Address, t: Token)
    requires Ledger(s) && s'.params == s.params && s'.bonds == BondsAfter(s, b, u, amount) && amount >= 0
    requires b in s'.solvers && s'.solvers == s.solvers[b := s'.solvers[b]]
    requires s'.solvers[b].bond
               == if u == s.params.bondToken then amount else if b in s.solvers then s.solvers[b].bond else 0
    ensures Bonded(s', a, t) == if a == b && t == u then amount else Bonded(s, a, t)
  {
  }

  lemma RegisterStands(s: State, c: Call, a: Address, t: Token)
    requires Ledger(s) && c.action.DoRegister?
    ensures Stands(s, c.now, c.action, Perform(s, c.now, c.action), a)
  {
    var x := c.action;
    if Perform(s, c.now, x).Done? {
      EnlistedBond(s, x.a, x.t);
      var bank := RegisterIs(s, x.a, x.t, x.amount, x.received);
    }
  }

  lemma RegisterBonds(s: State, c: Call, a: Address, t: Token)
    requires Ledger(s) && c.action.DoRegister?
    ensures BondMoves(s, c.action, Perform(s, c.now, c.action), a, t)
  {
    var x := c.action;
    if Perform(s, c.now, x).Done? {
      EnlistedBond(s, x.a, x.t);
      var bank := RegisterIs(s, x.a, x.t, x.amount, x.received);
      Rebonded(s, Perform(s, c.now, x).state, x.a, x.t, BondOf(s, x.a, Enlisted(s, x.a), x.t) + x.received, a, t);
    }
  }

  predicate Neutral(x: Action) { !x.DoRegister? && !x.DoSlash? && !x.DoResolve? && !x.DoRelease? && !x.DoFill? }

  lemma NeutralStands(s: State, now: nat, x: Action, o: Outcome, a: Address)
    requires Neutral(x)
    requires o.Done? && a in s.solvers && a in o.state.solvers ==>
               var rec := o.state.solvers[a];
               rec == s.solvers[a].(bond := rec.bond, bondTokens := rec.bondTokens, activeIntents := rec.activeIntents)
    ensures Stands(s, now, x, o, a)
  {
  }

  lemma WithdrawStands(s: State, c: Call, a: Address)
    requires c.action.DoWithdraw?
    ensures Stands(s, c.now, c.action, Perform(s, c.now, c.action), a)
  {
    NeutralStands(s, c.now, c.action, Perform(s, c.now, c.action), a);
  }

  lemma DeregisterStands(s: State, c: Call, a: Address)
    requires c.action.DoDeregister?
    ensures Stands(s, c.now, c.action, Perform(s, c.now, c.action), a)
  {
    NeutralStands(s, c.now, c.action, Perform(s, c.now, c.action), a);
  }

  lemma BondCallsBonds(s: State, c: Call, a: Address, t: Token)
    requires Ledger(s) && (c.action.DoWithdraw? || c.action.DoDeregister?)
    ensures BondMoves(s, c.action, Perform(s, c.now, c.action), a, t)
  {
  }

  lemma FillStands(s: State, c: Call, a: Address, t: Token)
    requires Ledger(s) && c.action.DoFill?
    ensures Stands(s, c.now, c.action, Perform(s, c.now, c.action), a)
  {
  }

  lemma FillBonds(s: State, c: Call, a: Address, t: Token)
    requires Ledger(s) && c.action.DoFill?
    ensures BondMoves(s, c.action, Perform(s, c.now, c.action), a, t)
  {
  }

  lemma AcceptStands(s: State, c: Call, a: Address, t: Token)
    requires Ledger(s) && c.action.DoAccept?
    ensures Stands(s, c.now, c.action, Perform(s, c.now, c.action), a)
    ensures BondMoves(s, c.action, Perform(s, c.now, c.action), a, t)
  {
  }

  lemma SlashStands(s: State, c: Call, a: Address, t: Token)
    requires Ledger(s) && c.action.DoSlash?
    ensures Stands(s, c.now, c.action, Perform(s, c.now, c.action), a)
  {
    var id := c.action.id;
    if Perform(s, c.now, c.action).Done? {
      var i := s.intents[id];
      var bond := BondOf(s, i.solver.value, s.solvers[i.solver.value], i.bondToken);
      PenaltyIs(bond, i.minDst - i.totalFilled);
      PenaltyBounds(bond, i.minDst - i.totalFilled);
    }
  }

  lemma SlashBonds(s: State, c: Call, a: Address, t: Token)
    requires Ledger(s) && c.action.DoSlash?
    ensures BondMoves(s, c.action, Perform(s, c.now, c.action), a, t)
  {
    var id := c.action.id;
    if Perform(s, c.now, c.action).Done? {
      var i := s.intents[id];
      var bond := BondOf(s, i.solver.value, s.solvers[i.solver.value], i.bondToken);
      PenaltyIs(bond, i.minDst - i.totalFilled);
      PenaltyBounds(bond, i.minDst - i.totalFilled);
    }
  }

  lemma UpheldStands(s: State, now: U64, id: IntentId, b: Address, caller: Address, a: Address)
    requires Ledger(s) && id in s.intents && b in s.solvers && s.intents[id].solver == Some(b) && Uphold(s, now, id, b).Done?
    ensures Stands(s, now, DoResolve(caller, id, Upheld), Uphold(s, now, id, b), a)
  {
  }

  lemma UpheldWrites(s: State, now: U64, id: IntentId, b: Address)
    requires id in s.intents && b in s.solvers && Uphold(s, now, id, b).Done?
    ensures var s', i, rec := Uphold(s, now, id, b).state, s.intents[id], s.solvers[b];
            var left := BondOf(s, b, rec, i.bondToken) - SlashAmount(BondOf(s, b, rec, i.bondToken), i.minDst - i.totalFilled);
            && s'.params == s.params && s'.bonds == BondsAfter(s, b, i.bondToken, left)
            && s'.solvers == s.solvers[b := RecordAfterSlash(s, rec, i.bondToken, left, now)]
  {
  }

  /** The solver of the intent loses its forfeit, and nobody else anything. */
  lemma ForfeitMoves(s: State, x: Action, o: Outcome, b: Address, a: Address, t: Token)
    requires Ledger(s) && b in s.solvers && Penalizes(s, x, b) && o.Done?
    requires var u := s.intents[x.id].bondToken;
             var left := BondOf(s, b, s.solvers[b], u) - Forfeit(s, x.id);
             && o.state.params == s.params && o.state.bonds == BondsAfter(s, b, u, left) && left >= 0
             && b in o.state.solvers && o.state.solvers == s.solvers[b := o.state.solvers[b]]
             && o.state.solvers[b].bond == if u == s.params.bondToken then left else s.solvers[b].bond
    ensures BondMoves(s, x, o, a, t)
  {
    var u := s.intents[x.id].bondToken;
    Rebonded(s, o.state, b, u, BondOf(s, b, s.solvers[b], u) - Forfeit(s, x.id), a, t);
  }

  lemma UpheldBonds(s: State, now: U64, id: IntentId, b: Address, caller: Address, a: Address, t: Token)
    requires Ledger(s) && id in s.intents && b in s.solvers && s.intents[id].solver == Some(b) && Uphold(s, now, id, b).Done?
    ensures BondMoves(s, DoResolve(caller, id, Upheld), Uphold(s, now, id, b), a, t)
  {
    var i := s.intents[id];
    var bond := BondOf(s, b, s.solvers[b], i.bondToken);
    PenaltyIs(bond, i.minDst - i.totalFilled);
    PenaltyBounds(bond, i.minDst - i.totalFilled);
    UpheldWrites(s, now, id, b);
    ForfeitMoves(s, DoResolve(caller, id, Upheld), Uphold(s, now, id, b), b, a, t);
  }

  lemma DismissedStands(s: State, now: U64, id: IntentId, b: Address, caller: Address, a: Address, t: Token)
    requires Ledger(s) && id in s.intents && b in s.solvers && s.intents[id].solver == Some(b) && Dismiss(s, now, id, b).Done?
    ensures var x := DoResolve(caller, id, Dismissed);
            Stands(s, now, x, Dismiss(s, now, id, b), a) && BondMoves(s, x, Dismiss(s, now, id, b), a, t)
  {
  }

  lemma ResolveStands(s: State, c: Call, a: Address, t: Token)
    requires Ledger(s) && c.action.DoResolve?
    ensures Stands(s, c.now, c.action, Perform(s, c.now, c.action), a)
    ensures BondMoves(s, c.action, Perform(s, c.now, c.action), a, t)
  {
    var x := c.action;
    if Perform(s, c.now, x).Done? {
      var b := s.intents[x.id].solver.value;
      if x.ruling == Upheld {
        UpheldStands(s, c.now, x.id, b, x.caller, a);
        UpheldBonds(s, c.now, x.id, b, x.caller, a, t);
      } else {
        DismissedStands(s, c.now, x.id, b, x.caller, a, t);
      }
    }
  }

  lemma ReleaseStands(s: State, c: Call, a: Address)
    requires Ledger(s) && c.action.DoRelease?
    ensures Stands(s, c.now, c.action, Perform(s, c.now, c.action), a)
  {
  }

  lemma ReleaseBonds(s: State, c: Call, a: Address, t: Token)
    requires Ledger(s) && c.action.DoRelease?
    ensures BondMoves(s, c.action, Perform(s, c.now, c.action), a, t)
  {
  }

  lemma QuietStands(s: State, c: Call, a: Address)
    requires c.action.DoSubmit? || c.action.DoCancel? || c.action.DoAmend? || c.action.DoExpire? || c.action.DoDispute?
             || c.action.DoExtend? || c.action.DoClose? || c.action.DoBid? || c.action.DoBeginFill?
    ensures Stands(s, c.now, c.action, Perform(s, c.now, c.action), a)
  {
    NeutralStands(s, c.now, c.action, Perform(s, c.now, c.action), a);
  }

  lemma QuietBonds(s: State, c: Call, a: Address, t: Token)
    requires c.action.DoSubmit? || c.action.DoCancel? || c.action.DoAmend? || c.action.DoExpire? || c.action.DoDispute?
             || c.action.DoExtend? || c.action.DoClose? || c.action.DoBid? || c.action.DoBeginFill?
    ensures BondMoves(s, c.action, Perform(s, c.now, c.action), a, t)
  {
  }

  lemma OutsideStands(s: State, c: Call, a: Address, t: Token)
    requires c.action.DoAdminister? || c.action.Mint?
    ensures Stands(s, c.now, c.action, Perform(s, c.now, c.action), a)
    ensures BondMoves(s, c.action, Perform(s, c.now, c.action), a, t)
  {
    if c.action.DoAdminister? && Perform(s, c.now, c.action).Done? { AdministerSilent(s, c.action.change); }
  }

  lemma SettleBidsStands(s: State, c: Call, a: Address, t: Token)
    requires c.action.DoSettleBids?
    ensures Stands(s, c.now, c.action, Perform(s, c.now, c.action), a)
    ensures BondMoves(s, c.action, Perform(s, c.now, c.action), a, t)
  {
    var o := Perform(s, c.now, c.action);
    if o.Done? { BidsSettled(s, c.now, c.action.id); }
    NeutralStands(s, c.now, c.action, o, a);
  }

  /** After every call that goes through: a bond has moved by what was paid in or out or
      forfeited, a solver's counts, volume and suspension as its part in the call says,
      and nobody else's at all. */
  lemma EveryoneStands(s: State, c: Call, a: Address, t: Token)
    requires Ledger(s)
    ensures Stands(s, c.now, c.action, Perform(s, c.now, c.action), a)
    ensures BondMoves(s, c.action, Perform(s, c.now, c.action), a, t)
  {
    var x := c.action;
    if x.DoRegister? {
      RegisterStands(s, c, a, t);
      RegisterBonds(s, c, a, t);
    } else if x.DoWithdraw? || x.DoDeregister? {
      if x.DoWithdraw? { WithdrawStands(s, c, a); } else { DeregisterStands(s, c, a); }
      BondCallsBonds(s, c, a, t);
    } else if x.DoFill? {
      FillStands(s, c, a, t);
      FillBonds(s, c, a, t);
    } else if x.DoAccept? {
      AcceptStands(s, c, a, t);
    } else if x.DoSlash? {
      SlashStands(s, c, a, t);
      SlashBonds(s, c, a, t);
    } else if x.DoResolve? {
      ResolveStands(s, c, a, t);
    } else if x.DoRelease? {
      ReleaseStands(s, c, a);
      ReleaseBonds(s, c, a, t);
    } else if x.DoSettleBids? {
      SettleBidsStands(s, c, a, t);
    } else if x.DoAdminister? || x.Mint? {
      OutsideStands(s, c, a, t);
    } else {
      QuietStands(s, c, a);
      QuietBonds(s, c, a, t);
    }
  }

  // ----- Every run -----

  /** What the party gains over a run. */
  function Gained(s: State, calls: seq<Call>, t: Token, p: Party): int {
    if calls == [] then 0 else
    var before, last := Run(s, calls[..|calls| - 1]), calls[|calls| - 1];
    Gained(s, calls[..|calls| - 1], t, p)
      + if Perform(before, last.now, last.action).Done? then Gain(before, last.action, t, p) else 0
  }

  /** What the solver's bond in `t` gains over a run. */
  function BondGained(s: State, calls: seq<Call>, a: Address, t: Token): int {
    if calls == [] then 0 else
    var before, last := Run(s, calls[..|calls| - 1]), calls[|calls| - 1];
    BondGained(s, calls[..|calls| - 1], a, t)
      + if Perform(before, last.now, last.action).Done? then BondGain(before, last.action, a, t) else 0
  }

  lemma ConfigSet(s: State, change: Change)
    requires s.rules.config.Valid() && Administer(s, change).Done?
    ensures Administer(s, change).state.rules.config.Valid()
  {
  }

  lemma RulesKept(s: State, c: Call)
    requires !c.action.DoAdminister?
    ensures After(s, c).rules == s.rules
  {
    CallFramed(s, c);
  }

  lemma ConfigStep(s: State, c: Call)
    requires s.rules.config.Valid()
    ensures After(s, c).rules.config.Valid()
  {
    if !c.action.DoAdminister? {
      RulesKept(s, c);
    } else if Administer(s, c.action.change).Done? {
      ConfigSet(s, c.action.change);
    }
  }

  /** The configuration stays within its bounds. */
  lemma {:induction false} ConfigAlways(s: State, calls: seq<Call>)
    requires s.rules.config.Valid()
    ensures Run(s, calls).rules.config.Valid()
  {
    if calls != [] {
      ConfigAlways(s, calls[..|calls| - 1]);
      ConfigStep(Run(s, calls[..|calls| - 1]), calls[|calls| - 1]);
    }
  }

  lemma {:induction false} HoldingsAlways(s: State, calls: seq<Call>, t: Token, p: Party)
    requires Solvent(s) && s.rules.config.Valid()
    ensures Holding(Run(s, calls).bank, t, p) == Holding(s.bank, t, p) + Gained(s, calls, t, p)
  {
    if calls != [] {
      var front := calls[..|calls| - 1];
      HoldingsAlways(s, front, t, p);
      AlwaysSolvent(s, front);
      ConfigAlways(s, front);
      BalancesMove(Run(s, front), calls[|calls| - 1], t, p);
    }
  }

  lemma {:induction false} BondsAlways(s: State, calls: seq<Call>, a: Address, t: Token)
    requires Solvent(s)
    ensures Bonded(Run(s, calls), a, t) == Bonded(s, a, t) + BondGained(s, calls, a, t)
  {
    if calls != [] {
      var front := calls[..|calls| - 1];
      BondsAlways(s, front, a, t);
      AlwaysSolvent(s, front);
      EveryoneStands(Run(s, front), calls[|calls| - 1], a, t);
    }
  }

  /** From deployment on: every party's balance in every token is its funds plus what the
      successful calls moved, and every bond is the sum of what was paid into it, less
      what was taken out and forfeited. */
  lemma StatementOfAccount(params: Params, recipient: Address, admin: Address, funds: map<(Token, Address), int>,
                           calls: seq<Call>, t: Token, a: Address)
    ensures var s0 := Fresh(params, recipient, admin, funds);
            var s := Run(s0, calls);
            && s.bank.Balance(t, a) == (if (t, a) in funds then funds[(t, a)] else 0) + Gained(s0, calls, t, Wallet(a))
            && s.bank.Held(t) == Gained(s0, calls, t, Contract)
            && Bonded(s, a, t) == BondGained(s0, calls, a, t)
  {
    var s0 := Fresh(params, recipient, admin, funds);
    HoldingsAlways(s0, calls, t, Wallet(a));
    HoldingsAlways(s0, calls, t, Contract);
    BondsAlways(s0, calls, a, t);
  }
}
