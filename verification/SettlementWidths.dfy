/**
  Every number the settlement contract stores fits the type it is stored in, in
  every run: whatever could leave it is refused. And the volumes only grow, the
  contract's never falling behind what one solver or one live intent accounts for.
 */
module SettlementWidths {
  import opened Wrappers
  import opened SettlementMath
  import opened SettlementModel
  import opened SettlementLedger

  predicate OptI128(x: Option<int>) { x.Some? ==> FitsI128(x.value) }

  predicate OptU64(n: Option<nat>) { n.Some? ==> FitsU64(n.value) }

  predicate IntentFits(i: Intent) {
    && FitsI128(i.minDst) && FitsI128(i.totalFilled) && OptI128(i.fillAmount)
    && FitsU64(i.createdAt) && FitsU64(i.deadline) && OptU64(i.filledAt)
    && OptU64(i.disputeDeadline) && OptU64(i.disputeRaisedAt) && OptU64(i.terminalAt)
    && i.solverTier <= 4
  }

  predicate SolverFits(rec: Solver) {
    && FitsI128(rec.bond) && FitsI128(rec.volume) && FitsU64(rec.lastSlash)
    && FitsU32(rec.completed) && FitsU32(rec.failed) && FitsU32(rec.activeIntents)
  }

  /** The totals cover what a solver has delivered, and what a live intent has received. */
  predicate Covered(s: State) {
    && (forall a <- s.solvers :: 0 <= s.solvers[a].volume <= s.totalVolume)
    && (forall id <- s.intents :: !s.intents[id].Terminal() ==> 0 <= s.intents[id].totalFilled <= s.totalVolume)
  }

  predicate StampsFit(st: Stamps) {
    && (forall u <- st.nonces :: FitsU64(st.nonces[u]))
    && (forall u <- st.cancels :: FitsU64(st.cancels[u]))
    && (forall u <- st.amends :: FitsU64(st.amends[u]))
  }

  predicate Widths(s: State) {
    && (forall id <- s.intents :: IntentFits(s.intents[id]))
    && (forall a <- s.solvers :: SolverFits(s.solvers[a]))
    && (forall k <- s.bonds :: FitsI128(s.bonds[k]))
    && (forall a <- s.exposure :: FitsI128(s.exposure[a]))
    && (forall u <- s.history :: FitsU32(|s.history[u]|))
    && StampsFit(s.stamps)
    && FitsU64(s.openIntents) && FitsU64(s.totalIntents) && 0 <= s.totalVolume && FitsI128(s.totalVolume)
    && Covered(s)
  }

  // ----- What calls change -----

  lemma BondFits(s: State, a: Address, rec: Solver, t: Token)
    requires Widths(s) && (a in s.solvers ==> rec.bond == s.solvers[a].bond) && (a !in s.solvers ==> FitsI128(rec.bond))
    ensures FitsI128(BondOf(s, a, rec, t))
  {
  }

  lemma BondsAfterFit(s: State, a: Address, t: Token, amount: int)
    requires Widths(s) && FitsI128(amount)
    ensures forall k <- BondsAfter(s, a, t, amount) :: FitsI128(BondsAfter(s, a, t, amount)[k])
  {
  }

  lemma Registering(s: State, a: Address, t: Token, amount: I128, received: Quantity)
    requires Widths(s) && Register(s, a, t, amount, received).Done?
    requires BondOf(s, a, Enlisted(s, a), t) >= 0
    ensures Widths(Register(s, a, t, amount, received).state)
  {
    var bank := RegisterIs(s, a, t, amount, received);
    BondsAfterFit(s, a, t, BondOf(s, a, Enlisted(s, a), t) + received);
  }

  lemma Withdrawing(s: State, a: Address, t: Token, amount: I128)
    requires Widths(s) && Withdraw(s, a, t, amount).Done?
    ensures Widths(Withdraw(s, a, t, amount).state)
  {
    BondFits(s, a, s.solvers[a], t);
  }

  lemma Deregistering(s: State, a: Address)
    requires Widths(s) && Deregister(s, a).Done?
    ensures Widths(Deregister(s, a).state)
  {
  }

  lemma Submitting(s: State, now: U64, u: Address, src: I128, dst: Token, min: I128, expiry: Option<U64>,
                   ref: Option<Address>, ext: bool, id: IntentId)
    requires Widths(s) && Submit(s, now, u, src, dst, min, expiry, ref, ext, id).Done?
    ensures Widths(Submit(s, now, u, src, dst, min, expiry, ref, ext, id).state)
  {
  }

  lemma Accepting(s: State, now: U64, a: Address, id: IntentId, t: Token, tier: nat, w: Quantity)
    requires Widths(s) && Accept(s, now, a, id, t, tier, w).Done?
    ensures Widths(Accept(s, now, a, id, t, tier, w).state)
  {
  }

  /** One intent and one solver are rewritten within their types, and nothing stored loses volume. */
  lemma Rewritten(s: State, s': State, id: IntentId, a: Address)
    requires Widths(s) && id in s'.intents && a in s'.solvers
    requires s'.intents == s.intents[id := s'.intents[id]] && s'.solvers == s.solvers[a := s'.solvers[a]]
    requires forall k <- s'.bonds :: FitsI128(s'.bonds[k])
    requires s'.stamps == s.stamps && s'.history == s.history
    requires s'.exposure == s.exposure || (a in s'.exposure && FitsI128(s'.exposure[a])
                                           && s'.exposure == s.exposure[a := s'.exposure[a]])
    requires IntentFits(s'.intents[id]) && SolverFits(s'.solvers[a])
    requires FitsU64(s'.openIntents) && s'.totalIntents == s.totalIntents
    requires s.totalVolume <= s'.totalVolume && FitsI128(s'.totalVolume)
    requires 0 <= s'.solvers[a].volume <= s'.totalVolume
    requires !s'.intents[id].Terminal() ==> 0 <= s'.intents[id].totalFilled <= s'.totalVolume
    ensures Widths(s')
  {
  }

  /** What a fill records, and what its guards left in range. */
  lemma FillIs(s: State, now: U64, a: Address, id: IntentId, amount: I128, proof: bool, w: Quantity) returns (bank: Bank)
    requires Fill(s, now, a, id, amount, proof, w).Done?
    ensures id in s.intents && a in s.solvers && s.intents[id].phase == Accepted && amount > 0
    ensures FitsI128(s.intents[id].totalFilled + amount) && FillFits(s, now, s.intents[id], s.solvers[a], amount)
    ensures Fill(s, now, a, id, amount, proof, w).state
              == Delivered(s, a, id, IntentAfterFill(s.intents[id], now, amount), amount, w, bank)
  {
    bank := Fill(s, now, a, id, amount, proof, w).state.bank;
  }

  lemma Delivering(s: State, now: U64, a: Address, id: IntentId, amount: I128, proof: bool, w: Quantity)
    requires Widths(s) && Fill(s, now, a, id, amount, proof, w).Done?
    ensures Widths(Fill(s, now, a, id, amount, proof, w).state)
  {
    var bank := FillIs(s, now, a, id, amount, proof, w);
    DeliveredFits(s, now, a, id, amount, w, bank);
  }

  lemma DeliveredFits(s: State, now: U64, a: Address, id: IntentId, amount: I128, w: Quantity, bank: Bank)
    requires Widths(s) && id in s.intents && a in s.solvers && s.intents[id].phase == Accepted && amount > 0
    requires FitsI128(s.intents[id].totalFilled + amount) && FillFits(s, now, s.intents[id], s.solvers[a], amount)
    ensures Widths(Delivered(s, a, id, IntentAfterFill(s.intents[id], now, amount), amount, w, bank))
  {
    Rewritten(s, Delivered(s, a, id, IntentAfterFill(s.intents[id], now, amount), amount, w, bank), id, a);
  }

  lemma Cancelling(s: State, now: U64, u: Address, id: IntentId)
    requires Widths(s) && Cancel(s, now, u, id).Done?
    ensures Widths(Cancel(s, now, u, id).state)
  {
  }

  lemma Amending(s: State, now: U64, u: Address, id: IntentId, min: I128, deadline: U64)
    requires Widths(s) && Amend(s, now, u, id, min, deadline).Done?
    ensures Widths(Amend(s, now, u, id, min, deadline).state)
  {
  }

  lemma Expiring(s: State, now: U64, id: IntentId)
    requires Widths(s) && Expire(s, now, id).Done?
    ensures Widths(Expire(s, now, id).state)
  {
  }

  lemma Slashing(s: State, now: U64, id: IntentId, w: Quantity)
    requires Widths(s) && Slash(s, now, id, w).Done?
    ensures Widths(Slash(s, now, id, w).state)
  {
    var i := s.intents[id];
    var a, bond := i.solver.value, BondOf(s, i.solver.value, s.solvers[i.solver.value], i.bondToken);
    BondFits(s, a, s.solvers[a], i.bondToken);
    BondsAfterFit(s, a, i.bondToken, bond - SlashAmount(bond, i.minDst - i.totalFilled));
    Rewritten(s, Slash(s, now, id, w).state, id, a);
  }

  lemma Escrowing(s: State, now: U64, a: Address, id: IntentId, amount: I128, received: Quantity)
    requires Widths(s) && BeginFill(s, now, a, id, amount, received).Done?
    ensures Widths(BeginFill(s, now, a, id, amount, received).state)
  {
  }

  lemma Disputing(s: State, now: U64, u: Address, id: IntentId)
    requires Widths(s) && Dispute(s, now, u, id).Done?
    ensures Widths(Dispute(s, now, u, id).state)
  {
  }

  lemma Upholding(s: State, now: U64, id: IntentId, a: Address)
    requires Widths(s) && id in s.intents && a in s.solvers && Uphold(s, now, id, a).Done?
    ensures Widths(Uphold(s, now, id, a).state)
  {
    BondFits(s, a, s.solvers[a], s.intents[id].bondToken);
  }

  lemma Dismissing(s: State, now: U64, id: IntentId, a: Address)
    requires Widths(s) && id in s.intents && a in s.solvers && s.intents[id].fillAmount.GetOr(0) >= 0
    requires Dismiss(s, now, id, a).Done?
    ensures Widths(Dismiss(s, now, id, a).state)
  {
  }

  lemma Resolving(s: State, now: U64, caller: Address, id: IntentId, ruling: Ruling)
    requires Widths(s) && Ledger(s) && Resolve(s, now, caller, id, ruling).Done?
    ensures Widths(Resolve(s, now, caller, id, ruling).state)
  {
    if ruling == Upheld {
      Upholding(s, now, id, s.intents[id].solver.value);
    } else {
      Dismissing(s, now, id, s.intents[id].solver.value);
    }
  }

  lemma Releasing(s: State, now: U64, id: IntentId)
    requires Widths(s) && Ledger(s) && Release(s, now, id).Done?
    ensures Widths(Release(s, now, id).state)
  {
  }

  lemma Awarding(s: State, now: U64, id: IntentId, a: Address)
    requires Widths(s) && id in s.intents && s.intents[id].phase == Bidding && a in s.solvers
    requires s.solvers[a].activeIntents < s.rules.config.maxActive && FitsU64(now + s.rules.config.fillWindow)
    ensures Widths(AwardBid(s, now, id, a))
  {
    Rewritten(s, AwardBid(s, now, id, a), id, a);
  }

  lemma Reopening(s: State, now: U64, id: IntentId)
    requires Widths(s) && id in s.intents && s.intents[id].phase == Bidding
    requires FitsU64(now + s.rules.config.intentExpiry)
    ensures Widths(ReopenAfterBids(s, now, id))
  {
  }

  lemma SettlingBids(s: State, now: U64, id: IntentId)
    requires Widths(s) && SettleBids(s, now, id).Done?
    ensures Widths(SettleBids(s, now, id).state)
  {
    if id in s.bids && Eligible(s, now, s.bids[id].solver) {
      Awarding(s, now, id, s.bids[id].solver);
    } else {
      Reopening(s, now, id);
    }
  }

  lemma Extending(s: State, a: Address, id: IntentId)
    requires Widths(s) && Extend(s, a, id).Done?
    ensures Widths(Extend(s, a, id).state)
  {
  }

  lemma {:induction false} BlankedLength(h: seq<Option<IntentId>>, id: IntentId)
    ensures |BlankFirst(h, id)| == |h|
  {
    if h != [] { BlankedLength(h[1..], id); }
  }

  lemma Closing(s: State, now: U64, id: IntentId)
    requires Widths(s) && Close(s, now, id).Done?
    ensures Widths(Close(s, now, id).state)
  {
    BlankedLength(HistoryOf(s, s.intents[id].user), id);
  }

  lemma BiddingQuietly(s: State, now: U64, a: Address, id: IntentId, q: I128)
    requires Widths(s) && PlaceBid(s, now, a, id, q).Done?
    ensures Widths(PlaceBid(s, now, a, id, q).state)
  {
  }

  lemma Administering(s: State, change: Change)
    requires Widths(s) && Administer(s, change).Done?
    ensures Widths(Administer(s, change).state)
  {
  }

  lemma Minting(s: State, t: Token, a: Address, n: nat)
    requires Widths(s)
    ensures Widths(s.(bank := s.bank.(wallets := s.bank.wallets[(t, a) := s.bank.Balance(t, a) + n])))
  {
  }

  predicate BySolver(x: Action) {
    || x.DoRegister? || x.DoWithdraw? || x.DoDeregister? || x.DoAccept? || x.DoFill? || x.DoBid? || x.DoBeginFill?
    || x.DoExtend?
  }

  lemma SolverCall(s: State, c: Call)
    requires Widths(s) && Ledger(s) && BySolver(c.action) && Perform(s, c.now, c.action).Done?
    ensures Widths(Perform(s, c.now, c.action).state)
  {
    var now := c.now;
    match c.action
    case DoRegister(a, t, amount, received) =>
      EnlistedBond(s, a, t);
      Registering(s, a, t, amount, received);
    case DoWithdraw(a, t, amount) => Withdrawing(s, a, t, amount);
    case DoDeregister(a) => Deregistering(s, a);
    case DoAccept(a, id, t, tier, w) => Accepting(s, now, a, id, t, tier, w);
    case DoFill(a, id, amount, proof, w) => Delivering(s, now, a, id, amount, proof, w);
    case DoBid(a, id, q) => BiddingQuietly(s, now, a, id, q);
    case DoBeginFill(a, id, amount, received) => Escrowing(s, now, a, id, amount, received);
    case DoExtend(a, id) => Extending(s, a, id);
  }

  lemma OtherCall(s: State, c: Call)
    requires Widths(s) && Ledger(s) && !BySolver(c.action) && Perform(s, c.now, c.action).Done?
    ensures Widths(Perform(s, c.now, c.action).state)
  {
    var now := c.now;
    match c.action
    case DoSubmit(u, src, dst, min, expiry, ref, ext, id) => Submitting(s, now, u, src, dst, min, expiry, ref, ext, id);
    case DoCancel(u, id) => Cancelling(s, now, u, id);
    case DoAmend(u, id, min, deadline) => Amending(s, now, u, id, min, deadline);
    case DoExpire(id) => Expiring(s, now, id);
    case DoSlash(id, w) => Slashing(s, now, id, w);
    case DoSettleBids(id) => SettlingBids(s, now, id);
    case DoDispute(u, id) => Disputing(s, now, u, id);
    case DoResolve(caller, id, ruling) => Resolving(s, now, caller, id, ruling);
    case DoRelease(id) => Releasing(s, now, id);
    case DoClose(id) => Closing(s, now, id);
    case DoAdminister(change) => Administering(s, change);
    case Mint(t, a, n) => Minting(s, t, a, n);
  }

  /** Every call keeps every stored number within its type. */
  lemma WidthsStep(s: State, c: Call)
    requires Widths(s) && Ledger(s)
    ensures Widths(After(s, c))
  {
    if Perform(s, c.now, c.action).Done? {
      if BySolver(c.action) { SolverCall(s, c); } else { OtherCall(s, c); }
    }
  }

  lemma {:induction false} WidthsAlways(s: State, calls: seq<Call>)
    requires Widths(s) && Solvent(s)
    ensures Widths(Run(s, calls))
  {
    if calls != [] {
      WidthsAlways(s, calls[..|calls| - 1]);
      AlwaysSolvent(s, calls[..|calls| - 1]);
      WidthsStep(Run(s, calls[..|calls| - 1]), calls[|calls| - 1]);
    }
  }
}
