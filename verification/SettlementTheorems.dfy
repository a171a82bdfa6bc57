/**
  The guarantees of intent_settlement over every run of a fresh deployment:
  whoever calls whatever, in any order and at any ledger times.
 */
module SettlementTheorems {
  import opened Wrappers
  import opened SettlementMath
  import opened SettlementModel
  import opened SettlementCounters
  import opened SettlementLedger
  import opened SettlementRecords
  import opened SettlementWidths
  import opened Sums

  ghost predicate Invariant(s: State) { Counters(s) && Solvent(s) && Records(s) && Widths(s) }

  lemma FreshHolds(params: Params, feeRecipient: Address, admin: Address, funds: map<(Token, Address), int>)
    ensures Invariant(Fresh(params, feeRecipient, admin, funds))
  {
  }

  /** Counters, ledger, records and widths hold in every reachable state. */
  lemma Always(params: Params, feeRecipient: Address, admin: Address, funds: map<(Token, Address), int>, calls: seq<Call>)
    ensures Invariant(Run(Fresh(params, feeRecipient, admin, funds), calls))
  {
    var s := Fresh(params, feeRecipient, admin, funds);
    FreshHolds(params, feeRecipient, admin, funds);
    CountersExact(s, calls);
    AlwaysSolvent(s, calls);
    RecordsAlways(s, calls);
    WidthsAlways(s, calls);
  }

  lemma InvariantAlways(s: State, calls: seq<Call>)
    requires Invariant(s)
    ensures Invariant(Run(s, calls))
  {
    CountersExact(s, calls);
    AlwaysSolvent(s, calls);
    RecordsAlways(s, calls);
    WidthsAlways(s, calls);
  }

  /** What holds of one obliged intent in a reachable state. */
  ghost predicate Sound(s: State, id: IntentId) {
    && id in s.intents && IntentOk(s, id, s.intents[id])
    && s.intents[id].solver.Some? && s.intents[id].solver.value in s.solvers
    && s.solvers[s.intents[id].solver.value].activeIntents > 0
  }

  lemma ObligationSound(s: State, id: IntentId)
    requires Invariant(s) && id in s.intents && s.intents[id].Obliged()
    ensures Sound(s, id)
  {
    ObligationCounted(s, id);
  }

  lemma BusySolverLocked(s: State, a: Address, t: Token, amount: I128)
    requires a in s.solvers && s.solvers[a].activeIntents > 0
    ensures Withdraw(s, a, t, amount).Reverted? && Deregister(s, a).Reverted?
  {
  }

  /** While a solver owes an intent it stays registered and its bond stays put. */
  lemma ObligationLocksBond(s: State, id: IntentId, t: Token, amount: I128)
    requires Invariant(s) && id in s.intents && s.intents[id].Obliged()
    ensures var a := s.intents[id].solver.value;
            && a in s.solvers
            && s.solvers[a].activeIntents > 0
            && Withdraw(s, a, t, amount).Reverted?
            && Deregister(s, a).Reverted?
  {
    ObligationSound(s, id);
    BusySolverLocked(s, s.intents[id].solver.value, t, amount);
  }

  // ----- No unwrap fails -----

  predicate Unassigned(s: State, id: IntentId) {
    id in s.intents && (s.intents[id].solver.None? || s.intents[id].solver.value !in s.solvers)
  }

  lemma TrapNeedsUnassigned(s: State, c: Call)
    requires Perform(s, c.now, c.action) == Reverted(Trap)
    ensures c.action.DoFill? || c.action.DoSlash? || c.action.DoResolve? || c.action.DoRelease?
    ensures Unassigned(s, c.action.id)
    ensures !c.action.DoRelease? ==> s.intents[c.action.id].Obliged()
  {
    match c.action
    case DoFill(a, id, amount, proof, w) =>
    case _ =>
  }

  lemma ReleaseTraps(s: State, now: U64, id: IntentId)
    ensures Release(s, now, id) == Reverted(Trap) <==> Unassigned(s, id)
  {
  }

  lemma TrapsOnlyThere(s: State, c: Call)
    requires forall id <- s.intents | s.intents[id].Obliged() :: !Unassigned(s, id)
    ensures Perform(s, c.now, c.action) == Reverted(Trap) <==> c.action.DoRelease? && Unassigned(s, c.action.id)
  {
    if Perform(s, c.now, c.action) == Reverted(Trap) { TrapNeedsUnassigned(s, c); }
    if c.action.DoRelease? { ReleaseTraps(s, c.now, c.action.id); }
  }

  /** The only `unwrap` that can fail is release_fill's, and only on an intent
      that nobody is obliged to fill, which it would refuse anyway. */
  lemma TrapsExactly(s: State, c: Call)
    requires Invariant(s)
    ensures Perform(s, c.now, c.action) == Reverted(Trap) <==> c.action.DoRelease? && Unassigned(s, c.action.id)
    ensures forall id <- s.intents | s.intents[id].Obliged() :: !Unassigned(s, id)
  {
    forall id | id in s.intents && s.intents[id].Obliged() ensures !Unassigned(s, id) { ObligationSound(s, id); }
    TrapsOnlyThere(s, c);
  }

  // ----- Bounded progress -----

  /** By this time at the latest anyone can end the obligation. */
  function ExitTime(s: State, id: IntentId): nat
    requires id in s.acceptances
  {
    LatestFill(s.acceptances[id]) + Max(s.params.grace, DISPUTE_WINDOW + ARBITER_WINDOW)
  }

  /** The permissionless call that ends an obligation: slash_solver or release_fill. */
  function Exit(s: State, id: IntentId, now: U64, w: Quantity): Outcome
    requires id in s.intents
  {
    if s.intents[id].phase == Accepted then Slash(s, now, id, w) else Release(s, now, id)
  }

  /** What the permissionless exit computes without checks stays in range: for an
      accepted intent what slash_solver computes; for an escrow the volume it adds
      to, and if undisputed also the fee and the solver's count. */
  predicate CanEnd(s: State, id: IntentId, now: nat)
    requires id in s.intents && !Unassigned(s, id)
  {
    var i, rec := s.intents[id], s.solvers[s.intents[id].solver.value];
    match i.phase
    case Accepted => SlashFits(s, now, i, rec)
    case Filling => FitsI128(i.Escrow() * PROTOCOL_FEE_BPS) && FitsI128(s.totalVolume + i.Escrow()) && FitsU32(rec.completed + 1)
    case _ => FitsI128(s.totalVolume + i.Escrow())
  }

  predicate Ended(o: Outcome, id: IntentId) {
    o.Done? && id in o.state.intents && !o.state.intents[id].Obliged()
  }

  /** The contract's volume covers the solver's and the intent's, so it is the one to overflow first. */
  lemma VolumeDecides(s: State, id: IntentId)
    requires Sound(s, id) && Widths(s) && s.intents[id].Escrowed()
    ensures var i, rec := s.intents[id], s.solvers[s.intents[id].solver.value];
            && i.Escrow() >= 0
            && (PayoutFits(s, i, i.Escrow()) <==> FitsI128(s.totalVolume + i.Escrow()))
            && (FitsI128(s.totalVolume + i.Escrow()) ==> FitsI128(rec.volume + i.Escrow()))
  {
    var i, rec := s.intents[id], s.solvers[s.intents[id].solver.value];
    assert Phased(s, id, i);
    assert !i.Terminal() && 0 <= i.totalFilled <= s.totalVolume;
    assert 0 <= rec.volume <= s.totalVolume;
  }

  lemma FeeAt(s: State, id: IntentId, now: U64)
    requires Sound(s, id) && s.intents[id].Escrowed() && now >= ExitTime(s, id)
    ensures ReleaseFee(s.intents[id], now).Ok?
      <==> (s.intents[id].phase == Filling ==> FitsI128(s.intents[id].Escrow() * PROTOCOL_FEE_BPS))
  {
    var i := s.intents[id];
    assert i.deadline <= LatestFill(s.acceptances[id]);
  }

  lemma ReleaseOpens(s: State, id: IntentId, now: U64)
    requires Sound(s, id) && Widths(s) && s.intents[id].Escrowed() && now >= ExitTime(s, id)
    requires Release(s, now, id) != Reverted(ContractShort)
    ensures Release(s, now, id).Done? <==> CanEnd(s, id, now)
    ensures Release(s, now, id).Done? ==> Ended(Release(s, now, id), id)
  {
    FeeAt(s, id, now);
    VolumeDecides(s, id);
  }

  lemma SlashOpens(s: State, id: IntentId, now: U64, w: Quantity)
    requires Sound(s, id) && s.intents[id].phase == Accepted && now >= ExitTime(s, id)
    requires Slash(s, now, id, w) != Reverted(ContractShort)
    ensures Slash(s, now, id, w).Done? <==> CanEnd(s, id, now)
    ensures Slash(s, now, id, w).Done? ==> Ended(Slash(s, now, id, w), id)
  {
  }

  /** Once `ExitTime` has come, anyone can end an obligation, paused or not: slash_solver
      ends an accepted one and release_fill an escrowed one, exactly when the numbers
      they compute stay in range. */
  lemma BoundedProgress(s: State, id: IntentId, now: U64, w: Quantity)
    requires Invariant(s) && id in s.intents && s.intents[id].Obliged()
    ensures id in s.acceptances && !Unassigned(s, id)
    ensures now >= ExitTime(s, id) ==> (Ended(Exit(s, id, now, w), id) <==> CanEnd(s, id, now))
  {
    ObligationSound(s, id);
    if now >= ExitTime(s, id) {
      SlashFunded(s, now, id, w);
      ReleaseFunded(s, now, id);
      if s.intents[id].phase == Accepted { SlashOpens(s, id, now, w); } else { ReleaseOpens(s, id, now); }
    }
  }
}
