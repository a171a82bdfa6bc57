/**
  Where bounded progress stops for good. Once a number that an exit computes
  without a check is out of range, no later call brings it back: volumes and counts
  only grow, and nothing else about the obligation changes any more.
 */
module SettlementStuck {
  import opened Wrappers
  import opened SettlementMath
  import opened SettlementModel
  import opened SettlementLedger
  import opened SettlementRecords
  import opened SettlementWidths
  import opened SettlementFrames
  import opened SettlementTheorems

  // ----- Calls about other intents -----

  /** The call works on intent `id`. */
  predicate About(x: Action, id: IntentId) { (Lifecycle(x) || x.DoClose? || x.DoSubmit?) && x.id == id }

  lemma LifecycleMisses(s: State, c: Call, id: IntentId)
    requires id in s.intents && Perform(s, c.now, c.action).Done?
    requires Lifecycle(c.action) && c.action.id != id
    requires c.action.id in s.intents && IntentOk(s, c.action.id, s.intents[c.action.id])
    ensures id in After(s, c).intents && After(s, c).intents[id] == s.intents[id]
    ensures id in s.acceptances ==> id in After(s, c).acceptances && After(s, c).acceptances[id] == s.acceptances[id]
  {
    var more := LifecycleStep(s, c);
  }

  lemma QuietMisses(s: State, c: Call, id: IntentId)
    requires id in s.intents && Perform(s, c.now, c.action).Done?
    requires !Lifecycle(c.action) && !c.action.DoSubmit? && !c.action.DoClose? && !c.action.DoSettleBids?
    ensures id in After(s, c).intents && After(s, c).intents[id] == s.intents[id]
    ensures After(s, c).acceptances == s.acceptances
  {
    var more := QuietStep(s, c);
  }

  lemma SubmitMisses(s: State, c: Call, id: IntentId)
    requires id in s.intents && c.action.DoSubmit? && c.action.id != id
    ensures id in After(s, c).intents && After(s, c).intents[id] == s.intents[id]
    ensures After(s, c).acceptances == s.acceptances
  {
  }

  lemma CloseMisses(s: State, c: Call, id: IntentId)
    requires id in s.intents && c.action.DoClose? && c.action.id != id
    ensures id in After(s, c).intents && After(s, c).intents[id] == s.intents[id]
    ensures After(s, c).acceptances == s.acceptances
  {
  }

  lemma OtherCallsMiss(s: State, c: Call, id: IntentId)
    requires Tracked(s) && id in s.intents && !About(c.action, id)
    ensures id in After(s, c).intents && After(s, c).intents[id] == s.intents[id]
    ensures id in s.acceptances ==> id in After(s, c).acceptances && After(s, c).acceptances[id] == s.acceptances[id]
  {
    var x, o := c.action, Perform(s, c.now, c.action);
    if x.DoSubmit? {
      SubmitMisses(s, c, id);
    } else if x.DoClose? {
      CloseMisses(s, c, id);
    } else if x.DoSettleBids? {
      NothingToSettle(s, c.now, x.id);
    } else if o.Done? && Lifecycle(x) {
      if x.id !in s.intents { NoSubjectNoEffect(s, c); }
      LifecycleMisses(s, c, id);
    } else if o.Done? {
      QuietMisses(s, c, id);
    }
  }

  // ----- Volume only grows -----

  lemma FillAdds(s: State, c: Call)
    requires c.action.DoFill?
    ensures After(s, c).totalVolume >= s.totalVolume
  {
  }

  lemma ReleaseAdds(s: State, now: U64, id: IntentId)
    requires Ledger(s) && Release(s, now, id).Done?
    ensures Release(s, now, id).state.totalVolume >= s.totalVolume
  {
  }

  lemma ResolveAdds(s: State, now: U64, caller: Address, id: IntentId, ruling: Ruling)
    requires Ledger(s) && Resolve(s, now, caller, id, ruling).Done?
    ensures Resolve(s, now, caller, id, ruling).state.totalVolume >= s.totalVolume
  {
  }

  lemma VolumeGrows(s: State, c: Call)
    requires Ledger(s)
    ensures After(s, c).totalVolume >= s.totalVolume
  {
    CallFramed(s, c);
    if Perform(s, c.now, c.action).Done? {
      var x := c.action;
      if x.DoFill? {
        FillAdds(s, c);
      } else if x.DoRelease? {
        ReleaseAdds(s, c.now, x.id);
      } else if x.DoResolve? {
        ResolveAdds(s, c.now, x.caller, x.id, x.ruling);
      }
    }
  }

  // ----- Jammed for good -----

  /** A number out of range that no later call can bring back. */
  predicate Jammed(s: State, id: IntentId)
    requires id in s.intents && !Unassigned(s, id)
  {
    var i, rec := s.intents[id], s.solvers[s.intents[id].solver.value];
    match i.phase
    case Accepted => !FitsI128(i.minDst - i.totalFilled) || !FitsU32(rec.failed + 1)
    case Filling =>
      || !FitsI128(i.Escrow() * PROTOCOL_FEE_BPS) || !FitsI128(s.totalVolume + i.Escrow()) || !FitsU32(rec.completed + 1)
    case _ => !FitsI128(s.totalVolume + i.Escrow())
  }

  /** From this time on only the exits are left: filling is over, or disputing. */
  function JamTime(s: State, id: IntentId): nat
    requires id in s.intents && id in s.acceptances
  {
    match s.intents[id].phase
    case Accepted => LatestFill(s.acceptances[id])
    case Filling => s.intents[id].disputeDeadline.GetOr(0)
    case _ => 0
  }

  /** What no call changes: everything but the deadline of an accepted intent. */
  ghost predicate Standing(s: State, s': State, id: IntentId)
    requires id in s.intents
  {
    && id in s'.intents && s'.intents[id] == s.intents[id].(deadline := s'.intents[id].deadline)
    && id in s.acceptances && id in s'.acceptances && s'.acceptances[id] == s.acceptances[id]
  }

  /** Not the arbiter's ruling against the solver, which pays out without the volume. */
  predicate NoUphold(c: Call, id: IntentId) { c.action.DoResolve? && c.action.id == id ==> c.action.ruling != Upheld }

  lemma AcceptedOnlyExtends(s: State, c: Call, id: IntentId)
    requires id in s.intents && !Unassigned(s, id) && s.intents[id].phase == Accepted && Jammed(s, id)
    requires About(c.action, id) && c.now >= s.intents[id].deadline && Perform(s, c.now, c.action).Done?
    ensures c.action.DoExtend?
  {
  }

  lemma EscrowOnlyExits(s: State, c: Call, id: IntentId)
    requires id in s.intents && s.intents[id].Escrowed()
    requires About(c.action, id) && Perform(s, c.now, c.action).Done?
    ensures if s.intents[id].phase == Filling then c.action.DoDispute? || c.action.DoRelease?
            else c.action.DoResolve? || c.action.DoRelease?
  {
  }

  /** The numbers of a jammed escrow, spelled out: both volumes and the fee. */
  ghost predicate Blocked(s: State, id: IntentId)
    requires id in s.intents && !Unassigned(s, id)
  {
    var i, rec := s.intents[id], s.solvers[s.intents[id].solver.value];
    var escrow := i.fillAmount.GetOr(0);
    if i.phase == Filling then !FitsI128(escrow * PROTOCOL_FEE_BPS) || !CreditFits(rec, escrow) || !PayoutFits(s, i, escrow)
    else !PayoutFits(s, i, escrow)
  }

  lemma JammedIsBlocked(s: State, id: IntentId)
    requires Sound(s, id) && Widths(s) && s.intents[id].Escrowed() && Jammed(s, id)
    ensures Blocked(s, id)
  {
    VolumeDecides(s, id);
  }

  lemma BlockedRelease(s: State, now: U64, id: IntentId)
    requires id in s.intents && !Unassigned(s, id) && s.intents[id].Escrowed() && Blocked(s, id)
    ensures Release(s, now, id).Reverted?
  {
  }

  lemma BlockedStays(s: State, c: Call, id: IntentId)
    requires id in s.intents && !Unassigned(s, id) && s.intents[id].Escrowed() && Blocked(s, id)
    requires About(c.action, id) && NoUphold(c, id)
    requires s.intents[id].phase == Filling ==> c.now >= s.intents[id].disputeDeadline.GetOr(0)
    ensures Perform(s, c.now, c.action).Reverted?
  {
    if Perform(s, c.now, c.action).Done? {
      EscrowOnlyExits(s, c, id);
      BlockedRelease(s, c.now, id);
    }
  }

  lemma ExtensionStands(s: State, c: Call, id: IntentId)
    requires c.action.DoExtend? && c.action.id == id && id in s.intents && id in s.acceptances
    ensures Standing(s, After(s, c), id)
  {
  }

  lemma DeadlineBound(s: State, id: IntentId)
    requires Sound(s, id) && s.intents[id].Obliged()
    ensures id in s.acceptances && s.intents[id].deadline <= LatestFill(s.acceptances[id])
  {
  }

  /** One call about the intent itself. */
  lemma OwnCall(s: State, c: Call, id: IntentId)
    requires Sound(s, id) && Widths(s) && s.intents[id].Obliged() && Jammed(s, id)
    requires About(c.action, id) && id in s.acceptances && c.now >= JamTime(s, id) && NoUphold(c, id)
    ensures Standing(s, After(s, c), id)
  {
    if s.intents[id].Escrowed() {
      JammedIsBlocked(s, id);
      BlockedStays(s, c, id);
    } else if Perform(s, c.now, c.action).Done? {
      DeadlineBound(s, id);
      AcceptedOnlyExtends(s, c, id);
      ExtensionStands(s, c, id);
    }
  }

  lemma StandingStep(s: State, c: Call, id: IntentId)
    requires Invariant(s) && id in s.intents && s.intents[id].Obliged() && !Unassigned(s, id) && Jammed(s, id)
    requires id in s.acceptances && c.now >= JamTime(s, id) && NoUphold(c, id)
    ensures Standing(s, After(s, c), id)
  {
    if About(c.action, id) {
      ObligationSound(s, id);
      OwnCall(s, c, id);
    } else {
      OtherCallsMiss(s, c, id);
    }
  }

  /** Volume and counts after one call. */
  lemma StepGrows(s: State, c: Call)
    requires Ledger(s)
    ensures After(s, c).totalVolume >= s.totalVolume && CountsKept(s, After(s, c))
  {
    VolumeGrows(s, c);
    CallFramed(s, c);
  }

  lemma JamKept(s: State, s': State, id: IntentId)
    requires id in s.intents && !Unassigned(s, id) && Jammed(s, id)
    requires Standing(s, s', id) && !Unassigned(s', id)
    requires s'.totalVolume >= s.totalVolume >= 0 && s.intents[id].Escrow() >= 0 && CountsKept(s, s')
    ensures Jammed(s', id)
  {
  }

  lemma InvariantStep(s: State, c: Call)
    requires Invariant(s)
    ensures Invariant(After(s, c))
  {
    assert [c][..0] == [] && Run(s, []) == s;
    assert Run(s, [c]) == After(s, c);
    InvariantAlways(s, [c]);
  }

  lemma StaysAssigned(s: State, id: IntentId)
    requires Invariant(s) && id in s.intents && s.intents[id].Obliged()
    ensures !Unassigned(s, id)
  {
    ObligationSound(s, id);
  }

  lemma JamStep(s: State, c: Call, id: IntentId)
    requires Invariant(s) && Invariant(After(s, c))
    requires id in s.intents && s.intents[id].Obliged() && !Unassigned(s, id) && Jammed(s, id)
    requires id in s.acceptances && c.now >= JamTime(s, id) && NoUphold(c, id)
    ensures Standing(s, After(s, c), id) && !Unassigned(After(s, c), id) && Jammed(After(s, c), id)
  {
    StandingStep(s, c, id);
    StaysAssigned(After(s, c), id);
    StepGrows(s, c);
    EscrowCovered(s, id);
    JamKept(s, After(s, c), id);
  }

  /** Once jammed, an obligation stands for ever: whatever is called after filling or
      disputing is over, short of the arbiter ruling against the solver, it stays as it is. */
  lemma {:induction false} StuckForever(s: State, calls: seq<Call>, id: IntentId)
    requires Invariant(s) && id in s.intents && s.intents[id].Obliged() && !Unassigned(s, id) && Jammed(s, id)
    requires id in s.acceptances && forall c <- calls :: c.now >= JamTime(s, id) && NoUphold(c, id)
    ensures var s' := Run(s, calls); Standing(s, s', id) && !Unassigned(s', id) && Jammed(s', id)
  {
    if calls != [] {
      var front, last := calls[..|calls| - 1], calls[|calls| - 1];
      assert last in calls;
      StuckForever(s, front, id);
      InvariantAlways(s, front);
      InvariantAlways(s, calls);
      JamStep(Run(s, front), last, id);
    }
  }

  lemma ExitsRefused(s: State, id: IntentId, now: U64, w: Quantity)
    requires id in s.intents && s.intents[id].Obliged() && !Unassigned(s, id) && Jammed(s, id)
    requires s.intents[id].Escrowed() ==> Blocked(s, id)
    ensures Slash(s, now, id, w).Reverted? && Release(s, now, id).Reverted?
  {
    if s.intents[id].Escrowed() { BlockedRelease(s, now, id); }
  }

  /** Neither exit works on it at any time, and its solver's bond stays locked. */
  lemma StuckMeans(s: State, id: IntentId, now: U64, w: Quantity, t: Token, amount: I128)
    requires Invariant(s) && id in s.intents && s.intents[id].Obliged() && !Unassigned(s, id) && Jammed(s, id)
    ensures Slash(s, now, id, w).Reverted? && Release(s, now, id).Reverted?
    ensures Withdraw(s, s.intents[id].solver.value, t, amount).Reverted?
    ensures Deregister(s, s.intents[id].solver.value).Reverted?
  {
    ObligationLocksBond(s, id, t, amount);
    if s.intents[id].Escrowed() {
      ObligationSound(s, id);
      JammedIsBlocked(s, id);
    }
    ExitsRefused(s, id, now, w);
  }

  const SHORTEST := Config(MIN_BOND_FLOOR, MIN_FILL_WINDOW_SECS, MIN_INTENT_EXPIRY_SECS, 0, 1, 0)

  function Shortened(s: State): State {
    s.(rules := s.rules.(config := SHORTEST.(coverage := s.rules.config.coverage)))
  }

  lemma Shortens(s: State, now: U64)
    requires Invariant(s)
    ensures After(s, Call(now, DoAdminister(SetConfig(SHORTEST)))) == Shortened(s) && Invariant(Shortened(s))
  {
    InvariantStep(s, Call(now, DoAdminister(SetConfig(SHORTEST))));
  }

  lemma ShortenedCanEnd(s: State, id: IntentId, now: U64)
    requires id in s.intents && s.intents[id].phase == Accepted && !Unassigned(s, id) && !Jammed(s, id)
    requires FitsU64(now + MIN_INTENT_EXPIRY_SECS) && FitsU64(s.openIntents + 1)
    ensures !Unassigned(Shortened(s), id) && CanEnd(Shortened(s), id, now)
  {
  }

  /** An expiry set so long that slashing overflows is not for good: after the admin
      has set the shortest one, the slash goes through. */
  lemma ShorterExpiryHelps(s: State, id: IntentId, now: U64, w: Quantity)
    requires Invariant(s) && id in s.intents && s.intents[id].phase == Accepted && !Unassigned(s, id) && !Jammed(s, id)
    requires id in s.acceptances && now >= ExitTime(s, id)
    requires FitsU64(now + MIN_INTENT_EXPIRY_SECS) && FitsU64(s.openIntents + 1)
    ensures After(s, Call(now, DoAdminister(SetConfig(SHORTEST)))) == Shortened(s)
    ensures Ended(Exit(Shortened(s), id, now, w), id)
  {
    Shortens(s, now);
    ShortenedCanEnd(s, id, now);
    BoundedProgress(Shortened(s), id, now, w);
  }

  // ----- Exactly the jammed are stuck -----

  /** The run leaves the intent owed by nobody. */
  predicate Frees(s: State, calls: seq<Call>, id: IntentId) {
    var s' := Run(s, calls); id in s'.intents ==> !s'.intents[id].Obliged()
  }

  /** Calls from `now` on, without a ruling against the solver. */
  predicate Ordinary(calls: seq<Call>, now: nat, id: IntentId) { forall c <- calls :: c.now >= now && NoUphold(c, id) }

  lemma JamTimeBeforeExit(s: State, id: IntentId)
    requires Sound(s, id) && s.intents[id].Obliged()
    ensures id in s.acceptances && JamTime(s, id) <= ExitTime(s, id)
  {
  }

  lemma NothingFrees(s: State, calls: seq<Call>, id: IntentId, now: U64)
    requires Invariant(s) && id in s.intents && s.intents[id].Obliged() && !Unassigned(s, id) && Jammed(s, id)
    requires id in s.acceptances && now >= ExitTime(s, id) && Ordinary(calls, now, id)
    ensures !Frees(s, calls, id)
  {
    ObligationSound(s, id);
    JamTimeBeforeExit(s, id);
    StuckForever(s, calls, id);
  }

  /** What frees it otherwise: the exit, for an accepted intent after the shortest expiry is set. */
  function WayOut(s: State, id: IntentId, now: U64): seq<Call>
    requires id in s.intents
  {
    if s.intents[id].phase == Accepted
    then [Call(now, DoAdminister(SetConfig(SHORTEST))), Call(now, DoSlash(id, 0))] else [Call(now, DoRelease(id))]
  }

  lemma RunOne(s: State, c: Call)
    ensures Run(s, [c]) == After(s, c)
  {
    assert [c][..0] == [] && Run(s, []) == s;
  }

  lemma RunBoth(s: State, c: Call, d: Call)
    ensures Run(s, [c, d]) == After(After(s, c), d)
  {
    RunOne(s, c);
    assert [c, d][..1] == [c];
  }

  lemma SlashedRun(s: State, s1: State, id: IntentId, now: U64)
    requires id in s.intents && s.intents[id].phase == Accepted
    requires After(s, Call(now, DoAdminister(SetConfig(SHORTEST)))) == s1 && id in s1.intents && s1.intents[id].phase == Accepted
    requires Ended(Exit(s1, id, now, 0), id)
    ensures Frees(s, WayOut(s, id, now), id)
  {
    RunBoth(s, Call(now, DoAdminister(SetConfig(SHORTEST))), Call(now, DoSlash(id, 0)));
  }

  lemma ReleasedRun(s: State, id: IntentId, now: U64)
    requires id in s.intents && s.intents[id].Escrowed() && Ended(Exit(s, id, now, 0), id)
    ensures Frees(s, WayOut(s, id, now), id)
  {
    RunOne(s, Call(now, DoRelease(id)));
  }

  lemma AcceptedCanBeFreed(s: State, id: IntentId, now: U64)
    requires Invariant(s) && id in s.intents && s.intents[id].phase == Accepted && !Jammed(s, id)
    requires id in s.acceptances && now >= ExitTime(s, id)
    requires FitsU64(now + MIN_INTENT_EXPIRY_SECS) && FitsU64(s.openIntents + 1)
    ensures Frees(s, WayOut(s, id, now), id)
  {
    ShorterExpiryHelps(s, id, now, 0);
    SlashedRun(s, Shortened(s), id, now);
  }

  lemma CanBeFreed(s: State, id: IntentId, now: U64)
    requires Invariant(s) && id in s.intents && s.intents[id].Obliged() && !Unassigned(s, id) && !Jammed(s, id)
    requires id in s.acceptances && now >= ExitTime(s, id)
    requires FitsU64(now + MIN_INTENT_EXPIRY_SECS) && FitsU64(s.openIntents + 1)
    ensures Frees(s, WayOut(s, id, now), id)
  {
    if s.intents[id].phase == Accepted {
      AcceptedCanBeFreed(s, id, now);
    } else {
      BoundedProgress(s, id, now, 0);
      ReleasedRun(s, id, now);
    }
  }

  lemma WayOutOrdinary(s: State, id: IntentId, now: U64)
    requires id in s.intents
    ensures Ordinary(WayOut(s, id, now), now, id)
  {
  }

  /** An obligation past its exit time can still be ended, by anyone or with the admin's
      help, exactly if it is not jammed: of the failing exits those are for good, and
      the others, an expiry set too long, are not. */
  lemma JammedExactly(s: State, id: IntentId, now: U64)
    requires Invariant(s) && id in s.intents && s.intents[id].Obliged() && !Unassigned(s, id)
    requires id in s.acceptances && now >= ExitTime(s, id)
    requires FitsU64(now + MIN_INTENT_EXPIRY_SECS) && FitsU64(s.openIntents + 1)
    ensures (exists calls: seq<Call> :: Ordinary(calls, now, id) && Frees(s, calls, id)) <==> !Jammed(s, id)
  {
    if Jammed(s, id) {
      forall calls: seq<Call> | Ordinary(calls, now, id) ensures !Frees(s, calls, id) { NothingFrees(s, calls, id, now); }
    } else {
      CanBeFreed(s, id, now);
      WayOutOrdinary(s, id, now);
    }
  }
}
