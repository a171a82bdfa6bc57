/**
  What a call of the settlement contract leaves alone, by its kind: who is
  registered and with what counts, which escrows arrived short, which intents are
  known or were extended, the volume, and the events only that kind publishes.
 */
module SettlementFrames {
  import opened Wrappers
  import opened SettlementMath
  import opened SettlementModel

  predicate Announces(x: Action, e: Event) {
    && (e.SolverRegistered? ==> x.DoRegister?)
    && (e.SolverDeregistered? ==> x.DoDeregister?)
    && (e.ExtensionGranted? ==> x.DoExtend? && e.id == x.id)
  }

  /** A registered solver's counts only go up. */
  ghost predicate CountsKept(s: State, s': State) {
    forall a <- s.solvers :: a in s'.solvers ==>
      s.solvers[a].completed <= s'.solvers[a].completed && s.solvers[a].failed <= s'.solvers[a].failed
  }

  /** No minimum changes. */
  ghost predicate MinimumsKept(s: State, s': State) {
    forall id <- s.intents :: id in s'.intents ==> s'.intents[id].minDst == s.intents[id].minDst
  }

  ghost predicate Framed(s: State, x: Action, o: Outcome) {
    o.Done? ==>
      var s' := o.state;
      && (x.DoRegister? || x.DoDeregister? || s'.solvers.Keys == s.solvers.Keys)
      && ((x.DoBeginFill? && x.received < x.amount) || s'.short == s.short)
      && (x.DoExtend? || x.DoClose? || s'.extensions == s.extensions)
      && s'.params == s.params && (x.DoAdminister? || s'.rules == s.rules)
      && (x.DoAccept? || x.DoSettleBids? || s'.acceptances == s.acceptances)
      && (x.DoClose? || s'.tombstones == s.tombstones)
      && (x.DoSubmit? || x.DoClose? || s'.intents.Keys == s.intents.Keys)
      && (x.DoFill? || x.DoResolve? || x.DoRelease? || s'.totalVolume == s.totalVolume)
      && (x.DoAmend? || MinimumsKept(s, s'))
      && CountsKept(s, s')
      && (forall e <- o.events :: Announces(x, e))
  }

  lemma StoredCounts(s: State, a: Address, rec: Solver, t: Token, asked: int, got: int)
    ensures Stored(s, a, rec, t, asked, got).completed == rec.completed && Stored(s, a, rec, t, asked, got).failed == rec.failed
  {
  }

  lemma EnrollsAs(s: State, a: Address, t: Token, amount: int, received: nat, existing: int) returns (bank: Bank)
    requires Enroll(s, a, t, amount, received, existing).Done?
    ensures Enroll(s, a, t, amount, received, existing)
              == Done(Enrolled(s, a, Stored(s, a, Enlisted(s, a), t, existing + amount, existing + received),
                               StoredEntries(s, a, t, existing + amount, existing + received), bank),
                      [SolverRegistered(a, t, amount)])
  {
    bank := s.bank.Pull(t, a, amount, received, BondIn).value;
  }

  lemma Enlists(s: State, a: Address, t: Token, amount: I128, received: Quantity)
    requires Register(s, a, t, amount, received).Done?
    ensures Register(s, a, t, amount, received) == Enroll(s, a, t, amount, received, BondOf(s, a, Enlisted(s, a), t))
  {
  }

  lemma RegisterCall(s: State, c: Call)
    requires c.action.DoRegister?
    ensures Framed(s, c.action, Perform(s, c.now, c.action))
  {
    var x := c.action;
    if Perform(s, c.now, x).Done? {
      var existing := BondOf(s, x.a, Enlisted(s, x.a), x.t);
      Enlists(s, x.a, x.t, x.amount, x.received);
      var bank := EnrollsAs(s, x.a, x.t, x.amount, x.received, existing);
      StoredCounts(s, x.a, Enlisted(s, x.a), x.t, existing + x.amount, existing + x.received);
    }
  }

  lemma BondCalls(s: State, c: Call)
    requires c.action.DoWithdraw? || c.action.DoDeregister?
    ensures Framed(s, c.action, Perform(s, c.now, c.action))
  {
  }

  lemma Admits(s: State, now: U64, x: Action) returns (expiry: nat)
    requires x.DoSubmit? && Perform(s, now, x).Done?
    ensures Perform(s, now, x) == Admit(s, now, x.user, x.dst, x.minDst, expiry, x.id) && x.id !in s.intents
  {
    expiry := Perform(s, now, x).state.intents[x.id].deadline;
  }

  lemma SubmitCall(s: State, c: Call)
    requires c.action.DoSubmit?
    ensures Framed(s, c.action, Perform(s, c.now, c.action))
  {
    if Perform(s, c.now, c.action).Done? { var expiry := Admits(s, c.now, c.action); }
  }

  lemma UserCalls(s: State, c: Call)
    requires c.action.DoCancel? || c.action.DoAmend? || c.action.DoExpire?
    ensures Framed(s, c.action, Perform(s, c.now, c.action))
  {
  }

  lemma AcceptCall(s: State, c: Call)
    requires c.action.DoAccept?
    ensures Framed(s, c.action, Perform(s, c.now, c.action))
  {
  }

  lemma FillCall(s: State, c: Call)
    requires c.action.DoFill?
    ensures Framed(s, c.action, Perform(s, c.now, c.action))
  {
  }

  lemma SlashCall(s: State, c: Call)
    requires c.action.DoSlash?
    ensures Framed(s, c.action, Perform(s, c.now, c.action))
  {
  }

  lemma BidCall(s: State, c: Call)
    requires c.action.DoBid?
    ensures Framed(s, c.action, Perform(s, c.now, c.action))
  {
  }

  /** The window ends with an award or without. */
  lemma BidsSettled(s: State, now: U64, id: IntentId)
    requires SettleBids(s, now, id).Done?
    ensures id in s.intents
    ensures var o := SettleBids(s, now, id);
            && (o.state == ReopenAfterBids(s, now, id)
                || (id in s.bids && s.bids[id].solver in s.solvers && o.state == AwardBid(s, now, id, s.bids[id].solver)))
            && forall e <- o.events :: e.IntentAccepted? || e.OtherEvent?
  {
  }

  lemma SettleBidsCall(s: State, c: Call)
    requires c.action.DoSettleBids?
    ensures Framed(s, c.action, Perform(s, c.now, c.action))
  {
    if Perform(s, c.now, c.action).Done? { BidsSettled(s, c.now, c.action.id); }
  }

  lemma EscrowCalls(s: State, c: Call)
    requires c.action.DoBeginFill? || c.action.DoDispute?
    ensures Framed(s, c.action, Perform(s, c.now, c.action))
  {
  }

  /** A ruling, either way, is about one intent and one registered solver. */
  lemma UpheldFrame(s: State, now: U64, id: IntentId, a: Address)
    requires id in s.intents && a in s.solvers && Uphold(s, now, id, a).Done?
    ensures var o := Uphold(s, now, id, a);
            && o.state.solvers.Keys == s.solvers.Keys && CountsKept(s, o.state) && o.state.short == s.short
            && o.state.extensions == s.extensions && o.state.tombstones == s.tombstones
            && o.state.intents.Keys == s.intents.Keys && MinimumsKept(s, o.state)
            && o.state.params == s.params && o.state.rules == s.rules && o.state.acceptances == s.acceptances
            && o.events == [OtherEvent(id)]
  {
  }

  lemma DismissedFrame(s: State, now: U64, id: IntentId, a: Address)
    requires id in s.intents && a in s.solvers && Dismiss(s, now, id, a).Done?
    ensures var o := Dismiss(s, now, id, a);
            && o.state.solvers.Keys == s.solvers.Keys && CountsKept(s, o.state) && o.state.short == s.short
            && o.state.extensions == s.extensions && o.state.tombstones == s.tombstones
            && o.state.intents.Keys == s.intents.Keys && MinimumsKept(s, o.state)
            && o.state.params == s.params && o.state.rules == s.rules && o.state.acceptances == s.acceptances
            && o.events == [OtherEvent(id)]
  {
  }

  lemma ResolveCall(s: State, c: Call)
    requires c.action.DoResolve?
    ensures Framed(s, c.action, Perform(s, c.now, c.action))
  {
    var o, id := Resolve(s, c.now, c.action.caller, c.action.id, c.action.ruling), c.action.id;
    if o.Done? {
      var a := s.intents[id].solver.value;
      if c.action.ruling == Upheld { UpheldFrame(s, c.now, id, a); } else { DismissedFrame(s, c.now, id, a); }
    }
  }

  lemma ReleaseCall(s: State, c: Call)
    requires c.action.DoRelease?
    ensures Framed(s, c.action, Perform(s, c.now, c.action))
  {
  }

  lemma RecordCalls(s: State, c: Call)
    requires c.action.DoExtend? || c.action.DoClose?
    ensures Framed(s, c.action, Perform(s, c.now, c.action))
  {
  }

  lemma AdministerSilent(s: State, change: Change)
    requires Administer(s, change).Done?
    ensures Administer(s, change).events == []
    ensures var s' := Administer(s, change).state; s' == s.(rules := s'.rules)
  {
  }

  lemma OutsideCalls(s: State, c: Call)
    requires c.action.DoAdminister? || c.action.Mint?
    ensures Framed(s, c.action, Perform(s, c.now, c.action))
  {
    if c.action.DoAdminister? && Perform(s, c.now, c.action).Done? { AdministerSilent(s, c.action.change); }
  }

  lemma CallFramed(s: State, c: Call)
    ensures Framed(s, c.action, Perform(s, c.now, c.action))
  {
    var x := c.action;
    if x.DoRegister? {
      RegisterCall(s, c);
    } else if x.DoWithdraw? || x.DoDeregister? {
      BondCalls(s, c);
    } else if x.DoSubmit? {
      SubmitCall(s, c);
    } else if x.DoCancel? || x.DoAmend? || x.DoExpire? {
      UserCalls(s, c);
    } else if x.DoAccept? {
      AcceptCall(s, c);
    } else if x.DoFill? {
      FillCall(s, c);
    } else if x.DoSlash? {
      SlashCall(s, c);
    } else if x.DoBid? {
      BidCall(s, c);
    } else if x.DoSettleBids? {
      SettleBidsCall(s, c);
    } else if x.DoBeginFill? || x.DoDispute? {
      EscrowCalls(s, c);
    } else if x.DoResolve? {
      ResolveCall(s, c);
    } else if x.DoRelease? {
      ReleaseCall(s, c);
    } else if x.DoExtend? || x.DoClose? {
      RecordCalls(s, c);
    } else {
      OutsideCalls(s, c);
    }
  }
}
