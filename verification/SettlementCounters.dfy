/**
  Obligation counters and the open-intent counter are exact in every run:
  nothing saturates, and the solver of a live obligation stays registered.
 */
module SettlementCounters {
  import opened Wrappers
  import opened SettlementMath
  import opened SettlementModel
  import opened Sums

  /** One for an intent that solver `a` has accepted and not yet settled. */
  ghost function Owes(a: Address): (IntentId, Intent) -> int {
    (id: IntentId, i: Intent) => if i.Obliged() && i.solver == Some(a) then 1 else 0
  }

  ghost function IsOpen(): (IntentId, Intent) -> int {
    (id: IntentId, i: Intent) => if i.OpenLike() then 1 else 0
  }

  ghost predicate Counters(s: State) {
    && (forall id <- s.intents :: s.intents[id].Obliged() ==>
          s.intents[id].solver.Some? && s.intents[id].solver.value in s.solvers)
    && (forall a <- s.solvers :: s.solvers[a].activeIntents == Total(s.intents, Owes(a)))
    && s.openIntents == Total(s.intents, IsOpen())
  }

  /** An assigned obligation makes its solver's counter positive. */
  lemma ObligationCounted(s: State, id: IntentId)
    requires Counters(s)
    requires id in s.intents && s.intents[id].Obliged()
    ensures s.intents[id].solver.Some? && s.intents[id].solver.value in s.solvers
    ensures s.solvers[s.intents[id].solver.value].activeIntents > 0
  {
    TotalCovers(s.intents, id, Owes(s.intents[id].solver.value));
  }

  lemma OpenCounted(s: State, id: IntentId)
    requires Counters(s)
    requires id in s.intents && s.intents[id].OpenLike()
    ensures s.openIntents > 0
  {
    TotalCovers(s.intents, id, IsOpen());
  }

  /** One intent changes, and the counters move by exactly as much as it does. */
  lemma Moved(s: State, s': State, id: IntentId, i: Intent)
    requires Counters(s)
    requires s'.intents == s.intents[id := i]
    requires s'.solvers.Keys == s.solvers.Keys
    requires i.Obliged() ==> i.solver.Some? && i.solver.value in s.solvers
    requires forall a <- s.solvers :: s'.solvers[a].activeIntents ==
               s.solvers[a].activeIntents + Owes(a)(id, i)
                 - (if id in s.intents then Owes(a)(id, s.intents[id]) else 0)
    requires s'.openIntents == s.openIntents + IsOpen()(id, i)
                 - (if id in s.intents then IsOpen()(id, s.intents[id]) else 0)
    ensures Counters(s')
  {
    forall a | a in s'.solvers ensures s'.solvers[a].activeIntents == Total(s'.intents, Owes(a)) {
      TotalUpdate(s.intents, id, i, Owes(a));
    }
    TotalUpdate(s.intents, id, i, IsOpen());
  }

  lemma Unassigned(s: State, a: Address)
    requires Counters(s)
    requires a !in s.solvers || s.solvers[a].activeIntents == 0
    ensures Total(s.intents, Owes(a)) == 0
    ensures forall id <- s.intents :: s.intents[id].Obliged() ==> s.intents[id].solver != Some(a)
  {
    if a !in s.solvers {
      TotalZero(s.intents, Owes(a));
    } else {
      forall id | id in s.intents ensures s.intents[id].Obliged() ==> s.intents[id].solver != Some(a) {
        TotalCovers(s.intents, id, Owes(a));
      }
    }
  }

  lemma Registering(s: State, a: Address, t: Token, amount: I128, received: Quantity)
    requires Counters(s) && Register(s, a, t, amount, received).Done?
    ensures Counters(Register(s, a, t, amount, received).state)
  {
    if a !in s.solvers { Unassigned(s, a); }
  }

  lemma Withdrawing(s: State, a: Address, t: Token, amount: I128)
    requires Counters(s) && Withdraw(s, a, t, amount).Done?
    ensures Counters(Withdraw(s, a, t, amount).state)
  {
  }

  /** A record disappears only while it owes nothing. */
  lemma Deregistering(s: State, a: Address)
    requires Counters(s) && Deregister(s, a).Done?
    ensures Counters(Deregister(s, a).state)
  {
    Unassigned(s, a);
  }

  lemma Submitting(s: State, now: U64, u: Address, src: I128, dst: Token, min: I128, expiry: Option<U64>,
                   ref: Option<Address>, ext: bool, id: IntentId)
    requires Counters(s) && Submit(s, now, u, src, dst, min, expiry, ref, ext, id).Done?
    ensures Counters(Submit(s, now, u, src, dst, min, expiry, ref, ext, id).state)
  {
    var s' := Submit(s, now, u, src, dst, min, expiry, ref, ext, id).state;
    Moved(s, s', id, s'.intents[id]);
  }

  lemma Accepting(s: State, now: U64, a: Address, id: IntentId, t: Token, tier: nat, w: Quantity)
    requires Counters(s) && Accept(s, now, a, id, t, tier, w).Done?
    ensures Counters(Accept(s, now, a, id, t, tier, w).state)
  {
    var s' := Accept(s, now, a, id, t, tier, w).state;
    OpenCounted(s, id);
    Moved(s, s', id, s'.intents[id]);
  }

  lemma Delivering(s: State, now: U64, a: Address, id: IntentId, amount: I128, proof: bool, w: Quantity)
    requires Counters(s) && Fill(s, now, a, id, amount, proof, w).Done?
    ensures Counters(Fill(s, now, a, id, amount, proof, w).state)
  {
    var s' := Fill(s, now, a, id, amount, proof, w).state;
    ObligationCounted(s, id);
    Moved(s, s', id, s'.intents[id]);
  }

  lemma Cancelling(s: State, now: U64, u: Address, id: IntentId)
    requires Counters(s) && Cancel(s, now, u, id).Done?
    ensures Counters(Cancel(s, now, u, id).state)
  {
    var s' := Cancel(s, now, u, id).state;
    OpenCounted(s, id);
    Moved(s, s', id, s'.intents[id]);
  }

  lemma Amending(s: State, now: U64, u: Address, id: IntentId, min: I128, deadline: U64)
    requires Counters(s) && Amend(s, now, u, id, min, deadline).Done?
    ensures Counters(Amend(s, now, u, id, min, deadline).state)
  {
    var s' := Amend(s, now, u, id, min, deadline).state;
    Moved(s, s', id, s'.intents[id]);
  }

  lemma Expiring(s: State, now: U64, id: IntentId)
    requires Counters(s) && Expire(s, now, id).Done?
    ensures Counters(Expire(s, now, id).state)
  {
    var s' := Expire(s, now, id).state;
    OpenCounted(s, id);
    Moved(s, s', id, s'.intents[id]);
  }

  lemma Slashing(s: State, now: U64, id: IntentId, w: Quantity)
    requires Counters(s) && Slash(s, now, id, w).Done?
    ensures Counters(Slash(s, now, id, w).state)
  {
    var s' := Slash(s, now, id, w).state;
    ObligationCounted(s, id);
    Moved(s, s', id, s'.intents[id]);
  }

  lemma SettlingBids(s: State, now: U64, id: IntentId)
    requires Counters(s) && SettleBids(s, now, id).Done?
    ensures Counters(SettleBids(s, now, id).state)
  {
    OpenCounted(s, id);
    if id in s.bids && Eligible(s, now, s.bids[id].solver) {
      Awarding(s, now, id, s.bids[id].solver);
    } else {
      Reopening(s, now, id);
    }
  }

  lemma Awarding(s: State, now: U64, id: IntentId, a: Address)
    requires Counters(s) && id in s.intents && s.intents[id].phase == Bidding && a in s.solvers
    ensures Counters(AwardBid(s, now, id, a))
  {
    OpenCounted(s, id);
    Moved(s, AwardBid(s, now, id, a), id, AwardBid(s, now, id, a).intents[id]);
  }

  lemma Reopening(s: State, now: U64, id: IntentId)
    requires Counters(s) && id in s.intents && s.intents[id].phase == Bidding
    ensures Counters(ReopenAfterBids(s, now, id))
  {
    Moved(s, ReopenAfterBids(s, now, id), id, ReopenAfterBids(s, now, id).intents[id]);
  }

  lemma Escrowing(s: State, now: U64, a: Address, id: IntentId, amount: I128, received: Quantity)
    requires Counters(s) && BeginFill(s, now, a, id, amount, received).Done?
    ensures Counters(BeginFill(s, now, a, id, amount, received).state)
  {
    var s' := BeginFill(s, now, a, id, amount, received).state;
    Moved(s, s', id, s'.intents[id]);
  }

  lemma Disputing(s: State, now: U64, u: Address, id: IntentId)
    requires Counters(s) && Dispute(s, now, u, id).Done?
    ensures Counters(Dispute(s, now, u, id).state)
  {
    var s' := Dispute(s, now, u, id).state;
    Moved(s, s', id, s'.intents[id]);
  }

  lemma Upholding(s: State, now: U64, id: IntentId, a: Address)
    requires Counters(s) && id in s.intents && s.intents[id].phase == Disputed && s.intents[id].solver == Some(a)
    requires a in s.solvers && Uphold(s, now, id, a).Done?
    ensures Counters(Uphold(s, now, id, a).state)
  {
    ObligationCounted(s, id);
    Moved(s, Uphold(s, now, id, a).state, id, Uphold(s, now, id, a).state.intents[id]);
  }

  lemma Dismissing(s: State, now: U64, id: IntentId, a: Address)
    requires Counters(s) && id in s.intents && s.intents[id].phase == Disputed && s.intents[id].solver == Some(a)
    requires a in s.solvers && Dismiss(s, now, id, a).Done?
    ensures Counters(Dismiss(s, now, id, a).state)
  {
    ObligationCounted(s, id);
    Moved(s, Dismiss(s, now, id, a).state, id, Dismiss(s, now, id, a).state.intents[id]);
  }

  lemma Resolving(s: State, now: U64, caller: Address, id: IntentId, ruling: Ruling)
    requires Counters(s) && Resolve(s, now, caller, id, ruling).Done?
    ensures Counters(Resolve(s, now, caller, id, ruling).state)
  {
    if ruling == Upheld {
      Upholding(s, now, id, s.intents[id].solver.value);
    } else {
      Dismissing(s, now, id, s.intents[id].solver.value);
    }
  }

  lemma Releasing(s: State, now: U64, id: IntentId)
    requires Counters(s) && Release(s, now, id).Done?
    ensures Counters(Release(s, now, id).state)
  {
    var i, s' := s.intents[id], Release(s, now, id).state;
    assert i.phase == Filling || i.phase == Disputed;
    ObligationCounted(s, id);
    Moved(s, s', id, s'.intents[id]);
  }

  lemma Extending(s: State, a: Address, id: IntentId)
    requires Counters(s) && Extend(s, a, id).Done?
    ensures Counters(Extend(s, a, id).state)
  {
    var s' := Extend(s, a, id).state;
    Moved(s, s', id, s'.intents[id]);
  }

  lemma Closing(s: State, now: U64, id: IntentId)
    requires Counters(s) && Close(s, now, id).Done?
    ensures Counters(Close(s, now, id).state)
  {
    var s' := Close(s, now, id).state;
    forall a | a in s.solvers ensures Total(s'.intents, Owes(a)) == Total(s.intents, Owes(a)) {
      TotalSplit(s.intents, id, Owes(a));
    }
    TotalSplit(s.intents, id, IsOpen());
  }

  lemma BiddingQuietly(s: State, now: U64, a: Address, id: IntentId, q: I128)
    requires Counters(s) && PlaceBid(s, now, a, id, q).Done?
    ensures Counters(PlaceBid(s, now, a, id, q).state)
  {
  }

  lemma Administering(s: State, change: Change)
    requires Counters(s) && Administer(s, change).Done?
    ensures Counters(Administer(s, change).state)
  {
  }

  /** Every call keeps the counters exact. */
  lemma CountersStep(s: State, c: Call)
    requires Counters(s)
    ensures Counters(After(s, c))
  {
    var now, o := c.now, Perform(s, c.now, c.action);
    if o.Done? {
      match c.action
      case DoRegister(a, t, amount, received) => Registering(s, a, t, amount, received);
      case DoWithdraw(a, t, amount) => Withdrawing(s, a, t, amount);
      case DoDeregister(a) => Deregistering(s, a);
      case DoSubmit(u, src, dst, min, expiry, ref, ext, id) => Submitting(s, now, u, src, dst, min, expiry, ref, ext, id);
      case DoAccept(a, id, t, tier, w) => Accepting(s, now, a, id, t, tier, w);
      case DoFill(a, id, amount, proof, w) => Delivering(s, now, a, id, amount, proof, w);
      case DoCancel(u, id) => Cancelling(s, now, u, id);
      case DoAmend(u, id, min, deadline) => Amending(s, now, u, id, min, deadline);
      case DoExpire(id) => Expiring(s, now, id);
      case DoSlash(id, w) => Slashing(s, now, id, w);
      case DoBid(a, id, q) => BiddingQuietly(s, now, a, id, q);
      case DoSettleBids(id) => SettlingBids(s, now, id);
      case DoBeginFill(a, id, amount, received) => Escrowing(s, now, a, id, amount, received);
      case DoDispute(u, id) => Disputing(s, now, u, id);
      case DoResolve(caller, id, ruling) => Resolving(s, now, caller, id, ruling);
      case DoRelease(id) => Releasing(s, now, id);
      case DoExtend(a, id) => Extending(s, a, id);
      case DoClose(id) => Closing(s, now, id);
      case DoAdminister(change) => Administering(s, change);
      case Mint(t, a, n) =>
    }
  }

  /** In every run, whatever is called in whatever order and at whatever times. */
  lemma {:induction false} CountersExact(s: State, calls: seq<Call>)
    requires Counters(s)
    ensures Counters(Run(s, calls))
  {
    if calls != [] {
      CountersExact(s, calls[..|calls| - 1]);
      CountersStep(Run(s, calls[..|calls| - 1]), calls[|calls| - 1]);
    }
  }
}
