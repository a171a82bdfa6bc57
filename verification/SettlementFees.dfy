/**
  What escrows cost over whole runs: the fee taken for an intent is 5 basis points of
  what was escrowed for it, rounded down, if its fill was released undisputed or a
  dispute about it dismissed, and nothing otherwise; the user gets all the rest. And
  while a solver is bound its deadline is the one it accepted, or 300 seconds later.
 */
module SettlementFees {
  import opened Wrappers
  import opened SettlementMath
  import opened SettlementModel
  import opened SettlementFrames
  import opened SettlementRecords
  import opened SettlementTheorems
  import opened SettlementDelivery
  import opened SettlementAccounts
  import opened SettlementTransitions
  import opened Sums

  /** The escrow of the intent was paid out as delivered. */
  predicate Due(i: Intent) {
    i.disputeDeadline.Some? && (i.phase == Filled || (i.phase == Resolved && i.ruling == Some(Dismissed)))
  }

  ghost function Into(log: seq<Transfer>, id: IntentId, i: Intent): int { LogSum(log, IntoEscrow(id, i.dstToken)) }

  ghost function Fees(log: seq<Transfer>, id: IntentId, i: Intent): int { LogSum(log, FeeFrom(id, i.dstToken)) }

  /** The log's escrow entries of an intent agree with where it stands. */
  ghost predicate Charged(log: seq<Transfer>, id: IntentId, i: Intent) {
    if i.disputeDeadline.None? then
      i.phase !in {Filling, Disputed, Resolved} && Into(log, id, i) == 0 && Fees(log, id, i) == 0
    else
      && i.phase in {Filling, Disputed, Filled, Resolved}
      && Fees(log, id, i) == (if Due(i) then Parts(Into(log, id, i), 5) else 0)
      && (i.Escrowed() ==> Into(log, id, i) == i.fillAmount.GetOr(0))
  }

  // ----- What a call writes to the log -----

  function FeeTaken(s: State, x: Action): int {
    match x
    case DoRelease(id) => EscrowFeeOf(s, id)
    case DoResolve(_, id, ruling) => if ruling == Dismissed then Parts(Escrowed(s, id), 5) else 0
    case _ => 0
  }

  function TakenIn(x: Action): int { if x.DoBeginFill? then x.received else 0 }

  /** The entries a call appends, as far as escrow is concerned. */
  ghost predicate Logged(s: State, o: Outcome, x: Action, more: seq<Transfer>)
    requires Lifecycle(x)
  {
    && o.Done? && x.id in s.intents && o.state.bank.log == s.bank.log + more && OnlyAbout(more, x.id)
    && Into(more, x.id, s.intents[x.id]) == TakenIn(x) && Fees(more, x.id, s.intents[x.id]) == FeeTaken(s, x)
  }

  lemma Weightless(more: seq<Transfer>, id: IntentId, i: Intent)
    requires forall y <- more :: y.purpose != EscrowIn(id) && y.purpose != EscrowFee(id)
    ensures Into(more, id, i) == 0 && Fees(more, id, i) == 0
  {
    LogSumNone(more, IntoEscrow(id, i.dstToken));
    LogSumNone(more, FeeFrom(id, i.dstToken));
  }

  lemma SilentLog(s: State, now: U64, x: Action)
    requires (x.DoAccept? || x.DoCancel? || x.DoAmend? || x.DoExpire? || x.DoDispute? || x.DoExtend?) && Perform(s, now, x).Done?
    ensures Logged(s, Perform(s, now, x), x, [])
  {
  }

  lemma FillLog(s: State, now: U64, x: Action) returns (more: seq<Transfer>)
    requires x.DoFill? && Perform(s, now, x).Done?
    ensures Logged(s, Perform(s, now, x), x, more)
  {
    var i, fee := s.intents[x.id], TruncDiv(x.amount * s.rules.config.feeBps, BPS);
    more := Handover(i, x.id, x.a, x.amount, fee, s.rules.feeRecipient);
    Weightless(more, x.id, i);
  }

  lemma SlashLog(s: State, now: U64, x: Action) returns (more: seq<Transfer>)
    requires x.DoSlash? && Perform(s, now, x).Done?
    ensures Logged(s, Perform(s, now, x), x, more)
  {
    var i := s.intents[x.id];
    var cut := SlashAmount(BondOf(s, i.solver.value, s.solvers[i.solver.value], i.bondToken), i.minDst - i.totalFilled);
    more := PenaltyPaid(i.bondToken, s.rules.feeRecipient, cut);
    Weightless(more, x.id, i);
  }

  lemma BeginFillLog(s: State, now: U64, x: Action) returns (more: seq<Transfer>)
    requires x.DoBeginFill? && Perform(s, now, x).Done?
    ensures Logged(s, Perform(s, now, x), x, more)
  {
    var i := s.intents[x.id];
    var y := Transfer(i.dstToken, Wallet(x.a), Contract, x.received, EscrowIn(x.id));
    Pushed([], y);
    assert [] + [y] == [y];
    more := [y];
  }

  lemma PayoutSums(i: Intent, id: IntentId, escrow: int, fee: int, r: Address)
    requires fee >= 0
    ensures var more := Payout(i, id, escrow, fee, r);
            Into(more, id, i) == 0 && Fees(more, id, i) == fee && OnlyAbout(more, id)
  {
    var x := Transfer(i.dstToken, Contract, Wallet(i.user), escrow - fee, Delivery(id));
    var y := Transfer(i.dstToken, Contract, Wallet(r), fee, EscrowFee(id));
    Pushed([], x);
    Pushed([x], y);
    assert [] + [x] == [x] && [x] + [y] == [x, y];
    assert Payout(i, id, escrow, fee, r) == if fee > 0 then [x, y] else [x];
  }

  lemma ReleaseLog(s: State, now: U64, x: Action) returns (more: seq<Transfer>)
    requires x.DoRelease? && Perform(s, now, x).Done? && Escrowed(s, x.id) >= 0
    ensures Logged(s, Perform(s, now, x), x, more)
  {
    ReleaseShape(s, now, x.id);
    PartsRounded(Escrowed(s, x.id), 5);
    more := Payout(s.intents[x.id], x.id, Escrowed(s, x.id), EscrowFeeOf(s, x.id), s.rules.feeRecipient);
    PayoutSums(s.intents[x.id], x.id, Escrowed(s, x.id), EscrowFeeOf(s, x.id), s.rules.feeRecipient);
  }

  lemma ResolveLog(s: State, now: U64, x: Action) returns (more: seq<Transfer>)
    requires x.DoResolve? && Perform(s, now, x).Done? && Escrowed(s, x.id) >= 0
    ensures Logged(s, Perform(s, now, x), x, more)
  {
    var i, a, r := s.intents[x.id], s.intents[x.id].solver.value, s.rules.feeRecipient;
    if x.ruling == Upheld {
      var cut := SlashAmount(BondOf(s, a, s.solvers[a], i.bondToken), i.minDst - i.totalFilled);
      var paid, penalty := Payout(i, x.id, i.Escrow(), 0, r), PenaltyPaid(i.bondToken, r, cut);
      UpheldLog(s, now, x.id, a, cut);
      PayoutSums(i, x.id, i.Escrow(), 0, r);
      Weightless(penalty, x.id, i);
      LogSumConcat(paid, penalty, IntoEscrow(x.id, i.dstToken));
      LogSumConcat(paid, penalty, FeeFrom(x.id, i.dstToken));
      more := paid + penalty;
      assert s.bank.log + paid + penalty == s.bank.log + more;
    } else {
      PartsRounded(Escrowed(s, x.id), 5);
      DismissShape(s, now, x.id, a, Parts(Escrowed(s, x.id), 5));
      more := Payout(i, x.id, i.Escrow(), Parts(Escrowed(s, x.id), 5), r);
      PayoutSums(i, x.id, i.Escrow(), Parts(Escrowed(s, x.id), 5), r);
    }
  }

  lemma CallLog(s: State, now: U64, x: Action) returns (more: seq<Transfer>)
    requires Lifecycle(x) && Perform(s, now, x).Done? && (x.DoRelease? || x.DoResolve? ==> Escrowed(s, x.id) >= 0)
    ensures Logged(s, Perform(s, now, x), x, more)
  {
    if x.DoFill? {
      more := FillLog(s, now, x);
    } else if x.DoSlash? {
      more := SlashLog(s, now, x);
    } else if x.DoBeginFill? {
      more := BeginFillLog(s, now, x);
    } else if x.DoRelease? {
      more := ReleaseLog(s, now, x);
    } else if x.DoResolve? {
      more := ResolveLog(s, now, x);
    } else {
      more := [];
      SilentLog(s, now, x);
    }
  }

  // ----- One call -----

  lemma OthersCharged(log: seq<Transfer>, more: seq<Transfer>, id: IntentId, other: IntentId, i: Intent)
    requires Charged(log, other, i) && OnlyAbout(more, id) && other != id
    ensures Charged(log + more, other, i)
  {
    forall y | y in more ensures !Mentions(y, other) {}
    Weightless(more, other, i);
    LogSumConcat(log, more, IntoEscrow(other, i.dstToken));
    LogSumConcat(log, more, FeeFrom(other, i.dstToken));
  }

  lemma SelfCharged(s: State, now: nat, x: Action, more: seq<Transfer>)
    requires Lifecycle(x) && x.id in s.intents && Charged(s.bank.log, x.id, s.intents[x.id]) && May(s, now, x, s.intents[x.id])
    requires Into(more, x.id, s.intents[x.id]) == TakenIn(x) && Fees(more, x.id, s.intents[x.id]) == FeeTaken(s, x)
    ensures Charged(s.bank.log + more, x.id, Next(s, now, x, s.intents[x.id]))
  {
    var i := s.intents[x.id];
    LogSumConcat(s.bank.log, more, IntoEscrow(x.id, i.dstToken));
    LogSumConcat(s.bank.log, more, FeeFrom(x.id, i.dstToken));
  }

  ghost predicate AllCharged(s: State) { forall id <- s.intents :: Charged(s.bank.log, id, s.intents[id]) }

  lemma LifecycleCharges(s: State, c: Call)
    requires Tracked(s) && AllCharged(s) && Lifecycle(c.action) && Perform(s, c.now, c.action).Done?
    ensures AllCharged(Perform(s, c.now, c.action).state)
  {
    var x, o := c.action, Perform(s, c.now, c.action);
    CallFollows(s, c.now, x);
    assert IntentOk(s, x.id, s.intents[x.id]);
    var more := CallLog(s, c.now, x);
    SelfCharged(s, c.now, x, more);
    forall id | id in s.intents && id != x.id ensures Charged(o.state.bank.log, id, s.intents[id]) {
      OthersCharged(s.bank.log, more, x.id, id, s.intents[id]);
    }
  }

  lemma QuietCharges(s: State, s': State, more: seq<Transfer>)
    requires AllCharged(s) && Unchanged(s, s', more)
    ensures AllCharged(s')
  {
    forall id | id in s'.intents ensures Charged(s'.bank.log, id, s'.intents[id]) {
      OthersCharged(s.bank.log, more, id + 1, id, s.intents[id]);
    }
  }

  lemma SubmitCharges(s: State, c: Call)
    requires Tracked(s) && AllCharged(s) && c.action.DoSubmit? && Perform(s, c.now, c.action).Done?
    ensures AllCharged(Perform(s, c.now, c.action).state)
  {
    var id, i := c.action.id, Submitted(s, c.now, c.action);
    SubmitFollows(s, c.now, c.action);
    forall y | y in s.bank.log ensures !Mentions(y, id) {}
    Weightless(s.bank.log, id, i);
    SubmitLog(s, c);
  }

  lemma SubmitLog(s: State, c: Call)
    requires c.action.DoSubmit? && Perform(s, c.now, c.action).Done?
    ensures Perform(s, c.now, c.action).state.bank == s.bank
  {
  }

  lemma CloseCharges(s: State, c: Call)
    requires AllCharged(s) && c.action.DoClose? && Perform(s, c.now, c.action).Done?
    ensures AllCharged(Perform(s, c.now, c.action).state)
  {
  }

  lemma ChargeStep(s: State, c: Call)
    requires Tracked(s) && AllCharged(s)
    ensures AllCharged(After(s, c))
  {
    var x := c.action;
    if Perform(s, c.now, x).Done? {
      if x.DoSubmit? {
        SubmitCharges(s, c);
      } else if x.DoClose? {
        CloseCharges(s, c);
      } else if x.DoSettleBids? {
        NothingToSettle(s, c.now, x.id);
      } else if Lifecycle(x) {
        LifecycleCharges(s, c);
      } else {
        var more := QuietStep(s, c);
        QuietCharges(s, After(s, c), more);
      }
    }
  }

  lemma {:induction false} ChargedAlways(s: State, calls: seq<Call>)
    requires Records(s) && AllCharged(s)
    ensures AllCharged(Run(s, calls))
  {
    if calls != [] {
      ChargedAlways(s, calls[..|calls| - 1]);
      RecordsAlways(s, calls[..|calls| - 1]);
      ChargeStep(Run(s, calls[..|calls| - 1]), calls[|calls| - 1]);
    }
  }

  /** In every run from deployment: fees are 5 basis points of what was escrowed, exactly
      for the escrows paid out as delivered, and the user has received the rest. */
  lemma FeesExact(params: Params, recipient: Address, admin: Address, funds: map<(Token, Address), int>,
                  calls: seq<Call>, id: IntentId)
    ensures var s := Run(Fresh(params, recipient, admin, funds), calls);
            id in s.intents ==>
              var fee := if Due(s.intents[id]) then Parts(PutIn(s, id), 5) else 0;
              FeesTaken(s, id) == fee && Received(s, id) == s.intents[id].totalFilled - fee
  {
    var s0 := Fresh(params, recipient, admin, funds);
    FreshHolds(params, recipient, admin, funds);
    ChargedAlways(s0, calls);
    DeliveryLedger(params, recipient, admin, funds, calls, id);
    var s := Run(s0, calls);
    if id in s.intents { assert Charged(s.bank.log, id, s.intents[id]); }
  }

  // ----- Deadlines -----

  /** The deadline that was accepted, from the window and the tier then in force. */
  function Promised(acc: Acceptance, tier: nat): nat
    requires tier <= 4
  {
    acc.at + Stretched(acc.window, tier)
  }

  ghost predicate Timely(s: State, id: IntentId, i: Intent) {
    i.Obliged() ==>
      && id in s.acceptances && i.solverTier <= 4
      && (i.deadline == Promised(s.acceptances[id], i.solverTier)
          || (id in s.extensions && i.deadline == Promised(s.acceptances[id], i.solverTier) + 300))
  }

  /** What another call than an acceptance does to the notes of an intent that stays. */
  lemma NotesKept(s: State, c: Call, id: IntentId)
    requires Tracked(s) && !(c.action.DoAccept? && c.action.id == id) && id in s.acceptances
    ensures id in After(s, c).acceptances && After(s, c).acceptances[id] == s.acceptances[id]
    ensures id in s.extensions && c.action != DoClose(id) ==> id in After(s, c).extensions
  {
    var x := c.action;
    if Perform(s, c.now, x).Done? {
      CallFramed(s, c);
      if x.DoAccept? { AcceptanceNoted(s, c); }
      if x.DoExtend? { ExtensionNoted(s, c); }
      if x.DoClose? { CloseFollows(s, c.now, x.id); }
      if x.DoSettleBids? { NothingToSettle(s, c.now, x.id); }
    }
  }

  lemma AcceptTimely(s: State, c: Call)
    requires c.action.DoAccept? && Perform(s, c.now, c.action).Done?
    ensures c.action.id in After(s, c).intents && Timely(After(s, c), c.action.id, After(s, c).intents[c.action.id])
  {
    CallFollows(s, c.now, c.action);
    AcceptanceNoted(s, c);
  }

  /** An obligation that goes on keeps its deadline, unless this call extends it. */
  lemma StaysBound(s: State, c: Call, id: IntentId)
    requires Lawful(s, c, id) && id in After(s, c).intents && After(s, c).intents[id].Obliged()
    requires !(c.action.DoAccept? && c.action.id == id)
    ensures id in s.intents && s.intents[id].Obliged()
    ensures var i, i' := s.intents[id], After(s, c).intents[id];
            && i'.solverTier == i.solverTier
            && (i'.deadline == i.deadline
                || (c.action.DoExtend? && c.action.id == id && i'.deadline == i.deadline + 300
                    && Perform(s, c.now, c.action).Done?))
  {
  }

  lemma TimelyStep(s: State, c: Call, id: IntentId)
    requires Tracked(s) && (id in s.intents ==> Timely(s, id, s.intents[id])) && id in After(s, c).intents
    ensures Timely(After(s, c), id, After(s, c).intents[id])
  {
    if c.action.DoAccept? && c.action.id == id {
      if Perform(s, c.now, c.action).Done? { AcceptTimely(s, c); }
    } else if After(s, c).intents[id].Obliged() {
      EveryMoveLawful(s, c, id);
      StaysBound(s, c, id);
      NotesKept(s, c, id);
      if c.action.DoExtend? && Perform(s, c.now, c.action).Done? { ExtensionNoted(s, c); }
    }
  }

  lemma {:induction false} TimelyAlways(s: State, calls: seq<Call>, id: IntentId)
    requires Records(s) && s.intents == map[]
    ensures id in Run(s, calls).intents ==> Timely(Run(s, calls), id, Run(s, calls).intents[id])
  {
    if calls != [] {
      var front := calls[..|calls| - 1];
      TimelyAlways(s, front, id);
      RecordsAlways(s, front);
      if id in Run(s, calls).intents { TimelyStep(Run(s, front), calls[|calls| - 1], id); }
    }
  }

  /** In every run from deployment a bound solver has exactly the window of its tier from
      the moment it accepted, or 300 seconds more if the intent was extended. */
  lemma DeadlineKept(params: Params, recipient: Address, admin: Address, funds: map<(Token, Address), int>,
                     calls: seq<Call>, id: IntentId)
    ensures var s := Run(Fresh(params, recipient, admin, funds), calls);
            id in s.intents ==> Timely(s, id, s.intents[id])
  {
    FreshHolds(params, recipient, admin, funds);
    TimelyAlways(Fresh(params, recipient, admin, funds), calls, id);
  }
}
