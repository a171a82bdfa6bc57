/**
  What each intent record says is what happened: every token movement made for
  it adds up to its totals, its deadlines follow from when it was accepted, and
  the user's listing is the submission order less the closed intents.
 */
module SettlementRecords {
  import opened Wrappers
  import opened SettlementMath
  import opened SettlementModel
  import opened Sums

  // ----- Token movements of one intent -----

  /** Output that reached the user of the intent, in its output token. */
  ghost function PaidTo(id: IntentId, user: Address, t: Token): Transfer -> int {
    (x: Transfer) => if x.purpose == Delivery(id) && x.to == Wallet(user) && x.token == t then x.amount else 0
  }

  ghost function FeeFrom(id: IntentId, t: Token): Transfer -> int {
    (x: Transfer) => if x.purpose == EscrowFee(id) && x.from == Contract && x.token == t then x.amount else 0
  }

  ghost function IntoEscrow(id: IntentId, t: Token): Transfer -> int {
    (x: Transfer) => if x.purpose == EscrowIn(id) && x.to == Contract && x.token == t then x.amount else 0
  }

  ghost function OutOfEscrow(id: IntentId, t: Token): Transfer -> int {
    (x: Transfer) =>
      if x.purpose in {Delivery(id), EscrowFee(id)} && x.from == Contract && x.token == t then x.amount else 0
  }

  /** Deliveries and escrow fees add up to `total_filled`; what entered escrow
      has left it in full, except what is still pending. */
  ghost predicate Receipted(log: seq<Transfer>, id: IntentId, i: Intent) {
    && LogSum(log, PaidTo(id, i.user, i.dstToken)) + LogSum(log, FeeFrom(id, i.dstToken)) == i.totalFilled
    && LogSum(log, IntoEscrow(id, i.dstToken)) == LogSum(log, OutOfEscrow(id, i.dstToken)) + i.Escrow()
  }

  predicate Mentions(x: Transfer, id: IntentId) {
    x.purpose in {Delivery(id), EscrowIn(id), EscrowFee(id)}
  }

  // ----- Deadlines and phases of one intent -----

  /** The latest moment a fill by the solver who accepted is still possible. */
  function LatestFill(acc: Acceptance): nat { acc.at + 3 * acc.window / 2 + MAX_EXTENSION_DURATION }

  /** The deadline leaves room for the one extension an intent can still get. */
  predicate InWindow(s: State, id: IntentId, i: Intent) {
    && id in s.acceptances
    && i.deadline + (if id in s.extensions then 0 else MAX_EXTENSION_DURATION) <= LatestFill(s.acceptances[id])
  }

  ghost predicate Timed(s: State, id: IntentId, i: Intent) {
    && (i.Obliged() ==> InWindow(s, id, i))
    && (i.Escrowed() ==> i.disputeDeadline.Some? && i.disputeDeadline.value < i.deadline + DISPUTE_WINDOW)
    && (i.phase == Disputed ==> i.disputeRaisedAt.Some? && i.disputeRaisedAt.value < i.disputeDeadline.value)
  }

  /** A fill settles the user's minimum unless its escrow arrived short of it.
      No intent is ever put up for bids or left Slashed. */
  ghost predicate Phased(s: State, id: IntentId, i: Intent) {
    && i.totalFilled >= 0
    && i.phase != Bidding && i.phase != Slashed
    && (i.phase == PartiallyFilled ==> 0 < i.totalFilled < i.minDst)
    && (i.Escrowed() ==> i.fillAmount.Some? && i.fillAmount.value >= 0)
    && (id in s.short ==> i.phase in {Filling, Disputed, Filled, Resolved})
    && (i.Escrowed() || i.phase == Filled ==> (i.totalFilled + i.Escrow() >= i.minDst <==> id !in s.short))
  }

  ghost predicate IntentOk(s: State, id: IntentId, i: Intent) {
    Phased(s, id, i) && Timed(s, id, i) && Receipted(s.bank.log, id, i)
  }

  // ----- Ids and listings -----

  predicate Known(s: State, id: IntentId) { id in s.intents || id in s.tombstones }

  /** Slot `k` of a user's history shows the id issued there, or a hole once it is closed. */
  ghost predicate ListedFor(s: State, u: Address) {
    var h, ids := HistoryOf(s, u), IssuedTo(s, u);
    && |h| == |ids|
    && (forall k :: 0 <= k < |ids| ==> Known(s, ids[k]))
    && (forall k :: 0 <= k < |ids| ==> h[k] == if ids[k] in s.intents then Some(ids[k]) else None)
    && (forall k :: 0 <= k < |ids| && ids[k] in s.intents ==> s.intents[ids[k]].user == u)
  }

  /** No id was ever issued twice, to the same user or to two. */
  ghost predicate IssuedOnce(s: State) {
    forall u, v, k, l | 0 <= k < |IssuedTo(s, u)| && 0 <= l < |IssuedTo(s, v)| ::
      IssuedTo(s, u)[k] == IssuedTo(s, v)[l] ==> u == v && k == l
  }

  ghost predicate Listed(s: State) {
    && (forall u :: ListedFor(s, u))
    && IssuedOnce(s)
    && (forall id <- s.intents :: id in IssuedTo(s, s.intents[id].user))
    && s.intents.Keys !! s.tombstones
  }

  /** Every intent record is true, and no transfer was made for an unknown id. */
  ghost predicate Tracked(s: State) {
    && (forall id <- s.intents :: IntentOk(s, id, s.intents[id]))
    && (forall x <- s.bank.log, id | Mentions(x, id) :: Known(s, id))
    && (forall id <- s.short :: Known(s, id))
  }

  ghost predicate Records(s: State) { Tracked(s) && Listed(s) }

  // ----- Pushing transfers -----

  lemma Pushed(log: seq<Transfer>, x: Transfer)
    ensures forall id, u, t :: LogSum(log + [x], PaidTo(id, u, t)) == LogSum(log, PaidTo(id, u, t)) + PaidTo(id, u, t)(x)
    ensures forall id, t :: LogSum(log + [x], FeeFrom(id, t)) == LogSum(log, FeeFrom(id, t)) + FeeFrom(id, t)(x)
    ensures forall id, t :: LogSum(log + [x], IntoEscrow(id, t)) == LogSum(log, IntoEscrow(id, t)) + IntoEscrow(id, t)(x)
    ensures forall id, t :: LogSum(log + [x], OutOfEscrow(id, t)) == LogSum(log, OutOfEscrow(id, t)) + OutOfEscrow(id, t)(x)
  {
    forall id, u, t
      ensures LogSum(log + [x], PaidTo(id, u, t)) == LogSum(log, PaidTo(id, u, t)) + PaidTo(id, u, t)(x)
    { LogSumPush(log, x, PaidTo(id, u, t)); }
    forall id, t
      ensures LogSum(log + [x], FeeFrom(id, t)) == LogSum(log, FeeFrom(id, t)) + FeeFrom(id, t)(x)
      ensures LogSum(log + [x], IntoEscrow(id, t)) == LogSum(log, IntoEscrow(id, t)) + IntoEscrow(id, t)(x)
      ensures LogSum(log + [x], OutOfEscrow(id, t)) == LogSum(log, OutOfEscrow(id, t)) + OutOfEscrow(id, t)(x)
    {
      LogSumPush(log, x, FeeFrom(id, t));
      LogSumPush(log, x, IntoEscrow(id, t));
      LogSumPush(log, x, OutOfEscrow(id, t));
    }
  }

  /** `more` speaks of no intent but `id`. */
  ghost predicate OnlyAbout(more: seq<Transfer>, id: IntentId) {
    forall x <- more, other | Mentions(x, other) :: other == id
  }

  lemma Unmentioned(log: seq<Transfer>, more: seq<Transfer>, id: IntentId, other: IntentId, i: Intent)
    requires Receipted(log, other, i) && OnlyAbout(more, id) && other != id
    ensures Receipted(log + more, other, i)
  {
    var u, t := i.user, i.dstToken;
    forall x | x in more ensures !Mentions(x, other) {}
    LogSumConcat(log, more, PaidTo(other, u, t)); LogSumNone(more, PaidTo(other, u, t));
    LogSumConcat(log, more, FeeFrom(other, t)); LogSumNone(more, FeeFrom(other, t));
    LogSumConcat(log, more, IntoEscrow(other, t)); LogSumNone(more, IntoEscrow(other, t));
    LogSumConcat(log, more, OutOfEscrow(other, t)); LogSumNone(more, OutOfEscrow(other, t));
  }

  /** The ids and listings are left as they were. */
  ghost predicate SameListing(s: State, s': State) {
    && s'.history == s.history && s'.issued == s.issued && s'.tombstones == s.tombstones
    && s'.intents.Keys == s.intents.Keys
    && forall id <- s.intents :: s'.intents[id].user == s.intents[id].user
  }

  lemma StillListed(s: State, s': State)
    requires Listed(s) && SameListing(s, s')
    ensures Listed(s')
  {
    forall u ensures ListedFor(s', u) { assert ListedFor(s, u); }
    forall u ensures IssuedTo(s', u) == IssuedTo(s, u) {}
  }

  /** One existing intent changed, truthfully, with the transfers `more` made for it alone. */
  ghost predicate Changed(s: State, s': State, id: IntentId, more: seq<Transfer>) {
    && id in s.intents && id in s'.intents
    && s'.intents == s.intents[id := s'.intents[id]]
    && s'.intents[id].user == s.intents[id].user
    && s'.history == s.history && s'.issued == s.issued && s'.tombstones == s.tombstones
    && s'.bank.log == s.bank.log + more && OnlyAbout(more, id)
    && (s'.acceptances == s.acceptances
        || (id in s'.acceptances && s'.acceptances == s.acceptances[id := s'.acceptances[id]]))
    && (s'.extensions == s.extensions || s'.extensions == s.extensions[id := MAX_EXTENSION_DURATION])
    && (s'.short == s.short || s'.short == s.short + {id})
    && IntentOk(s', id, s'.intents[id])
  }

  /** No intent changed and no transfer was made for one. */
  ghost predicate Unchanged(s: State, s': State, more: seq<Transfer>) {
    && s'.intents == s.intents && s'.acceptances == s.acceptances && s'.extensions == s.extensions
    && s'.history == s.history && s'.issued == s.issued && s'.tombstones == s.tombstones
    && s'.short == s.short && s'.bank.log == s.bank.log + more
    && forall x <- more :: !x.purpose.Delivery? && !x.purpose.EscrowIn? && !x.purpose.EscrowFee?
  }

  lemma OthersOk(s: State, s': State, id: IntentId, more: seq<Transfer>, other: IntentId)
    requires Changed(s, s', id, more) && other in s.intents && other != id
    requires IntentOk(s, other, s.intents[other])
    ensures IntentOk(s', other, s'.intents[other])
  {
    Unmentioned(s.bank.log, more, id, other, s.intents[other]);
  }

  lemma Touched(s: State, s': State, id: IntentId, more: seq<Transfer>)
    requires Tracked(s) && Changed(s, s', id, more)
    ensures Tracked(s') && SameListing(s, s')
  {
    forall other | other in s'.intents ensures IntentOk(s', other, s'.intents[other]) {
      if other != id { OthersOk(s, s', id, more, other); }
    }
    forall x <- s'.bank.log, k | Mentions(x, k) ensures Known(s', k) {
      if x in s.bank.log { assert Known(s, k); }
    }
  }

  lemma Untouched(s: State, s': State, more: seq<Transfer>)
    requires Tracked(s) && Unchanged(s, s', more)
    ensures Tracked(s') && SameListing(s, s')
  {
    forall id | id in s'.intents ensures IntentOk(s', id, s'.intents[id]) {
      assert IntentOk(s, id, s.intents[id]);
      Unmentioned(s.bank.log, more, id + 1, id, s.intents[id]);
    }
    forall x <- s'.bank.log, k | Mentions(x, k) ensures Known(s', k) {
      if x in s.bank.log { assert Known(s, k); }
    }
  }

  lemma WindowBound(tier: nat, base: nat)
    ensures TierFillWindow(tier, base) <= 3 * base / 2
  {
  }

  // ----- The calls -----

  lemma Accepting(s: State, now: U64, a: Address, id: IntentId, t: Token, tier: nat, w: Quantity)
    requires Accept(s, now, a, id, t, tier, w).Done?
    requires IntentOk(s, id, s.intents[id])
    ensures Changed(s, Accept(s, now, a, id, t, tier, w).state, id, [])
  {
    var s' := Accept(s, now, a, id, t, tier, w).state;
    WindowBound(Min(tier, 4), s.rules.config.fillWindow);
  }

  /** The transfers of a direct fill: output to the user, then the solver's own fee. */
  function Handover(i: Intent, id: IntentId, a: Address, amount: int, fee: int, r: Address): seq<Transfer> {
    [Transfer(i.dstToken, Wallet(a), Wallet(i.user), amount, Delivery(id))]
      + (if fee > 0 then [Transfer(i.dstToken, Wallet(a), Wallet(r), fee, FillFee)] else [])
  }

  lemma HandedOver(log: seq<Transfer>, id: IntentId, i: Intent, i': Intent, a: Address, amount: int, fee: int, r: Address)
    requires Receipted(log, id, i) && !i.Escrowed() && !i'.Escrowed()
    requires i'.user == i.user && i'.dstToken == i.dstToken && i'.totalFilled == i.totalFilled + amount
    ensures Receipted(log + Handover(i, id, a, amount, fee, r), id, i')
    ensures OnlyAbout(Handover(i, id, a, amount, fee, r), id)
  {
    var x := Transfer(i.dstToken, Wallet(a), Wallet(i.user), amount, Delivery(id));
    var y := Transfer(i.dstToken, Wallet(a), Wallet(r), fee, FillFee);
    Pushed(log, x);
    Pushed(log + [x], y);
    assert log + Handover(i, id, a, amount, fee, r) == if fee > 0 then log + [x] + [y] else log + [x];
  }

  lemma Delivering(s: State, now: U64, a: Address, id: IntentId, amount: I128, proof: bool, w: Quantity) returns (more: seq<Transfer>)
    requires Fill(s, now, a, id, amount, proof, w).Done?
    requires IntentOk(s, id, s.intents[id])
    ensures Changed(s, Fill(s, now, a, id, amount, proof, w).state, id, more)
  {
    var s', i := Fill(s, now, a, id, amount, proof, w).state, s.intents[id];
    var fee := TruncDiv(amount * s.rules.config.feeBps, BPS);
    HandedOver(s.bank.log, id, i, s'.intents[id], a, amount, fee, s.rules.feeRecipient);
    more := Handover(i, id, a, amount, fee, s.rules.feeRecipient);
  }

  lemma Cancelling(s: State, now: U64, u: Address, id: IntentId)
    requires Cancel(s, now, u, id).Done?
    requires IntentOk(s, id, s.intents[id])
    ensures Changed(s, Cancel(s, now, u, id).state, id, [])
  {
  }

  lemma Amending(s: State, now: U64, u: Address, id: IntentId, min: I128, deadline: U64)
    requires Amend(s, now, u, id, min, deadline).Done?
    requires IntentOk(s, id, s.intents[id])
    ensures Changed(s, Amend(s, now, u, id, min, deadline).state, id, [])
  {
  }

  lemma Expiring(s: State, now: U64, id: IntentId)
    requires Expire(s, now, id).Done?
    requires IntentOk(s, id, s.intents[id])
    ensures Changed(s, Expire(s, now, id).state, id, [])
  {
  }

  function PenaltyPaid(t: Token, r: Address, cut: int): seq<Transfer> {
    if cut > 0 then [Transfer(t, Contract, Wallet(r), cut, Penalty)] else []
  }

  lemma PenaltySilent(log: seq<Transfer>, id: IntentId, i: Intent, t: Token, r: Address, cut: int)
    requires Receipted(log, id, i)
    ensures Receipted(log + PenaltyPaid(t, r, cut), id, i)
    ensures OnlyAbout(PenaltyPaid(t, r, cut), id)
  {
    Unmentioned(log, PenaltyPaid(t, r, cut), id + 1, id, i);
  }

  lemma Slashing(s: State, now: U64, id: IntentId, w: Quantity) returns (more: seq<Transfer>)
    requires Slash(s, now, id, w).Done?
    requires IntentOk(s, id, s.intents[id])
    ensures Changed(s, Slash(s, now, id, w).state, id, more)
  {
    var s', i := Slash(s, now, id, w).state, s.intents[id];
    var cut := SlashAmount(BondOf(s, i.solver.value, s.solvers[i.solver.value], i.bondToken), i.minDst - i.totalFilled);
    PenaltySilent(s.bank.log, id, i, i.bondToken, s.rules.feeRecipient, cut);
    more := PenaltyPaid(i.bondToken, s.rules.feeRecipient, cut);
  }

  lemma PutInEscrow(log: seq<Transfer>, id: IntentId, i: Intent, i': Intent, x: Transfer)
    requires Receipted(log, id, i) && !i.Escrowed()
    requires i'.user == i.user && i'.dstToken == i.dstToken && i'.totalFilled == i.totalFilled
    requires x.purpose == EscrowIn(id) && x.from != Contract && x.to == Contract && x.token == i.dstToken
    requires i'.Escrow() == x.amount
    ensures Receipted(log + [x], id, i') && OnlyAbout([x], id)
  {
    Pushed(log, x);
  }

  lemma Escrowing(s: State, now: U64, a: Address, id: IntentId, amount: I128, received: Quantity) returns (more: seq<Transfer>)
    requires BeginFill(s, now, a, id, amount, received).Done?
    requires IntentOk(s, id, s.intents[id])
    ensures Changed(s, BeginFill(s, now, a, id, amount, received).state, id, more)
  {
    var s', i := BeginFill(s, now, a, id, amount, received).state, s.intents[id];
    var x := Transfer(i.dstToken, Wallet(a), Contract, received, EscrowIn(id));
    PutInEscrow(s.bank.log, id, i, s'.intents[id], x);
    more := [x];
  }

  lemma Disputing(s: State, now: U64, u: Address, id: IntentId)
    requires Dispute(s, now, u, id).Done?
    requires IntentOk(s, id, s.intents[id])
    ensures Changed(s, Dispute(s, now, u, id).state, id, [])
  {
  }

  /** The transfers of an escrow payout. */
  function Payout(i: Intent, id: IntentId, escrow: int, fee: int, r: Address): seq<Transfer> {
    [Transfer(i.dstToken, Contract, Wallet(i.user), escrow - fee, Delivery(id))]
      + (if fee > 0 then [Transfer(i.dstToken, Contract, Wallet(r), fee, EscrowFee(id))] else [])
  }

  /** Paid out once, in full: the receipts stay balanced with nothing pending. */
  lemma PaidOut(log: seq<Transfer>, id: IntentId, i: Intent, i': Intent, fee: int, r: Address)
    requires Receipted(log, id, i) && i.Escrowed() && fee >= 0
    requires i'.user == i.user && i'.dstToken == i.dstToken && !i'.Escrowed()
    requires i'.totalFilled == i.totalFilled + i.Escrow()
    ensures Receipted(log + Payout(i, id, i.Escrow(), fee, r), id, i')
    ensures OnlyAbout(Payout(i, id, i.Escrow(), fee, r), id)
  {
    var x := Transfer(i.dstToken, Contract, Wallet(i.user), i.Escrow() - fee, Delivery(id));
    var y := Transfer(i.dstToken, Contract, Wallet(r), fee, EscrowFee(id));
    Pushed(log, x);
    Pushed(log + [x], y);
    assert log + [x] + [y] == log + [x, y];
    assert log + Payout(i, id, i.Escrow(), fee, r) == if fee > 0 then log + [x] + [y] else log + [x];
  }

  lemma ReleaseShape(s: State, now: U64, id: IntentId)
    requires Release(s, now, id).Done?
    ensures id in s.intents && s.intents[id].Escrowed() && ReleaseFee(s.intents[id], now).Ok?
    ensures var s', i, fee := Release(s, now, id).state, s.intents[id], ReleaseFee(s.intents[id], now).value;
            && (i.Escrow() >= 0 ==> fee >= 0)
            && s'.bank.log == s.bank.log + Payout(i, id, i.Escrow(), fee, s.rules.feeRecipient)
  {
  }

  lemma Releasing(s: State, now: U64, id: IntentId) returns (more: seq<Transfer>)
    requires Release(s, now, id).Done?
    requires IntentOk(s, id, s.intents[id])
    ensures Changed(s, Release(s, now, id).state, id, more)
  {
    ReleaseShape(s, now, id);
    var s', i, fee := Release(s, now, id).state, s.intents[id], ReleaseFee(s.intents[id], now).value;
    PaidOut(s.bank.log, id, i, s'.intents[id], fee, s.rules.feeRecipient);
    more := Payout(i, id, i.Escrow(), fee, s.rules.feeRecipient);
  }

  lemma DismissShape(s: State, now: U64, id: IntentId, a: Address, fee: int)
    requires id in s.intents && s.intents[id].phase == Disputed && a in s.solvers
    requires Dismiss(s, now, id, a).Done?
    requires fee == TruncDiv(s.intents[id].Escrow() * PROTOCOL_FEE_BPS, BPS)
    ensures Dismiss(s, now, id, a).state.bank.log ==
              s.bank.log + Payout(s.intents[id], id, s.intents[id].Escrow(), fee, s.rules.feeRecipient)
  {
  }

  lemma Dismissing(s: State, now: U64, id: IntentId, a: Address) returns (more: seq<Transfer>)
    requires id in s.intents && s.intents[id].phase == Disputed && a in s.solvers
    requires IntentOk(s, id, s.intents[id])
    requires Dismiss(s, now, id, a).Done?
    ensures Changed(s, Dismiss(s, now, id, a).state, id, more)
  {
    var s', i := Dismiss(s, now, id, a).state, s.intents[id];
    var fee := TruncDiv(i.Escrow() * PROTOCOL_FEE_BPS, BPS);
    DismissShape(s, now, id, a, fee);
    PaidOut(s.bank.log, id, i, s'.intents[id], fee, s.rules.feeRecipient);
    more := Payout(i, id, i.Escrow(), fee, s.rules.feeRecipient);
  }

  /** What a ruling against the solver leaves of the intent entries and of the log. */
  lemma UpheldLog(s: State, now: U64, id: IntentId, a: Address, cut: int)
    requires id in s.intents && s.intents[id].phase == Disputed && a in s.solvers
    requires cut == SlashAmount(BondOf(s, a, s.solvers[a], s.intents[id].bondToken), s.intents[id].minDst - s.intents[id].totalFilled)
    requires Uphold(s, now, id, a).Done?
    ensures var s', i, r := Uphold(s, now, id, a).state, s.intents[id], s.rules.feeRecipient;
            && s'.intents == s.intents[id := IntentAfterEscrow(i, now, Resolved, Some(Upheld))]
            && s'.history == s.history && s'.issued == s.issued && s'.tombstones == s.tombstones
            && s'.acceptances == s.acceptances && s'.extensions == s.extensions && s'.short == s.short
            && s'.bank.log == s.bank.log + Payout(i, id, i.Escrow(), 0, r) + PenaltyPaid(i.bondToken, r, cut)
  {
  }

  lemma Upholding(s: State, now: U64, id: IntentId, a: Address) returns (more: seq<Transfer>)
    requires id in s.intents && s.intents[id].phase == Disputed && a in s.solvers
    requires IntentOk(s, id, s.intents[id])
    requires Uphold(s, now, id, a).Done?
    ensures Changed(s, Uphold(s, now, id, a).state, id, more)
  {
    var i, r := s.intents[id], s.rules.feeRecipient;
    var i' := IntentAfterEscrow(i, now, Resolved, Some(Upheld));
    var cut := SlashAmount(BondOf(s, a, s.solvers[a], i.bondToken), i.minDst - i.totalFilled);
    var paid, penalty := Payout(i, id, i.Escrow(), 0, r), PenaltyPaid(i.bondToken, r, cut);
    UpheldLog(s, now, id, a, cut);
    PaidOut(s.bank.log, id, i, i', 0, r);
    PenaltySilent(s.bank.log + paid, id, i', i.bondToken, r, cut);
    assert s.bank.log + paid + penalty == s.bank.log + (paid + penalty);
    more := paid + penalty;
  }

  lemma Extending(s: State, a: Address, id: IntentId)
    requires Extend(s, a, id).Done?
    requires IntentOk(s, id, s.intents[id])
    ensures Changed(s, Extend(s, a, id).state, id, [])
  {
  }

  lemma Resolving(s: State, now: U64, caller: Address, id: IntentId, ruling: Ruling) returns (more: seq<Transfer>)
    requires Resolve(s, now, caller, id, ruling).Done?
    requires IntentOk(s, id, s.intents[id])
    ensures Changed(s, Resolve(s, now, caller, id, ruling).state, id, more)
  {
    if ruling == Upheld {
      more := Upholding(s, now, id, s.intents[id].solver.value);
    } else {
      more := Dismissing(s, now, id, s.intents[id].solver.value);
    }
  }

  // ----- Calls that add or remove an intent -----

  lemma FreshReceipt(s: State, id: IntentId, i: Intent)
    requires Tracked(s) && !Known(s, id) && i.totalFilled == 0 && !i.Escrowed()
    ensures Receipted(s.bank.log, id, i)
  {
    forall x | x in s.bank.log ensures !Mentions(x, id) {}
    LogSumNone(s.bank.log, PaidTo(id, i.user, i.dstToken));
    LogSumNone(s.bank.log, FeeFrom(id, i.dstToken));
    LogSumNone(s.bank.log, IntoEscrow(id, i.dstToken));
    LogSumNone(s.bank.log, OutOfEscrow(id, i.dstToken));
  }

  /** A new id lengthens one user's issue list and repeats no older id. */
  lemma NewlyIssued(s: State, s': State, id: IntentId, u: Address)
    requires Listed(s) && !Known(s, id)
    requires s'.issued == s.issued[u := IssuedTo(s, u) + [id]]
    ensures forall v :: id !in IssuedTo(s, v)
    ensures forall v :: IssuedTo(s', v) == if v == u then IssuedTo(s, u) + [id] else IssuedTo(s, v)
    ensures IssuedOnce(s')
  {
    forall v ensures id !in IssuedTo(s, v) { assert ListedFor(s, v); }
    forall v, w, k, l | 0 <= k < |IssuedTo(s', v)| && 0 <= l < |IssuedTo(s', w)|
      ensures IssuedTo(s', v)[k] == IssuedTo(s', w)[l] ==> v == w && k == l
    {
      var old_v, old_w := IssuedTo(s, v), IssuedTo(s, w);
      if k < |old_v| && l < |old_w| {
        assert old_v[k] == IssuedTo(s', v)[k] && old_w[l] == IssuedTo(s', w)[l];
      } else if k < |old_v| {
        assert old_v[k] in old_v;
      } else if l < |old_w| {
        assert old_w[l] in old_w;
      }
    }
  }

  lemma NewSlot(s: State, s': State, id: IntentId, i: Intent, u: Address)
    requires ListedFor(s, u) && id !in IssuedTo(s, u)
    requires s'.intents == s.intents[id := i] && s'.tombstones == s.tombstones
    requires HistoryOf(s', u) == if u == i.user then HistoryOf(s, u) + [Some(id)] else HistoryOf(s, u)
    requires IssuedTo(s', u) == if u == i.user then IssuedTo(s, u) + [id] else IssuedTo(s, u)
    ensures ListedFor(s', u)
  {
    var ids := IssuedTo(s, u);
    forall k | 0 <= k < |ids| ensures ids[k] != id { assert ids[k] in ids; }
  }

  lemma NewlyListed(s: State, s': State, id: IntentId, i: Intent)
    requires Listed(s) && !Known(s, id)
    requires s'.intents == s.intents[id := i] && s'.tombstones == s.tombstones
    requires s'.history == s.history[i.user := HistoryOf(s, i.user) + [Some(id)]]
    requires s'.issued == s.issued[i.user := IssuedTo(s, i.user) + [id]]
    ensures Listed(s')
  {
    NewlyIssued(s, s', id, i.user);
    forall u ensures ListedFor(s', u) { NewSlot(s, s', id, i, u); }
    forall k | k in s'.intents ensures k in IssuedTo(s', s'.intents[k].user) {
      var u := s'.intents[k].user;
      if k != id { assert k in IssuedTo(s, u); } else { assert IssuedTo(s', u)[|IssuedTo(s, u)|] == id; }
    }
  }

  lemma Submitting(s: State, now: U64, u: Address, src: I128, dst: Token, min: I128, expiry: Option<U64>,
                   ref: Option<Address>, ext: bool, id: IntentId)
    requires Records(s) && Submit(s, now, u, src, dst, min, expiry, ref, ext, id).Done?
    ensures Records(Submit(s, now, u, src, dst, min, expiry, ref, ext, id).state)
  {
    var s' := Submit(s, now, u, src, dst, min, expiry, ref, ext, id).state;
    var i := s'.intents[id];
    FreshReceipt(s, id, i);
    NewlyListed(s, s', id, i);
    forall other | other in s'.intents ensures IntentOk(s', other, s'.intents[other]) {
      if other != id { assert IntentOk(s, other, s.intents[other]); }
    }
    forall x <- s'.bank.log, k | Mentions(x, k) ensures Known(s', k) { assert Known(s, k); }
  }

  lemma {:induction false} BlankedAt(h: seq<Option<IntentId>>, id: IntentId, k: nat)
    requires k < |h| && h[k] == Some(id)
    requires forall j :: 0 <= j < |h| && h[j] == Some(id) ==> j == k
    ensures BlankFirst(h, id) == h[k := None]
  {
    if k > 0 {
      BlankedAt(h[1..], id, k - 1);
      assert h[k := None] == [h[0]] + h[1..][k - 1 := None];
    }
  }

  /** Slot `k` of the owner's history becomes a hole; the other slots keep their ids. */
  lemma SlotBlanked(s: State, s': State, id: IntentId, u: Address, k: nat)
    requires ListedFor(s, u) && k < |IssuedTo(s, u)| && IssuedTo(s, u)[k] == id
    requires forall j | 0 <= j < |IssuedTo(s, u)| :: IssuedTo(s, u)[j] == id ==> j == k
    requires s'.intents == s.intents - {id} && s'.tombstones == s.tombstones + {id} && s'.issued == s.issued
    requires u in s.history && s'.history == s.history[u := BlankFirst(s.history[u], id)]
    requires id in s.intents
    ensures ListedFor(s', u)
  {
    BlankedAt(HistoryOf(s, u), id, k);
    assert IssuedTo(s', u) == IssuedTo(s, u);
    assert HistoryOf(s', u) == HistoryOf(s, u)[k := None];
  }

  lemma SlotKept(s: State, s': State, id: IntentId, v: Address)
    requires ListedFor(s, v) && forall j | 0 <= j < |IssuedTo(s, v)| :: IssuedTo(s, v)[j] != id
    requires s'.intents == s.intents - {id} && s'.tombstones == s.tombstones + {id}
    requires IssuedTo(s', v) == IssuedTo(s, v) && HistoryOf(s', v) == HistoryOf(s, v)
    ensures ListedFor(s', v)
  {
  }

  lemma NoLongerListed(s: State, s': State, id: IntentId)
    requires Listed(s) && id in s.intents
    requires s'.intents == s.intents - {id} && s'.tombstones == s.tombstones + {id}
    requires s'.issued == s.issued
    requires var u := s.intents[id].user;
             s'.history == if u in s.history then s.history[u := BlankFirst(s.history[u], id)] else s.history
    ensures Listed(s')
  {
    var u := s.intents[id].user;
    assert ListedFor(s, u);
    var k :| 0 <= k < |IssuedTo(s, u)| && IssuedTo(s, u)[k] == id;
    forall v ensures ListedFor(s', v) {
      assert ListedFor(s, v);
      forall j | 0 <= j < |IssuedTo(s, v)| ensures IssuedTo(s, v)[j] == id ==> v == u && j == k {
        assert IssuedTo(s, u)[k] == id;
      }
      if v == u { SlotBlanked(s, s', id, u, k); } else { SlotKept(s, s', id, v); }
    }
    forall v ensures IssuedTo(s', v) == IssuedTo(s, v) {}
  }

  lemma Closing(s: State, now: U64, id: IntentId)
    requires Records(s) && Close(s, now, id).Done?
    ensures Records(Close(s, now, id).state)
  {
    var s' := Close(s, now, id).state;
    NoLongerListed(s, s', id);
    forall other | other in s'.intents ensures IntentOk(s', other, s'.intents[other]) {
      assert IntentOk(s, other, s.intents[other]);
    }
    forall x <- s'.bank.log, k | Mentions(x, k) ensures Known(s', k) { assert Known(s, k); }
  }

  // ----- Calls that touch no intent -----

  lemma Registering(s: State, a: Address, t: Token, amount: I128, received: Quantity)
    requires Register(s, a, t, amount, received).Done?
    ensures Unchanged(s, Register(s, a, t, amount, received).state, [Transfer(t, Wallet(a), Contract, received, BondIn)])
  {
  }

  lemma Withdrawing(s: State, a: Address, t: Token, amount: I128)
    requires Withdraw(s, a, t, amount).Done?
    ensures Unchanged(s, Withdraw(s, a, t, amount).state, [Transfer(t, Contract, Wallet(a), amount, BondOut)])
  {
  }

  lemma {:induction false} RefundLog(bank: Bank, a: Address, refunds: seq<(Token, int)>) returns (more: seq<Transfer>)
    requires PayRefunds(bank, a, refunds).Some?
    ensures PayRefunds(bank, a, refunds).value.log == bank.log + more
    ensures forall x <- more :: x.purpose == BondOut
  {
    if refunds == [] {
      more := [];
    } else {
      var (t, amount) := refunds[|refunds| - 1];
      var front := RefundLog(bank, a, refunds[..|refunds| - 1]);
      more := front + [Transfer(t, Contract, Wallet(a), amount, BondOut)];
    }
  }

  lemma Deregistering(s: State, a: Address) returns (more: seq<Transfer>)
    requires Deregister(s, a).Done?
    ensures Unchanged(s, Deregister(s, a).state, more)
  {
    more := RefundLog(s.bank, a, Refunds(s, a, s.solvers[a]));
  }

  lemma BiddingQuietly(s: State, now: U64, a: Address, id: IntentId, q: I128)
    requires PlaceBid(s, now, a, id, q).Done?
    ensures Unchanged(s, PlaceBid(s, now, a, id, q).state, [])
  {
  }

  lemma Administering(s: State, change: Change)
    requires Administer(s, change).Done?
    ensures Unchanged(s, Administer(s, change).state, [])
  {
  }

  /** The calls that work on one existing intent. */
  predicate Lifecycle(x: Action) {
    || x.DoAccept? || x.DoFill? || x.DoCancel? || x.DoAmend? || x.DoExpire? || x.DoSlash?
    || x.DoBeginFill? || x.DoDispute? || x.DoResolve? || x.DoRelease? || x.DoExtend?
  }

  lemma LifecycleStep(s: State, c: Call) returns (more: seq<Transfer>)
    requires Lifecycle(c.action) && Perform(s, c.now, c.action).Done?
    requires c.action.id in s.intents && IntentOk(s, c.action.id, s.intents[c.action.id])
    ensures Changed(s, Perform(s, c.now, c.action).state, c.action.id, more)
  {
    var now := c.now;
    more := [];
    match c.action
    case DoAccept(a, id, t, tier, w) => Accepting(s, now, a, id, t, tier, w);
    case DoFill(a, id, amount, proof, w) => more := Delivering(s, now, a, id, amount, proof, w);
    case DoCancel(u, id) => Cancelling(s, now, u, id);
    case DoAmend(u, id, min, deadline) => Amending(s, now, u, id, min, deadline);
    case DoExpire(id) => Expiring(s, now, id);
    case DoSlash(id, w) => more := Slashing(s, now, id, w);
    case DoBeginFill(a, id, amount, received) => more := Escrowing(s, now, a, id, amount, received);
    case DoDispute(u, id) => Disputing(s, now, u, id);
    case DoResolve(caller, id, ruling) => more := Resolving(s, now, caller, id, ruling);
    case DoRelease(id) => more := Releasing(s, now, id);
    case DoExtend(a, id) => Extending(s, a, id);
  }

  lemma QuietStep(s: State, c: Call) returns (more: seq<Transfer>)
    requires !Lifecycle(c.action) && !c.action.DoSubmit? && !c.action.DoClose? && !c.action.DoSettleBids?
    requires Perform(s, c.now, c.action).Done?
    ensures Unchanged(s, Perform(s, c.now, c.action).state, more)
  {
    more := [];
    match c.action
    case DoRegister(a, t, amount, received) =>
      Registering(s, a, t, amount, received);
      more := [Transfer(t, Wallet(a), Contract, received, BondIn)];
    case DoWithdraw(a, t, amount) =>
      Withdrawing(s, a, t, amount);
      more := [Transfer(t, Contract, Wallet(a), amount, BondOut)];
    case DoDeregister(a) => more := Deregistering(s, a);
    case DoBid(a, id, q) => BiddingQuietly(s, c.now, a, id, q);
    case DoAdminister(change) => Administering(s, change);
    case Mint(t, a, n) =>
  }

  lemma NoSubjectNoEffect(s: State, c: Call)
    requires Lifecycle(c.action) && c.action.id !in s.intents
    ensures Perform(s, c.now, c.action).Reverted?
  {
  }

  /** The bid window never has anything to settle, because nothing opens it. */
  lemma NothingToSettle(s: State, now: U64, id: IntentId)
    requires Tracked(s)
    ensures SettleBids(s, now, id).Reverted?
  {
  }

  /** Every call keeps the records true. */
  lemma RecordsStep(s: State, c: Call)
    requires Records(s)
    ensures Records(After(s, c))
  {
    var o := Perform(s, c.now, c.action);
    if o.Done? {
      var x := c.action;
      if x.DoSubmit? {
        Submitting(s, c.now, x.user, x.srcAmount, x.dst, x.minDst, x.expiry, x.referrer, x.external, x.id);
      } else if x.DoClose? {
        Closing(s, c.now, x.id);
      } else if x.DoSettleBids? {
        NothingToSettle(s, c.now, x.id);
      } else if Lifecycle(x) {
        if x.id !in s.intents { NoSubjectNoEffect(s, c); }
        var more := LifecycleStep(s, c);
        Touched(s, o.state, x.id, more);
        StillListed(s, o.state);
      } else {
        var more := QuietStep(s, c);
        Untouched(s, o.state, more);
        StillListed(s, o.state);
      }
    }
  }

  /** In every run the records stay true. */
  lemma {:induction false} RecordsAlways(s: State, calls: seq<Call>)
    requires Records(s)
    ensures Records(Run(s, calls))
  {
    if calls != [] {
      RecordsAlways(s, calls[..|calls| - 1]);
      RecordsStep(Run(s, calls[..|calls| - 1]), calls[|calls| - 1]);
    }
  }
}
