/**
  What users can rely on, in every run of a fresh deployment: what was delivered
  for an intent is what its record says, escrows are paid out once and in full,
  and ids are never reused.
 */
module SettlementDelivery {
  import opened Wrappers
  import opened SettlementMath
  import opened SettlementModel
  import opened SettlementFrames
  import opened SettlementRecords
  import opened SettlementTheorems
  import opened Sums

  /** Output tokens the user has received for the intent, from solvers and from escrow. */
  ghost function Received(s: State, id: IntentId): int
    requires id in s.intents
  {
    LogSum(s.bank.log, PaidTo(id, s.intents[id].user, s.intents[id].dstToken))
  }

  /** Fees taken out of the intent's escrows. */
  ghost function FeesTaken(s: State, id: IntentId): int
    requires id in s.intents
  {
    LogSum(s.bank.log, FeeFrom(id, s.intents[id].dstToken))
  }

  ghost function PutIn(s: State, id: IntentId): int
    requires id in s.intents
  {
    LogSum(s.bank.log, IntoEscrow(id, s.intents[id].dstToken))
  }

  ghost function PaidOut(s: State, id: IntentId): int
    requires id in s.intents
  {
    LogSum(s.bank.log, OutOfEscrow(id, s.intents[id].dstToken))
  }

  /** Received plus fees is `total_filled`, whatever mix of solvers, partial fills,
      slashes and escrows led there; what went into escrow is out again except what
      is pending; a partial fill is one, strictly. */
  lemma DeliveryLedger(params: Params, recipient: Address, admin: Address, funds: map<(Token, Address), int>,
                       calls: seq<Call>, id: IntentId)
    ensures var s := Run(Fresh(params, recipient, admin, funds), calls);
            id in s.intents ==>
              && Received(s, id) + FeesTaken(s, id) == s.intents[id].totalFilled
              && PutIn(s, id) == PaidOut(s, id) + s.intents[id].Escrow()
              && (s.intents[id].phase == PartiallyFilled ==> 0 < s.intents[id].totalFilled < s.intents[id].minDst)
  {
    var s := Run(Fresh(params, recipient, admin, funds), calls);
    Always(params, recipient, admin, funds, calls);
    if id in s.intents { assert IntentOk(s, id, s.intents[id]); }
  }

  /** No id is issued twice, to anyone, however many intents are closed in between. */
  lemma IdsNeverReissued(params: Params, recipient: Address, admin: Address, funds: map<(Token, Address), int>,
                         calls: seq<Call>, u: Address, k: nat, v: Address, l: nat)
    ensures var s := Run(Fresh(params, recipient, admin, funds), calls);
            k < |IssuedTo(s, u)| && l < |IssuedTo(s, v)| && IssuedTo(s, u)[k] == IssuedTo(s, v)[l] ==> u == v && k == l
  {
    Always(params, recipient, admin, funds, calls);
  }

  // ----- Tokens that arrive in full -----

  /** Escrowed tokens arrive without a deduction. */
  predicate Exact(x: Action) { x.DoBeginFill? ==> x.received >= x.amount }

  lemma {:induction false} NothingShort(s: State, calls: seq<Call>)
    requires forall c <- calls :: Exact(c.action)
    ensures Run(s, calls).short == s.short
  {
    if calls != [] {
      assert calls[|calls| - 1] in calls;
      NothingShort(s, calls[..|calls| - 1]);
      CallFramed(Run(s, calls[..|calls| - 1]), calls[|calls| - 1]);
    }
  }

  /** With tokens that arrive in full, a filled intent has its minimum and an escrow
      always completes it. */
  lemma FilledMeansMinimum(params: Params, recipient: Address, admin: Address, funds: map<(Token, Address), int>,
                           calls: seq<Call>, id: IntentId)
    requires forall c <- calls :: Exact(c.action)
    ensures var s := Run(Fresh(params, recipient, admin, funds), calls);
            id in s.intents ==>
              && (s.intents[id].phase == Filled ==> s.intents[id].totalFilled >= s.intents[id].minDst)
              && (s.intents[id].Escrowed() ==> s.intents[id].totalFilled + s.intents[id].Escrow() >= s.intents[id].minDst)
  {
    var s := Run(Fresh(params, recipient, admin, funds), calls);
    Always(params, recipient, admin, funds, calls);
    NothingShort(Fresh(params, recipient, admin, funds), calls);
    if id in s.intents { assert IntentOk(s, id, s.intents[id]); }
  }
}
