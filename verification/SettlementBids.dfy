/**
  The bid window, from any state that has one: who may bid, that the highest bid is the one
  on record, and what becomes of the intent. Also what the admin's changes set.
 */
module SettlementBids {
  import opened Wrappers
  import opened SettlementMath
  import opened SettlementModel
  import opened SettlementFrames
  import opened SettlementAccounts
  import opened SettlementTransitions

  /** Active, with the minimum bond, below its cap and past its suspension. */
  predicate MayServe(s: State, now: nat, a: Address) {
    && a in s.solvers && s.solvers[a].active && s.solvers[a].bond >= s.rules.config.minBond
    && s.solvers[a].activeIntents < s.rules.config.maxActive
    && (s.solvers[a].lastSlash > 0 ==> now >= s.solvers[a].lastSlash + 3_600)
  }

  predicate MayBid(s: State, now: nat, x: Action)
    requires x.DoBid?
  {
    && !s.rules.paused && x.quoted > 0 && x.id in s.intents && s.intents[x.id].phase == Bidding
    && now < s.intents[x.id].deadline && MayServe(s, now, x.a)
    && (x.id in s.bids ==> x.quoted > s.bids[x.id].quoted)
  }

  /** A bid is taken only above the best so far, which it replaces. */
  lemma BidFollows(s: State, now: U64, x: Action)
    requires x.DoBid?
    ensures Perform(s, now, x).Done? ==>
              MayBid(s, now, x) && Perform(s, now, x).state == s.(bids := s.bids[x.id := Bid(x.a, x.quoted)])
    ensures MayBid(s, now, x) ==> Passes(Perform(s, now, x))
  {
  }

  predicate MaySettle(s: State, now: nat, id: IntentId) {
    id in s.intents && s.intents[id].phase == Bidding && now >= s.intents[id].deadline
  }

  /** The best bidder gets the intent if it may still serve; otherwise the intent is open again. */
  function Awarded(s: State, now: nat, id: IntentId): Intent
    requires id in s.intents
  {
    var i := s.intents[id];
    if id in s.bids && MayServe(s, now, s.bids[id].solver)
    then i.(solver := Some(s.bids[id].solver), phase := Accepted, bondToken := s.params.bondToken,
            deadline := now + s.rules.config.fillWindow)
    else i.(phase := Open, deadline := now + s.rules.config.intentExpiry)
  }

  lemma SettleFollows(s: State, now: U64, id: IntentId)
    requires SettleBids(s, now, id).Done?
    ensures MaySettle(s, now, id) && SettleBids(s, now, id).state.intents == s.intents[id := Awarded(s, now, id)]
    ensures SettleBids(s, now, id).state.bids == s.bids - {id}
  {
  }

  lemma SettlePasses(s: State, now: U64, id: IntentId)
    requires MaySettle(s, now, id)
    ensures Passes(SettleBids(s, now, id))
  {
  }

  // ----- The highest bid wins -----

  predicate OnlyBids(calls: seq<Call>, id: IntentId) { forall c <- calls :: c.action.DoBid? && c.action.id == id }

  /** Call `n` of the run placed bid `b`, and it was taken. */
  ghost predicate Placed(s: State, calls: seq<Call>, n: nat, b: Bid) {
    && n < |calls| && calls[n].action.DoBid? && b == Bid(calls[n].action.a, calls[n].action.quoted)
    && Perform(Run(s, calls[..n]), calls[n].now, calls[n].action).Done?
  }

  lemma PlacedEarlier(s: State, calls: seq<Call>, front: seq<Call>, n: nat, b: Bid)
    requires calls != [] && front == calls[..|calls| - 1]
    ensures Placed(s, calls, n, b) && n < |front| ==> Placed(s, front, n, b)
    ensures Placed(s, front, n, b) ==> Placed(s, calls, n, b)
  {
    if n < |front| { assert front[..n] == calls[..n]; }
  }

  /** After any bids the one on record is none only if none was taken, and no bid taken was higher. */
  ghost predicate Leads(s: State, calls: seq<Call>, s': State, id: IntentId) {
    && (forall n: nat, b :: Placed(s, calls, n, b) ==> id in s'.bids && b.quoted <= s'.bids[id].quoted)
    && (id in s'.bids ==> exists n: nat :: Placed(s, calls, n, s'.bids[id]))
  }

  lemma LeadsNext(s: State, calls: seq<Call>, front: seq<Call>, m: State, s': State, id: IntentId, taken: Option<Bid>)
    requires calls != [] && front == calls[..|calls| - 1] && Leads(s, front, m, id)
    requires forall b :: Placed(s, calls, |front|, b) <==> taken == Some(b)
    requires match taken
             case None => s'.bids == m.bids
             case Some(b) => s'.bids == m.bids[id := b] && (id in m.bids ==> b.quoted > m.bids[id].quoted)
    ensures Leads(s, calls, s', id)
  {
    forall n: nat, b | Placed(s, calls, n, b) ensures id in s'.bids && b.quoted <= s'.bids[id].quoted {
      PlacedEarlier(s, calls, front, n, b);
    }
    if taken.None? && id in m.bids {
      var n: nat :| Placed(s, front, n, m.bids[id]);
      PlacedEarlier(s, calls, front, n, m.bids[id]);
    }
  }

  lemma BidTaken(s: State, c: Call, id: IntentId) returns (taken: Option<Bid>)
    requires c.action.DoBid? && c.action.id == id
    ensures taken.Some? <==> Perform(s, c.now, c.action).Done?
    ensures taken.Some? ==>
              && taken.value == Bid(c.action.a, c.action.quoted) && After(s, c).bids == s.bids[id := taken.value]
              && (id in s.bids ==> taken.value.quoted > s.bids[id].quoted)
    ensures taken.None? ==> After(s, c).bids == s.bids
  {
    BidFollows(s, c.now, c.action);
    taken := if Perform(s, c.now, c.action).Done? then Some(Bid(c.action.a, c.action.quoted)) else None;
  }

  /** However the bids come in, the highest one taken is on record when the window is settled. */
  lemma {:induction false} HighestBidLeads(s: State, calls: seq<Call>, id: IntentId)
    requires id !in s.bids && OnlyBids(calls, id)
    ensures Leads(s, calls, Run(s, calls), id)
  {
    if calls != [] {
      var front := calls[..|calls| - 1];
      assert calls[|front|] in calls;
      HighestBidLeads(s, front, id);
      var taken := BidTaken(Run(s, front), calls[|front|], id);
      assert calls[..|front|] == front;
      LeadsNext(s, calls, front, Run(s, front), Run(s, calls), id, taken);
    }
  }

  // ----- What the admin sets -----

  /** Each change sets one rule and leaves the others; the coverage is never set. */
  ghost predicate Sets(r: Rules, change: Change, r': Rules) {
    && r'.config == (if change.SetConfig? then change.config.(coverage := r.config.coverage) else r.config)
    && r'.paused == (if change.SetPaused? then change.paused else r.paused)
    && r'.feeRecipient == (if change.SetFeeRecipient? then change.to else r.feeRecipient)
    && r'.arbiter == (if change.SetArbiter? then change.arbiter else r.arbiter)
    && r'.retention == (if change.SetRetention? then change.secs else r.retention)
    && (forall t :: t in r'.allowedBonds <==>
          (if change.AllowBond? && t == change.token then true
           else if change.DisallowBond? && t == change.token then false else t in r.allowedBonds))
    && r'.minBonds == (if change.SetMinBond? then r.minBonds[change.token := change.amount] else r.minBonds)
    && r'.multipliers == (if change.SetMultiplier? then r.multipliers[change.token := change.amount] else r.multipliers)
  }

  predicate MaySet(change: Change) {
    match change
    case SetConfig(c) =>
      c.minBond >= 10_000_000 && c.fillWindow >= 60 && c.intentExpiry >= 300 && c.intentExpiry > c.fillWindow
      && 0 <= c.feeBps <= 1_000 && c.maxActive > 0
    case SetMinBond(_, n) => n > 0
    case SetMultiplier(_, n) => n > 0
    case _ => true
  }

  lemma ChangeFollows(s: State, change: Change)
    ensures Administer(s, change).Done? <==> MaySet(change)
    ensures Administer(s, change).Done? ==>
              var s' := Administer(s, change).state; s' == s.(rules := s'.rules) && Sets(s.rules, change, s'.rules)
  {
  }
}
