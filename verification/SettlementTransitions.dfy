/**
  The life of an intent: who may move it, from which phase, when, and to what. A call
  moves at most the intent it names, along one of these arrows; it adds one by a
  submission and removes one by pruning.
 */
module SettlementTransitions {
  import opened Wrappers
  import opened SettlementMath
  import opened SettlementModel
  import opened SettlementFrames
  import opened SettlementLedger
  import opened SettlementRecords
  import opened SettlementAccounts

  // ----- Taking on an obligation -----

  const STRETCH_PERCENT := [0, 10, 20, 30, 50]

  /** The fill window of a tier: the configured one and that many percent more, worked out
      in ten thousandths within 64 bits. */
  function Stretched(window: nat, tier: nat): nat
    requires tier <= 4
  {
    Min(window * (100 + STRETCH_PERCENT[tier]) * 100, 0xffff_ffff_ffff_ffff) / 10_000
  }

  lemma StretchIs(tier: nat, window: nat)
    ensures TierFillWindow(tier, window) == Stretched(window, Min(tier, 4))
  {
    var k := Min(tier, 4);
    assert BPS + TIER_FILL_WINDOW_BONUS_BPS[k] == (100 + STRETCH_PERCENT[k]) * 100;
    assert window * ((100 + STRETCH_PERCENT[k]) * 100) == window * (100 + STRETCH_PERCENT[k]) * 100;
  }

  /** Active, past its suspension, with room for one more, and with a bond in an allowed
      token that backs the intent and covers the exposure it adds. */
  predicate MayTake(s: State, now: nat, a: Address, t: Token, weight: nat, i: Intent) {
    && a in s.solvers
    && s.solvers[a].active
    && (s.solvers[a].lastSlash > 0 ==> now >= s.solvers[a].lastSlash + 3_600)
    && s.solvers[a].activeIntents < s.rules.config.maxActive
    && (t == s.params.bondToken || t in s.rules.allowedBonds)
    && Bonded(s, a, t) >= (if t != s.params.bondToken then MinBondFor(s, t)
                           else TruncDiv(s.rules.config.minBond
                                         * (if i.dstToken in s.rules.multipliers then s.rules.multipliers[i.dstToken] else 10), 10))
    && Covers(Bonded(s, a, t), s.rules.config.coverage, SatI128(ExposureOf(s, a) + Notional(i.minDst, weight)))
  }

  /** A bond covers its multiple, without limit when the multiple leaves 128 bits. */
  predicate Covers(bond: int, times: int, exposure: int) { FitsI128(bond * times) ==> exposure <= bond * times }

  // ----- The arrows -----

  /** Who may move intent `i` by call `x` at `now`, and from where. */
  predicate May(s: State, now: nat, x: Action, i: Intent) {
    match x
    case DoAccept(a, _, t, _, weight) =>
      !s.rules.paused && i.phase in {Open, PartiallyFilled} && now < i.deadline && MayTake(s, now, a, t, weight, i)
    case DoFill(a, _, amount, proof, _) =>
      && !s.rules.paused && i.phase == Accepted && i.solver == Some(a) && now < i.deadline && proof
      && 0 < amount <= 1_000_000_000_000_000_000_000_000_000_000
    case DoCancel(u, _) =>
      && i.user == u && i.phase in {Open, PartiallyFilled}
      && (u in s.stamps.cancels ==> now >= s.stamps.cancels[u] + 60)
    case DoAmend(u, _, min, deadline) =>
      && i.user == u && (i.phase == Open || (i.phase == Bidding && min <= i.minDst && deadline >= i.deadline))
      && now < deadline <= now + s.rules.config.intentExpiry
      && (u in s.stamps.amends ==> now >= s.stamps.amends[u] + 60)
    case DoExpire(_) => i.phase in {Open, PartiallyFilled} && now >= i.deadline
    case DoSlash(_, _) => i.phase == Accepted && now >= SatAdd(i.deadline, s.params.grace)
    case DoBeginFill(a, _, amount, _) =>
      && !s.rules.paused && i.phase == Accepted && i.solver == Some(a) && now < i.deadline
      && amount > 0 && i.totalFilled + amount >= i.minDst
    case DoDispute(u, _) => i.phase == Filling && i.user == u && now < i.disputeDeadline.GetOr(0)
    case DoResolve(caller, _, _) => i.phase == Disputed && caller == s.rules.arbiter
    case DoRelease(_) =>
      || (i.phase == Filling && now >= i.disputeDeadline.GetOr(0))
      || (i.phase == Disputed && now >= i.disputeRaisedAt.GetOr(0) + 86_400)
    case DoExtend(a, id) =>
      && i.phase == Accepted && i.solver == Some(a) && id !in s.extensions && s.params.maxExtension >= 300
    case _ => false
  }

  /** What it becomes. */
  function Next(s: State, now: nat, x: Action, i: Intent): Intent {
    match x
    case DoAccept(a, _, t, tier, _) =>
      i.(solver := Some(a), phase := Accepted, bondToken := t, solverTier := Min(tier, 4),
         deadline := now + Stretched(s.rules.config.fillWindow, Min(tier, 4)))
    case DoFill(_, _, amount, _, _) =>
      var total := i.totalFilled + amount;
      if total >= i.minDst
      then i.(totalFilled := total, fillAmount := Some(total), phase := Filled, filledAt := Some(now), terminalAt := Some(now))
      else i.(totalFilled := total, fillAmount := Some(total), phase := PartiallyFilled, solver := None, solverTier := 0,
              deadline := now + 1_800)
    case DoCancel(_, _) => i.(phase := Cancelled, terminalAt := Some(now))
    case DoAmend(_, _, min, deadline) => i.(minDst := min, deadline := deadline)
    case DoExpire(_) => i.(phase := Expired, terminalAt := Some(now))
    case DoSlash(_, _) => i.(solver := None, solverTier := 0, phase := Open, deadline := now + s.rules.config.intentExpiry)
    case DoBeginFill(_, _, _, received) =>
      i.(phase := Filling, disputeDeadline := Some(now + 3_600), fillAmount := Some(received))
    case DoDispute(_, _) => i.(phase := Disputed, disputeRaisedAt := Some(now))
    case DoResolve(_, _, ruling) => Emptied(i, now).(phase := Resolved, ruling := Some(ruling))
    case DoRelease(_) =>
      if i.phase == Filling then Emptied(i, now).(phase := Filled) else Emptied(i, now).(phase := Resolved, ruling := None)
    case DoExtend(_, _) => i.(deadline := i.deadline + 300)
    case _ => i
  }

  /** The escrow counted as received, and the record closed at `now`. */
  function Emptied(i: Intent, now: nat): Intent {
    var total := i.totalFilled + i.fillAmount.GetOr(0);
    i.(totalFilled := total, fillAmount := Some(total), filledAt := Some(now), terminalAt := Some(now))
  }

  /** What the call publishes. */
  function Announced(s: State, x: Action, i': Intent): Event {
    match x
    case DoAccept(a, id, _, _, _) => IntentAccepted(a, id, i'.deadline)
    case DoFill(a, id, amount, _, _) => IntentFilled(a, id, amount, TruncDiv(amount * s.rules.config.feeBps, 10_000))
    case DoCancel(u, id) => IntentCancelled(u, id)
    case DoExpire(id) => IntentExpiredEvent(id)
    case DoSlash(id, _) =>
      SolverSlashed(if id in s.intents then s.intents[id].solver.GetOr(0) else 0, id, Forfeit(s, id))
    case DoExtend(a, id) => ExtensionGranted(a, id, i'.deadline)
    case DoAmend(_, id, _, _) => OtherEvent(id)
    case DoBeginFill(_, id, _, _) => OtherEvent(id)
    case DoDispute(_, id) => OtherEvent(id)
    case DoResolve(_, id, _) => OtherEvent(id)
    case DoRelease(id) => OtherEvent(id)
    case _ => OtherEvent(0)
  }

  /** What the call adds to the contract's volume: all that reaches a user, but for an upheld escrow. */
  function Volume(s: State, x: Action): int {
    match x
    case DoFill(_, _, amount, _, _) => amount
    case DoRelease(id) => Escrowed(s, id)
    case DoResolve(_, id, ruling) => if ruling == Dismissed then Escrowed(s, id) else 0
    case _ => 0
  }

  /** The call rewrote intent `id` to `i` and nothing else among the intents. */
  ghost predicate Rewrote(s: State, o: Outcome, id: IntentId, i: Intent, e: Event, more: int) {
    && o.Done? && o.events == [e] && id in s.intents && o.state.intents == s.intents[id := i]
    && o.state.tombstones == s.tombstones && o.state.totalIntents == s.totalIntents
    && o.state.totalVolume == s.totalVolume + more && !e.SolverRegistered?
  }

  /** The call was allowed, went through, and did to its intent what the arrow says. */
  ghost predicate Follows(s: State, now: nat, x: Action, o: Outcome)
    requires Lifecycle(x)
  {
    && x.id in s.intents && May(s, now, x, s.intents[x.id])
    && var i' := Next(s, now, x, s.intents[x.id]);
    Rewrote(s, o, x.id, i', Announced(s, x, i'), Volume(s, x))
  }

  lemma AcceptFollows(s: State, now: U64, x: Action)
    requires x.DoAccept? && Perform(s, now, x).Done?
    ensures Follows(s, now, x, Perform(s, now, x))
    ensures ExposureOf(Perform(s, now, x).state, x.a) == SatI128(ExposureOf(s, x.a) + Notional(s.intents[x.id].minDst, x.weight))
  {
    StretchIs(Min(x.tier, 4), s.rules.config.fillWindow);
  }

  lemma FillFollows(s: State, now: U64, x: Action)
    requires x.DoFill? && Perform(s, now, x).Done?
    ensures Follows(s, now, x, Perform(s, now, x))
  {
  }

  lemma CancelFollows(s: State, now: U64, x: Action)
    requires x.DoCancel? && Perform(s, now, x).Done?
    ensures Follows(s, now, x, Perform(s, now, x))
    ensures Perform(s, now, x).state.stamps == s.stamps.(cancels := s.stamps.cancels[x.user := now])
  {
  }

  lemma AmendFollows(s: State, now: U64, x: Action)
    requires x.DoAmend? && Perform(s, now, x).Done?
    ensures Follows(s, now, x, Perform(s, now, x))
    ensures Perform(s, now, x).state.stamps == s.stamps.(amends := s.stamps.amends[x.user := now])
  {
  }

  lemma ExpireFollows(s: State, now: U64, x: Action)
    requires x.DoExpire? && Perform(s, now, x).Done?
    ensures Follows(s, now, x, Perform(s, now, x))
  {
  }

  lemma SlashFollows(s: State, now: U64, x: Action)
    requires x.DoSlash? && Perform(s, now, x).Done?
    ensures Follows(s, now, x, Perform(s, now, x))
  {
    var i := s.intents[x.id];
    PenaltyIs(BondOf(s, i.solver.value, s.solvers[i.solver.value], i.bondToken), i.minDst - i.totalFilled);
  }

  lemma EscrowFollows(s: State, now: U64, x: Action)
    requires (x.DoBeginFill? || x.DoDispute? || x.DoExtend?) && Perform(s, now, x).Done?
    ensures Follows(s, now, x, Perform(s, now, x))
  {
  }

  lemma ReleaseFollows(s: State, now: U64, x: Action)
    requires x.DoRelease? && Perform(s, now, x).Done?
    ensures Follows(s, now, x, Perform(s, now, x))
  {
  }

  /** Either ruling pays the escrow out; only a dismissal counts it as volume. */
  lemma RulingRewrites(s: State, now: U64, id: IntentId, a: Address, ruling: Ruling)
    requires id in s.intents && a in s.solvers
    requires (if ruling == Upheld then Uphold(s, now, id, a) else Dismiss(s, now, id, a)).Done?
    ensures Rewrote(s, if ruling == Upheld then Uphold(s, now, id, a) else Dismiss(s, now, id, a), id,
                    Emptied(s.intents[id], now).(phase := Resolved, ruling := Some(ruling)), OtherEvent(id),
                    if ruling == Upheld then 0 else s.intents[id].fillAmount.GetOr(0))
  {
  }

  lemma ResolveFollows(s: State, now: U64, x: Action)
    requires x.DoResolve? && Perform(s, now, x).Done?
    ensures Follows(s, now, x, Perform(s, now, x))
  {
    RulingRewrites(s, now, x.id, s.intents[x.id].solver.value, x.ruling);
  }

  /** A call on an existing intent goes through only along an arrow. */
  lemma CallFollows(s: State, now: U64, x: Action)
    requires Lifecycle(x) && Perform(s, now, x).Done?
    ensures Follows(s, now, x, Perform(s, now, x))
  {
    if x.DoAccept? {
      AcceptFollows(s, now, x);
    } else if x.DoFill? {
      FillFollows(s, now, x);
    } else if x.DoCancel? {
      CancelFollows(s, now, x);
    } else if x.DoAmend? {
      AmendFollows(s, now, x);
    } else if x.DoExpire? {
      ExpireFollows(s, now, x);
    } else if x.DoSlash? {
      SlashFollows(s, now, x);
    } else if x.DoBeginFill? || x.DoDispute? || x.DoExtend? {
      EscrowFollows(s, now, x);
    } else if x.DoRelease? {
      ReleaseFollows(s, now, x);
    } else {
      ResolveFollows(s, now, x);
    }
  }

  lemma AcceptanceNoted(s: State, c: Call)
    requires c.action.DoAccept? && Perform(s, c.now, c.action).Done?
    ensures After(s, c).acceptances == s.acceptances[c.action.id := Acceptance(c.now, s.rules.config.fillWindow)]
    ensures After(s, c).extensions == s.extensions
  {
  }

  lemma ExtensionNoted(s: State, c: Call)
    requires c.action.DoExtend? && Perform(s, c.now, c.action).Done?
    ensures After(s, c).extensions.Keys == s.extensions.Keys + {c.action.id} && c.action.id !in s.extensions
    ensures After(s, c).acceptances == s.acceptances
  {
  }

  // ----- Nothing else stands in the way -----

  /** Refusals for want of funds or of room in a number. */
  predicate Material(e: Error) { e == Overflow || e == FeeOverflow || e == WalletShort || e == ContractShort }

  predicate Passes(o: Outcome) { o.Done? || Material(o.error) }

  lemma AcceptPasses(s: State, now: U64, x: Action)
    requires x.DoAccept? && x.id in s.intents && May(s, now, x, s.intents[x.id])
    ensures Passes(Perform(s, now, x))
  {
    StretchIs(Min(x.tier, 4), s.rules.config.fillWindow);
  }

  lemma SolverPasses(s: State, now: U64, x: Action)
    requires (x.DoFill? || x.DoBeginFill? || x.DoExtend?) && x.id in s.intents && May(s, now, x, s.intents[x.id])
    requires s.intents[x.id].solver.Some? ==> s.intents[x.id].solver.value in s.solvers
    ensures Passes(Perform(s, now, x))
  {
  }

  lemma UserPasses(s: State, now: U64, x: Action)
    requires (x.DoCancel? || x.DoAmend? || x.DoExpire? || x.DoDispute?) && x.id in s.intents && May(s, now, x, s.intents[x.id])
    ensures Passes(Perform(s, now, x))
  {
  }

  lemma ExitPasses(s: State, now: U64, x: Action)
    requires (x.DoSlash? || x.DoRelease?) && x.id in s.intents && May(s, now, x, s.intents[x.id])
    requires s.intents[x.id].solver.Some? && s.intents[x.id].solver.value in s.solvers
    ensures Passes(Perform(s, now, x))
  {
  }

  lemma RulingPasses(s: State, now: U64, id: IntentId, a: Address, ruling: Ruling)
    requires id in s.intents && a in s.solvers
    ensures Passes(if ruling == Upheld then Uphold(s, now, id, a) else Dismiss(s, now, id, a))
  {
  }

  /** Whatever an arrow allows goes through, unless a balance or the room in a number fails. */
  lemma NothingElseRefuses(s: State, now: U64, x: Action)
    requires Lifecycle(x) && x.id in s.intents && May(s, now, x, s.intents[x.id])
    requires s.intents[x.id].Obliged() ==> s.intents[x.id].solver.Some? && s.intents[x.id].solver.value in s.solvers
    ensures Passes(Perform(s, now, x))
  {
    if x.DoAccept? {
      AcceptPasses(s, now, x);
    } else if x.DoFill? || x.DoBeginFill? || x.DoExtend? {
      SolverPasses(s, now, x);
    } else if x.DoSlash? || x.DoRelease? {
      ExitPasses(s, now, x);
    } else if x.DoResolve? {
      RulingPasses(s, now, x.id, s.intents[x.id].solver.value, x.ruling);
    } else {
      UserPasses(s, now, x);
    }
  }

  // ----- Coming and going -----

  function Expiry(s: State, now: nat, x: Action): nat
    requires x.DoSubmit?
  {
    match x.expiry
    case Some(d) => d
    case None => now + s.rules.config.intentExpiry
  }

  /** Anyone may submit, outside a pause, within the limits of amounts, for a deadline ahead. */
  predicate MaySubmit(s: State, now: nat, x: Action)
    requires x.DoSubmit?
  {
    && !s.rules.paused && x.external
    && 0 < x.srcAmount <= 1_000_000_000_000_000_000_000_000_000_000
    && 0 < x.minDst <= 1_000_000_000_000_000_000_000_000_000_000
    && Expiry(s, now, x) > now && x.referrer != Some(x.user)
    && x.id !in s.intents && x.id !in s.tombstones
  }

  function Submitted(s: State, now: nat, x: Action): Intent
    requires x.DoSubmit?
  {
    Intent(x.user, x.dst, x.minDst, None, Open, now, Expiry(s, now, x), None, None, 0,
           s.params.bondToken, None, None, None, 0, None)
  }

  lemma SubmitFollows(s: State, now: U64, x: Action)
    requires x.DoSubmit? && Perform(s, now, x).Done?
    ensures var o, i := Perform(s, now, x), Submitted(s, now, x);
            && MaySubmit(s, now, x)
            && o.state.intents == s.intents[x.id := i] && o.state.tombstones == s.tombstones
            && HistoryOf(o.state, x.user) == HistoryOf(s, x.user) + [Some(x.id)]
            && NonceOf(o.state, x.user) == NonceOf(s, x.user) + 1
            && o.state.totalIntents == s.totalIntents + 1 && o.state.totalVolume == s.totalVolume
            && o.events == [IntentSubmitted(x.user, x.id, x.minDst, i.deadline)]
  {
  }

  lemma SubmitPasses(s: State, now: U64, x: Action)
    requires x.DoSubmit? && MaySubmit(s, now, x)
    ensures Passes(Perform(s, now, x))
  {
  }

  /** An ended intent may be pruned by anyone once its retention has passed. */
  predicate MayClose(s: State, now: nat, i: Intent) {
    && i.phase in {Filled, Cancelled, Expired, Resolved, Slashed}
    && now >= SatAdd(i.terminalAt.GetOr(i.createdAt), s.rules.retention)
  }

  lemma CloseFollows(s: State, now: U64, id: IntentId)
    ensures Close(s, now, id).Done? <==> id in s.intents && MayClose(s, now, s.intents[id])
    ensures var o := Close(s, now, id);
            o.Done? ==>
              && o.state.intents == s.intents - {id} && o.state.tombstones == s.tombstones + {id}
              && o.state.extensions == s.extensions - {id}
              && o.state.totalIntents == s.totalIntents && o.state.totalVolume == s.totalVolume
              && o.events == [OtherEvent(id)]
  {
  }

  // ----- Joining and leaving -----

  /** Outside a pause anyone may stake an allowed token up to its minimum, in eight tokens at
      most, and a solver without obligations may take out what exceeds the minimum, or leave. */
  predicate MayStake(s: State, x: Action) {
    !s.rules.paused &&
    match x
    case DoRegister(a, t, amount, _) =>
      && amount > 0 && (t == s.params.bondToken || t in s.rules.allowedBonds)
      && Bonded(s, a, t) + amount >= MinBondFor(s, t)
      && (Bonded(s, a, t) == 0 && a in s.solvers ==> |s.solvers[a].bondTokens| < 8)
    case DoWithdraw(a, t, amount) =>
      && amount > 0 && a in s.solvers && s.solvers[a].activeIntents == 0
      && Bonded(s, a, t) - amount >= Max(MinBondFor(s, t), 0)
    case DoDeregister(a) => a in s.solvers && s.solvers[a].activeIntents == 0
    case _ => false
  }

  lemma StakeFollows(s: State, now: U64, x: Action)
    requires Ledger(s) && (x.DoRegister? || x.DoWithdraw? || x.DoDeregister?) && Perform(s, now, x).Done?
    ensures MayStake(s, x)
  {
    if x.DoRegister? { EnlistedBond(s, x.a, x.t); }
  }

  lemma StakePasses(s: State, now: U64, x: Action)
    requires Ledger(s) && (x.DoRegister? || x.DoWithdraw? || x.DoDeregister?) && MayStake(s, x)
    ensures Passes(Perform(s, now, x))
  {
    if x.DoRegister? { EnlistedBond(s, x.a, x.t); }
  }

  // ----- Every call -----

  /** What one call did to intent `id`. */
  ghost predicate Lawful(s: State, c: Call, id: IntentId) {
    var x, s' := c.action, After(s, c);
    if id in s.intents && id in s'.intents then
      s'.intents[id] != s.intents[id] ==>
        Lifecycle(x) && x.id == id && May(s, c.now, x, s.intents[id]) && s'.intents[id] == Next(s, c.now, x, s.intents[id])
    else if id in s.intents then
      x == DoClose(id) && MayClose(s, c.now, s.intents[id]) && id in s'.tombstones
    else if id in s'.intents then
      x.DoSubmit? && x.id == id && MaySubmit(s, c.now, x) && s'.intents[id] == Submitted(s, c.now, x)
    else true
  }

  lemma QuietLawful(s: State, c: Call, id: IntentId)
    requires !Lifecycle(c.action) && !c.action.DoSubmit? && !c.action.DoClose? && !c.action.DoSettleBids?
    ensures After(s, c).intents == s.intents
  {
    if Perform(s, c.now, c.action).Done? { var more := QuietStep(s, c); }
  }

  lemma LifecycleLawful(s: State, c: Call, id: IntentId)
    requires Lifecycle(c.action)
    ensures Lawful(s, c, id)
  {
    if Perform(s, c.now, c.action).Done? { CallFollows(s, c.now, c.action); }
  }

  /** In every reachable state: whatever the call, every intent stays as it is, moves along
      an arrow that allows the caller to, is new by a submission, or goes by a pruning. */
  lemma EveryMoveLawful(s: State, c: Call, id: IntentId)
    requires Tracked(s)
    ensures Lawful(s, c, id)
  {
    var x := c.action;
    if Lifecycle(x) {
      LifecycleLawful(s, c, id);
    } else if x.DoSubmit? {
      if Perform(s, c.now, x).Done? { SubmitFollows(s, c.now, x); }
    } else if x.DoClose? {
      CloseFollows(s, c.now, x.id);
    } else if x.DoSettleBids? {
      NothingToSettle(s, c.now, x.id);
    } else {
      QuietLawful(s, c, id);
    }
  }
}
