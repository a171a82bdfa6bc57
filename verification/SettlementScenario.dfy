/**
  Single calls on a contract with its default configuration, worked out once, so
  that concrete runs can be followed step by step.
 */
module SettlementScenario {
  import opened Wrappers
  import opened SettlementMath
  import opened SettlementModel

  const USER: Address := 1
  const OUT: Token := 1
  const PARAMS := Params(0, 0, 1_000)
  const DEFAULTS := Config(MIN_BOND, 300, INTENT_EXPIRY, PROTOCOL_FEE_BPS, 10, 10)
  const ADMIN: Address := 9
  const NEUTRAL: Quantity := 10_000

  /** A solver just registered with the minimum bond. */
  const BONDED := Solver(MIN_BOND, [0], 0, 0, 0, true, 0, 0)

  predicate Plain(s: State) {
    && s.params == PARAMS && s.rules.config == DEFAULTS && !s.rules.paused
    && s.rules.multipliers == map[] && s.rules.feeRecipient == ADMIN
  }

  /** Counters far from their limits. */
  predicate Light(s: State) {
    && s.openIntents <= 1_000 && s.totalIntents <= 1_000 && NonceOf(s, USER) <= 1_000 && |HistoryOf(s, USER)| <= 1_000
  }

  function Posted(now: nat, min: int): Intent {
    Intent(USER, OUT, min, None, Open, now, now + INTENT_EXPIRY, None, None, 0, 0, None, None, None, 0, None)
  }

  lemma Enrols(s: State, a: Address) returns (bank: Bank)
    requires Plain(s) && a !in s.solvers && s.bank.Balance(0, a) >= MIN_BOND
    ensures After(s, Call(0, DoRegister(a, 0, MIN_BOND, MIN_BOND))) == s.(solvers := s.solvers[a := BONDED], bank := bank)
    ensures bank.Held(0) == s.bank.Held(0) + MIN_BOND
    ensures forall t, b :: t != 0 || b != a ==> bank.Balance(t, b) == s.bank.Balance(t, b)
  {
    assert TokensAfter([], 0, MIN_BOND) == [0];
    bank := s.bank.Pull(0, a, MIN_BOND, MIN_BOND, BondIn).value;
  }

  function Admitted(s: State, now: nat, min: int, id: IntentId): State {
    s.(intents := s.intents[id := Posted(now, min)],
       history := s.history[USER := HistoryOf(s, USER) + [Some(id)]],
       stamps := s.stamps.(nonces := s.stamps.nonces[USER := NonceOf(s, USER) + 1]),
       openIntents := s.openIntents + 1, totalIntents := s.totalIntents + 1,
       issued := s.issued[USER := IssuedTo(s, USER) + [id]])
  }

  lemma Submits(s: State, now: U64, min: I128, id: IntentId)
    requires Plain(s) && Light(s) && 0 < min <= MAX_AMOUNT && now <= 1_000_000 && id !in s.intents && id !in s.tombstones
    ensures After(s, Call(now, DoSubmit(USER, 1, OUT, min, None, None, true, id))) == Admitted(s, now, min, id)
  {
  }

  function Taken(i: Intent, a: Address, now: nat): Intent {
    i.(solver := Some(a), phase := Accepted, bondToken := 0, solverTier := 0, deadline := now + 300)
  }

  function Busier(rec: Solver): Solver { rec.(activeIntents := rec.activeIntents + 1) }

  /** What an acceptance of `id` by `a` leaves, at exposure `e`. */
  function Committed(s: State, now: nat, a: Address, id: IntentId, e: int): State
    requires id in s.intents && a in s.solvers
  {
    s.(intents := s.intents[id := Taken(s.intents[id], a, now)], solvers := s.solvers[a := Busier(s.solvers[a])],
       exposure := s.exposure[a := e], openIntents := SatSub(s.openIntents, 1),
       acceptances := s.acceptances[id := Acceptance(now, 300)])
  }

  predicate Ready(rec: Solver) { rec.active && rec.bond == MIN_BOND && rec.lastSlash == 0 && rec.activeIntents < 10 }

  lemma Assigns(s: State, now: U64, a: Address, id: IntentId, e: int)
    requires Plain(s) && a in s.solvers && id in s.intents && now <= 1_000_000 && s.solvers[a].bond == MIN_BOND
    requires e <= 2_000
    ensures Assign(s, now, a, id, 0, 0, e) == Done(Committed(s, now, a, id, e), [IntentAccepted(a, id, now + 300)])
  {
    assert TierFillWindow(0, 300) == 300;
    assert CheckedMul(MIN_BOND, 10) == Some(5_000_000_000);
  }

  lemma Accepts(s: State, now: U64, a: Address, id: IntentId) returns (e: int)
    requires Plain(s) && a in s.solvers && Ready(s.solvers[a]) && now <= 1_000_000
    requires id in s.intents && s.intents[id].phase in {Open, PartiallyFilled} && now < s.intents[id].deadline
    requires s.intents[id].minDst <= 1_000 && ExposureOf(s, a) <= 1_000
    ensures After(s, Call(now, DoAccept(a, id, 0, 0, NEUTRAL))) == Committed(s, now, a, id, e)
    ensures e <= Max(ExposureOf(s, a), -I128_MAX - 1) + Max(s.intents[id].minDst, 0)
  {
    NeutralNotional(s.intents[id].minDst);
    assert RequiredBond(s, 0, s.intents[id].dstToken) == MIN_BOND;
    e := SatI128(ExposureOf(s, a) + Notional(s.intents[id].minDst, NEUTRAL));
    Assigns(s, now, a, id, e);
  }

  /** At the neutral weight an amount counts as itself, or as a ten-thousandth when too large to weigh. */
  lemma NeutralNotional(amount: int)
    ensures Notional(amount, NEUTRAL) <= Max(amount, 0)
    ensures 0 <= amount <= 1_000_000 ==> Notional(amount, NEUTRAL) == amount
  {
  }

  /** A first unit of an intent that wants more: it reopens. */
  function Begun(i: Intent, now: nat): Intent {
    i.(totalFilled := 1, fillAmount := Some(1), phase := PartiallyFilled, solver := None, solverTier := 0,
       deadline := now + INTENT_EXPIRY)
  }

  function FilledOne(s: State, now: nat, a: Address, id: IntentId, bank: Bank): State
    requires id in s.intents && a in s.solvers
  {
    s.(intents := s.intents[id := Begun(s.intents[id], now)],
       solvers := s.solvers[a := s.solvers[a].(volume := 1, activeIntents := 0)],
       exposure := s.exposure[a := SatI128(ExposureOf(s, a) - 1)],
       openIntents := s.openIntents + 1, totalVolume := 1, bank := bank)
  }

  lemma FillsOne(s: State, now: U64, a: Address, id: IntentId) returns (bank: Bank)
    requires Plain(s) && Light(s) && a in s.solvers && now <= 1_000_000
    requires id in s.intents && s.intents[id].phase == Accepted && s.intents[id].solver == Some(a)
    requires now < s.intents[id].deadline && s.intents[id].totalFilled == 0 && s.intents[id].minDst == 2
    requires s.intents[id].dstToken == OUT && s.bank.Balance(OUT, a) >= 1
    requires s.solvers[a].volume == 0 && s.solvers[a].activeIntents == 1 && s.totalVolume == 0
    ensures After(s, Call(now, DoFill(a, id, 1, true, NEUTRAL))) == FilledOne(s, now, a, id, bank)
    ensures bank.held == s.bank.held
  {
    NeutralNotional(1);
    assert CheckedMul(1, PROTOCOL_FEE_BPS) == Some(5) && TruncDiv(5, BPS) == 0;
    bank := s.bank.Direct(OUT, a, s.intents[id].user, 1, Delivery(id)).value;
    assert PayFill(s.bank, s.intents[id], id, a, 1, 0, ADMIN) == Some(bank);
    assert IntentAfterFill(s.intents[id], now, 1) == Begun(s.intents[id], now);
  }

  function Escrowed(i: Intent, now: nat, amount: int): Intent {
    i.(phase := Filling, disputeDeadline := Some(now + DISPUTE_WINDOW), fillAmount := Some(amount))
  }

  lemma Escrows(s: State, now: U64, a: Address, id: IntentId, amount: I128) returns (bank: Bank)
    requires Plain(s) && now <= 1_000_000 && id in s.intents && amount > 0
    requires s.intents[id].phase == Accepted && s.intents[id].solver == Some(a) && now < s.intents[id].deadline
    requires s.intents[id].totalFilled == 0 && s.intents[id].minDst <= amount && s.intents[id].dstToken == OUT
    requires s.bank.Balance(OUT, a) >= amount
    ensures After(s, Call(now, DoBeginFill(a, id, amount, amount)))
              == s.(intents := s.intents[id := Escrowed(s.intents[id], now, amount)], bank := bank)
    ensures bank.Held(OUT) == s.bank.Held(OUT) + amount
    ensures forall t, b :: t != OUT || b != a ==> bank.Balance(t, b) == s.bank.Balance(t, b)
  {
    bank := s.bank.Pull(OUT, a, amount, amount, EscrowIn(id)).value;
  }

  lemma Contests(s: State, now: U64, id: IntentId)
    requires Plain(s) && id in s.intents && s.intents[id].phase == Filling && s.intents[id].user == USER
    requires now < s.intents[id].disputeDeadline.GetOr(0)
    ensures After(s, Call(now, DoDispute(USER, id)))
              == s.(intents := s.intents[id := s.intents[id].(phase := Disputed, disputeRaisedAt := Some(now))])
  {
  }

  /** The arbiter did not rule: everything escrowed goes to the user. */
  lemma TimesOut(s: State, now: U64, id: IntentId) returns (i: Intent, rec: Solver, bank: Bank)
    requires Plain(s) && id in s.intents && s.intents[id].phase == Disputed && s.intents[id].dstToken == OUT
    requires s.intents[id].solver.Some? && s.intents[id].solver.value in s.solvers && s.intents[id].user == USER
    requires s.intents[id].disputeRaisedAt.GetOr(0) + ARBITER_WINDOW <= now <= 1_000_000
    requires 0 <= s.intents[id].fillAmount.GetOr(0) <= s.bank.Held(OUT) && FitsI128(s.intents[id].fillAmount.GetOr(0))
    requires s.intents[id].totalFilled == 0 && s.totalVolume == 0
    ensures After(s, Call(now, DoRelease(id)))
              == Settled(s, id, i, s.intents[id].solver.value, rec, s.intents[id].fillAmount.GetOr(0), bank)
    ensures i.phase == Resolved && i.Terminal()
    ensures forall t, b :: t != OUT || b != USER ==> bank.Balance(t, b) == s.bank.Balance(t, b)
  {
    var a, was := s.intents[id].solver.value, s.intents[id];
    i := IntentAfterEscrow(was, now, Resolved, None);
    rec := s.solvers[a].(activeIntents := SatSub(s.solvers[a].activeIntents, 1));
    bank := s.bank.Send(OUT, USER, was.fillAmount.GetOr(0), Delivery(id)).value;
    assert PayEscrow(s.bank, was, id, was.fillAmount.GetOr(0), 0, ADMIN) == Some(bank);
  }

  /** Missed at its deadline: the intent reopens at the default expiry. */
  function Reopened(i: Intent, now: nat): Intent {
    i.(solver := None, solverTier := 0, phase := Open, deadline := now + INTENT_EXPIRY)
  }

  lemma Slashes(s: State, now: U64, id: IntentId) returns (rec: Solver, bonds: map<(Address, Token), int>, e: int, bank: Bank)
    requires Plain(s) && id in s.intents && s.intents[id].phase == Accepted && s.intents[id].deadline <= now <= 1_000_000
    requires s.intents[id].solver.Some? && s.intents[id].solver.value in s.solvers
    requires s.intents[id].bondToken == 0 && Ready(s.solvers[s.intents[id].solver.value])
    requires s.intents[id].totalFilled == 1 && s.intents[id].minDst == 2
    requires s.solvers[s.intents[id].solver.value].failed == 0 && s.bank.Held(0) >= 1 && s.openIntents <= 1_000
    ensures After(s, Call(now, DoSlash(id, NEUTRAL)))
              == s.(intents := s.intents[id := Reopened(s.intents[id], now)],
                    solvers := s.solvers[s.intents[id].solver.value := rec], bonds := bonds,
                    exposure := s.exposure[s.intents[id].solver.value := e],
                    openIntents := s.openIntents + 1, bank := bank)
  {
    var a, i := s.intents[id].solver.value, s.intents[id];
    var cut := SlashAmount(MIN_BOND, 1);
    assert cut == 1;
    bank := s.bank.Send(0, ADMIN, cut, Penalty).value;
    rec, bonds := RecordAfterSlash(s, s.solvers[a], 0, MIN_BOND - cut, now), BondsAfter(s, a, 0, MIN_BOND - cut);
    e := SatI128(ExposureOf(s, a) - Notional(1, NEUTRAL));
    SlashesBy(s, now, id, a, bank);
  }

  lemma SlashesBy(s: State, now: U64, id: IntentId, a: Address, bank: Bank)
    requires Plain(s) && id in s.intents && a in s.solvers && s.solvers[a].bond == MIN_BOND
    requires s.intents[id].bondToken == 0 && s.intents[id].totalFilled == 1 && s.intents[id].minDst == 2
    requires s.bank.Send(0, ADMIN, 1, Penalty) == Some(bank)
    ensures SlashAccepted(s, now, id, a, NEUTRAL)
              == Done(s.(intents := s.intents[id := Reopened(s.intents[id], now)],
                         solvers := s.solvers[a := RecordAfterSlash(s, s.solvers[a], 0, MIN_BOND - 1, now)],
                         bonds := BondsAfter(s, a, 0, MIN_BOND - 1),
                         exposure := s.exposure[a := SatI128(ExposureOf(s, a) - Notional(1, NEUTRAL))],
                         openIntents := s.openIntents + 1, bank := bank),
                      [SolverSlashed(a, id, 1)])
  {
    assert SlashAmount(MIN_BOND, 1) == 1;
  }

  lemma Amends(s: State, now: U64, id: IntentId, min: I128)
    requires Plain(s) && id in s.intents && s.intents[id].user == USER && s.intents[id].phase == Open && now <= 1_000_000
    requires USER !in s.stamps.amends
    ensures After(s, Call(now, DoAmend(USER, id, min, now + INTENT_EXPIRY)))
              == s.(intents := s.intents[id := s.intents[id].(minDst := min, deadline := now + INTENT_EXPIRY)],
                    stamps := s.stamps.(amends := s.stamps.amends[USER := now]))
  {
  }

  /** A run one call longer. */
  lemma RunNext(s: State, calls: seq<Call>, c: Call)
    ensures Run(s, calls + [c]) == After(Run(s, calls), c)
  {
    assert (calls + [c])[..|calls|] == calls;
  }
}
