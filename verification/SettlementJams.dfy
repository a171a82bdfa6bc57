/**
  Runs from a fresh deployment into each kind of obligation that its exit cannot
  end: amounts and volumes near the limits are within what the entrypoints accept.
 */
module SettlementJams {
  import opened Wrappers
  import opened SettlementMath
  import opened SettlementModel
  import opened SettlementTheorems
  import opened SettlementStuck
  import opened SettlementScenario

  /** Solvers 7 and 8 can bond, and own output tokens without limit. */
  function Deployed(): State {
    Fresh(PARAMS, ADMIN, ADMIN,
          map[(0, 7) := MIN_BOND, (0, 8) := MIN_BOND, (OUT, 7) := I128_MAX, (OUT, 8) := I128_MAX])
  }

  function Bonding(): seq<Call> {
    [Call(0, DoRegister(7, 0, MIN_BOND, MIN_BOND)), Call(0, DoRegister(8, 0, MIN_BOND, MIN_BOND))]
  }

  /** Both are bonded and nothing else has happened. */
  ghost predicate Start(s: State) {
    && Plain(s) && Light(s) && s.intents == map[] && s.tombstones == {} && s.extensions == map[] && s.exposure == map[]
    && s.solvers == map[7 := BONDED, 8 := BONDED] && s.totalVolume == 0 && s.openIntents == 0 && s.totalIntents == 0
    && NonceOf(s, USER) == 0 && USER !in s.stamps.amends && HistoryOf(s, USER) == []
    && s.bank.Balance(OUT, 7) == I128_MAX && s.bank.Balance(OUT, 8) == I128_MAX
    && s.bank.Held(0) >= 1 && s.bank.Held(OUT) == 0
  }

  lemma Bonded()
    ensures Start(Run(Deployed(), Bonding()))
  {
    var s, calls := Deployed(), Bonding();
    assert calls == [] + [calls[0]] + [calls[1]];
    RunNext(s, [], calls[0]);
    RunNext(s, [] + [calls[0]], calls[1]);
    var b7 := Enrols(s, 7);
    var b8 := Enrols(After(s, calls[0]), 8);
  }

  /** User 1 posts intent `id` with the given minimum and solver `a` accepts it. */
  function Engaging(now: U64, min: I128, id: IntentId, a: Address): seq<Call> {
    [Call(now, DoSubmit(USER, 1, OUT, min, None, None, true, id)), Call(now, DoAccept(a, id, 0, 0, NEUTRAL))]
  }

  lemma RunTwo(s: State, before: seq<Call>, c: Call, d: Call)
    ensures Run(s, before + [c, d]) == After(After(Run(s, before), c), d)
  {
    assert before + [c, d] == before + [c] + [d];
    RunNext(s, before, c);
    RunNext(s, before + [c], d);
  }

  lemma Engages(s: State, now: U64, min: I128, id: IntentId, a: Address) returns (e: int)
    requires Plain(s) && Light(s) && id !in s.intents && id !in s.tombstones && now <= 1_000_000
    requires a in s.solvers && Ready(s.solvers[a]) && 0 < min <= 1_000 && ExposureOf(s, a) <= 1_000
    ensures var calls := Engaging(now, min, id, a);
            After(After(s, calls[0]), calls[1]) == Committed(Admitted(s, now, min, id), now, a, id, e)
  {
    Submits(s, now, min, id);
    e := Accepts(Admitted(s, now, min, id), now, a, id);
  }

  // ----- An escrow whose fee overflows -----

  /** Solver 7 puts `amount` into escrow for an intent that asks for one unit. */
  function EscrowFill(amount: Quantity): seq<Call> {
    Bonding() + Engaging(0, 1, 0, 7) + [Call(0, DoBeginFill(7, 0, amount, amount))]
  }

  ghost predicate Pending(s: State, amount: Quantity) {
    && Plain(s) && Light(s) && s.intents.Keys == {0} && s.tombstones == {} && s.totalVolume == 0
    && s.solvers.Keys == {7, 8} && s.solvers[8] == BONDED && ExposureOf(s, 8) == 0
    && var i := s.intents[0];
    && i.user == USER && i.dstToken == OUT && i.solver == Some(7) && i.totalFilled == 0
    && i.phase == Filling && i.fillAmount == Some(amount) && i.disputeDeadline == Some(3_600)
    && s.bank.Held(OUT) == amount && s.bank.Balance(OUT, 8) == I128_MAX
  }

  function Engaged(s: State, e: int): State
    requires 7 in s.solvers
  {
    Committed(Admitted(s, 0, 1, 0), 0, 7, 0, e)
  }

  lemma PendingFrom(s: State, e: int, amount: Quantity, bank: Bank)
    requires Start(s) && bank.Held(OUT) == amount && bank.Balance(OUT, 8) == I128_MAX
    ensures var s1 := Engaged(s, e);
            Pending(s1.(intents := s1.intents[0 := Escrowed(s1.intents[0], 0, amount)], bank := bank), amount)
  {
  }

  lemma EscrowPending(amount: Quantity)
    requires amount > 0
    ensures Pending(Run(Deployed(), EscrowFill(amount)), amount)
  {
    Bonded();
    var s := Run(Deployed(), Bonding());
    var two, last := Engaging(0, 1, 0, 7), Call(0, DoBeginFill(7, 0, amount, amount));
    RunTwo(Deployed(), Bonding(), two[0], two[1]);
    RunNext(Deployed(), Bonding() + two, last);
    var e := Engages(s, 0, 1, 0, 7);
    var bank := Escrows(Engaged(s, e), 0, 7, 0, amount);
    PendingFrom(s, e, amount, bank);
  }

  /** begin_fill takes an escrow of everything 128 bits can hold. */
  lemma OversizedFillReached()
    ensures var s := Run(Deployed(), EscrowFill(I128_MAX));
            0 in s.intents && s.intents[0].phase == Filling && !Unassigned(s, 0) && Jammed(s, 0)
  {
    EscrowPending(I128_MAX);
  }

  // ----- A volume at its limit -----

  /** The user disputes, the arbiter does not rule, and after a day the escrow is released. */
  function Exhausting(): seq<Call> {
    EscrowFill(I128_MAX) + [Call(0, DoDispute(USER, 0)), Call(86_400, DoRelease(0))]
  }

  ghost predicate Lapsed(s: State, amount: Quantity) {
    && Plain(s) && Light(s) && s.intents.Keys == {0} && s.tombstones == {} && s.totalVolume == amount
    && s.intents[0].phase == Resolved
    && s.solvers.Keys == {7, 8} && s.solvers[8] == BONDED && ExposureOf(s, 8) == 0
    && s.bank.Balance(OUT, 8) == I128_MAX
  }

  lemma LapsedFrom(s: State, amount: Quantity, i: Intent, rec: Solver, bank: Bank)
    requires Pending(s, amount) && bank.Balance(OUT, 8) == I128_MAX && i.phase == Resolved
    ensures Lapsed(Settled(s, 0, i, 7, rec, amount, bank), amount)
  {
  }

  function Contested(s: State): State
    requires 0 in s.intents
  {
    s.(intents := s.intents[0 := s.intents[0].(phase := Disputed, disputeRaisedAt := Some(0))])
  }

  lemma TimesOutFrom(s: State, amount: Quantity)
    requires Pending(s, amount) && amount > 0
    ensures After(s, Call(0, DoDispute(USER, 0))) == Contested(s)
    ensures Lapsed(After(Contested(s), Call(86_400, DoRelease(0))), amount)
  {
    Contests(s, 0, 0);
    var i, rec, bank := TimesOut(Contested(s), 86_400, 0);
    assert Settled(Contested(s), 0, i, 7, rec, amount, bank) == Settled(s, 0, i, 7, rec, amount, bank);
    LapsedFrom(s, amount, i, rec, bank);
  }

  lemma Exhausts()
    ensures Lapsed(Run(Deployed(), Exhausting()), I128_MAX)
  {
    EscrowPending(I128_MAX);
    RunTwo(Deployed(), EscrowFill(I128_MAX), Call(0, DoDispute(USER, 0)), Call(86_400, DoRelease(0)));
    TimesOutFrom(Run(Deployed(), EscrowFill(I128_MAX)), I128_MAX);
  }

  /** A second intent is escrowed for a single unit. */
  function OneMore(): seq<Call> {
    Exhausting() + Engaging(86_400, 1, 1, 8) + [Call(86_400, DoBeginFill(8, 1, 1, 1))]
  }

  /** Whose volume the contract can no longer add. */
  ghost predicate Overfull(s: State) {
    && Plain(s) && s.totalVolume == I128_MAX && 8 in s.solvers && s.solvers[8].completed == 0
    && 1 in s.intents && s.intents[1].solver == Some(8) && s.intents[1].user == USER && s.intents[1].fillAmount == Some(1)
    && s.intents[1].phase == Filling && s.intents[1].disputeDeadline == Some(90_000)
  }

  lemma OverfullFrom(s: State, e: int, bank: Bank)
    requires Lapsed(s, I128_MAX)
    ensures var s1 := Committed(Admitted(s, 86_400, 1, 1), 86_400, 8, 1, e);
            Overfull(s1.(intents := s1.intents[1 := Escrowed(s1.intents[1], 86_400, 1)], bank := bank))
  {
  }

  lemma OverfullEscrow()
    ensures Overfull(Run(Deployed(), OneMore()))
  {
    Exhausts();
    var s := Run(Deployed(), Exhausting());
    var two, last := Engaging(86_400, 1, 1, 8), Call(86_400, DoBeginFill(8, 1, 1, 1));
    RunTwo(Deployed(), Exhausting(), two[0], two[1]);
    RunNext(Deployed(), Exhausting() + two, last);
    var e := Engages(s, 86_400, 1, 1, 8);
    var bank := Escrows(Committed(Admitted(s, 86_400, 1, 1), 86_400, 8, 1, e), 86_400, 8, 1, 1);
    OverfullFrom(s, e, bank);
  }

  /** With one unit in escrow and a fee that fits, the volume alone jams it. */
  lemma FullVolumeReached()
    ensures var s := Run(Deployed(), OneMore());
            && 1 in s.intents && s.intents[1].phase == Filling && !Unassigned(s, 1) && Jammed(s, 1)
            && s.intents[1].Escrow() == 1
  {
    OverfullEscrow();
  }

  /** The same once the user has disputed. */
  lemma FullVolumeDisputed()
    ensures var s := Run(Deployed(), OneMore() + [Call(86_400, DoDispute(USER, 1))]);
            && 1 in s.intents && s.intents[1].phase == Disputed && !Unassigned(s, 1) && Jammed(s, 1)
            && s.intents[1].Escrow() == 1
  {
    OverfullEscrow();
    RunNext(Deployed(), OneMore(), Call(86_400, DoDispute(USER, 1)));
    Contests(Run(Deployed(), OneMore()), 86_400, 1);
  }

  // ----- A minimum amended out of range -----

  /** Solver 7 fills one unit of two, solver 8 accepts the rest and misses it. */
  function Missing(): seq<Call> {
    Bonding() + Engaging(0, 2, 0, 7) + [Call(0, DoFill(7, 0, 1, true, NEUTRAL)), Call(0, DoAccept(8, 0, 0, 0, NEUTRAL))]
      + [Call(300, DoSlash(0, NEUTRAL))]
  }

  /** The owner then lowers the minimum as far as 128 bits go, and solver 7 accepts. */
  function LowestMinimum(): seq<Call> {
    Missing() + [Call(300, DoAmend(USER, 0, -I128_MAX - 1, 2_100)), Call(300, DoAccept(7, 0, 0, 0, NEUTRAL))]
  }

  ghost predicate Halfway(s: State) {
    && Plain(s) && Light(s) && s.intents.Keys == {0} && s.solvers.Keys == {7, 8}
    && s.solvers[7] == BONDED.(volume := 1) && s.solvers[8] == BONDED && ExposureOf(s, 7) <= 2 && ExposureOf(s, 8) <= 2
    && s.openIntents <= 900 && s.bank.Held(0) >= 1 && USER !in s.stamps.amends
    && var i := s.intents[0];
    && i.user == USER && i.dstToken == OUT && i.minDst == 2 && i.totalFilled == 1
    && i.phase == PartiallyFilled && i.deadline == INTENT_EXPIRY
  }

  lemma HalfwayFrom(s: State, e: int, bank: Bank)
    requires Start(s) && e <= 2 && bank.Held(0) >= 1
    ensures Halfway(FilledOne(Committed(Admitted(s, 0, 2, 0), 0, 7, 0, e), 0, 7, 0, bank))
  {
  }

  lemma HalfFills(s: State)
    requires Start(s)
    ensures var calls := Engaging(0, 2, 0, 7);
            Halfway(After(After(After(s, calls[0]), calls[1]), Call(0, DoFill(7, 0, 1, true, NEUTRAL))))
  {
    var e := Engages(s, 0, 2, 0, 7);
    var bank := FillsOne(Committed(Admitted(s, 0, 2, 0), 0, 7, 0, e), 0, 7, 0);
    HalfwayFrom(s, e, bank);
  }

  /** Open again with one unit delivered, solver 7 free to accept. */
  ghost predicate Missed(s: State) {
    && Plain(s) && 0 in s.intents && 7 in s.solvers && s.solvers[7] == BONDED.(volume := 1) && ExposureOf(s, 7) <= 2
    && USER !in s.stamps.amends
    && var i := s.intents[0];
    && i.user == USER && i.totalFilled == 1 && i.phase == Open && i.deadline == 2_100
  }

  lemma MissesRest(s: State)
    requires Halfway(s)
    ensures Missed(After(After(s, Call(0, DoAccept(8, 0, 0, 0, NEUTRAL))), Call(300, DoSlash(0, NEUTRAL))))
  {
    var e := Accepts(s, 0, 8, 0);
    var rec, bonds, left, bank := Slashes(Committed(s, 0, 8, 0, e), 300, 0);
  }

  lemma Lowers(s: State)
    requires Missed(s)
    ensures var s' := After(After(s, Call(300, DoAmend(USER, 0, -I128_MAX - 1, 2_100))), Call(300, DoAccept(7, 0, 0, 0, NEUTRAL)));
            && 0 in s'.intents && s'.intents[0].phase == Accepted && s'.intents[0].solver == Some(7) && 7 in s'.solvers
            && s'.intents[0].minDst == -I128_MAX - 1 && s'.intents[0].totalFilled == 1
  {
    Amends(s, 300, 0, -I128_MAX - 1);
    var s1 := s.(intents := s.intents[0 := s.intents[0].(minDst := -I128_MAX - 1, deadline := 2_100)],
                 stamps := s.stamps.(amends := s.stamps.amends[USER := 300]));
    var e := Accepts(s1, 300, 7, 0);
  }

  /** What is still missing does not fit 128 bits, so no slash ever ends the obligation. */
  lemma LowestMinimumReached()
    ensures var s := Run(Deployed(), LowestMinimum());
            0 in s.intents && s.intents[0].phase == Accepted && !Unassigned(s, 0) && Jammed(s, 0)
  {
    Bonded();
    var s, two := Run(Deployed(), Bonding()), Engaging(0, 2, 0, 7);
    RunTwo(Deployed(), Bonding(), two[0], two[1]);
    RunTwo(Deployed(), Bonding() + two, Call(0, DoFill(7, 0, 1, true, NEUTRAL)), Call(0, DoAccept(8, 0, 0, 0, NEUTRAL)));
    RunNext(Deployed(), Missing()[..6], Call(300, DoSlash(0, NEUTRAL)));
    RunTwo(Deployed(), Missing(), Call(300, DoAmend(USER, 0, -I128_MAX - 1, 2_100)), Call(300, DoAccept(7, 0, 0, 0, NEUTRAL)));
    HalfFills(s);
    MissesRest(After(After(After(s, two[0]), two[1]), Call(0, DoFill(7, 0, 1, true, NEUTRAL))));
    Lowers(Run(Deployed(), Missing()));
  }

  // ----- An expiry without end -----

  const ENDLESS := Config(MIN_BOND, 300, U64_MAX, PROTOCOL_FEE_BPS, 10, 10)

  function EndlessExpiry(): seq<Call> {
    Bonding() + Engaging(0, 1, 0, 7) + [Call(0, DoAdminister(SetConfig(ENDLESS)))]
  }

  lemma EndlessFrom(s: State, e: int)
    requires Start(s)
    ensures var s' := After(Engaged(s, e), Call(0, DoAdminister(SetConfig(ENDLESS))));
            && 0 in s'.intents && s'.intents[0].phase == Accepted && !Unassigned(s', 0) && !Jammed(s', 0)
            && s'.rules.config.intentExpiry == U64_MAX
  {
  }

  /** set_config takes an expiry with which no slash after time 0 goes through; it is
      not for good (ShorterExpiryHelps). */
  lemma EndlessExpiryReached()
    ensures var s := Run(Deployed(), EndlessExpiry());
            && 0 in s.intents && s.intents[0].phase == Accepted && !Unassigned(s, 0) && !Jammed(s, 0)
            && forall now: nat | now > 0 :: !CanEnd(s, 0, now)
  {
    Bonded();
    var s, two, last := Run(Deployed(), Bonding()), Engaging(0, 1, 0, 7), Call(0, DoAdminister(SetConfig(ENDLESS)));
    RunTwo(Deployed(), Bonding(), two[0], two[1]);
    RunNext(Deployed(), Bonding() + two, last);
    var e := Engages(s, 0, 1, 0, 7);
    EndlessFrom(s, e);
  }
}
