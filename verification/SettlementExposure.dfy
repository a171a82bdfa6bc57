/**
  The cap on a solver's exposure: what every call adds to and takes from it, that what a
  solver owes in every run is within what the contract counts, and what is never given back.
 */
module SettlementExposure {
  import opened Wrappers
  import opened SettlementMath
  import opened SettlementModel
  import opened SettlementFrames
  import opened SettlementRecords
  import opened SettlementWidths
  import opened SettlementTheorems
  import opened SettlementAccounts
  import opened SettlementTransitions
  import opened Sums

  // ----- One call -----

  /** `amount` at `weight` ten-thousandths; a product out of 128 bits leaves the weight out. */
  function Weighed(amount: int, weight: int): int {
    TruncDiv(if FitsI128(amount * weight) then amount * weight else amount, 10_000)
  }

  /** What a call that goes through adds to the exposure of `a`: an acceptance the whole
      minimum; a fill takes that back, or the amount if it reopens, and a slash the
      unfilled part. The escrow path takes nothing back. */
  function Exposed(s: State, x: Action, a: Address): int {
    match x
    case DoAccept(b, id, _, _, weight) => if b == a && id in s.intents then Weighed(s.intents[id].minDst, weight) else 0
    case DoFill(b, id, amount, _, weight) =>
      if b != a || id !in s.intents then 0 else
      var i := s.intents[id];
      -Weighed(if i.totalFilled + amount >= i.minDst then i.minDst else amount, weight)
    case DoSlash(id, weight) =>
      if id !in s.intents || s.intents[id].solver != Some(a) then 0 else
      -Weighed(SatI128(s.intents[id].minDst - s.intents[id].totalFilled), weight)
    case _ => 0
  }

  /** The new exposure, saturated at 128 bits. */
  ghost predicate ExposureMoves(s: State, x: Action, o: Outcome, a: Address) {
    o.Done? ==> ExposureOf(o.state, a) == SatI128(ExposureOf(s, a) + Exposed(s, x, a))
  }

  predicate Sized(s: State, a: Address) { FitsI128(ExposureOf(s, a)) }

  lemma AcceptExposes(s: State, now: U64, x: Action, a: Address)
    requires x.DoAccept? && Sized(s, a)
    ensures ExposureMoves(s, x, Perform(s, now, x), a)
  {
  }

  lemma FillExposes(s: State, now: U64, x: Action, a: Address)
    requires x.DoFill? && Sized(s, a)
    ensures ExposureMoves(s, x, Perform(s, now, x), a)
  {
  }

  lemma SlashExposes(s: State, now: U64, x: Action, a: Address)
    requires x.DoSlash? && Sized(s, a)
    ensures ExposureMoves(s, x, Perform(s, now, x), a)
  {
  }

  lemma BondsExpose(s: State, now: U64, x: Action)
    requires x.DoRegister? || x.DoWithdraw? || x.DoDeregister?
    ensures Unexposed(s, Perform(s, now, x))
  {
  }

  predicate Unexposed(s: State, o: Outcome) { o.Done? ==> o.state.exposure == s.exposure }

  lemma EscrowExposes(s: State, now: U64, x: Action)
    requires x.DoBeginFill? || x.DoDispute? || x.DoRelease? || x.DoExtend?
    ensures Unexposed(s, Perform(s, now, x))
  {
  }

  lemma RulingExposes(s: State, now: U64, id: IntentId, a: Address, ruling: Ruling)
    requires id in s.intents && a in s.solvers
    ensures Unexposed(s, if ruling == Upheld then Uphold(s, now, id, a) else Dismiss(s, now, id, a))
  {
  }

  lemma ResolveExposes(s: State, now: U64, x: Action)
    requires x.DoResolve?
    ensures Unexposed(s, Perform(s, now, x))
  {
    if Perform(s, now, x).Done? { RulingExposes(s, now, x.id, s.intents[x.id].solver.value, x.ruling); }
  }

  lemma UserExposes(s: State, now: U64, x: Action)
    requires x.DoCancel? || x.DoAmend? || x.DoExpire? || x.DoBid? || x.DoClose?
    ensures Unexposed(s, Perform(s, now, x))
  {
  }

  lemma SubmitExposes(s: State, now: U64, x: Action)
    requires x.DoSubmit?
    ensures Unexposed(s, Perform(s, now, x))
  {
    if Perform(s, now, x).Done? { var expiry := Admits(s, now, x); }
  }

  lemma BidsExpose(s: State, now: U64, x: Action)
    requires x.DoSettleBids?
    ensures Unexposed(s, Perform(s, now, x))
  {
    if Perform(s, now, x).Done? { BidsSettled(s, now, x.id); }
  }

  lemma OutsideExposes(s: State, now: U64, x: Action)
    requires x.DoAdminister? || x.Mint?
    ensures Unexposed(s, Perform(s, now, x))
  {
    if x.DoAdminister? && Perform(s, now, x).Done? { ChangeExposes(s, x.change); }
  }

  lemma ChangeExposes(s: State, change: Change)
    ensures Unexposed(s, Administer(s, change))
  {
  }

  /** Every call, for every solver. */
  lemma EveryExposure(s: State, now: U64, x: Action, a: Address)
    requires Sized(s, a)
    ensures ExposureMoves(s, x, Perform(s, now, x), a)
  {
    if x.DoAccept? {
      AcceptExposes(s, now, x, a);
    } else if x.DoFill? {
      FillExposes(s, now, x, a);
    } else if x.DoSlash? {
      SlashExposes(s, now, x, a);
    } else if x.DoRegister? || x.DoWithdraw? || x.DoDeregister? {
      BondsExpose(s, now, x);
    } else if x.DoBeginFill? || x.DoDispute? || x.DoRelease? || x.DoExtend? {
      EscrowExposes(s, now, x);
    } else if x.DoResolve? {
      ResolveExposes(s, now, x);
    } else if x.DoCancel? || x.DoAmend? || x.DoExpire? || x.DoBid? || x.DoClose? {
      UserExposes(s, now, x);
    } else if x.DoSubmit? {
      SubmitExposes(s, now, x);
    } else if x.DoSettleBids? {
      BidsExpose(s, now, x);
    } else {
      OutsideExposes(s, now, x);
    }
  }

  // ----- What is owed is counted -----

  /** What an obligation of `a` weighs, at `w` by destination and bond token. */
  ghost function Owed(a: Address, w: (Token, Token) -> nat): (IntentId, Intent) -> int {
    (id: IntentId, i: Intent) =>
      if i.Obliged() && i.solver == Some(a) then Weighed(i.minDst, w(i.dstToken, i.bondToken)) else 0
  }

  /** The call weighs at the same rates as every other; an acceptance is of a minimum that
      is not negative and leaves its numbers within 128 bits. */
  predicate Steady(s: State, x: Action, w: (Token, Token) -> nat) {
    match x
    case DoAccept(a, id, t, _, weight) =>
      id in s.intents ==>
        && weight == w(s.intents[id].dstToken, t) && s.intents[id].minDst >= 0
        && FitsI128(s.intents[id].minDst * weight)
        && FitsI128(ExposureOf(s, a) + Weighed(s.intents[id].minDst, weight))
    case DoFill(_, id, _, _, weight) => id in s.intents ==> weight == w(s.intents[id].dstToken, s.intents[id].bondToken)
    case DoSlash(id, weight) => id in s.intents ==> weight == w(s.intents[id].dstToken, s.intents[id].bondToken)
    case _ => true
  }

  predicate SteadyRun(s: State, calls: seq<Call>, w: (Token, Token) -> nat) {
    calls == [] ||
    (SteadyRun(s, calls[..|calls| - 1], w) && Steady(Run(s, calls[..|calls| - 1]), calls[|calls| - 1].action, w))
  }

  /** What an obligation was taken on with. */
  predicate Weighable(i: Intent, w: (Token, Token) -> nat) {
    i.minDst >= 0 && FitsI128(i.minDst * w(i.dstToken, i.bondToken))
  }

  ghost predicate Counted(s: State, a: Address, w: (Token, Token) -> nat) {
    && Sized(s, a) && Total(s.intents, Owed(a, w)) <= ExposureOf(s, a)
    && forall id <- s.intents :: s.intents[id].Obliged() ==> Weighable(s.intents[id], w)
  }

  lemma WeighedOrdered(m: int, n: int, weight: nat)
    requires m <= n && 0 <= n && FitsI128(n * weight) && FitsI128(m)
    ensures Weighed(m, weight) <= Weighed(n, weight) && 0 <= Weighed(n, weight)
  {
    assert m * weight <= n * weight;
    assert n * weight >= 0;
    if m >= 0 { assert m * weight >= 0; } else { assert m * weight <= 0; }
  }

  /** How far what `a` owes on one intent may fall behind its exposure: not at all. */
  lemma ArrowCounted(s: State, now: nat, x: Action, a: Address, w: (Token, Token) -> nat)
    requires Lifecycle(x) && x.id in s.intents && May(s, now, x, s.intents[x.id]) && Steady(s, x, w)
    requires s.intents[x.id].totalFilled >= 0 && FitsI128(s.intents[x.id].minDst)
    requires s.intents[x.id].Obliged() ==> Weighable(s.intents[x.id], w)
    ensures var i, i' := s.intents[x.id], Next(s, now, x, s.intents[x.id]);
            && Owed(a, w)(x.id, i') - Owed(a, w)(x.id, i) <= Exposed(s, x, a)
            && (Owed(a, w)(x.id, i') > Owed(a, w)(x.id, i) ==> FitsI128(ExposureOf(s, a) + Exposed(s, x, a)))
            && (i'.Obliged() ==> Weighable(i', w))
  {
    var i := s.intents[x.id];
    var weight := w(i.dstToken, i.bondToken);
    if i.Obliged() {
      WeighedOrdered(0, i.minDst, weight);
      if x.DoFill? && i.totalFilled + x.amount < i.minDst { WeighedOrdered(x.amount, i.minDst, weight); }
      if x.DoSlash? { WeighedOrdered(SatI128(i.minDst - i.totalFilled), i.minDst, weight); }
    }
  }

  lemma RewrittenCounted(s: State, s': State, id: IntentId, i: Intent, more: int, a: Address, w: (Token, Token) -> nat)
    requires Counted(s, a, w) && id in s.intents && s'.intents == s.intents[id := i]
    requires var gain := Owed(a, w)(id, i) - Owed(a, w)(id, s.intents[id]);
             gain <= more && (gain > 0 ==> FitsI128(ExposureOf(s, a) + more))
    requires i.Obliged() ==> Weighable(i, w)
    requires ExposureOf(s', a) == SatI128(ExposureOf(s, a) + more)
    ensures Counted(s', a, w)
  {
    TotalUpdate(s.intents, id, i, Owed(a, w));
  }

  lemma FollowsCounted(s: State, now: nat, x: Action, o: Outcome, a: Address, w: (Token, Token) -> nat)
    requires Counted(s, a, w) && Lifecycle(x) && Steady(s, x, w) && Follows(s, now, x, o) && ExposureMoves(s, x, o, a)
    requires s.intents[x.id].totalFilled >= 0 && FitsI128(s.intents[x.id].minDst)
    ensures Counted(o.state, a, w)
  {
    ArrowCounted(s, now, x, a, w);
    RewrittenCounted(s, o.state, x.id, Next(s, now, x, s.intents[x.id]), Exposed(s, x, a), a, w);
  }

  lemma LifecycleCounted(s: State, now: U64, x: Action, a: Address, w: (Token, Token) -> nat)
    requires Counted(s, a, w) && Lifecycle(x) && Steady(s, x, w) && Perform(s, now, x).Done?
    requires x.id in s.intents ==> s.intents[x.id].totalFilled >= 0 && FitsI128(s.intents[x.id].minDst)
    ensures Counted(Perform(s, now, x).state, a, w)
  {
    CallFollows(s, now, x);
    EveryExposure(s, now, x, a);
    FollowsCounted(s, now, x, Perform(s, now, x), a, w);
  }

  lemma SameCounted(s: State, s': State, a: Address, w: (Token, Token) -> nat)
    requires Counted(s, a, w) && s'.exposure == s.exposure
    requires s'.intents == s.intents
             || (exists id: IntentId, i: Intent :: id !in s.intents && !i.Obliged() && s'.intents == s.intents[id := i])
             || (exists id: IntentId :: id in s.intents && !s.intents[id].Obliged() && s'.intents == s.intents - {id})
    ensures Counted(s', a, w)
  {
    if s'.intents != s.intents {
      if id: IntentId, i: Intent :| id !in s.intents && !i.Obliged() && s'.intents == s.intents[id := i] {
        TotalUpdate(s.intents, id, i, Owed(a, w));
      } else {
        var id: IntentId :| id in s.intents && !s.intents[id].Obliged() && s'.intents == s.intents - {id};
        TotalSplit(s.intents, id, Owed(a, w));
      }
    }
  }

  lemma SubmitCounted(s: State, now: U64, x: Action, a: Address, w: (Token, Token) -> nat)
    requires Counted(s, a, w) && x.DoSubmit? && Perform(s, now, x).Done?
    ensures Counted(Perform(s, now, x).state, a, w)
  {
    SubmitFollows(s, now, x);
    SubmitExposes(s, now, x);
    assert !Submitted(s, now, x).Obliged() && x.id !in s.intents;
    SameCounted(s, Perform(s, now, x).state, a, w);
  }

  lemma CloseCounted(s: State, now: U64, x: Action, a: Address, w: (Token, Token) -> nat)
    requires Counted(s, a, w) && x.DoClose? && Perform(s, now, x).Done?
    ensures Counted(Perform(s, now, x).state, a, w)
  {
    CloseFollows(s, now, x.id);
    UserExposes(s, now, x);
    assert !s.intents[x.id].Obliged();
    SameCounted(s, Perform(s, now, x).state, a, w);
  }

  lemma OtherCounted(s: State, c: Call, a: Address, w: (Token, Token) -> nat)
    requires Counted(s, a, w) && !Lifecycle(c.action) && !c.action.DoSubmit? && !c.action.DoClose? && !c.action.DoSettleBids?
    ensures Counted(After(s, c), a, w)
  {
    QuietLawful(s, c, 0);
    if Perform(s, c.now, c.action).Done? {
      var x := c.action;
      if x.DoRegister? || x.DoWithdraw? || x.DoDeregister? {
        BondsExpose(s, c.now, x);
      } else if x.DoBid? {
        UserExposes(s, c.now, x);
      } else {
        OutsideExposes(s, c.now, x);
      }
      SameCounted(s, After(s, c), a, w);
    }
  }

  lemma CountedStep(s: State, c: Call, a: Address, w: (Token, Token) -> nat)
    requires Invariant(s) && Counted(s, a, w) && Steady(s, c.action, w)
    ensures Counted(After(s, c), a, w)
  {
    var x := c.action;
    if Perform(s, c.now, x).Done? {
      if Lifecycle(x) {
        NumbersOf(s, x.id);
        LifecycleCounted(s, c.now, x, a, w);
      } else if x.DoSubmit? {
        SubmitCounted(s, c.now, x, a, w);
      } else if x.DoClose? {
        CloseCounted(s, c.now, x, a, w);
      } else if x.DoSettleBids? {
        NothingToSettle(s, c.now, x.id);
      } else {
        OtherCounted(s, c, a, w);
      }
    }
  }

  lemma NumbersOf(s: State, id: IntentId)
    requires Invariant(s)
    ensures id in s.intents ==> s.intents[id].totalFilled >= 0 && FitsI128(s.intents[id].minDst)
  {
    if id in s.intents { assert IntentOk(s, id, s.intents[id]); }
  }

  lemma {:induction false} CountedAlways(s: State, calls: seq<Call>, a: Address, w: (Token, Token) -> nat)
    requires Invariant(s) && Counted(s, a, w) && SteadyRun(s, calls, w)
    ensures Counted(Run(s, calls), a, w)
  {
    if calls != [] {
      var front := calls[..|calls| - 1];
      CountedAlways(s, front, a, w);
      InvariantAlways(s, front);
      CountedStep(Run(s, front), calls[|calls| - 1], a, w);
    }
  }

  lemma AcceptWithinCover(s: State, now: U64, x: Action, owed: int)
    requires x.DoAccept? && Perform(s, now, x).Done? && owed <= ExposureOf(Perform(s, now, x).state, x.a)
    ensures Covers(Bonded(s, x.a, x.t), s.rules.config.coverage, owed)
  {
    AcceptFollows(s, now, x);
  }

  /** The cap holds: in every run whose weights do not change, all that a solver owes at once
      weighs no more than the exposure on record; and when it accepts, with the new obligation
      included, no more than the coverage of the bond it accepts with. */
  lemma OwedWithinCover(params: Params, recipient: Address, admin: Address, funds: map<(Token, Address), int>,
                        calls: seq<Call>, last: Call, a: Address, w: (Token, Token) -> nat)
    requires SteadyRun(Fresh(params, recipient, admin, funds), calls, w)
    requires Steady(Run(Fresh(params, recipient, admin, funds), calls), last.action, w)
    ensures var s := Run(Fresh(params, recipient, admin, funds), calls);
            var owed := Total(After(s, last).intents, Owed(a, w));
            && owed <= ExposureOf(After(s, last), a)
            && (last.action.DoAccept? && last.action.a == a && Perform(s, last.now, last.action).Done? ==>
                  Covers(Bonded(s, a, last.action.t), s.rules.config.coverage, owed))
  {
    var s0 := Fresh(params, recipient, admin, funds);
    var s := Run(s0, calls);
    FreshHolds(params, recipient, admin, funds);
    InvariantAlways(s0, calls);
    CountedAlways(s0, calls, a, w);
    CountedStep(s, last, a, w);
    if last.action.DoAccept? && last.action.a == a && Perform(s, last.now, last.action).Done? {
      AcceptWithinCover(s, last.now, last.action, Total(After(s, last).intents, Owed(a, w)));
    }
  }

  /** By how much the exposure on record exceeds what is owed. */
  ghost function Margin(s: State, a: Address, w: (Token, Token) -> nat): int {
    ExposureOf(s, a) - Total(s.intents, Owed(a, w))
  }

  /** Why the weights must not change: a full fill moves the margin by what its intent weighed
      less what it weighs now, so the margin shrinks exactly when the fill is weighed heavier. */
  lemma FillMoves(s: State, now: U64, x: Action, w: (Token, Token) -> nat)
    requires x.DoFill? && Perform(s, now, x).Done? && Sized(s, x.a) && FitsI128(ExposureOf(s, x.a) + Exposed(s, x, x.a))
    requires s.intents[x.id].totalFilled + x.amount >= s.intents[x.id].minDst
    ensures var i := s.intents[x.id];
            Margin(Perform(s, now, x).state, x.a, w) - Margin(s, x.a, w)
              == Weighed(i.minDst, w(i.dstToken, i.bondToken)) - Weighed(i.minDst, x.weight)
  {
    FillFollows(s, now, x);
    FillExposes(s, now, x, x.a);
    TotalUpdate(s.intents, x.id, Next(s, now, x, s.intents[x.id]), Owed(x.a, w));
  }

  // ----- What is never given back -----

  /** The call is a fill by `a` or a slash of `a`, which alone give exposure back. */
  predicate Relieves(s: State, x: Action, a: Address) {
    (x.DoFill? && x.a == a) || (x.DoSlash? && x.id in s.intents && s.intents[x.id].solver == Some(a))
  }

  /** What `a` took on by a call: the weight of the intent it accepts. */
  function TakenBy(s: State, c: Call, a: Address): int {
    if c.action.DoAccept? && c.action.a == a && c.action.id in s.intents && Perform(s, c.now, c.action).Done?
    then Weighed(s.intents[c.action.id].minDst, c.action.weight) else 0
  }

  function TakenOn(s: State, calls: seq<Call>, a: Address): int {
    if calls == [] then 0 else
    TakenOn(s, calls[..|calls| - 1], a) + TakenBy(Run(s, calls[..|calls| - 1]), calls[|calls| - 1], a)
  }

  predicate WithoutRelief(s: State, calls: seq<Call>, a: Address) {
    calls == [] ||
    (WithoutRelief(s, calls[..|calls| - 1], a)
     && !Relieves(Run(s, calls[..|calls| - 1]), calls[|calls| - 1].action, a)
     && TakenBy(Run(s, calls[..|calls| - 1]), calls[|calls| - 1], a) >= 0)
  }

  lemma TakesOn(s: State, c: Call, a: Address)
    requires Sized(s, a) && !Relieves(s, c.action, a)
    ensures ExposureOf(After(s, c), a) == SatI128(ExposureOf(s, a) + TakenBy(s, c, a))
  {
    EveryExposure(s, c.now, c.action, a);
  }

  /** What a solver ever took on stays counted, released or ruled on, as long as it neither
      fills directly nor is slashed: a solver that only uses the escrow works its cover off. */
  lemma {:induction false} EscrowsStayCounted(s: State, calls: seq<Call>, a: Address)
    requires Sized(s, a) && WithoutRelief(s, calls, a)
    ensures ExposureOf(Run(s, calls), a) == Min(ExposureOf(s, a) + TakenOn(s, calls, a), I128_MAX)
    ensures TakenOn(s, calls, a) >= 0 && Sized(Run(s, calls), a)
  {
    if calls != [] {
      EscrowsStayCounted(s, calls[..|calls| - 1], a);
      TakesOn(Run(s, calls[..|calls| - 1]), calls[|calls| - 1], a);
    }
  }

  /** So such a solver, even with nothing left to do, is refused an intent once what it ever
      took on and the intent together exceed the coverage of its bond. */
  lemma CoverUsedUp(params: Params, recipient: Address, admin: Address, funds: map<(Token, Address), int>,
                    calls: seq<Call>, now: U64, x: Action)
    requires x.DoAccept? && WithoutRelief(Fresh(params, recipient, admin, funds), calls, x.a)
    requires var s0 := Fresh(params, recipient, admin, funds);
             var s := Run(s0, calls);
             x.id in s.intents && !Covers(Bonded(s, x.a, x.t), s.rules.config.coverage,
                 SatI128(Min(TakenOn(s0, calls, x.a), I128_MAX) + Weighed(s.intents[x.id].minDst, x.weight)))
    ensures Perform(Run(Fresh(params, recipient, admin, funds), calls), now, x).Reverted?
  {
    var s0 := Fresh(params, recipient, admin, funds);
    var s := Run(s0, calls);
    EscrowsStayCounted(s0, calls, x.a);
    if Perform(s, now, x).Done? { AcceptFollows(s, now, x); }
  }
}
