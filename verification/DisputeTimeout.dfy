/**
  A joint run into a round that can never be settled: the panel reaches its verdict,
  nobody tallies it for a day, and settlement releases the escrow without it.
 */
module DisputeTimeout {
  import opened Wrappers
  import opened SettlementMath
  import opened SettlementModel
  import opened PanelSettlement
  import opened DisputeSystem
  import opened SettlementJams
  import opened SettlementScenario
  import P = PanelModel

  const PANEL: Address := 50
  const ARBITER: Address := 20

  function Settles(calls: seq<Call>): seq<Move> { seq(|calls|, i requires 0 <= i < |calls| => Settle(calls[i])) }

  lemma PlayNext(w: World, moves: seq<Move>, m: Move)
    ensures Play(w, moves + [m]) == Step(Play(w, moves), m)
  {
    assert (moves + [m])[..|moves|] == moves;
  }

  lemma {:induction false} PlaySettles(w: World, calls: seq<Call>)
    requires forall c <- calls :: !c.action.DoResolve?
    ensures Play(w, Settles(calls)) == w.(settlement := Run(w.settlement, calls))
  {
    if calls != [] {
      var front, last := calls[..|calls| - 1], calls[|calls| - 1];
      assert last in calls;
      PlaySettles(w, front);
      assert Settles(calls) == Settles(front) + [Settle(last)];
      PlayNext(w, Settles(front), Settle(last));
    }
  }

  /** One unit is escrowed and disputed, and the panel is the arbiter. */
  function Disputing(): seq<Call> {
    EscrowFill(1) + [Call(0, DoDispute(USER, 0)), Call(0, DoAdminister(SetArbiter(PANEL)))]
  }

  function Founded(): World { World(Deployed(), P.EMPTY.(wallets := map[ARBITER := 10]), PANEL) }

  ghost predicate Quarrel(s: State) {
    && Plain(s) && PartiesOf(s, 0) == Some(P.Parties(USER, 7))
    && 0 in s.intents && 7 in s.solvers && s.totalVolume == 0 && s.rules.arbiter == PANEL
    && var i := s.intents[0];
    && i.user == USER && i.dstToken == OUT && i.totalFilled == 0 && i.fillAmount == Some(1)
    && i.disputeRaisedAt == Some(0) && s.bank.Held(OUT) == 1
  }

  lemma QuarrelFrom(s: State)
    requires Pending(s, 1)
    ensures Quarrel(After(Contested(s), Call(0, DoAdminister(SetArbiter(PANEL)))))
  {
  }

  lemma QuarrelReached()
    ensures Quarrel(Run(Deployed(), Disputing()))
  {
    EscrowPending(1);
    RunTwo(Deployed(), EscrowFill(1), Call(0, DoDispute(USER, 0)), Call(0, DoAdminister(SetArbiter(PANEL))));
    TimesOutFrom(Run(Deployed(), EscrowFill(1)), 1);
    QuarrelFrom(Run(Deployed(), EscrowFill(1)));
  }

  lemma QuarrelEnds(s: State)
    requires Quarrel(s)
    ensures Over(After(s, Call(86_400, DoRelease(0))), 0)
  {
    var i, rec, bank := TimesOut(s, 86_400, 0);
  }

  const BALLOT := P.Round([ARBITER], 1, 0, map[ARBITER := P.Upheld], false)

  /** The panel's four calls, given who the parties are. */
  lemma Ballots(p: P.State, draw: nat -> nat)
    requires p == P.EMPTY.(wallets := map[ARBITER := 10])
    ensures var p1 := P.After(p, P.Call(0, P.DoInitialize(P.Config(10, 1, 1))));
            var p2 := P.After(p1, P.Call(0, P.DoRegister(ARBITER)));
            var p3 := P.After(p2, P.Call(0, P.DoOpenVote(0, Some(P.Parties(USER, 7)), draw)));
            var p4 := P.After(p3, P.Call(0, P.DoVote(ARBITER, 0, P.Upheld)));
            0 in p4.rounds && p4.rounds[0] == BALLOT
  {
    var p1 := P.After(p, P.Call(0, P.DoInitialize(P.Config(10, 1, 1))));
    var p2 := P.After(p1, P.Call(0, P.DoRegister(ARBITER)));
    assert p2.list == [ARBITER] && p2.arbiters == map[ARBITER := P.Arbiter(10, 0)];
    Drawing(p2, draw);
  }

  lemma OneEligible(p: P.State)
    requires p.list == [ARBITER] && p.arbiters == map[ARBITER := P.Arbiter(10, 0)]
    ensures P.Loadable(p, P.Parties(USER, 7)) && P.Eligible(p, P.Parties(USER, 7), p.list, 10) == [ARBITER]
  {
    assert p.list[..0] == [];
  }

  lemma OneShuffled(draw: nat -> nat)
    ensures P.Shuffled([ARBITER], draw, 1)[..1] == [ARBITER]
  {
    assert P.Shuffled([ARBITER], draw, 0) == [ARBITER];
    assert P.Pick(draw, 0, 1) == 0;
  }

  lemma OneSeated(p: P.State, xs: seq<Address>, draw: nat -> nat, panel: seq<Address>)
    requires |xs| == 1 && xs[0] in p.arbiters && panel == xs && P.Shuffled(xs, draw, 1)[..1] == panel
    ensures P.Empanel(p, 0, 0, P.Config(10, 1, 1), xs, draw).Done?
  {
    var k := Min(1, |xs|);
    assert k == 1;
    assert P.Shuffled(xs, draw, k)[..k] == panel;
    assert !(exists a <- panel :: a !in p.arbiters);
  }

  lemma OneDrawn(p: P.State, xs: seq<Address>, draw: nat -> nat)
    requires |xs| == 1 && xs[0] in p.arbiters && P.Shuffled(xs, draw, 1)[..1] == xs
    ensures var o := P.Empanel(p, 0, 0, P.Config(10, 1, 1), xs, draw);
            o.Done? && o.state.rounds == p.rounds[0 := P.Round(xs, P.ScaledThreshold(1, 1, 1), 0, map[], false)]
  {
    OneSeated(p, xs, draw, xs);
    var k := Min(1, |xs|);
    assert k == 1;
  }

  lemma Drawing(p: P.State, draw: nat -> nat)
    requires p.list == [ARBITER] && p.arbiters == map[ARBITER := P.Arbiter(10, 0)] && p.rounds == map[]
    requires p.config == Some(P.Config(10, 1, 1))
    ensures P.After(p, P.Call(0, P.DoOpenVote(0, Some(P.Parties(USER, 7)), draw))).rounds
              == map[0 := P.Round([ARBITER], 1, 0, map[], false)]
  {
    OneEligible(p);
    OneShuffled(draw);
    OneDrawn(p, [ARBITER], draw);
  }

  lemma BallotUpheld()
    ensures P.Verdict(BALLOT) == Some(P.Upheld)
  {
    assert P.Voters(BALLOT.votes, P.Upheld) == {ARBITER};
  }

  lemma PlayFour(w: World, moves: seq<Move>, a: Move, b: Move, c: Move, d: Move)
    ensures Play(w, moves + [a] + [b] + [c] + [d]) == Step(Step(Step(Step(Play(w, moves), a), b), c), d)
  {
    PlayNext(w, moves, a);
    PlayNext(w, moves + [a], b);
    PlayNext(w, moves + [a] + [b], c);
    PlayNext(w, moves + [a] + [b] + [c], d);
  }

  /** The panel sits while settlement stands still. */
  lemma Sits(w: World, draw: nat -> nat)
    requires PartiesOf(w.settlement, 0) == Some(P.Parties(USER, 7)) && w.panel == P.EMPTY.(wallets := map[ARBITER := 10])
    ensures var w1 := Step(w, Convene(0, P.DoInitialize(P.Config(10, 1, 1))));
            var w2 := Step(w1, Convene(0, P.DoRegister(ARBITER)));
            var w3 := Step(w2, Convene(0, P.DoOpenVote(0, None, draw)));
            var w4 := Step(w3, Convene(0, P.DoVote(ARBITER, 0, P.Upheld)));
            w4.settlement == w.settlement && w4.address == w.address && 0 in w4.panel.rounds && w4.panel.rounds[0] == BALLOT
  {
    Ballots(w.panel, draw);
  }

  /** The joint run up to the release. */
  function Deliberating(): seq<Move> {
    Settles(Disputing())
      + [Convene(0, P.DoInitialize(P.Config(10, 1, 1)))]
      + [Convene(0, P.DoRegister(ARBITER))]
      + [Convene(0, P.DoOpenVote(0, None, (i: nat) => 0))]
      + [Convene(0, P.DoVote(ARBITER, 0, P.Upheld))]
  }

  lemma Deliberates()
    ensures var w := Play(Founded(), Deliberating());
            && w.settlement == Run(Deployed(), Disputing()) && w.address == PANEL
            && 0 in w.panel.rounds && w.panel.rounds[0] == BALLOT
  {
    var draw := (i: nat) => 0;
    QuarrelReached();
    PlaySettles(Founded(), Disputing());
    PlayFour(Founded(), Settles(Disputing()), Convene(0, P.DoInitialize(P.Config(10, 1, 1))),
             Convene(0, P.DoRegister(ARBITER)), Convene(0, P.DoOpenVote(0, None, draw)),
             Convene(0, P.DoVote(ARBITER, 0, P.Upheld)));
    Sits(Founded().(settlement := Run(Deployed(), Disputing())), draw);
  }

  /** A panel of one is drawn and votes; nobody tallies, and a day later the escrow is
      released: from there on LateRoundTraps applies. */
  lemma LateRoundReached()
    ensures var w := Play(Founded(), Deliberating() + [Settle(Call(86_400, DoRelease(0)))]);
            Joint(w) && Late(w, 0, P.Upheld)
  {
    var last := Settle(Call(86_400, DoRelease(0)));
    FreshJoint(PARAMS, ADMIN, ADMIN, Deployed().bank.wallets, map[ARBITER := 10], PANEL);
    JointAlways(Founded(), Deliberating() + [last]);
    PlayNext(Founded(), Deliberating(), last);
    LateAfterRelease();
  }

  lemma LateAfterRelease()
    ensures Late(Step(Play(Founded(), Deliberating()), Settle(Call(86_400, DoRelease(0)))), 0, P.Upheld)
  {
    Deliberates();
    QuarrelReached();
    QuarrelEnds(Run(Deployed(), Disputing()));
    BallotUpheld();
  }
}
