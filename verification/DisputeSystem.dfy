/**
  Settlement and arbiter panel running side by side: any calls on either, in any
  order, with every answer one asks of the other taken from its state. Panels are
  unbiased, tallied verdicts are what settlement recorded, and a round whose dispute
  ended without it is lost.
 */
module DisputeSystem {
  import opened Wrappers
  import opened SettlementMath
  import opened SettlementModel
  import opened SettlementRecords
  import opened SettlementTheorems
  import opened SettlementStuck
  import opened PanelSettlement
  import P = PanelModel
  import T = PanelTheorems

  /** `address` is the panel's account on the settlement contract. */
  datatype World = World(settlement: State, panel: P.State, address: Address)

  datatype Move =
    | Settle(call: Call)                       // anyone calls the settlement contract
    | Convene(now: U64, action: P.Action)      // anyone calls the panel

  /** `dispute_parties`: user and solver of a disputed intent. */
  function PartiesOf(s: State, id: IntentId): Option<P.Parties> {
    if id in s.intents && s.intents[id].phase == Disputed && s.intents[id].solver.Some?
    then Some(P.Parties(s.intents[id].user, s.intents[id].solver.value)) else None
  }

  /** The ruling a tally of `id` would ask for, if its round has a verdict. */
  function Asked(w: World, now: U64, id: IntentId): Option<Call> {
    if id !in w.panel.rounds then None else
    match P.Verdict(w.panel.rounds[id])
    case None => None
    case Some(v) => Some(Call(now, DoResolve(w.address, id, AsRuling(v))))
  }

  function Accepts(w: World, now: U64, id: IntentId): bool {
    Asked(w, now, id).Some? && Perform(w.settlement, now, Asked(w, now, id).value.action).Done?
  }

  /** The panel call with what settlement answers filled in. */
  function Informed(w: World, now: U64, action: P.Action): P.Call {
    match action
    case DoOpenVote(id, _, draw) => P.Call(now, P.DoOpenVote(id, PartiesOf(w.settlement, id), draw))
    case DoTally(id, _) => P.Call(now, P.DoTally(id, Accepts(w, now, id)))
    case _ => P.Call(now, action)
  }

  /** Only the panel contract itself can authorise as its account, and it rules only when tallying. */
  predicate Authorised(w: World, c: Call) { c.action.DoResolve? ==> c.action.caller != w.address }

  function Step(w: World, m: Move): World {
    match m
    case Settle(c) => if Authorised(w, c) then w.(settlement := After(w.settlement, c)) else w
    case Convene(now, action) =>
      var c := Informed(w, now, action);
      w.(settlement := Ruled(w, now, c), panel := P.After(w.panel, c))
  }

  /** Settlement afterwards: changed by a tally that goes through with a verdict. */
  function Ruled(w: World, now: U64, c: P.Call): State {
    if c.action.DoTally? && P.Perform(w.panel, c.now, c.action).Done? && Asked(w, now, c.action.id).Some?
    then After(w.settlement, Asked(w, now, c.action.id).value) else w.settlement
  }

  function Play(w: World, moves: seq<Move>): World {
    if moves == [] then w else Step(Play(w, moves[..|moves| - 1]), moves[|moves| - 1])
  }

  // ----- Rounds and disputes agree -----

  /** Settlement recorded the ruling, or has pruned the intent since. */
  predicate Recorded(s: State, id: IntentId, v: P.Vote) {
    if id in s.intents then s.intents[id].phase == Resolved && s.intents[id].ruling == Some(AsRuling(v))
    else id in s.tombstones
  }

  /** The dispute of a round is over, or goes on between two parties not on the panel;
      a round settled with a verdict has its ruling on record. */
  ghost predicate Agrees(s: State, id: IntentId, r: P.Round) {
    && (Over(s, id) || (PartiesOf(s, id).Some? && forall a <- r.panel :: P.May(PartiesOf(s, id).value, a)))
    && (r.settled && P.Verdict(r).Some? ==> Recorded(s, id, P.Verdict(r).value))
  }

  ghost predicate Agreed(s: State, p: P.State) { forall id <- p.rounds :: Agrees(s, id, p.rounds[id]) }

  /** A settlement call ends a dispute for good or leaves its record alone. */
  lemma DisputeStep(s: State, c: Call, id: IntentId)
    requires Invariant(s) && PartiesOf(s, id).Some?
    ensures Over(After(s, c), id) || PartiesOf(After(s, c), id) == PartiesOf(s, id)
  {
    if About(c.action, id) {
      if Perform(s, c.now, c.action).Done? {
        EscrowOnlyExits(s, c, id);
        ExitResolves(s, c, id);
      }
    } else {
      OtherCallsMiss(s, c, id);
    }
  }

  lemma ExitResolves(s: State, c: Call, id: IntentId)
    requires id in s.intents && s.intents[id].phase == Disputed && Perform(s, c.now, c.action).Done?
    requires (c.action.DoResolve? || c.action.DoRelease?) && c.action.id == id
    ensures id in After(s, c).intents && After(s, c).intents[id].phase == Resolved
    ensures c.action.DoResolve? ==> After(s, c).intents[id].ruling == Some(c.action.ruling)
  {
    if c.action.DoResolve? { ResolveRecords(s, c.now, id, s.intents[id].solver.value, c.action.ruling); }
  }

  lemma ResolveRecords(s: State, now: U64, id: IntentId, a: Address, ruling: Ruling)
    requires id in s.intents && a in s.solvers
    ensures var o := if ruling == Upheld then Uphold(s, now, id, a) else Dismiss(s, now, id, a);
            o.Done? ==> id in o.state.intents && o.state.intents[id].phase == Resolved
                        && o.state.intents[id].ruling == Some(ruling)
  {
  }

  lemma AgreesAfter(s: State, c: Call, id: IntentId, r: P.Round)
    requires Invariant(s) && Agrees(s, id, r)
    ensures Agrees(After(s, c), id, r)
  {
    if Over(s, id) { OverStep(s, c, id); } else { DisputeStep(s, c, id); }
  }

  /** A settlement call keeps rounds and disputes in agreement. */
  lemma SettlementAgrees(s: State, c: Call, p: P.State)
    requires Invariant(s) && Agreed(s, p)
    ensures Agreed(After(s, c), p)
  {
    forall id | id in p.rounds ensures Agrees(After(s, c), id, p.rounds[id]) { AgreesAfter(s, c, id, p.rounds[id]); }
  }

  /** A round that was there before, after one panel call. */
  lemma OldRoundAgrees(s: State, p: P.State, c: P.Call, id: IntentId)
    requires id in p.rounds && Agrees(s, id, p.rounds[id])
    requires c.action.DoTally? && c.action.id == id && P.Perform(p, c.now, c.action).Done? && P.Verdict(p.rounds[id]).Some?
             ==> Recorded(s, id, P.Verdict(p.rounds[id]).value)
    ensures id in P.After(p, c).rounds && Agrees(s, id, P.After(p, c).rounds[id])
  {
    T.RoundKept(p, c, id);
    SettledByTally(p, c, id);
  }

  /** Only its own tally settles a round, and leaves its votes as they were. */
  lemma SettledByTally(p: P.State, c: P.Call, id: IntentId)
    requires id in p.rounds
    ensures id in P.After(p, c).rounds
    ensures var r' := P.After(p, c).rounds[id];
            r'.settled && !p.rounds[id].settled ==>
              && c.action.DoTally? && c.action.id == id && P.Perform(p, c.now, c.action).Done?
              && r' == p.rounds[id].(settled := true)
  {
  }

  /** A round that is new was drawn among arbiters that are not parties. */
  lemma NewRoundAgrees(s: State, p: P.State, c: P.Call, id: IntentId)
    requires T.Sound(p) && id !in p.rounds && id in P.After(p, c).rounds
    requires c.action.DoOpenVote? ==> c.action.parties == PartiesOf(s, c.action.id)
    ensures Agrees(s, id, P.After(p, c).rounds[id])
  {
    OnlyOpened(p, c, id);
    var r := T.Drawn(p, c.now, c.action.id, c.action.parties, c.action.draw);
  }

  lemma OnlyOpened(p: P.State, c: P.Call, id: IntentId)
    requires id !in p.rounds && id in P.After(p, c).rounds
    ensures c.action.DoOpenVote? && c.action.id == id && P.Perform(p, c.now, c.action).Done?
  {
  }

  lemma PanelAgrees(s: State, p: P.State, c: P.Call)
    requires T.Sound(p) && Agreed(s, p)
    requires c.action.DoOpenVote? ==> c.action.parties == PartiesOf(s, c.action.id)
    requires c.action.DoTally? && P.Perform(p, c.now, c.action).Done? ==>
               c.action.id in p.rounds
               && (P.Verdict(p.rounds[c.action.id]).Some? ==> Recorded(s, c.action.id, P.Verdict(p.rounds[c.action.id]).value))
    ensures Agreed(s, P.After(p, c))
  {
    forall id | id in P.After(p, c).rounds ensures Agrees(s, id, P.After(p, c).rounds[id]) {
      if id in p.rounds { OldRoundAgrees(s, p, c, id); } else { NewRoundAgrees(s, p, c, id); }
    }
  }

  // ----- Every joint run -----

  ghost predicate Joint(w: World) { Invariant(w.settlement) && T.Sound(w.panel) && Agreed(w.settlement, w.panel) }

  /** A tally that goes through was accepted, and its ruling is on record. */
  lemma TallyRecords(w: World, now: U64, id: IntentId)
    requires var c := P.Call(now, P.DoTally(id, Accepts(w, now, id))); P.Perform(w.panel, now, c.action).Done?
    ensures id in w.panel.rounds
    ensures var c := P.Call(now, P.DoTally(id, Accepts(w, now, id)));
            P.Verdict(w.panel.rounds[id]).Some? ==> Recorded(Ruled(w, now, c), id, P.Verdict(w.panel.rounds[id]).value)
  {
    if P.Verdict(w.panel.rounds[id]).Some? {
      assert Accepts(w, now, id);
      ExitResolves(w.settlement, Asked(w, now, id).value, id);
    }
  }

  lemma RulingAgrees(w: World, now: U64, c: P.Call)
    requires Invariant(w.settlement) && Agreed(w.settlement, w.panel)
    ensures Agreed(Ruled(w, now, c), w.panel)
  {
    if c.action.DoTally? && Asked(w, now, c.action.id).Some? {
      SettlementAgrees(w.settlement, Asked(w, now, c.action.id).value, w.panel);
    }
  }

  lemma ConveneAgrees(w: World, now: U64, action: P.Action)
    requires T.Sound(w.panel) && Agreed(Ruled(w, now, Informed(w, now, action)), w.panel)
    ensures Agreed(Step(w, Convene(now, action)).settlement, Step(w, Convene(now, action)).panel)
  {
    var c := Informed(w, now, action);
    if c.action.DoTally? && P.Perform(w.panel, c.now, c.action).Done? { TallyRecords(w, now, c.action.id); }
    PanelAgrees(Ruled(w, now, c), w.panel, c);
  }

  lemma JointStep(w: World, m: Move)
    requires Joint(w)
    ensures Joint(Step(w, m))
  {
    match m
    case Settle(c) =>
      InvariantStep(w.settlement, c);
      SettlementAgrees(w.settlement, c, w.panel);
    case Convene(now, action) =>
      var c := Informed(w, now, action);
      T.SoundStep(w.panel, c);
      if Ruled(w, now, c) != w.settlement { InvariantStep(w.settlement, Asked(w, now, c.action.id).value); }
      RulingAgrees(w, now, c);
      ConveneAgrees(w, now, action);
  }

  lemma {:induction false} JointAlways(w: World, moves: seq<Move>)
    requires Joint(w)
    ensures Joint(Play(w, moves))
  {
    if moves != [] {
      JointAlways(w, moves[..|moves| - 1]);
      JointStep(Play(w, moves[..|moves| - 1]), moves[|moves| - 1]);
    }
  }

  lemma FreshJoint(params: Params, recipient: Address, admin: Address, funds: map<(Token, Address), int>,
                   wallets: map<Address, int>, address: Address)
    ensures Joint(World(Fresh(params, recipient, admin, funds), P.EMPTY.(wallets := wallets), address))
  {
    FreshHolds(params, recipient, admin, funds);
    T.EmptySound(wallets);
  }

  /** No party to a live dispute sits on its panel, and a round settled with a verdict
      has its ruling on record for as long as the intent is. */
  predicate Fair(w: World, id: IntentId) {
    var s, rounds := w.settlement, w.panel.rounds;
    id in rounds ==>
      && (id in s.intents && s.intents[id].phase == Disputed ==>
            && s.intents[id].user !in rounds[id].panel
            && s.intents[id].solver.Some? && s.intents[id].solver.value !in rounds[id].panel)
      && (rounds[id].settled && P.Verdict(rounds[id]).Some? ==> Recorded(s, id, P.Verdict(rounds[id]).value))
  }

  lemma AgreedIsFair(w: World, id: IntentId)
    requires Agreed(w.settlement, w.panel)
    ensures Fair(w, id)
  {
    if id in w.panel.rounds { assert Agrees(w.settlement, id, w.panel.rounds[id]); }
  }

  /** Every round is fair in every joint run from deployment. */
  lemma RoundsAreFair(params: Params, recipient: Address, admin: Address, funds: map<(Token, Address), int>,
                      wallets: map<Address, int>, address: Address, moves: seq<Move>, id: IntentId)
    ensures Fair(Play(World(Fresh(params, recipient, admin, funds), P.EMPTY.(wallets := wallets), address), moves), id)
  {
    var w := World(Fresh(params, recipient, admin, funds), P.EMPTY.(wallets := wallets), address);
    FreshJoint(params, recipient, admin, funds, wallets, address);
    JointAlways(w, moves);
    AgreedIsFair(Play(w, moves), id);
  }

  // ----- When a verdict can be carried out -----

  lemma VerdictTally(p: P.State, now: nat, id: IntentId, accepts: bool)
    requires T.Sound(p) && id in p.rounds && !p.rounds[id].settled && P.Verdict(p.rounds[id]).Some?
    ensures T.Seated(p.arbiters, p.rounds[id].panel)
    ensures P.Tally(p, now, id, accepts).Done? <==> accepts && T.Computable(p, p.rounds[id], P.Verdict(p.rounds[id]).value)
  {
    T.ObstacleIs(p.arbiters, p.rounds[id], p.rounds[id].panel, P.Verdict(p.rounds[id]));
  }

  lemma AcceptsIs(w: World, now: U64, id: IntentId, v: P.Vote)
    requires id in w.panel.rounds && P.Verdict(w.panel.rounds[id]) == Some(v)
    ensures Accepts(w, now, id) <==>
            w.address == w.settlement.rules.arbiter
            && Resolve(w.settlement, now, w.settlement.rules.arbiter, id, AsRuling(v)).Done?
  {
  }

  lemma TallyStep(w: World, now: U64, id: IntentId)
    requires id in w.panel.rounds && !w.panel.rounds[id].settled
    ensures var w' := Step(w, Convene(now, P.DoTally(id, false)));
            && id in w'.panel.rounds
            && (w'.panel.rounds[id].settled <==> P.Tally(w.panel, now, id, Accepts(w, now, id)).Done?)
            && (!w'.panel.rounds[id].settled ==> w' == w)
  {
  }

  /** The dispute goes on with the panel as its arbiter, and the numbers of the ruling stay in range. */
  predicate Enforceable(w: World, id: IntentId, v: P.Vote) {
    && w.address == w.settlement.rules.arbiter
    && id in w.settlement.intents && w.settlement.intents[id].phase == Disputed
    && !Unassigned(w.settlement, id) && RulingFits(w.settlement, id, AsRuling(v))
  }

  lemma AcceptsExactly(w: World, now: U64, id: IntentId, v: P.Vote)
    requires Invariant(w.settlement) && id in w.panel.rounds && P.Verdict(w.panel.rounds[id]) == Some(v)
    ensures Accepts(w, now, id) <==> Enforceable(w, id, v)
  {
    AcceptsIs(w, now, id, v);
    RulingTaken(w.settlement, now, id, AsRuling(v));
  }

  lemma TallyIff(w: World, now: U64, id: IntentId, v: P.Vote)
    requires id in w.panel.rounds && !w.panel.rounds[id].settled && P.Verdict(w.panel.rounds[id]) == Some(v)
    requires T.Seated(w.panel.arbiters, w.panel.rounds[id].panel)
    requires P.Tally(w.panel, now, id, Accepts(w, now, id)).Done?
      <==> Accepts(w, now, id) && T.Computable(w.panel, w.panel.rounds[id], v)
    requires Accepts(w, now, id) <==> Enforceable(w, id, v)
    ensures var w' := Step(w, Convene(now, P.DoTally(id, false)));
            && id in w'.panel.rounds
            && (w'.panel.rounds[id].settled <==> Enforceable(w, id, v) && T.Computable(w.panel, w.panel.rounds[id], v))
            && (w'.panel.rounds[id].settled ==> Recorded(w'.settlement, id, v))
            && (!w'.panel.rounds[id].settled ==> w' == w)
  {
    TallyStep(w, now, id);
    if P.Tally(w.panel, now, id, Accepts(w, now, id)).Done? { TallyRecords(w, now, id); }
  }

  /** A verdict is carried out, at once or later, exactly while the dispute goes on with
      the panel as its arbiter and the numbers of both contracts stay in range; then
      the ruling is on record and the round settled. */
  lemma TallyExactly(w: World, now: U64, id: IntentId, v: P.Vote)
    requires Joint(w) && id in w.panel.rounds && !w.panel.rounds[id].settled && P.Verdict(w.panel.rounds[id]) == Some(v)
    ensures T.Seated(w.panel.arbiters, w.panel.rounds[id].panel)
    ensures var w' := Step(w, Convene(now, P.DoTally(id, false)));
            && id in w'.panel.rounds
            && (w'.panel.rounds[id].settled <==> Enforceable(w, id, v) && T.Computable(w.panel, w.panel.rounds[id], v))
            && (w'.panel.rounds[id].settled ==> Recorded(w'.settlement, id, v))
            && (!w'.panel.rounds[id].settled ==> w' == w)
  {
    VerdictTally(w.panel, now, id, Accepts(w, now, id));
    AcceptsExactly(w, now, id, v);
    TallyIff(w, now, id, v);
  }

  // ----- A round nobody waited for -----

  ghost predicate Late(w: World, id: IntentId, v: P.Vote) {
    && id in w.panel.rounds && !w.panel.rounds[id].settled && P.Verdict(w.panel.rounds[id]) == Some(v)
    && Over(w.settlement, id)
  }

  lemma NotAccepted(w: World, now: U64, id: IntentId)
    requires Over(w.settlement, id)
    ensures !Accepts(w, now, id)
  {
    if Asked(w, now, id).Some? { TerminalStays(w.settlement, Asked(w, now, id).value, id); }
  }

  lemma LateStep(w: World, m: Move, id: IntentId, v: P.Vote)
    requires Joint(w) && Late(w, id, v)
    ensures Late(Step(w, m), id, v)
  {
    match m
    case Settle(c) => OverStep(w.settlement, c, id);
    case Convene(now, action) =>
      var c := Informed(w, now, action);
      if Ruled(w, now, c) != w.settlement { OverStep(w.settlement, Asked(w, now, c.action.id).value, id); }
      NotAccepted(w, now, id);
      T.StillOpen(w.panel, c, id);
      VerdictKept(w.panel, c, id, v);
  }

  lemma VerdictKept(p: P.State, c: P.Call, id: IntentId, v: P.Vote)
    requires T.Sound(p) && id in p.rounds && P.Verdict(p.rounds[id]) == Some(v)
    ensures id in P.After(p, c).rounds && P.Verdict(P.After(p, c).rounds[id]) == Some(v)
  {
    assert [c][..0] == [] && P.Run(p, []) == p;
    assert P.Run(p, [c]) == P.After(p, c);
    T.VerdictStable(p, [c], id, v);
  }

  /** Once settlement has closed a dispute without the panel, as release_fill does
      after a day, a round that had its verdict is never settled whatever is called on
      either contract, and its arbiters can never leave with their bonds. */
  lemma {:induction false} LateRoundTraps(w: World, moves: seq<Move>, id: IntentId, v: P.Vote)
    requires Joint(w) && Late(w, id, v)
    ensures var w' := Play(w, moves);
            && Late(w', id, v)
            && forall a <- w'.panel.rounds[id].panel ::
                 a in w'.panel.arbiters && P.Deregister(w'.panel, a) == P.Reverted(P.HasOpenVotes)
  {
    if moves != [] {
      LateRoundTraps(w, moves[..|moves| - 1], id, v);
      JointAlways(w, moves[..|moves| - 1]);
      LateStep(Play(w, moves[..|moves| - 1]), moves[|moves| - 1], id, v);
    }
    JointAlways(w, moves);
    var w' := Play(w, moves);
    forall a | a in w'.panel.rounds[id].panel
      ensures a in w'.panel.arbiters && P.Deregister(w'.panel, a) == P.Reverted(P.HasOpenVotes)
    { T.MembersLocked(w'.panel, id, a); }
  }
}
