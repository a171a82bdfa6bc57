/**
  What every round of every run is: how many sit on its panel and who could, the votes
  it needs, who cast those it has, and when it can be settled.
 */
module PanelRounds {
  import opened Wrappers
  import opened SettlementMath
  import opened PanelModel
  import opened PanelDraw
  import opened PanelTheorems
  import opened Sums

  // ----- Opening a round -----

  /** Who can be drawn: the registered arbiters that are no party to the dispute and
      whose bond has not fallen below the amount asked. */
  ghost function Candidates(s: State, p: Parties): set<Address> {
    set a <- s.arbiters | a != p.user && a != p.solver && s.config.Some? && s.arbiters[a].bond >= s.config.value.bondAmount
  }

  /** A round as it is opened: as many different candidates as the panel has seats and
      there are, with `m` of `n` votes scaled to them and rounded up. */
  ghost predicate Convened(s: State, now: nat, p: Parties, r: Round) {
    && s.config.Some? && NoRepeats(r.panel) && (forall a <- r.panel :: a in Candidates(s, p))
    && |r.panel| == Min(s.config.value.panelSize, |Candidates(s, p)|) > 0
    && r.threshold > 0
    && (r.threshold - 1) * s.config.value.panelSize < s.config.value.threshold * |r.panel|
    && s.config.value.threshold * |r.panel| <= r.threshold * s.config.value.panelSize
    && r.openedAt == now && r.votes == map[] && !r.settled
  }

  /** A list without repeats is as long as the set of its elements. */
  lemma {:induction false} ListedOnce(list: seq<Address>, all: set<Address>)
    requires NoRepeats(list) && forall a :: a in list <==> a in all
    ensures |list| == |all|
  {
    if list != [] {
      var front, last := list[..|list| - 1], list[|list| - 1];
      assert list == front + [last];
      assert last !in front;
      ListedOnce(front, all - {last});
    } else {
      assert all == {};
    }
  }

  lemma EligibleCounted(s: State, p: Parties)
    requires Members(s) && s.config.Some?
    ensures Loadable(s, p)
    ensures var xs := Eligible(s, p, s.list, s.config.value.bondAmount);
            && NoRepeats(xs) && |xs| == |Candidates(s, p)| && forall a :: a in xs <==> a in Candidates(s, p)
  {
    EligibleIs(s, p, s.list, s.config.value.bondAmount);
    ListedOnce(Eligible(s, p, s.list, s.config.value.bondAmount), Candidates(s, p));
  }

  ghost predicate MayOpen(s: State, x: Action)
    requires x.DoOpenVote?
  {
    && x.id !in s.rounds && s.config.Some? && x.parties.Some? && Candidates(s, x.parties.value) != {}
    && s.config.value.threshold * Min(s.config.value.panelSize, |Candidates(s, x.parties.value)|)
         + s.config.value.panelSize - 1 <= U32_MAX
  }

  /** A round opens exactly when it may. */
  lemma OpenPassesExactly(s: State, now: nat, x: Action)
    requires Sound(s) && x.DoOpenVote?
    ensures Perform(s, now, x).Done? <==> MayOpen(s, x)
  {
    if s.config.Some? && x.parties.Some? {
      EligibleCounted(s, x.parties.value);
      SeatsExist(s, x.parties.value, x.draw);
    }
  }

  /** The size and the bar of the round recorded. */
  lemma RoundSized(s: State, now: nat, x: Action, r: Round)
    requires Sound(s) && x.DoOpenVote? && Perform(s, now, x).Done?
    requires Perform(s, now, x).state.rounds == s.rounds[x.id := r]
    ensures MayOpen(s, x) && r.openedAt == now
    ensures |r.panel| == Min(s.config.value.panelSize, |Candidates(s, x.parties.value)|)
    ensures r.threshold == ScaledThreshold(s.config.value.threshold, s.config.value.panelSize, |r.panel|)
  {
    OpenPassesExactly(s, now, x);
    EligibleCounted(s, x.parties.value);
    assert r == Perform(s, now, x).state.rounds[x.id];
  }

  lemma Locking(arbiters: map<Address, Arbiter>, panel: seq<Address>)
    requires Seated(arbiters, panel) && NoRepeats(panel)
    ensures Locked(arbiters, panel).Keys == arbiters.Keys
    ensures forall a <- arbiters :: Locked(arbiters, panel)[a]
              == arbiters[a].(openVotes := arbiters[a].openVotes + if a in panel then 1 else 0)
  {
    forall a | a in arbiters
      ensures Locked(arbiters, panel)[a] == arbiters[a].(openVotes := arbiters[a].openVotes + if a in panel then 1 else 0)
    {
      LockedOne(arbiters, panel, a);
    }
  }

  /** What it records, and whom it locks. */
  lemma OpenFollows(s: State, now: nat, x: Action) returns (r: Round)
    requires Sound(s) && x.DoOpenVote? && Perform(s, now, x).Done?
    ensures MayOpen(s, x) && Convened(s, now, x.parties.value, r)
    ensures var s' := Perform(s, now, x).state;
            && s' == s.(rounds := s.rounds[x.id := r], arbiters := s'.arbiters)
            && s'.arbiters.Keys == s.arbiters.Keys
            && forall a <- s.arbiters :: s'.arbiters[a]
                 == s.arbiters[a].(openVotes := s.arbiters[a].openVotes + if a in r.panel then 1 else 0)
  {
    r := Drawn(s, now, x.id, x.parties, x.draw);
    RoundSized(s, now, x, r);
    ScaledUp(s.config.value.threshold, s.config.value.panelSize, |r.panel|);
    Locking(s.arbiters, r.panel);
  }

  // ----- Every round of every run -----

  predicate MayVote(s: State, now: nat, x: Action)
    requires x.DoVote? && x.id in s.rounds
  {
    var r := s.rounds[x.id];
    !r.settled && now < r.openedAt + 86_400 && x.a in r.panel && x.a !in r.votes
  }

  /** A vote counts exactly when it may, and adds itself alone. */
  lemma VoteFollows(s: State, now: nat, x: Action)
    requires x.DoVote?
    ensures Perform(s, now, x).Done? <==> x.id in s.rounds && MayVote(s, now, x)
    ensures Perform(s, now, x).Done? ==>
              var r := s.rounds[x.id];
              Perform(s, now, x).state == s.(rounds := s.rounds[x.id := r.(votes := r.votes[x.a := x.v])])
  {
  }

  /** Call `c` in state `s` opened the round that is `r` by now. */
  ghost predicate OpenedIn(s: State, c: Call, id: DisputeId, r: Round) {
    && c.action.DoOpenVote? && c.action.id == id && c.action.parties.Some?
    && Convened(s, c.now, c.action.parties.value, r.(votes := map[], settled := false))
  }

  ghost predicate OpenedBy(s: State, calls: seq<Call>, n: nat, id: DisputeId, r: Round) {
    n < |calls| && OpenedIn(Run(s, calls[..n]), calls[n], id, r)
  }

  /** Call `c` cast `a`'s vote in the round, in time. */
  predicate CastIn(c: Call, id: DisputeId, r: Round, a: Address)
    requires a in r.votes
  {
    c.action == DoVote(a, id, r.votes[a]) && c.now < r.openedAt + 86_400 && a in r.panel
  }

  predicate CastBy(calls: seq<Call>, n: nat, id: DisputeId, r: Round, a: Address)
    requires a in r.votes
  {
    n < |calls| && CastIn(calls[n], id, r, a)
  }

  /** What call `c`, from `s` to `s'`, does to the round of `id`. */
  ghost predicate RoundMoves(s: State, c: Call, s': State, id: DisputeId) {
    id in s'.rounds ==>
      var r' := s'.rounds[id];
      if id !in s.rounds then OpenedIn(s, c, id, r') && r'.votes == map[]
      else SameRound(s.rounds[id], r')
           && forall a <- r'.votes :: (a in s.rounds[id].votes && r'.votes[a] == s.rounds[id].votes[a]) || CastIn(c, id, r', a)
  }

  predicate SameRound(r: Round, r': Round) { r' == r.(votes := r'.votes, settled := r'.settled) }

  lemma RoundStep(s: State, c: Call, id: DisputeId)
    requires Sound(s)
    ensures RoundMoves(s, c, After(s, c), id)
  {
    if c.action.DoOpenVote? {
      OpenStep(s, c, id);
    } else if c.action.DoVote? {
      VoteFollows(s, c.now, c.action);
    }
  }

  lemma OpenStep(s: State, c: Call, id: DisputeId)
    requires Sound(s) && c.action.DoOpenVote?
    ensures RoundMoves(s, c, After(s, c), id)
  {
    if Perform(s, c.now, c.action).Done? { var r := OpenFollows(s, c.now, c.action); }
  }

  lemma RunIs(s: State, calls: seq<Call>, front: seq<Call>)
    requires calls != [] && front == calls[..|calls| - 1]
    ensures Run(s, calls) == After(Run(s, front), calls[|front|])
  {
  }

  lemma MovesTo(s: State, c: Call, s': State, id: DisputeId)
    requires Sound(s) && s' == After(s, c)
    ensures RoundMoves(s, c, s', id)
  {
    RoundStep(s, c, id);
  }

  lemma RunStep(s: State, calls: seq<Call>, front: seq<Call>, id: DisputeId)
    requires Sound(s) && calls != [] && front == calls[..|calls| - 1]
    ensures RoundMoves(Run(s, front), calls[|front|], Run(s, calls), id)
  {
    RunIs(s, calls, front);
    AlwaysSound(s, front);
    MovesTo(Run(s, front), calls[|front|], Run(s, calls), id);
  }

  /** In every run, every round was opened by one call, with as many of the candidates of
      that moment as there are seats and with its share of the votes to reach. */
  lemma {:induction false} RoundsConvened(s: State, calls: seq<Call>, id: DisputeId)
    requires Sound(s) && id !in s.rounds && id in Run(s, calls).rounds
    ensures exists n: nat :: OpenedBy(s, calls, n, id, Run(s, calls).rounds[id])
  {
    if calls != [] {
      var front := calls[..|calls| - 1];
      RunStep(s, calls, front, id);
      if id in Run(s, front).rounds { RoundsConvened(s, front, id); }
      StillOpened(s, calls, front, Run(s, calls), id);
    }
  }

  lemma StillOpened(s: State, calls: seq<Call>, front: seq<Call>, s': State, id: DisputeId)
    requires calls != [] && front == calls[..|calls| - 1] && id in s'.rounds
    requires RoundMoves(Run(s, front), calls[|front|], s', id)
    requires id in Run(s, front).rounds ==> exists n: nat :: OpenedBy(s, front, n, id, Run(s, front).rounds[id])
    ensures exists n: nat :: OpenedBy(s, calls, n, id, s'.rounds[id])
  {
    if id in Run(s, front).rounds {
      var n: nat :| OpenedBy(s, front, n, id, Run(s, front).rounds[id]);
      assert front[..n] == calls[..n];
      assert OpenedBy(s, calls, n, id, s'.rounds[id]);
    } else {
      assert OpenedBy(s, calls, |front|, id, s'.rounds[id]);
    }
  }

  /** And every vote in it was cast by a call of its member within a day of the opening. */
  lemma {:induction false} VotesCast(s: State, calls: seq<Call>, id: DisputeId, a: Address)
    requires Sound(s) && id !in s.rounds && id in Run(s, calls).rounds && a in Run(s, calls).rounds[id].votes
    ensures exists n: nat :: CastBy(calls, n, id, Run(s, calls).rounds[id], a)
  {
    if calls != [] {
      var front := calls[..|calls| - 1];
      RunStep(s, calls, front, id);
      if id in Run(s, front).rounds && a in Run(s, front).rounds[id].votes { VotesCast(s, front, id, a); }
      StillCast(calls, front, Run(s, front), Run(s, calls), id, a);
    }
  }

  lemma StillCast(calls: seq<Call>, front: seq<Call>, s: State, s': State, id: DisputeId, a: Address)
    requires calls != [] && front == calls[..|calls| - 1] && id in s'.rounds && a in s'.rounds[id].votes
    requires RoundMoves(s, calls[|front|], s', id)
    requires id in s.rounds && a in s.rounds[id].votes ==> exists n: nat :: CastBy(front, n, id, s.rounds[id], a)
    ensures exists n: nat :: CastBy(calls, n, id, s'.rounds[id], a)
  {
    if CastIn(calls[|front|], id, s'.rounds[id], a) {
      assert CastBy(calls, |front|, id, s'.rounds[id], a);
    } else {
      var n: nat :| CastBy(front, n, id, s.rounds[id], a);
      assert CastBy(calls, n, id, s'.rounds[id], a);
    }
  }

  // ----- Settling a round -----

  /** Enough members voted for `v`. */
  ghost predicate Decided(r: Round, v: Vote) { |set a | a in r.votes && r.votes[a] == v| >= r.threshold }

  lemma DecidedIs(r: Round, v: Vote)
    requires Balanced(r)
    ensures Decided(r, v) <==> Verdict(r) == Some(v)
  {
    VerdictExclusive(r);
    assert (set a | a in r.votes && r.votes[a] == v) == Voters(r.votes, v);
  }

  ghost predicate OnWinningSide(r: Round, a: Address) { a in r.votes && Decided(r, r.votes[a]) }

  /** A round can be settled once: with a decision, if the settlement contract takes it and
      every loser's tenth fits 128 bits; without one, after a day. */
  ghost predicate MayTally(s: State, now: nat, x: Action)
    requires x.DoTally?
  {
    && x.id in s.rounds && !s.rounds[x.id].settled
    && var r := s.rounds[x.id];
       if Decided(r, Upheld) || Decided(r, Dismissed)
       then x.accepts && forall a <- r.panel ::
              a in s.arbiters && (OnWinningSide(r, a) || FitsI128(s.arbiters[a].bond * 1_000))
       else now >= r.openedAt + 86_400
  }

  lemma TallyPassesExactly(s: State, now: nat, x: Action)
    requires Sound(s) && x.DoTally?
    ensures Perform(s, now, x).Done? <==> MayTally(s, now, x)
  {
    if x.id in s.rounds && !s.rounds[x.id].settled {
      var r := s.rounds[x.id];
      DecidedIs(r, Upheld);
      DecidedIs(r, Dismissed);
      VerdictExclusive(r);
      assert Seated(s.arbiters, r.panel);
      ObstacleIs(s.arbiters, r, r.panel, Verdict(r));
    }
  }

  ghost function VotedFor(r: Round, panel: seq<Address>, v: Vote): set<Address> {
    set a <- panel | a in r.votes && r.votes[a] == v
  }

  /** The winners of a round are the members who voted for its verdict, each once; the first
      of them is the first such member of the panel. */
  lemma {:induction false} WinnersCounted(r: Round, panel: seq<Address>, v: Vote)
    requires NoRepeats(panel)
    ensures |Winners(r, panel, v)| == |VotedFor(r, panel, v)|
  {
    if panel != [] {
      var front, last := panel[..|panel| - 1], panel[|panel| - 1];
      WinnersCounted(r, front, v);
      assert panel == front + [last];
      assert last !in front;
      assert VotedFor(r, panel, v) == VotedFor(r, front, v) + if Won(r, last, v) then {last} else {};
    }
  }

  /** Place `i` of the panel is the first that voted for `v`. */
  predicate First(r: Round, panel: seq<Address>, v: Vote, i: nat) {
    i < |panel| && Won(r, panel[i], v) && forall j :: 0 <= j < i ==> !Won(r, panel[j], v)
  }

  lemma {:induction false} NoWinners(r: Round, panel: seq<Address>, v: Vote)
    requires forall a <- panel :: !Won(r, a, v)
    ensures Winners(r, panel, v) == []
  {
    if panel != [] { NoWinners(r, panel[..|panel| - 1], v); }
  }

  lemma {:induction false} FirstWinner(r: Round, panel: seq<Address>, v: Vote, i: nat)
    requires First(r, panel, v, i)
    ensures Winners(r, panel, v) != [] && Winners(r, panel, v)[0] == panel[i]
  {
    var front := panel[..|panel| - 1];
    if i < |front| { FirstWinner(r, front, v, i); } else { NoWinners(r, front, v); }
  }
}
