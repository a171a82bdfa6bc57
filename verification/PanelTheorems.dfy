/**
  The panel's guarantees over every run, with any number of rounds open at once:
  bonds are conserved, seats are counted, every tally finds its members, and a
  verdict once reached is never overturned.
 */
module PanelTheorems {
  import opened Wrappers
  import opened SettlementMath
  import opened PanelModel
  import opened PanelDraw
  import opened Sums

  ghost function Staked(): (Address, Arbiter) -> int { (a: Address, rec: Arbiter) => rec.bond }

  /** One for an unsettled round whose panel has `a`. */
  ghost function Sits(a: Address): (DisputeId, Round) -> int {
    (id: DisputeId, r: Round) => if !r.settled && a in r.panel then 1 else 0
  }

  predicate Seated(arbiters: map<Address, Arbiter>, panel: seq<Address>) {
    forall a <- panel :: a in arbiters
  }

  ghost predicate Members(s: State) {
    && NoRepeats(s.list)
    && (forall a :: a in s.list <==> a in s.arbiters)
    && (forall a <- s.arbiters :: s.arbiters[a].bond >= 0)
  }

  ghost predicate Rounds(s: State) {
    && (forall id <- s.rounds :: Balanced(s.rounds[id]))
    && (forall id <- s.rounds :: !s.rounds[id].settled ==> Seated(s.arbiters, s.rounds[id].panel))
  }

  ghost predicate Seats(s: State) {
    forall a <- s.arbiters :: s.arbiters[a].openVotes == Total(s.rounds, Sits(a))
  }

  ghost predicate Configured(s: State) {
    match s.config
    case None => s.arbiters == map[] && s.rounds == map[]
    case Some(c) => c.bondAmount > 0 && 0 < c.threshold <= c.panelSize < 2 * c.threshold
  }

  ghost predicate Sound(s: State) {
    Configured(s) && Members(s) && Rounds(s) && Seats(s) && s.held == Total(s.arbiters, Staked())
  }

  // ----- Joining and leaving -----

  lemma {:induction false} KeptIs(list: seq<Address>, a: Address)
    ensures forall b :: b in Kept(list, a) <==> b in list && b != a
    ensures NoRepeats(list) ==> NoRepeats(Kept(list, a))
  {
    if list != [] {
      var front, last := list[..|list| - 1], list[|list| - 1];
      assert list == front + [last];
      KeptIs(front, a);
      if NoRepeats(list) {
        assert last !in front;
        assert last !in Kept(front, a);
      }
    }
  }

  /** Nobody unregistered sits in an unsettled round. */
  lemma StrangersDoNotSit(s: State, a: Address)
    requires Rounds(s) && a !in s.arbiters
    ensures Total(s.rounds, Sits(a)) == 0
  {
    TotalZero(s.rounds, Sits(a));
  }

  lemma Joining(s: State, a: Address)
    requires Sound(s) && Register(s, a).Done?
    ensures Sound(Register(s, a).state)
  {
    var s' := Register(s, a).state;
    StrangersDoNotSit(s, a);
    TotalUpdate(s.arbiters, a, s'.arbiters[a], Staked());
  }

  /** An arbiter without open votes sits nowhere. */
  lemma IdleDoNotSit(s: State, a: Address)
    requires Sound(s) && a in s.arbiters && s.arbiters[a].openVotes == 0
    ensures forall id <- s.rounds :: !s.rounds[id].settled ==> a !in s.rounds[id].panel
  {
    forall id | id in s.rounds ensures !s.rounds[id].settled ==> a !in s.rounds[id].panel {
      TotalCovers(s.rounds, id, Sits(a));
    }
  }

  lemma Leaving(s: State, a: Address)
    requires Sound(s) && Deregister(s, a).Done?
    ensures Sound(Deregister(s, a).state)
  {
    var s' := Deregister(s, a).state;
    KeptIs(s.list, a);
    IdleDoNotSit(s, a);
    TotalSplit(s.arbiters, a, Staked());
  }

  /** An idle arbiter always gets its whole bond back. */
  lemma ExitPaid(s: State, a: Address)
    requires Sound(s) && a in s.arbiters && s.arbiters[a].openVotes == 0
    ensures Deregister(s, a).Done?
    ensures Deregister(s, a).state.Balance(a) == s.Balance(a) + s.arbiters[a].bond
    ensures a !in Deregister(s, a).state.arbiters
  {
    TotalCovers(s.arbiters, a, Staked());
  }

  // ----- Opening a round -----

  lemma {:induction false} LockedOne(arbiters: map<Address, Arbiter>, panel: seq<Address>, a: Address)
    requires Seated(arbiters, panel) && NoRepeats(panel) && a in arbiters
    ensures Locked(arbiters, panel)[a]
              == arbiters[a].(openVotes := arbiters[a].openVotes + if a in panel then 1 else 0)
  {
    if panel != [] {
      var front, last := panel[..|panel| - 1], panel[|panel| - 1];
      assert panel == front + [last];
      assert last !in front && last in panel;
      LockedOne(arbiters, front, a);
    }
  }

  /** What a successful call to `open_vote` records. */
  lemma Drawn(s: State, now: nat, id: DisputeId, parties: Option<Parties>, draw: nat -> nat) returns (r: Round)
    requires Sound(s) && OpenVote(s, now, id, parties, draw).Done?
    ensures Balanced(r) && Seated(s.arbiters, r.panel) && !r.settled && id !in s.rounds && r.votes == map[]
    ensures OpenVote(s, now, id, parties, draw).state
              == s.(arbiters := Locked(s.arbiters, r.panel), rounds := s.rounds[id := r])
    ensures parties.Some? && forall a <- r.panel :: May(parties.value, a) && s.arbiters[a].bond >= s.config.value.bondAmount
  {
    var c := s.config.value;
    var eligible := Eligible(s, parties.value, s.list, c.bondAmount);
    var k := Min(c.panelSize, |eligible|);
    EligibleIs(s, parties.value, s.list, c.bondAmount);
    PanelIs(eligible, draw, k);
    MajorityThreshold(c.threshold, c.panelSize, k);
    r := Round(Shuffled(eligible, draw, k)[..k], ScaledThreshold(c.threshold, c.panelSize, k), now, map[], false);
  }

  /** A fresh round is recorded and its members locked. */
  lemma Seating(s: State, s': State, id: DisputeId, r: Round)
    requires Sound(s) && id !in s.rounds
    requires Balanced(r) && Seated(s.arbiters, r.panel) && !r.settled
    requires s' == s.(arbiters := Locked(s.arbiters, r.panel), rounds := s.rounds[id := r])
    requires s.config.Some?
    ensures Sound(s')
  {
    forall a | a in s.arbiters
      ensures s'.arbiters[a].bond == s.arbiters[a].bond
      ensures s'.arbiters[a].openVotes == Total(s'.rounds, Sits(a))
    {
      LockedOne(s.arbiters, r.panel, a);
      TotalUpdate(s.rounds, id, r, Sits(a));
    }
    TotalAgree(s.arbiters, s'.arbiters, Staked());
  }

  lemma Opening(s: State, now: nat, id: DisputeId, parties: Option<Parties>, draw: nat -> nat)
    requires Sound(s) && OpenVote(s, now, id, parties, draw).Done?
    ensures Sound(OpenVote(s, now, id, parties, draw).state)
  {
    var r := Drawn(s, now, id, parties, draw);
    Seating(s, OpenVote(s, now, id, parties, draw).state, id, r);
  }

  // ----- Settling a round -----

  lemma CutWithin(bond: int)
    requires bond >= 0
    ensures 0 <= Cut(bond) <= bond / 10
    ensures Cut(bond) == bond / 10
  {
  }

  lemma {:induction false} ReleasedOne(arbiters: map<Address, Arbiter>, r: Round, panel: seq<Address>, verdict: Option<Vote>, a: Address)
    requires Seated(arbiters, panel) && NoRepeats(panel) && a in arbiters
    ensures Released(arbiters, r, panel, verdict)[a] == if a !in panel then arbiters[a]
              else Arbiter(arbiters[a].bond - Loss(r, arbiters[a], a, verdict), SatDec(arbiters[a].openVotes))
  {
    if panel != [] {
      var front, last := panel[..|panel| - 1], panel[|panel| - 1];
      assert panel == front + [last];
      assert last !in front && last in panel;
      ReleasedOne(arbiters, r, front, verdict, a);
    }
  }

  function SatDec(n: nat): nat { if n == 0 then 0 else n - 1 }

  lemma {:induction false} ReleasedTotal(arbiters: map<Address, Arbiter>, r: Round, panel: seq<Address>, verdict: Option<Vote>)
    requires Seated(arbiters, panel)
    ensures Total(Released(arbiters, r, panel, verdict), Staked())
              == Total(arbiters, Staked()) - SlashedTotal(arbiters, r, panel, verdict)
  {
    if panel != [] {
      var front, a := panel[..|panel| - 1], panel[|panel| - 1];
      assert a in panel;
      ReleasedTotal(arbiters, r, front, verdict);
      var m := Released(arbiters, r, front, verdict);
      TotalUpdate(m, a, Released(arbiters, r, panel, verdict)[a], Staked());
    }
  }

  lemma {:induction false} RewardedAt(arbiters: map<Address, Arbiter>, winners: seq<Address>, share: int, dust: int, a: Address)
    requires Seated(arbiters, winners) && NoRepeats(winners) && a in arbiters
    ensures Rewarded(arbiters, winners, share, dust)[a] == if a !in winners then arbiters[a]
              else arbiters[a].(bond := arbiters[a].bond + share + if a == winners[0] then dust else 0)
  {
    if winners != [] {
      var front, last := winners[..|winners| - 1], winners[|winners| - 1];
      assert winners == front + [last];
      assert last !in front && last in winners;
      RewardedAt(arbiters, front, share, dust, a);
    }
  }

  lemma {:induction false} RewardedTotal(arbiters: map<Address, Arbiter>, winners: seq<Address>, share: int, dust: int)
    requires Seated(arbiters, winners)
    ensures Total(Rewarded(arbiters, winners, share, dust), Staked())
              == Total(arbiters, Staked()) + share * |winners| + if winners == [] then 0 else dust
  {
    if winners != [] {
      var front, a := winners[..|winners| - 1], winners[|winners| - 1];
      assert a in winners;
      RewardedTotal(arbiters, front, share, dust);
      var m := Rewarded(arbiters, front, share, dust);
      TotalUpdate(m, a, Rewarded(arbiters, winners, share, dust)[a], Staked());
      assert share * |winners| == share * |front| + share;
    }
  }

  lemma {:induction false} WinnersDistinct(r: Round, panel: seq<Address>, v: Vote)
    requires NoRepeats(panel)
    ensures NoRepeats(Winners(r, panel, v))
  {
    if panel != [] {
      var front, last := panel[..|panel| - 1], panel[|panel| - 1];
      assert last !in front;
      WinnersDistinct(r, front, v);
      WinnersOnPanel(r, front, v);
    }
  }

  /** A tenth of the bond of every member not on the winning side. */
  ghost function Forfeits(before: map<Address, Arbiter>, r: Round, v: Vote): Address -> int {
    (a: Address) => if a in before && !Won(r, a, v) then before[a].bond / 10 else 0
  }

  lemma {:induction false} SlashedIs(arbiters: map<Address, Arbiter>, r: Round, panel: seq<Address>, v: Vote)
    requires Seated(arbiters, panel) && NoRepeats(panel)
    requires forall a <- arbiters :: arbiters[a].bond >= 0
    ensures SlashedTotal(arbiters, r, panel, Some(v)) == LogSum(panel, Forfeits(arbiters, r, v)) >= 0
  {
    if panel != [] {
      var front, last := panel[..|panel| - 1], panel[|panel| - 1];
      assert last in panel && last !in front;
      SlashedIs(arbiters, r, front, v);
      ReleasedOne(arbiters, r, front, Some(v), last);
      CutWithin(arbiters[last].bond);
    }
  }

  /** Each arbiter's bond after a tally with verdict `v`: a loser gives up a tenth,
      the winners share all that was given up equally, and the first of them also
      gets what does not divide. */
  ghost function BondAfter(before: map<Address, Arbiter>, r: Round, v: Vote, a: Address): int
    requires a in before && Winners(r, r.panel, v) != []
  {
    var winners, pot := Winners(r, r.panel, v), LogSum(r.panel, Forfeits(before, r, v));
    if a !in r.panel then before[a].bond
    else if !Won(r, a, v) then before[a].bond - before[a].bond / 10
    else before[a].bond + pot / |winners| + if a == winners[0] then pot % |winners| else 0
  }

  ghost predicate PaidOut(before: map<Address, Arbiter>, after: map<Address, Arbiter>, r: Round, v: Vote) {
    && Winners(r, r.panel, v) != [] && before.Keys == after.Keys
    && forall a <- before :: after[a].bond == BondAfter(before, r, v, a)
  }

  lemma ShareIs(slashed: int, n: nat)
    requires slashed >= 0 && n > 0
    ensures TruncDiv(slashed, n) == slashed / n && slashed - TruncDiv(slashed, n) * n == slashed % n
  {
  }

  lemma RedistributedTotal(arbiters: map<Address, Arbiter>, winners: seq<Address>, pot: int)
    requires Seated(arbiters, winners) && winners != [] && pot >= 0
    ensures Total(Redistributed(arbiters, winners, pot), Staked()) == Total(arbiters, Staked()) + pot
  {
    ShareIs(pot, |winners|);
    RewardedTotal(arbiters, winners, pot / |winners|, pot % |winners|);
  }

  /** The stages of a tally with a verdict. */
  lemma Stages(s: State, r: Round, v: Vote)
    requires Members(s) && Balanced(r) && Seated(s.arbiters, r.panel) && Verdict(r) == Some(v)
    ensures var winners, released := Winners(r, r.panel, v), Released(s.arbiters, r, r.panel, Some(v));
            && winners != [] && NoRepeats(winners) && Seated(released, winners)
            && (forall a :: a in winners <==> a in r.panel && Won(r, a, v))
            && SlashedTotal(s.arbiters, r, r.panel, Some(v)) == LogSum(r.panel, Forfeits(s.arbiters, r, v)) >= 0
            && Settled(s, r, Some(v)) == Redistributed(released, winners, LogSum(r.panel, Forfeits(s.arbiters, r, v)))
  {
    VerdictHasWinner(r);
    WinnersOnPanel(r, r.panel, v);
    WinnersDistinct(r, r.panel, v);
    SlashedIs(s.arbiters, r, r.panel, v);
  }

  lemma ReleasedAt(s: State, r: Round, v: Vote, a: Address)
    requires Members(s) && Seated(s.arbiters, r.panel) && NoRepeats(r.panel) && a in s.arbiters
    ensures var rec := Released(s.arbiters, r, r.panel, Some(v))[a];
            && rec.bond == s.arbiters[a].bond - (if a in r.panel && !Won(r, a, v) then s.arbiters[a].bond / 10 else 0)
            && rec.openVotes == if a in r.panel then SatDec(s.arbiters[a].openVotes) else s.arbiters[a].openVotes
  {
    ReleasedOne(s.arbiters, r, r.panel, Some(v), a);
    CutWithin(s.arbiters[a].bond);
  }

  lemma RedistributedAt(arbiters: map<Address, Arbiter>, winners: seq<Address>, pot: int, a: Address)
    requires Seated(arbiters, winners) && NoRepeats(winners) && winners != [] && pot >= 0 && a in arbiters
    ensures var rec := Redistributed(arbiters, winners, pot)[a];
            && rec.openVotes == arbiters[a].openVotes
            && rec.bond == arbiters[a].bond
                 + if a in winners then pot / |winners| + (if a == winners[0] then pot % |winners| else 0) else 0
  {
    ShareIs(pot, |winners|);
    RewardedAt(arbiters, winners, pot / |winners|, pot % |winners|, a);
  }

  lemma SettledOne(s: State, r: Round, v: Vote, a: Address)
    requires Members(s) && Balanced(r) && Seated(s.arbiters, r.panel) && Verdict(r) == Some(v) && a in s.arbiters
    ensures Winners(r, r.panel, v) != []
    ensures Settled(s, r, Some(v))[a].bond == BondAfter(s.arbiters, r, v, a)
    ensures Settled(s, r, Some(v))[a].openVotes
              == if a in r.panel then SatDec(s.arbiters[a].openVotes) else s.arbiters[a].openVotes
  {
    Stages(s, r, v);
    var pot := LogSum(r.panel, Forfeits(s.arbiters, r, v));
    ReleasedAt(s, r, v, a);
    RedistributedAt(Released(s.arbiters, r, r.panel, Some(v)), Winners(r, r.panel, v), pot, a);
  }

  lemma Redistributing(s: State, r: Round, v: Vote)
    requires Members(s) && Balanced(r) && Seated(s.arbiters, r.panel) && Verdict(r) == Some(v)
    ensures PaidOut(s.arbiters, Settled(s, r, Some(v)), r, v)
    ensures Total(Settled(s, r, Some(v)), Staked()) == Total(s.arbiters, Staked())
    ensures forall a <- s.arbiters :: Settled(s, r, Some(v))[a].openVotes
              == if a in r.panel then SatDec(s.arbiters[a].openVotes) else s.arbiters[a].openVotes
  {
    var after := Settled(s, r, Some(v));
    forall a | a in s.arbiters
      ensures Winners(r, r.panel, v) != [] && after[a].bond == BondAfter(s.arbiters, r, v, a)
      ensures after[a].openVotes == if a in r.panel then SatDec(s.arbiters[a].openVotes) else s.arbiters[a].openVotes
    {
      SettledOne(s, r, v, a);
    }
    Stages(s, r, v);
    ReleasedTotal(s.arbiters, r, r.panel, Some(v));
    RedistributedTotal(Released(s.arbiters, r, r.panel, Some(v)), Winners(r, r.panel, v),
                       LogSum(r.panel, Forfeits(s.arbiters, r, v)));
  }

  /** A round closed without a verdict costs nobody anything. */
  lemma Closing(s: State, r: Round)
    requires Balanced(r) && Seated(s.arbiters, r.panel)
    ensures forall a <- s.arbiters :: Settled(s, r, None)[a].bond == s.arbiters[a].bond
    ensures forall a <- s.arbiters :: Settled(s, r, None)[a].openVotes
              == if a in r.panel then SatDec(s.arbiters[a].openVotes) else s.arbiters[a].openVotes
    ensures Total(Settled(s, r, None), Staked()) == Total(s.arbiters, Staked())
  {
    forall a | a in s.arbiters
      ensures Settled(s, r, None)[a] == if a !in r.panel then s.arbiters[a]
                else Arbiter(s.arbiters[a].bond, SatDec(s.arbiters[a].openVotes))
    {
      ReleasedOne(s.arbiters, r, r.panel, None, a);
    }
    TotalAgree(s.arbiters, Settled(s, r, None), Staked());
  }

  /** Settling a round gives up exactly its seats. */
  lemma Vacating(s: State, s': State, id: DisputeId)
    requires Sound(s) && id in s.rounds && !s.rounds[id].settled
    requires s'.arbiters.Keys == s.arbiters.Keys
    requires s' == s.(arbiters := s'.arbiters, rounds := s.rounds[id := s.rounds[id].(settled := true)])
    requires forall a <- s.arbiters :: s'.arbiters[a].openVotes
               == if a in s.rounds[id].panel then SatDec(s.arbiters[a].openVotes) else s.arbiters[a].openVotes
    ensures Seats(s')
  {
    var r := s.rounds[id];
    forall a | a in s'.arbiters ensures s'.arbiters[a].openVotes == Total(s'.rounds, Sits(a)) {
      TotalCovers(s.rounds, id, Sits(a));
      TotalUpdate(s.rounds, id, r.(settled := true), Sits(a));
    }
  }

  /** A loser keeps most of its bond and a winner all of it. */
  lemma PaidOutKeeps(before: map<Address, Arbiter>, r: Round, v: Vote, a: Address)
    requires a in before && Winners(r, r.panel, v) != []
    requires forall b <- before :: before[b].bond >= 0
    ensures BondAfter(before, r, v, a) >= before[a].bond - before[a].bond / 10 >= 0
  {
    PotNonNegative(before, r, r.panel, v);
  }

  lemma {:induction false} PotNonNegative(before: map<Address, Arbiter>, r: Round, panel: seq<Address>, v: Vote)
    requires forall b <- before :: before[b].bond >= 0
    ensures LogSum(panel, Forfeits(before, r, v)) >= 0
  {
    if panel != [] { PotNonNegative(before, r, panel[..|panel| - 1], v); }
  }

  /** What settling a round does to the arbiters, with or without a verdict. */
  ghost predicate Discharged(s: State, after: map<Address, Arbiter>, r: Round) {
    && after.Keys == s.arbiters.Keys
    && Total(after, Staked()) == Total(s.arbiters, Staked())
    && (forall a <- s.arbiters :: after[a].openVotes
          == if a in r.panel then SatDec(s.arbiters[a].openVotes) else s.arbiters[a].openVotes)
    && (forall a <- after :: after[a].bond >= 0)
  }

  lemma Discharging(s: State, r: Round)
    requires Members(s) && Balanced(r) && Seated(s.arbiters, r.panel)
    ensures Discharged(s, Settled(s, r, Verdict(r)), r)
  {
    if Verdict(r).Some? {
      var v := Verdict(r).value;
      Redistributing(s, r, v);
      forall a | a in s.arbiters ensures Settled(s, r, Some(v))[a].bond >= 0 { PaidOutKeeps(s.arbiters, r, v, a); }
    } else {
      Closing(s, r);
    }
  }

  lemma Tallying(s: State, now: nat, id: DisputeId, accepts: bool)
    requires Sound(s) && Tally(s, now, id, accepts).Done?
    ensures Sound(Tally(s, now, id, accepts).state)
  {
    var s', r := Tally(s, now, id, accepts).state, s.rounds[id];
    Discharging(s, r);
    Concluded(s, s', id);
  }

  lemma Concluded(s: State, s': State, id: DisputeId)
    requires Sound(s) && id in s.rounds && !s.rounds[id].settled
    requires Discharged(s, s'.arbiters, s.rounds[id])
    requires s' == s.(arbiters := s'.arbiters, rounds := s.rounds[id := s.rounds[id].(settled := true)])
    ensures Sound(s')
  {
    Vacating(s, s', id);
  }

  /** A tally with a verdict pays out exactly as stated, and one without costs nobody anything. */
  lemma TallyPays(s: State, now: nat, id: DisputeId, accepts: bool)
    requires Sound(s) && Tally(s, now, id, accepts).Done?
    ensures var s', r := Tally(s, now, id, accepts).state, s.rounds[id];
            match Verdict(r)
            case Some(v) => PaidOut(s.arbiters, s'.arbiters, r, v)
            case None => forall a <- s.arbiters :: a in s'.arbiters && s'.arbiters[a].bond == s.arbiters[a].bond
  {
    var r := s.rounds[id];
    if Verdict(r).Some? { Redistributing(s, r, Verdict(r).value); } else { Closing(s, r); }
  }

  // ----- Every run -----

  lemma Initializing(s: State, config: Config)
    requires Sound(s) && Initialize(s, config).Done?
    ensures Sound(Initialize(s, config).state)
  {
  }

  lemma Voting(s: State, now: nat, a: Address, id: DisputeId, v: Vote)
    requires Sound(s) && CastVote(s, now, a, id, v).Done?
    ensures Sound(CastVote(s, now, a, id, v).state)
  {
    var s' := CastVote(s, now, a, id, v).state;
    forall b | b in s'.arbiters ensures s'.arbiters[b].openVotes == Total(s'.rounds, Sits(b)) {
      TotalUpdate(s.rounds, id, s'.rounds[id], Sits(b));
    }
  }

  /** Whatever is called, in any order and with any rounds interleaved. */
  lemma SoundStep(s: State, c: Call)
    requires Sound(s)
    ensures Sound(After(s, c))
  {
    if Perform(s, c.now, c.action).Done? {
      match c.action
      case DoRegister(a) => Joining(s, a);
      case DoDeregister(a) => Leaving(s, a);
      case DoOpenVote(id, parties, draw) => Opening(s, c.now, id, parties, draw);
      case DoTally(id, accepts) => Tallying(s, c.now, id, accepts);
      case DoInitialize(config) => Initializing(s, config);
      case DoVote(a, id, v) => Voting(s, c.now, a, id, v);
      case Fund(a, amount) =>
    }
  }

  /** At all times the panel holds exactly the bonds of its arbiters, lists each of
      them once, and counts each one's unsettled rounds. */
  lemma {:induction false} AlwaysSound(s: State, calls: seq<Call>)
    requires Sound(s)
    ensures Sound(Run(s, calls))
  {
    if calls != [] {
      AlwaysSound(s, calls[..|calls| - 1]);
      SoundStep(Run(s, calls[..|calls| - 1]), calls[|calls| - 1]);
    }
  }

  /** From an empty panel, whatever rounds and exits are interleaved: the tokens held
      are the arbiters' bonds, no bond is negative, and an arbiter's open votes are
      the unsettled rounds it sits in, every one of whose members is registered. */
  lemma BondsConserved(funds: map<Address, int>, calls: seq<Call>)
    ensures var s := Run(EMPTY.(wallets := funds), calls);
            && s.held == Total(s.arbiters, Staked())
            && (forall a <- s.arbiters :: s.arbiters[a].bond >= 0 && s.arbiters[a].openVotes == Total(s.rounds, Sits(a)))
            && NoRepeats(s.list) && (forall a :: a in s.list <==> a in s.arbiters)
            && (forall id <- s.rounds, a <- s.rounds[id].panel :: !s.rounds[id].settled ==> a in s.arbiters)
  {
    EmptySound(funds);
    AlwaysSound(EMPTY.(wallets := funds), calls);
    var s := Run(EMPTY.(wallets := funds), calls);
    forall id, a | id in s.rounds && a in s.rounds[id].panel && !s.rounds[id].settled ensures a in s.arbiters {
      assert Seated(s.arbiters, s.rounds[id].panel);
    }
  }

  lemma EmptySound(funds: map<Address, int>)
    ensures Sound(EMPTY.(wallets := funds))
  {
  }

  /** No call ever misses an arbiter record or the configuration of a round, nor
      fails to pay a bond back. */
  lemma NothingMissing(s: State, c: Call)
    requires Sound(s)
    ensures Perform(s, c.now, c.action) != Reverted(PanelShort)
    ensures c.action.DoTally? || c.action.DoOpenVote? ==> Perform(s, c.now, c.action) != Reverted(NotRegistered)
    ensures c.action.DoTally? ==> Perform(s, c.now, c.action) != Reverted(NotInitialized)
  {
    if c.action.DoTally? && c.action.id in s.rounds && !s.rounds[c.action.id].settled {
      var r := s.rounds[c.action.id];
      ObstacleIs(s.arbiters, r, r.panel, Verdict(r));
    }
    if c.action.DoDeregister? && c.action.a in s.arbiters {
      TotalCovers(s.arbiters, c.action.a, Staked());
    }
    if c.action.DoOpenVote? && s.config.Some? && c.action.parties.Some? {
      SeatsExist(s, c.action.parties.value, c.action.draw);
    }
  }

  lemma SeatsExist(s: State, p: Parties, draw: nat -> nat)
    requires Members(s) && s.config.Some?
    ensures Loadable(s, p)
    ensures var eligible := Eligible(s, p, s.list, s.config.value.bondAmount);
            var k := Min(s.config.value.panelSize, |eligible|);
            Seated(s.arbiters, Shuffled(eligible, draw, k)[..k])
  {
    var eligible := Eligible(s, p, s.list, s.config.value.bondAmount);
    EligibleIs(s, p, s.list, s.config.value.bondAmount);
    PanelIs(eligible, draw, Min(s.config.value.panelSize, |eligible|));
  }

  // ----- Verdicts are final -----

  /** A later state of a round: same panel, same bar, no vote withdrawn or changed. */
  ghost predicate Extends(r: Round, r': Round) {
    && r'.panel == r.panel && r'.threshold == r.threshold && r'.openedAt == r.openedAt
    && (forall a <- r.votes :: a in r'.votes && r'.votes[a] == r.votes[a])
    && (r.settled ==> r' == r)
  }

  lemma RoundKept(s: State, c: Call, id: DisputeId)
    requires id in s.rounds
    ensures id in After(s, c).rounds && Extends(s.rounds[id], After(s, c).rounds[id])
  {
  }

  lemma {:induction false} RoundsKept(s: State, calls: seq<Call>, id: DisputeId)
    requires id in s.rounds
    ensures id in Run(s, calls).rounds && Extends(s.rounds[id], Run(s, calls).rounds[id])
  {
    if calls != [] {
      RoundsKept(s, calls[..|calls| - 1], id);
      RoundKept(Run(s, calls[..|calls| - 1]), calls[|calls| - 1], id);
    }
  }

  /** Once an outcome has the votes, it is the verdict for ever: whatever is called
      later, no tally of that round returns another, and a settled round stays as it is. */
  lemma VerdictStable(s: State, calls: seq<Call>, id: DisputeId, v: Vote)
    requires Sound(s) && id in s.rounds && Verdict(s.rounds[id]) == Some(v)
    ensures id in Run(s, calls).rounds && Verdict(Run(s, calls).rounds[id]) == Some(v)
  {
    var s' := Run(s, calls);
    AlwaysSound(s, calls);
    RoundsKept(s, calls, id);
    CountGrows(s.rounds[id].votes, s'.rounds[id].votes, v);
    VerdictExclusive(s.rounds[id]);
    VerdictExclusive(s'.rounds[id]);
  }

  // ----- When a round can be closed -----

  /** Every loser's tenth can be computed. */
  predicate Computable(s: State, r: Round, v: Vote)
    requires Seated(s.arbiters, r.panel)
  {
    forall a <- r.panel :: Won(r, a, v) || FitsI128(s.arbiters[a].bond * CUT_BPS)
  }

  lemma {:induction false} ObstacleIs(arbiters: map<Address, Arbiter>, r: Round, panel: seq<Address>, verdict: Option<Vote>)
    requires Seated(arbiters, panel) && NoRepeats(panel)
    ensures Obstacle(arbiters, r, panel, verdict) in {None, Some(Overflow)}
    ensures Obstacle(arbiters, r, panel, verdict).None?
      <==> verdict.None? || forall a <- panel :: Won(r, a, verdict.value) || FitsI128(arbiters[a].bond * CUT_BPS)
  {
    if panel != [] {
      var front, last := panel[..|panel| - 1], panel[|panel| - 1];
      assert panel == front + [last];
      assert last !in front && last in panel;
      ObstacleIs(arbiters, r, front, verdict);
      ReleasedOne(arbiters, r, front, verdict, last);
    }
  }

  /** After the voting window, anyone can settle a round exactly when it has no
      verdict or the settlement contract still takes the one it has (and the losers'
      cuts can be computed). */
  lemma TallyEnds(s: State, now: nat, id: DisputeId, accepts: bool)
    requires Sound(s) && id in s.rounds && !s.rounds[id].settled
    requires now >= s.rounds[id].openedAt + VOTE_WINDOW
    ensures Seated(s.arbiters, s.rounds[id].panel)
    ensures Tally(s, now, id, accepts).Done?
      <==> (Verdict(s.rounds[id]).None?
            || (accepts && Computable(s, s.rounds[id], Verdict(s.rounds[id]).value)))
  {
    ObstacleIs(s.arbiters, s.rounds[id], s.rounds[id].panel, Verdict(s.rounds[id]));
  }

  lemma StillOpen(s: State, c: Call, id: DisputeId)
    requires id in s.rounds && !s.rounds[id].settled && Verdict(s.rounds[id]).Some?
    requires c.action.DoTally? && c.action.id == id ==> !c.action.accepts
    ensures id in After(s, c).rounds && !After(s, c).rounds[id].settled
  {
  }

  /** The members of an open round are registered and cannot leave. */
  lemma MembersLocked(s: State, id: DisputeId, a: Address)
    requires Sound(s) && id in s.rounds && !s.rounds[id].settled && a in s.rounds[id].panel
    ensures a in s.arbiters && Deregister(s, a) == Reverted(HasOpenVotes)
  {
    assert Seated(s.arbiters, s.rounds[id].panel);
    TotalCovers(s.rounds, id, Sits(a));
  }

  lemma {:induction false} OpenForever(s: State, calls: seq<Call>, id: DisputeId)
    requires Sound(s) && id in s.rounds && !s.rounds[id].settled && Verdict(s.rounds[id]).Some?
    requires forall c <- calls :: c.action.DoTally? && c.action.id == id ==> !c.action.accepts
    ensures id in Run(s, calls).rounds && !Run(s, calls).rounds[id].settled
  {
    if calls != [] {
      var front, last := calls[..|calls| - 1], calls[|calls| - 1];
      OpenForever(s, front, id);
      VerdictStable(s, front, id, Verdict(s.rounds[id]).value);
      assert last in calls;
      StillOpen(Run(s, front), last, id);
    }
  }

  /** A round with a verdict the settlement contract no longer takes, for instance
      because the dispute timed out there, stays open for ever: its members can
      never leave with their bonds. */
  lemma RefusedForever(s: State, calls: seq<Call>, id: DisputeId)
    requires Sound(s) && id in s.rounds && !s.rounds[id].settled && Verdict(s.rounds[id]).Some?
    requires forall c <- calls :: c.action.DoTally? && c.action.id == id ==> !c.action.accepts
    ensures id in Run(s, calls).rounds && !Run(s, calls).rounds[id].settled
    ensures forall a <- s.rounds[id].panel ::
              a in Run(s, calls).arbiters && Deregister(Run(s, calls), a) == Reverted(HasOpenVotes)
  {
    AlwaysSound(s, calls);
    RoundsKept(s, calls, id);
    OpenForever(s, calls, id);
    var s' := Run(s, calls);
    forall a | a in s.rounds[id].panel
      ensures a in s'.arbiters && Deregister(s', a) == Reverted(HasOpenVotes)
    {
      MembersLocked(s', id, a);
    }
  }
}
