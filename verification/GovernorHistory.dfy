/**
  How a proposal came to be what it is: who may move it, when, and to what; with which
  power each vote was counted; and that stake synced after the snapshot never votes.
 */
module GovernorHistory {
  import opened Wrappers
  import opened SettlementMath
  import opened GovernorModel
  import opened GovernorTheorems

  /** The power the account had at `ledger` by everything ever synced for it, or none once
      the newest 64 syncs all came later. */
  function PowerThen(s: State, a: Address, ledger: nat): int
    requires s.config.Some?
  {
    var full := ListAt(s.synced, s.config.value.registry, a);
    if full != [] && full[if |full| <= 64 then 0 else |full| - 64].ledger <= ledger then PowerAt(full, ledger) else 0
  }

  lemma PowerIs(s: State, a: Address, ledger: nat)
    requires s.config.Some? && Kept(s, (s.config.value.registry, a))
    ensures VotingPower(s, s.config.value.registry, a, ledger) == PowerThen(s, a, ledger)
  {
    var r := s.config.value.registry;
    SearchRefinesHistory(ListAt(s.checkpoints, r, a), ListAt(s.synced, r, a), ledger);
  }

  // ----- The arrows -----

  predicate AboutProposal(x: Action) { x.DoCancel? || x.DoVote? || x.DoQueue? || x.DoExecute? }

  /** Who may move proposal `p` by call `x`, and when. */
  predicate May(s: State, x: Action, p: Proposal)
    requires s.config.Some?
  {
    var c := s.config.value;
    match x
    case DoCancel(caller, _) =>
      !p.executed && !p.canceled && (caller == c.timelock || (caller == p.proposer && s.ledger < p.snapshot + c.votingDelay))
    case DoVote(a, id, _) =>
      && !p.canceled && p.snapshot + c.votingDelay <= s.ledger <= p.deadline && (id, a) !in s.votes
      && PowerThen(s, a, p.snapshot) > 0
    case DoQueue(_, accepts) =>
      && !p.canceled && !p.executed && p.eta == 0 && accepts
      && s.ledger > p.deadline && s.ledger >= p.snapshot + c.votingDelay
      && p.forVotes > p.againstVotes && p.forVotes + p.againstVotes + p.abstainVotes >= c.quorum
    case DoExecute(_, accepts) => !p.executed && p.eta != 0 && s.ledger >= p.eta && accepts
    case _ => false
  }

  function Counting(p: Proposal, side: Side, n: int): Proposal {
    match side
    case For => p.(forVotes := p.forVotes + n)
    case Against => p.(againstVotes := p.againstVotes + n)
    case Abstain => p.(abstainVotes := p.abstainVotes + n)
  }

  /** What it becomes. */
  function Next(s: State, x: Action, p: Proposal): Proposal
    requires s.config.Some?
  {
    match x
    case DoCancel(_, _) => p.(canceled := true)
    case DoVote(a, _, side) =>
      Counting(p, side, PowerThen(s, a, p.snapshot))
    case DoQueue(_, _) => p.(eta := s.ledger + s.config.value.votingDelay)
    case DoExecute(_, _) => p.(executed := true)
    case _ => p
  }

  /** The call was allowed and changed its proposal, and at most its own ballot, as the arrow says. */
  ghost predicate Follows(s: State, x: Action, o: Outcome)
    requires AboutProposal(x)
  {
    && o.Done? && s.config.Some? && x.id in s.proposals && May(s, x, s.proposals[x.id])
    && o.state.proposals == s.proposals[x.id := Next(s, x, s.proposals[x.id])]
    && o.state.votes == (if x.DoVote? then s.votes[(x.id, x.a) := Ballot(PowerThen(s, x.a, s.proposals[x.id].snapshot), x.side)]
                         else s.votes)
    && o.state.synced == s.synced && o.state.config == s.config && o.state.count == s.count
  }

  lemma VoteIsCounted(s: State, x: Action)
    requires x.DoVote? && Perform(s, x).Done?
    ensures s.config.Some? && x.id in s.proposals
    ensures var c, p := s.config.value, s.proposals[x.id];
            var n := VotingPower(s, c.registry, x.a, p.snapshot);
            && !p.canceled && p.snapshot + c.votingDelay <= s.ledger <= p.deadline && (x.id, x.a) !in s.votes && n > 0
            && Perform(s, x).state == s.(proposals := s.proposals[x.id := Counting(p, x.side, n)],
                                         votes := s.votes[(x.id, x.a) := Ballot(n, x.side)])
  {
  }

  lemma VoteArrow(s: State, x: Action, o: Outcome)
    requires x.DoVote? && o.Done? && s.config.Some? && x.id in s.proposals
    requires var c, p := s.config.value, s.proposals[x.id];
             var n := PowerThen(s, x.a, p.snapshot);
             && !p.canceled && p.snapshot + c.votingDelay <= s.ledger <= p.deadline && (x.id, x.a) !in s.votes && n > 0
             && o.state == s.(proposals := s.proposals[x.id := Counting(p, x.side, n)],
                              votes := s.votes[(x.id, x.a) := Ballot(n, x.side)])
    ensures Follows(s, x, o)
  {
  }

  lemma VoteFollows(s: State, x: Action)
    requires Sound(s) && x.DoVote? && Perform(s, x).Done?
    ensures Follows(s, x, Perform(s, x))
  {
    VoteIsCounted(s, x);
    KeptAt(s, x.a);
    PowerIs(s, x.a, s.proposals[x.id].snapshot);
    VoteArrow(s, x, Perform(s, x));
  }

  lemma KeptAt(s: State, a: Address)
    requires Sound(s) && s.config.Some?
    ensures Kept(s, (s.config.value.registry, a))
  {
  }

  lemma CancelFollows(s: State, x: Action)
    requires x.DoCancel? && Perform(s, x).Done?
    ensures Follows(s, x, Perform(s, x))
  {
  }

  lemma QueueFollows(s: State, x: Action)
    requires (x.DoQueue? || x.DoExecute?) && Perform(s, x).Done?
    ensures Follows(s, x, Perform(s, x))
  {
  }

  /** A call on a proposal goes through only along an arrow. */
  lemma CallFollows(s: State, x: Action)
    requires Sound(s) && AboutProposal(x) && Perform(s, x).Done?
    ensures Follows(s, x, Perform(s, x))
  {
    if x.DoVote? {
      VoteFollows(s, x);
    } else if x.DoCancel? {
      CancelFollows(s, x);
    } else {
      QueueFollows(s, x);
    }
  }

  /** Whatever an arrow allows goes through, unless a number leaves its type. */
  lemma NothingElseRefuses(s: State, x: Action)
    requires Sound(s) && AboutProposal(x) && s.config.Some? && x.id in s.proposals && May(s, x, s.proposals[x.id])
    ensures Perform(s, x).Done? || Perform(s, x).error in {Overflow, DeadlineOverflow, VoteTallyOverflow}
  {
    if x.DoVote? {
      KeptAt(s, x.a);
      PowerIs(s, x.a, s.proposals[x.id].snapshot);
    }
  }

  /** Only an account with the threshold's power at that ledger proposes; the proposal gets
      the next number, this ledger as its snapshot and its deadline a delay and a period later. */
  predicate MayPropose(s: State, x: Action)
    requires x.DoPropose? && s.config.Some?
  {
    x.target != s.address && PowerThen(s, x.a, s.ledger) >= s.config.value.threshold
  }

  function Proposed(s: State, x: Action): Proposal
    requires x.DoPropose? && s.config.Some?
  {
    var c := s.config.value;
    Proposal(x.a, s.ledger, s.ledger + c.votingDelay + c.votingPeriod, 0, 0, 0, 0, false, false, x.target)
  }

  lemma ProposeFollows(s: State, x: Action)
    requires Sound(s) && x.DoPropose?
    ensures Perform(s, x).Done? ==>
              && s.config.Some? && MayPropose(s, x)
              && Perform(s, x).state == s.(proposals := s.proposals[s.count := Proposed(s, x)], count := s.count + 1)
    ensures s.config.Some? && MayPropose(s, x) ==> Perform(s, x).Done? || Perform(s, x).error == DeadlineOverflow
  {
    if s.config.Some? {
      KeptAt(s, x.a);
      PowerIs(s, x.a, s.ledger);
    }
  }

  /** Only the first valid initialisation and later the admin set the configuration; what the
      admin sets is not checked. */
  lemma ConfigMoves(s: State, c: Call)
    ensures var s', x := After(s, c), c.action;
            if x.DoInitialize? && s.config.None? && x.config.Valid() then s'.config == Some(x.config) && s'.admin == x.admin
            else if x.DoSetConfig? && s.config.Some? && x.caller == s.admin
            then s'.config == Some(x.config) && s'.admin == s.admin
            else s'.config == s.config && s'.admin == s.admin
  {
    var s1 := Later(s, c.wait);
    match c.action
    case DoVote(a, id, side) => if Perform(s1, c.action).Done? { VoteIsCounted(s1, c.action); }
    case _ =>
  }

  /** What one call did to proposal `id`. */
  ghost predicate Lawful(s: State, c: Call, id: ProposalId) {
    var s1, s' := Later(s, c.wait), After(s, c);
    if id in s.proposals then
      && id in s'.proposals
      && (s'.proposals[id] != s.proposals[id] ==>
            && AboutProposal(c.action) && c.action.id == id && s1.config.Some? && May(s1, c.action, s.proposals[id])
            && s'.proposals[id] == Next(s1, c.action, s.proposals[id]))
    else if id in s'.proposals then
      && c.action.DoPropose? && id == s.count && s1.config.Some? && MayPropose(s1, c.action)
      && s'.proposals[id] == Proposed(s1, c.action)
    else true
  }

  /** The other calls leave proposals and ballots alone. */
  lemma OthersLawful(s: State, c: Call, id: ProposalId)
    requires !AboutProposal(c.action) && !c.action.DoPropose?
    ensures After(s, c).proposals == s.proposals && After(s, c).votes == s.votes
  {
    var s1 := Later(s, c.wait);
    match c.action
    case DoInitialize(admin, config) => assert Perform(s1, c.action) == Initialize(s1, admin, config);
    case DoSetConfig(caller, config) => assert Perform(s1, c.action) == SetConfig(s1, caller, config);
    case DoSync(a, bond) => assert Perform(s1, c.action) == SyncPower(s1, a, bond);
  }

  /** Whatever the call, every proposal stays, moves along an arrow, or is new. */
  lemma EveryMoveLawful(s: State, c: Call, id: ProposalId)
    requires Sound(s)
    ensures Lawful(s, c, id)
  {
    var s1 := Later(s, c.wait);
    Waiting(s, c.wait);
    if id in s.proposals { assert ProposalOk(s, id, s.proposals[id]); }
    if AboutProposal(c.action) {
      if Perform(s1, c.action).Done? { CallFollows(s1, c.action); }
    } else if c.action.DoPropose? {
      ProposeFollows(s1, c.action);
    } else {
      OthersLawful(s, c, id);
    }
  }

  // ----- Ballots -----

  /** Call `c` in state `s` casts ballot `b`, with the power at the snapshot as then known. */
  ghost predicate CastIn(s: State, c: Call, id: ProposalId, a: Address, b: Ballot) {
    && c.action == DoVote(a, id, b.side)
    && var s1 := Later(s, c.wait);
    && s1.config.Some? && id in s1.proposals && May(s1, c.action, s1.proposals[id])
    && b.power == PowerAt(ListAt(s1.synced, s1.config.value.registry, a), s1.proposals[id].snapshot)
  }

  /** Ballot `b` was cast by call `n` of the run. */
  ghost predicate CastBy(s: State, calls: seq<Call>, n: nat, id: ProposalId, a: Address, b: Ballot) {
    n < |calls| && CastIn(Run(s, calls[..n]), calls[n], id, a, b)
  }

  /** A ballot on record stays as it is; a new one was cast by this call. */
  lemma VoteAdds(s: State, c: Call, id: ProposalId, a: Address)
    requires Sound(s) && (id, a) in After(s, c).votes
    ensures (id, a) in s.votes ==> After(s, c).votes[(id, a)] == s.votes[(id, a)]
    ensures (id, a) !in s.votes ==> CastIn(s, c, id, a, After(s, c).votes[(id, a)])
  {
    var s1 := Later(s, c.wait);
    Waiting(s, c.wait);
    if AboutProposal(c.action) {
      if Perform(s1, c.action).Done? {
        CallFollows(s1, c.action);
        FollowsAdds(s, c, Perform(s1, c.action), id, a);
      }
    } else if c.action.DoPropose? {
      ProposeFollows(s1, c.action);
    } else {
      OthersLawful(s, c, id);
    }
  }

  lemma FollowsAdds(s: State, c: Call, o: Outcome, id: ProposalId, a: Address)
    requires AboutProposal(c.action) && Follows(Later(s, c.wait), c.action, o) && (id, a) in o.state.votes
    ensures (id, a) in s.votes ==> o.state.votes[(id, a)] == s.votes[(id, a)]
    ensures (id, a) !in s.votes ==> CastIn(s, c, id, a, o.state.votes[(id, a)])
  {
  }

  /** In every run, every ballot on record was cast by one call, and counts what all syncs
      up to that call gave the voter at the proposal's snapshot. */
  lemma {:induction false} BallotsAreSnapshotPower(address: Address, calls: seq<Call>, id: ProposalId, a: Address)
    ensures var s := Run(Deployed(address), calls);
            (id, a) in s.votes ==> exists n: nat :: CastBy(Deployed(address), calls, n, id, a, s.votes[(id, a)])
  {
    var s0 := Deployed(address);
    if calls != [] && (id, a) in Run(s0, calls).votes {
      var front, last := calls[..|calls| - 1], calls[|calls| - 1];
      BallotsAreSnapshotPower(address, front, id, a);
      DeployedSound(address);
      AlwaysSound(s0, front);
      VoteAdds(Run(s0, front), last, id, a);
      BallotCast(s0, calls, id, a);
    }
  }

  lemma BallotCast(s: State, calls: seq<Call>, id: ProposalId, a: Address)
    requires calls != [] && (id, a) in Run(s, calls).votes
    requires var front := calls[..|calls| - 1];
             var votes, b := Run(s, front).votes, Run(s, calls).votes[(id, a)];
             if (id, a) in votes then votes[(id, a)] == b && exists n: nat :: CastBy(s, front, n, id, a, votes[(id, a)])
             else CastIn(Run(s, front), calls[|front|], id, a, b)
    ensures exists n: nat :: CastBy(s, calls, n, id, a, Run(s, calls).votes[(id, a)])
  {
    var front := calls[..|calls| - 1];
    if (id, a) in Run(s, front).votes {
      var n: nat :| CastBy(s, front, n, id, a, Run(s, front).votes[(id, a)]);
      assert front[..n] == calls[..n];
      assert CastBy(s, calls, n, id, a, Run(s, calls).votes[(id, a)]);
    } else {
      assert CastBy(s, calls, |front|, id, a, Run(s, calls).votes[(id, a)]);
    }
  }

  // ----- Late stake -----

  /** Nothing was synced for the account up to `ledger`, at any registry. */
  ghost predicate Unstaked(s: State, a: Address, ledger: nat) {
    forall r, c :: c in ListAt(s.synced, r, a) ==> c.ledger > ledger
  }

  lemma {:induction false} NoPowerThen(cps: seq<Checkpoint>, ledger: nat)
    requires forall c <- cps :: c.ledger > ledger
    ensures PowerAt(cps, ledger) == 0
  {
    if cps != [] { NoPowerThen(cps[..|cps| - 1], ledger); }
  }

  /** Whatever the call, an account's full history grows by what it synced, and by nothing else. */
  lemma EverySyncRecorded(s: State, c: Call, r: Address, a: Address)
    ensures ListAt(After(s, c).synced, r, a) == ListAt(s.synced, r, a) +
              (if c.action.DoSync? && c.action.a == a && s.config.Some? && s.config.value.registry == r
               then [Checkpoint(s.ledger + c.wait, c.action.bond)] else [])
  {
    if !c.action.DoSync? { NothingSynced(s, c); }
  }

  lemma SyncedLater(s: State, c: Call, a: Address, ledger: nat)
    requires Unstaked(s, a, ledger) && s.ledger + c.wait > ledger
    ensures Unstaked(After(s, c), a, ledger)
  {
    forall r, cp | cp in ListAt(After(s, c).synced, r, a) ensures cp.ledger > ledger {
      EverySyncRecorded(s, c, r, a);
    }
  }

  lemma NothingSynced(s: State, c: Call)
    requires !c.action.DoSync?
    ensures After(s, c).synced == s.synced
  {
    var s1 := Later(s, c.wait);
    match c.action
    case DoVote(a, id, side) => if Perform(s1, c.action).Done? { VoteIsCounted(s1, c.action); }
    case _ =>
  }

  lemma LateStakeStep(s: State, c: Call, id: ProposalId, a: Address, snapshot: nat)
    requires Sound(s) && id in s.proposals && s.proposals[id].snapshot == snapshot
    requires Unstaked(s, a, snapshot) && s.ledger + c.wait > snapshot && (id, a) !in s.votes
    ensures (id, a) !in After(s, c).votes && id in After(s, c).proposals && After(s, c).proposals[id].snapshot == snapshot
  {
    EveryMoveLawful(s, c, id);
    if (id, a) in After(s, c).votes {
      VoteAdds(s, c, id, a);
      LateNotCast(s, c, id, a, After(s, c).votes[(id, a)]);
    }
  }

  lemma LateNotCast(s: State, c: Call, id: ProposalId, a: Address, b: Ballot)
    requires CastIn(s, c, id, a, b)
    ensures id in s.proposals && !Unstaked(s, a, s.proposals[id].snapshot)
  {
    var s1 := Later(s, c.wait);
    var list := ListAt(s1.synced, s1.config.value.registry, a);
    if Unstaked(s, a, s.proposals[id].snapshot) {
      NoPowerThen(list, s.proposals[id].snapshot);
    }
  }

  /** An account with nothing synced by a proposal's snapshot never votes on it, whatever
      it or anyone syncs in later ledgers and however the configuration changes. */
  lemma {:induction false} LateStakeNeverVotes(s: State, calls: seq<Call>, id: ProposalId, a: Address)
    requires Sound(s) && id in s.proposals && (id, a) !in s.votes
    requires Unstaked(s, a, s.proposals[id].snapshot) && AllAfter(s, calls, s.proposals[id].snapshot)
    ensures var s', snapshot := Run(s, calls), s.proposals[id].snapshot;
            && (id, a) !in s'.votes && Unstaked(s', a, snapshot)
            && id in s'.proposals && s'.proposals[id].snapshot == snapshot
  {
    if calls != [] {
      var front, last := calls[..|calls| - 1], calls[|calls| - 1];
      if front != [] { assert front[0] == calls[0]; }
      LateStakeNeverVotes(s, front, id, a);
      AlwaysSound(s, front);
      LedgerGrows(s, front);
      LateStakeStep(Run(s, front), last, id, a, s.proposals[id].snapshot);
      SyncedLater(Run(s, front), last, a, s.proposals[id].snapshot);
    }
  }
}
