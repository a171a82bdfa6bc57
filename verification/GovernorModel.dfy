/**
  The governor as a transition system: bounded power checkpoints, snapshot
  voting and the life of a proposal. Ledger sequence numbers never decrease;
  the registry's bond and the timelock's answers are inputs of a call.
 */
module GovernorModel {
  import opened Wrappers
  import opened SettlementMath

  type Address = nat
  type ProposalId = nat

  const MAX_CHECKPOINTS := 64
  const MAX_DELAY := 1_000_000
  const MAX_VOTES := I128_MAX / 4

  datatype Checkpoint = Checkpoint(ledger: nat, power: int)

  datatype Side = Against | For | Abstain

  datatype Stage = Pending | Active | Defeated | Succeeded | Queued | Executed | Canceled

  datatype Proposal = Proposal(
    proposer: Address, snapshot: nat, deadline: nat, eta: nat,
    forVotes: int, againstVotes: int, abstainVotes: int, canceled: bool, executed: bool, target: Address)
  {
    function Turnout(): int { forVotes + againstVotes + abstainVotes }
  }

  datatype Config = Config(
    registry: Address, timelock: Address, votingDelay: nat, votingPeriod: nat, threshold: int, quorum: int)
  {
    predicate Valid() {
      && 1 <= votingDelay <= MAX_DELAY && 1 <= votingPeriod <= MAX_DELAY
      && 1 <= threshold <= MAX_VOTES && 1 <= quorum <= MAX_VOTES
    }
  }

  /** The stored power of a vote; which side it went to is kept by the model only. */
  datatype Ballot = Ballot(power: int, side: Side)

  /** Kept by the model only: when a proposal was queued, the quorum then in force and its tallies. */
  datatype Queueing = Queueing(at: nat, quorum: int, tallies: Proposal)

  type History = map<(Address, Address), seq<Checkpoint>>

  datatype State = State(
    address: Address, ledger: nat, config: Option<Config>, admin: Address, count: nat,
    proposals: map<ProposalId, Proposal>, votes: map<(ProposalId, Address), Ballot>,
    checkpoints: History,
    // Kept by the model only:
    synced: History,                          // every checkpoint ever written
    queued: map<ProposalId, Queueing>, executedAt: map<ProposalId, nat>)

  datatype Error =
    | AlreadyInitialized | NotInitialized | BelowProposalThreshold | ProposalNotFound | NotActive | VotingClosed
    | AlreadyVoted | NoVotingPower | ProposalNotSucceeded | ProposalNotQueued | TimelockNotReady
    | AlreadyExecuted | ProposalCanceled | SelfTargetForbidden | VoteTallyOverflow | DeadlineOverflow
    | InvalidConfig | NotAuthorized
    | Overflow          // an unguarded 32- or 128-bit addition traps
    | TimelockRefused   // the timelock rejected the call

  datatype Outcome = Done(state: State) | Reverted(error: Error)

  function Deployed(address: Address): State {
    State(address, 0, None, 0, 0, map[], map[], map[], map[], map[], map[])
  }

  // ----- Checkpoints -----

  function ListAt(h: History, registry: Address, a: Address): seq<Checkpoint> {
    if (registry, a) in h then h[(registry, a)] else []
  }

  /** The newest 64 after `c` is appended. */
  function Pushed(cps: seq<Checkpoint>, c: Checkpoint): seq<Checkpoint> {
    if |cps| + 1 > MAX_CHECKPOINTS then (cps + [c])[|cps| + 1 - MAX_CHECKPOINTS..] else cps + [c]
  }

  /** The binary search: the first place in `[low, high]` past the checkpoints at or before `ledger`. */
  function Narrowed(cps: seq<Checkpoint>, ledger: nat, low: nat, high: nat): (p: nat)
    requires low <= high <= |cps|
    ensures low <= p <= high
    decreases high - low
  {
    if low == high then low else
    var mid := (low + high) / 2;
    if cps[mid].ledger <= ledger then Narrowed(cps, ledger, mid + 1, high) else Narrowed(cps, ledger, low, mid)
  }

  function Search(cps: seq<Checkpoint>, ledger: nat): int {
    var p := Narrowed(cps, ledger, 0, |cps|);
    if p == 0 then 0 else cps[p - 1].power
  }

  function VotingPower(s: State, registry: Address, a: Address, ledger: nat): int {
    Search(ListAt(s.checkpoints, registry, a), ledger)
  }

  /** `bond` is what the registry reports for the account. */
  function SyncPower(s: State, a: Address, bond: int): Outcome {
    if s.config.None? then Reverted(NotInitialized)
    else
      var r, c := s.config.value.registry, Checkpoint(s.ledger, bond);
      Done(s.(checkpoints := s.checkpoints[(r, a) := Pushed(ListAt(s.checkpoints, r, a), c)],
              synced := s.synced[(r, a) := ListAt(s.synced, r, a) + [c]]))
  }

  // ----- Proposals -----

  function Initialize(s: State, admin: Address, c: Config): Outcome {
    if s.config.Some? then Reverted(AlreadyInitialized)
    else if !c.Valid() then Reverted(InvalidConfig)
    else Done(s.(config := Some(c), admin := admin, count := 0))
  }

  /** `set_config` checks the caller but not the values. */
  function SetConfig(s: State, caller: Address, c: Config): Outcome {
    if s.config.None? || caller != s.admin then Reverted(NotAuthorized) else Done(s.(config := Some(c)))
  }

  function Propose(s: State, a: Address, target: Address): Outcome {
    if s.config.None? then Reverted(NotInitialized)
    else if target == s.address then Reverted(SelfTargetForbidden)
    else
      var c := s.config.value;
      if VotingPower(s, c.registry, a, s.ledger) < c.threshold then Reverted(BelowProposalThreshold)
      else if !FitsU32(s.ledger + c.votingDelay) || !FitsU32(s.ledger + c.votingDelay + c.votingPeriod)
      then Reverted(DeadlineOverflow)
      else
        var p := Proposal(a, s.ledger, s.ledger + c.votingDelay + c.votingPeriod, 0, 0, 0, 0, false, false, target);
        Done(s.(proposals := s.proposals[s.count := p], count := s.count + 1))
  }

  function Cancel(s: State, caller: Address, id: ProposalId): Outcome {
    if s.config.None? then Reverted(NotInitialized)
    else if id !in s.proposals then Reverted(ProposalNotFound)
    else
      var c, p := s.config.value, s.proposals[id];
      if p.executed then Reverted(AlreadyExecuted)
      else if p.canceled then Reverted(ProposalCanceled)
      else if !FitsU32(p.snapshot + c.votingDelay) then Reverted(Overflow)
      else if caller != c.timelock && !(caller == p.proposer && s.ledger < p.snapshot + c.votingDelay)
      then Reverted(NotAuthorized)
      else Done(s.(proposals := s.proposals[id := p.(canceled := true)]))
  }

  /** The tally a vote adds to; `None` is a tally out of 128 bits. */
  function Tallied(p: Proposal, side: Side, power: int): Option<Proposal> {
    match side
    case For => if FitsI128(p.forVotes + power) then Some(p.(forVotes := p.forVotes + power)) else None
    case Against => if FitsI128(p.againstVotes + power) then Some(p.(againstVotes := p.againstVotes + power)) else None
    case Abstain => if FitsI128(p.abstainVotes + power) then Some(p.(abstainVotes := p.abstainVotes + power)) else None
  }

  function CastVote(s: State, a: Address, id: ProposalId, side: Side): Outcome {
    if s.config.None? then Reverted(NotInitialized)
    else if id !in s.proposals then Reverted(ProposalNotFound)
    else
      var c, p := s.config.value, s.proposals[id];
      if p.canceled then Reverted(ProposalCanceled)
      else if !FitsU32(p.snapshot + c.votingDelay) then Reverted(DeadlineOverflow)
      else if s.ledger < p.snapshot + c.votingDelay then Reverted(NotActive)
      else if s.ledger > p.deadline then Reverted(VotingClosed)
      else if (id, a) in s.votes then Reverted(AlreadyVoted)
      else
        var power := VotingPower(s, c.registry, a, p.snapshot);
        if power <= 0 then Reverted(NoVotingPower)
        else
          match Tallied(p, side, power)
          case None => Reverted(VoteTallyOverflow)
          case Some(p') =>
            Done(s.(proposals := s.proposals[id := p'], votes := s.votes[(id, a) := Ballot(power, side)]))
  }

  /** `state_of`; `None` is an addition that traps. */
  function StageOf(c: Config, p: Proposal, ledger: nat): Option<Stage> {
    if p.canceled then Some(Canceled)
    else if p.executed then Some(Executed)
    else if !FitsU32(p.snapshot + c.votingDelay) then None
    else if ledger < p.snapshot + c.votingDelay then Some(Pending)
    else if ledger <= p.deadline then Some(Active)
    else if p.eta != 0 then Some(Queued)
    else if !FitsI128(p.forVotes + p.againstVotes) || !FitsI128(p.Turnout()) then None
    else if p.forVotes > p.againstVotes && p.Turnout() >= c.quorum then Some(Succeeded)
    else Some(Defeated)
  }

  function Queue(s: State, id: ProposalId, accepts: bool): Outcome {
    if s.config.None? then Reverted(NotInitialized)
    else if id !in s.proposals then Reverted(ProposalNotFound)
    else
      var c, p := s.config.value, s.proposals[id];
      var stage := StageOf(c, p, s.ledger);
      if stage.None? then Reverted(Overflow)
      else if stage != Some(Succeeded) then Reverted(ProposalNotSucceeded)
      else if !FitsU32(s.ledger + c.votingDelay) then Reverted(Overflow)
      else if !accepts then Reverted(TimelockRefused)
      else Done(s.(proposals := s.proposals[id := p.(eta := s.ledger + c.votingDelay)],
                   queued := s.queued[id := Queueing(s.ledger, c.quorum, p)]))
  }

  function Execute(s: State, id: ProposalId, accepts: bool): Outcome {
    if s.config.None? then Reverted(NotInitialized)
    else if id !in s.proposals then Reverted(ProposalNotFound)
    else
      var p := s.proposals[id];
      if p.executed then Reverted(AlreadyExecuted)
      else if p.eta == 0 then Reverted(ProposalNotQueued)
      else if s.ledger < p.eta then Reverted(TimelockNotReady)
      else if !accepts then Reverted(TimelockRefused)
      else Done(s.(proposals := s.proposals[id := p.(executed := true)], executedAt := s.executedAt[id := s.ledger]))
  }

  // ----- Runs -----

  datatype Action =
    | DoInitialize(admin: Address, config: Config)
    | DoSetConfig(caller: Address, config: Config)
    | DoSync(a: Address, bond: int)
    | DoPropose(a: Address, target: Address)
    | DoCancel(caller: Address, id: ProposalId)
    | DoVote(a: Address, id: ProposalId, side: Side)
    | DoQueue(id: ProposalId, accepts: bool)
    | DoExecute(id: ProposalId, accepts: bool)

  function Perform(s: State, x: Action): Outcome {
    match x
    case DoInitialize(admin, c) => Initialize(s, admin, c)
    case DoSetConfig(caller, c) => SetConfig(s, caller, c)
    case DoSync(a, bond) => SyncPower(s, a, bond)
    case DoPropose(a, target) => Propose(s, a, target)
    case DoCancel(caller, id) => Cancel(s, caller, id)
    case DoVote(a, id, side) => CastVote(s, a, id, side)
    case DoQueue(id, accepts) => Queue(s, id, accepts)
    case DoExecute(id, accepts) => Execute(s, id, accepts)
  }

  /** A call made `wait` ledgers after the one before it. */
  datatype Call = Call(wait: nat, action: Action)

  function Later(s: State, wait: nat): State { s.(ledger := s.ledger + wait) }

  function After(s: State, c: Call): State {
    match Perform(Later(s, c.wait), c.action)
    case Done(s') => s'
    case Reverted(_) => Later(s, c.wait)
  }

  function Run(s: State, calls: seq<Call>): State {
    if calls == [] then s else After(Run(s, calls[..|calls| - 1]), calls[|calls| - 1])
  }
}
