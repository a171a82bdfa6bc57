/**
  The governor contract as an object: the search is a loop, checkpoints are
  appended and trimmed, and each entrypoint is proved to do what GovernorModel says.
 */
module GovernorContract {
  import opened Wrappers
  import opened SettlementMath
  import opened GovernorModel

  /** `search`: the power of the last checkpoint at or before `ledger`. */
  method SearchCheckpoints(cps: seq<Checkpoint>, ledger: nat) returns (power: int)
    ensures power == Search(cps, ledger)
  {
    if |cps| == 0 { return 0; }
    var low, high := 0, |cps|;
    while low < high
      invariant 0 <= low <= high <= |cps|
      invariant Narrowed(cps, ledger, low, high) == Narrowed(cps, ledger, 0, |cps|)
    {
      var mid := (low + high) / 2;
      if cps[mid].ledger <= ledger { low := mid + 1; } else { high := mid; }
    }
    power := if low == 0 then 0 else cps[low - 1].power;
  }

  class Governor {
    const address: Address
    var ledger: nat
    var config: Option<Config>
    var admin: Address
    var count: nat
    var proposals: map<ProposalId, Proposal>
    var votes: map<(ProposalId, Address), Ballot>
    var checkpoints: History
    ghost var synced: History
    ghost var queued: map<ProposalId, Queueing>
    ghost var executedAt: map<ProposalId, nat>

    ghost function View(): State
      reads this
    {
      State(address, ledger, config, admin, count, proposals, votes, checkpoints, synced, queued, executedAt)
    }

    /** The call ended as `o` says; an error left nothing changed. */
    ghost predicate Ended(o: Outcome, before: State, err: Option<Error>)
      reads this
    {
      match o
      case Done(s) => err == None && View() == s
      case Reverted(e) => err == Some(e) && View() == before
    }

    constructor (self: Address)
      ensures View() == Deployed(self)
    {
      address, ledger, config, admin, count := self, 0, None, 0, 0;
      proposals, votes, checkpoints, synced, queued, executedAt := map[], map[], map[], map[], map[], map[];
    }

    method Initialize(deployer: Address, c: Config) returns (err: Option<Error>)
      modifies this
      ensures Ended(GovernorModel.Initialize(old(View()), deployer, c), old(View()), err)
    {
      if config.Some? { return Some(AlreadyInitialized); }
      if !c.Valid() { return Some(InvalidConfig); }
      config, admin, count := Some(c), deployer, 0;
      err := None;
    }

    method SetConfig(caller: Address, c: Config) returns (err: Option<Error>)
      modifies this
      ensures Ended(GovernorModel.SetConfig(old(View()), caller, c), old(View()), err)
    {
      if config.None? || caller != admin { return Some(NotAuthorized); }
      config := Some(c);
      err := None;
    }

    method PowerOf(registry: Address, a: Address, at: nat) returns (power: int)
      ensures power == VotingPower(View(), registry, a, at)
    {
      var list := if (registry, a) in checkpoints then checkpoints[(registry, a)] else [];
      power := SearchCheckpoints(list, at);
    }

    /** `write_checkpoint`: appended at the end, the oldest dropped while there are too many. */
    method WriteCheckpoint(registry: Address, a: Address, power: int)
      modifies this`checkpoints
      ensures checkpoints == old(checkpoints)[(registry, a) :=
                Pushed(ListAt(old(checkpoints), registry, a), Checkpoint(ledger, power))]
    {
      var list := if (registry, a) in checkpoints then checkpoints[(registry, a)] else [];
      ghost var all := list + [Checkpoint(ledger, power)];
      ghost var dropped := 0;
      list := list + [Checkpoint(ledger, power)];
      while |list| > MAX_CHECKPOINTS
        invariant dropped <= |all| && list == all[dropped..]
        invariant dropped > 0 ==> |list| >= MAX_CHECKPOINTS
      {
        list := list[1..];
        dropped := dropped + 1;
      }
      checkpoints := checkpoints[(registry, a) := list];
    }

    method SyncPower(a: Address, bond: int) returns (err: Option<Error>)
      modifies this
      ensures Ended(GovernorModel.SyncPower(old(View()), a, bond), old(View()), err)
    {
      if config.None? { return Some(NotInitialized); }
      var r := config.value.registry;
      WriteCheckpoint(r, a, bond);
      synced := synced[(r, a) := ListAt(synced, r, a) + [Checkpoint(ledger, bond)]];
      err := None;
    }

    method Propose(a: Address, target: Address) returns (id: ProposalId, err: Option<Error>)
      modifies this
      ensures Ended(GovernorModel.Propose(old(View()), a, target), old(View()), err)
      ensures err.None? ==> id == old(count)
    {
      id := 0;
      if config.None? { return 0, Some(NotInitialized); }
      var c := config.value;
      if target == address { return 0, Some(SelfTargetForbidden); }
      var power := PowerOf(c.registry, a, ledger);
      if power < c.threshold { return 0, Some(BelowProposalThreshold); }
      id := count;
      var start := ledger + c.votingDelay;
      if !FitsU32(start) || !FitsU32(start + c.votingPeriod) { return 0, Some(DeadlineOverflow); }
      proposals := proposals[id := Proposal(a, ledger, start + c.votingPeriod, 0, 0, 0, 0, false, false, target)];
      count := id + 1;
      err := None;
    }

    method Cancel(caller: Address, id: ProposalId) returns (err: Option<Error>)
      modifies this
      ensures Ended(GovernorModel.Cancel(old(View()), caller, id), old(View()), err)
    {
      if config.None? { return Some(NotInitialized); }
      if id !in proposals { return Some(ProposalNotFound); }
      var c, p := config.value, proposals[id];
      if p.executed { return Some(AlreadyExecuted); }
      if p.canceled { return Some(ProposalCanceled); }
      if !FitsU32(p.snapshot + c.votingDelay) { return Some(Overflow); }
      var started := ledger >= p.snapshot + c.votingDelay;
      if caller != c.timelock && !(caller == p.proposer && !started) { return Some(NotAuthorized); }
      proposals := proposals[id := p.(canceled := true)];
      err := None;
    }

    method CastVote(a: Address, id: ProposalId, side: Side) returns (err: Option<Error>)
      modifies this
      ensures Ended(GovernorModel.CastVote(old(View()), a, id, side), old(View()), err)
    {
      if config.None? { return Some(NotInitialized); }
      if id !in proposals { return Some(ProposalNotFound); }
      var c, p := config.value, proposals[id];
      if p.canceled { return Some(ProposalCanceled); }
      if !FitsU32(p.snapshot + c.votingDelay) { return Some(DeadlineOverflow); }
      if ledger < p.snapshot + c.votingDelay { return Some(NotActive); }
      if ledger > p.deadline { return Some(VotingClosed); }
      if (id, a) in votes { return Some(AlreadyVoted); }
      var power := PowerOf(c.registry, a, p.snapshot);
      if power <= 0 { return Some(NoVotingPower); }
      var tallied := Tallied(p, side, power);
      if tallied.None? { return Some(VoteTallyOverflow); }
      votes := votes[(id, a) := Ballot(power, side)];
      proposals := proposals[id := tallied.value];
      err := None;
    }

    method Queue(id: ProposalId, accepts: bool) returns (err: Option<Error>)
      modifies this
      ensures Ended(GovernorModel.Queue(old(View()), id, accepts), old(View()), err)
    {
      if config.None? { return Some(NotInitialized); }
      if id !in proposals { return Some(ProposalNotFound); }
      var c, p := config.value, proposals[id];
      var stage := StageOf(c, p, ledger);
      if stage.None? { return Some(Overflow); }
      if stage.value != Succeeded { return Some(ProposalNotSucceeded); }
      var eta := ledger + c.votingDelay;
      if !FitsU32(eta) { return Some(Overflow); }
      if !accepts { return Some(TimelockRefused); }
      proposals := proposals[id := p.(eta := eta)];
      queued := queued[id := Queueing(ledger, c.quorum, p)];
      err := None;
    }

    method Execute(id: ProposalId, accepts: bool) returns (err: Option<Error>)
      modifies this
      ensures Ended(GovernorModel.Execute(old(View()), id, accepts), old(View()), err)
    {
      if config.None? { return Some(NotInitialized); }
      if id !in proposals { return Some(ProposalNotFound); }
      var p := proposals[id];
      if p.executed { return Some(AlreadyExecuted); }
      if p.eta == 0 { return Some(ProposalNotQueued); }
      if ledger < p.eta { return Some(TimelockNotReady); }
      if !accepts { return Some(TimelockRefused); }
      proposals := proposals[id := p.(executed := true)];
      executedAt := executedAt[id := ledger];
      err := None;
    }
  }
}
