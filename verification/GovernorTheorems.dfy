/**
  The governor's guarantees over every run: tallies are the votes recorded, an
  executed proposal was won before it was queued, and the bounded history of an
  account answers like its full history, except where it has forgotten.
 */
module GovernorTheorems {
  import opened Wrappers
  import opened SettlementMath
  import opened GovernorModel
  import opened Sums

  // ----- Searching a sorted history -----

  ghost predicate Sorted(cps: seq<Checkpoint>) {
    forall i, j :: 0 <= i < j < |cps| ==> cps[i].ledger <= cps[j].ledger
  }

  /** The power of the last checkpoint at or before `ledger`, 0 when there is none. */
  function PowerAt(cps: seq<Checkpoint>, ledger: nat): int {
    if cps == [] then 0
    else if cps[|cps| - 1].ledger <= ledger then cps[|cps| - 1].power
    else PowerAt(cps[..|cps| - 1], ledger)
  }

  /** The search stops between the checkpoints at or before `ledger` and those after it. */
  lemma {:induction false} NarrowedSplits(cps: seq<Checkpoint>, ledger: nat, low: nat, high: nat)
    requires Sorted(cps) && low <= high <= |cps|
    requires forall i :: 0 <= i < low ==> cps[i].ledger <= ledger
    requires forall i :: high <= i < |cps| ==> cps[i].ledger > ledger
    ensures var p := Narrowed(cps, ledger, low, high);
            && (forall i :: 0 <= i < p ==> cps[i].ledger <= ledger)
            && (forall i :: p <= i < |cps| ==> cps[i].ledger > ledger)
    decreases high - low
  {
    if low < high {
      var mid := (low + high) / 2;
      assert low <= mid < high;
      if cps[mid].ledger <= ledger {
        forall i | 0 <= i <= mid ensures cps[i].ledger <= ledger {}
        NarrowedSplits(cps, ledger, mid + 1, high);
      } else {
        forall i | mid <= i < |cps| ensures cps[i].ledger > ledger {}
        NarrowedSplits(cps, ledger, low, mid);
      }
    }
  }

  lemma {:induction false} PowerAtSplit(cps: seq<Checkpoint>, ledger: nat, p: nat)
    requires p <= |cps|
    requires forall i :: 0 <= i < p ==> cps[i].ledger <= ledger
    requires forall i :: p <= i < |cps| ==> cps[i].ledger > ledger
    ensures PowerAt(cps, ledger) == if p == 0 then 0 else cps[p - 1].power
  {
    if p < |cps| { PowerAtSplit(cps[..|cps| - 1], ledger, p); }
  }

  /** On a sorted list the binary search finds the last checkpoint in time. */
  lemma SearchIs(cps: seq<Checkpoint>, ledger: nat)
    requires Sorted(cps)
    ensures Search(cps, ledger) == PowerAt(cps, ledger)
  {
    NarrowedSplits(cps, ledger, 0, |cps|);
    PowerAtSplit(cps, ledger, Narrowed(cps, ledger, 0, |cps|));
  }

  // ----- The bounded history against the full one -----

  /** `kept` is the newest 64 of `full`. */
  ghost predicate Newest(kept: seq<Checkpoint>, full: seq<Checkpoint>) {
    kept == if |full| <= MAX_CHECKPOINTS then full else full[|full| - MAX_CHECKPOINTS..]
  }

  lemma {:induction false} SuffixPower(full: seq<Checkpoint>, cut: nat, ledger: nat)
    requires cut <= |full| && Sorted(full)
    ensures cut < |full| && full[cut].ledger <= ledger ==> PowerAt(full[cut..], ledger) == PowerAt(full, ledger)
    ensures cut == |full| || full[cut].ledger > ledger ==> PowerAt(full[cut..], ledger) == 0
  {
    if cut < |full| {
      var kept, front := full[cut..], full[..|full| - 1];
      if full[|full| - 1].ledger > ledger && cut < |full| - 1 {
        assert kept[..|kept| - 1] == front[cut..];
        SuffixPower(front, cut, ledger);
      }
      if cut == |full| - 1 { assert kept[..0] == []; }
    }
  }

  /** As long as the oldest checkpoint kept is in time, the stored list answers like
      everything ever synced; once it is not, it answers 0. */
  lemma SearchRefinesHistory(kept: seq<Checkpoint>, full: seq<Checkpoint>, ledger: nat)
    requires Newest(kept, full) && Sorted(full)
    ensures kept != [] && kept[0].ledger <= ledger ==> Search(kept, ledger) == PowerAt(full, ledger)
    ensures kept == [] || kept[0].ledger > ledger ==> Search(kept, ledger) == 0
  {
    var cut := if |full| <= MAX_CHECKPOINTS then 0 else |full| - MAX_CHECKPOINTS;
    assert full[0..] == full;
    SearchIs(kept, ledger);
    SuffixPower(full, cut, ledger);
  }

  lemma PushedNewest(kept: seq<Checkpoint>, full: seq<Checkpoint>, c: Checkpoint)
    requires Newest(kept, full)
    ensures Newest(Pushed(kept, c), full + [c])
  {
  }

  // ----- The effect of a sync on a snapshot -----

  lemma PushedSorted(cps: seq<Checkpoint>, now: nat, power: int)
    requires Sorted(cps) && forall c <- cps :: c.ledger <= now
    ensures Sorted(cps + [Checkpoint(now, power)]) && Sorted(Pushed(cps, Checkpoint(now, power)))
  {
  }

  /** Whether appending to `cps` drops every checkpoint at or before `ledger`. */
  predicate Forgets(cps: seq<Checkpoint>, ledger: nat) {
    |cps| >= MAX_CHECKPOINTS && cps[|cps| + 1 - MAX_CHECKPOINTS].ledger > ledger
  }

  lemma LaterSync(cps: seq<Checkpoint>, ledger: nat, now: nat, power: int)
    requires Sorted(cps) && ledger < now && forall c <- cps :: c.ledger <= now
    ensures PowerAt(Pushed(cps, Checkpoint(now, power)), ledger) == if Forgets(cps, ledger) then 0 else PowerAt(cps, ledger)
  {
    var full := cps + [Checkpoint(now, power)];
    PushedSorted(cps, now, power);
    assert full[..|cps|] == cps;
    assert PowerAt(full, ledger) == PowerAt(cps, ledger);
    if |cps| + 1 > MAX_CHECKPOINTS { SuffixPower(full, |cps| + 1 - MAX_CHECKPOINTS, ledger); }
  }

  /** What a sync does to the power at an earlier or equal ledger: at the same ledger
      it replaces it; later it leaves it alone or, by dropping the checkpoint it came
      from, forgets it. */
  lemma SyncEffect(cps: seq<Checkpoint>, ledger: nat, now: nat, power: int)
    requires Sorted(cps) && ledger <= now && forall c <- cps :: c.ledger <= now
    ensures Search(Pushed(cps, Checkpoint(now, power)), ledger)
              == if now == ledger then power else if Forgets(cps, ledger) then 0 else Search(cps, ledger)
  {
    var kept := Pushed(cps, Checkpoint(now, power));
    PushedSorted(cps, now, power);
    SearchIs(cps, ledger);
    SearchIs(kept, ledger);
    if now == ledger { assert kept[|kept| - 1] == Checkpoint(now, power); } else { LaterSync(cps, ledger, now, power); }
  }

  // ----- The invariant of every run -----

  ghost function Powers(id: ProposalId, side: Side): ((ProposalId, Address), Ballot) -> int {
    (k: (ProposalId, Address), b: Ballot) => if k.0 == id && b.side == side then b.power else 0
  }

  ghost function PowersOf(id: ProposalId): ((ProposalId, Address), Ballot) -> int {
    (k: (ProposalId, Address), b: Ballot) => if k.0 == id then b.power else 0
  }

  /** Each tally is the sum of the powers recorded under the proposal's vote keys for that side. */
  ghost predicate Counted(s: State, id: ProposalId, p: Proposal) {
    && p.forVotes == Total(s.votes, Powers(id, For))
    && p.againstVotes == Total(s.votes, Powers(id, Against))
    && p.abstainVotes == Total(s.votes, Powers(id, Abstain))
  }

  /** A queued proposal had won: its voting was over, more power was for than against
      and the turnout met the quorum then in force; its tallies have not moved since,
      and it cannot be executed before its eta. */
  ghost predicate WonBefore(s: State, id: ProposalId, p: Proposal) {
    && id in s.queued
    && var q := s.queued[id];
    && p.deadline < q.at <= s.ledger && q.at <= p.eta
    && q.tallies.forVotes > q.tallies.againstVotes && q.tallies.Turnout() >= q.quorum
    && p.forVotes == q.tallies.forVotes && p.againstVotes == q.tallies.againstVotes
    && p.abstainVotes == q.tallies.abstainVotes
  }

  ghost predicate ProposalOk(s: State, id: ProposalId, p: Proposal) {
    && id < s.count && p.target != s.address && p.snapshot <= s.ledger && p.snapshot <= p.deadline
    && Counted(s, id, p)
    && (p.eta != 0 ==> WonBefore(s, id, p))
    && (p.executed ==> p.eta != 0 && id in s.executedAt && p.eta <= s.executedAt[id] <= s.ledger)
  }

  ghost predicate Kept(s: State, k: (Address, Address)) {
    var full := ListAt(s.synced, k.0, k.1);
    && Newest(ListAt(s.checkpoints, k.0, k.1), full)
    && Sorted(full)
    && forall c <- full :: c.ledger <= s.ledger
  }

  ghost predicate Sound(s: State) {
    && (forall id <- s.proposals :: ProposalOk(s, id, s.proposals[id]))
    && (forall k <- s.votes :: k.0 in s.proposals && s.votes[k].power > 0)
    && (forall k :: Kept(s, k))
    && (s.config.None? ==> s.proposals == map[])
  }

  lemma DeployedSound(address: Address)
    ensures Sound(Deployed(address))
  {
  }

  lemma Waiting(s: State, wait: nat)
    requires Sound(s)
    ensures Sound(Later(s, wait))
  {
    var s' := Later(s, wait);
    forall id | id in s'.proposals ensures ProposalOk(s', id, s'.proposals[id]) {
      assert ProposalOk(s, id, s.proposals[id]);
    }
    forall k ensures Kept(s', k) { assert Kept(s, k); HistoryKept(s, s', k); }
  }

  lemma HistoryExtended(s: State, s': State, r: Address, a: Address, bond: int)
    requires Kept(s, (r, a)) && s'.ledger == s.ledger
    requires ListAt(s'.checkpoints, r, a) == Pushed(ListAt(s.checkpoints, r, a), Checkpoint(s.ledger, bond))
    requires ListAt(s'.synced, r, a) == ListAt(s.synced, r, a) + [Checkpoint(s.ledger, bond)]
    ensures Kept(s', (r, a))
  {
    PushedNewest(ListAt(s.checkpoints, r, a), ListAt(s.synced, r, a), Checkpoint(s.ledger, bond));
    PushedSorted(ListAt(s.synced, r, a), s.ledger, bond);
  }

  lemma HistoryKept(s: State, s': State, k: (Address, Address))
    requires Kept(s, k) && s'.ledger >= s.ledger
    requires ListAt(s'.checkpoints, k.0, k.1) == ListAt(s.checkpoints, k.0, k.1)
    requires ListAt(s'.synced, k.0, k.1) == ListAt(s.synced, k.0, k.1)
    ensures Kept(s', k)
  {
  }

  lemma SyncKeeps(s: State, a: Address, bond: int, k: (Address, Address))
    requires Kept(s, k) && SyncPower(s, a, bond).Done?
    ensures Kept(SyncPower(s, a, bond).state, k)
  {
    var s', r := SyncPower(s, a, bond).state, s.config.value.registry;
    if k == (r, a) { HistoryExtended(s, s', r, a, bond); } else { HistoryKept(s, s', k); }
  }

  lemma Syncing(s: State, a: Address, bond: int)
    requires Sound(s) && SyncPower(s, a, bond).Done?
    ensures Sound(SyncPower(s, a, bond).state)
  {
    var s' := SyncPower(s, a, bond).state;
    forall k ensures Kept(s', k) {
      assert Kept(s, k);
      SyncKeeps(s, a, bond, k);
    }
    forall id | id in s'.proposals ensures ProposalOk(s', id, s'.proposals[id]) {
      assert ProposalOk(s, id, s.proposals[id]);
    }
  }

  /** One proposal is rewritten without touching its votes. */
  lemma Rewritten(s: State, s': State, id: ProposalId)
    requires Sound(s) && id in s.proposals && id in s'.proposals
    requires s'.proposals == s.proposals[id := s'.proposals[id]] && s'.votes == s.votes
    requires s'.checkpoints == s.checkpoints && s'.synced == s.synced && s'.config == s.config
    requires s'.address == s.address && s'.ledger == s.ledger && s'.count == s.count
    requires forall other <- s.queued :: other != id ==> other in s'.queued && s'.queued[other] == s.queued[other]
    requires forall other <- s.executedAt :: other != id ==> other in s'.executedAt && s'.executedAt[other] == s.executedAt[other]
    requires ProposalOk(s', id, s'.proposals[id])
    ensures Sound(s')
  {
    forall other | other in s'.proposals ensures ProposalOk(s', other, s'.proposals[other]) {
      if other != id { assert ProposalOk(s, other, s.proposals[other]); }
    }
    forall k ensures Kept(s', k) { assert Kept(s, k); HistoryKept(s, s', k); }
  }

  lemma Canceling(s: State, caller: Address, id: ProposalId)
    requires Sound(s) && Cancel(s, caller, id).Done?
    ensures Sound(Cancel(s, caller, id).state)
  {
    Rewritten(s, Cancel(s, caller, id).state, id);
  }

  lemma Enqueuing(s: State, id: ProposalId, accepts: bool)
    requires Sound(s) && Queue(s, id, accepts).Done?
    ensures Sound(Queue(s, id, accepts).state)
  {
    Rewritten(s, Queue(s, id, accepts).state, id);
  }

  lemma Executing(s: State, id: ProposalId, accepts: bool)
    requires Sound(s) && Execute(s, id, accepts).Done?
    ensures Sound(Execute(s, id, accepts).state)
  {
    Rewritten(s, Execute(s, id, accepts).state, id);
  }

  /** A new proposal starts without votes. */
  lemma Unvoted(s: State, side: Side)
    requires Sound(s)
    ensures Total(s.votes, Powers(s.count, side)) == 0
  {
    forall k | k in s.votes ensures k.0 != s.count { assert ProposalOk(s, k.0, s.proposals[k.0]); }
    TotalZero(s.votes, Powers(s.count, side));
  }

  lemma Proposing(s: State, a: Address, target: Address)
    requires Sound(s) && Propose(s, a, target).Done?
    ensures Sound(Propose(s, a, target).state)
  {
    var s' := Propose(s, a, target).state;
    Unvoted(s, For);
    Unvoted(s, Against);
    Unvoted(s, Abstain);
    forall id | id in s'.proposals ensures ProposalOk(s', id, s'.proposals[id]) {
      if id in s.proposals { assert ProposalOk(s, id, s.proposals[id]); }
    }
    forall k ensures Kept(s', k) { assert Kept(s, k); HistoryKept(s, s', k); }
  }

  lemma VoteCounted(s: State, s': State, k: (ProposalId, Address), b: Ballot, other: ProposalId)
    requires k !in s.votes && s'.votes == s.votes[k := b]
    ensures forall side :: Total(s'.votes, Powers(other, side))
              == Total(s.votes, Powers(other, side)) + if other == k.0 && side == b.side then b.power else 0
  {
    forall side ensures Total(s'.votes, Powers(other, side))
              == Total(s.votes, Powers(other, side)) + if other == k.0 && side == b.side then b.power else 0 {
      TotalUpdate(s.votes, k, b, Powers(other, side));
    }
  }

  /** What a vote records: nothing about queued proposals, whose voting is over. */
  lemma VoteIs(s: State, a: Address, id: ProposalId, side: Side) returns (b: Ballot, p: Proposal)
    requires CastVote(s, a, id, side).Done?
    ensures id in s.proposals && (id, a) !in s.votes && s.ledger <= s.proposals[id].deadline
    ensures b.power > 0 && b.side == side && Tallied(s.proposals[id], side, b.power) == Some(p)
    ensures CastVote(s, a, id, side).state == s.(proposals := s.proposals[id := p], votes := s.votes[(id, a) := b])
  {
    var s' := CastVote(s, a, id, side).state;
    b, p := s'.votes[(id, a)], s'.proposals[id];
  }

  lemma Voting(s: State, a: Address, id: ProposalId, side: Side)
    requires Sound(s) && CastVote(s, a, id, side).Done?
    ensures Sound(CastVote(s, a, id, side).state)
  {
    var b, p := VoteIs(s, a, id, side);
    Recorded(s, CastVote(s, a, id, side).state, a, id, b, p);
  }

  lemma StillOk(s: State, s': State, a: Address, id: ProposalId, b: Ballot, p: Proposal, other: ProposalId)
    requires id in s.proposals && (id, a) !in s.votes && s.ledger <= s.proposals[id].deadline
    requires Tallied(s.proposals[id], b.side, b.power) == Some(p)
    requires s' == s.(proposals := s.proposals[id := p], votes := s.votes[(id, a) := b])
    requires other in s.proposals && ProposalOk(s, other, s.proposals[other])
    ensures ProposalOk(s', other, s'.proposals[other])
  {
    VoteCounted(s, s', (id, a), b, other);
  }

  lemma Recorded(s: State, s': State, a: Address, id: ProposalId, b: Ballot, p: Proposal)
    requires Sound(s) && id in s.proposals && (id, a) !in s.votes && s.ledger <= s.proposals[id].deadline
    requires b.power > 0 && Tallied(s.proposals[id], b.side, b.power) == Some(p)
    requires s' == s.(proposals := s.proposals[id := p], votes := s.votes[(id, a) := b])
    ensures Sound(s')
  {
    forall other | other in s'.proposals ensures ProposalOk(s', other, s'.proposals[other]) {
      assert ProposalOk(s, other, s.proposals[other]);
      StillOk(s, s', a, id, b, p, other);
    }
    forall k ensures Kept(s', k) { assert Kept(s, k); HistoryKept(s, s', k); }
  }

  lemma Configuring(s: State, s': State)
    requires Sound(s) && s' == s.(config := s'.config, admin := s'.admin, count := s'.count)
    requires s'.config.Some? && (s'.count == s.count || s.proposals == map[])
    ensures Sound(s')
  {
    forall id | id in s'.proposals ensures ProposalOk(s', id, s'.proposals[id]) {
      assert ProposalOk(s, id, s.proposals[id]);
    }
    forall k | k in s'.votes ensures k.0 in s'.proposals { assert k.0 in s.proposals; }
    forall k ensures Kept(s', k) { assert Kept(s, k); HistoryKept(s, s', k); }
  }

  lemma SoundStep(s: State, c: Call)
    requires Sound(s)
    ensures Sound(After(s, c))
  {
    var s1 := Later(s, c.wait);
    Waiting(s, c.wait);
    if Perform(s1, c.action).Done? {
      match c.action
      case DoInitialize(admin, config) => Configuring(s1, Initialize(s1, admin, config).state);
      case DoSetConfig(caller, config) => Configuring(s1, SetConfig(s1, caller, config).state);
      case DoSync(a, bond) => Syncing(s1, a, bond);
      case DoPropose(a, target) => Proposing(s1, a, target);
      case DoCancel(caller, id) => Canceling(s1, caller, id);
      case DoVote(a, id, side) => Voting(s1, a, id, side);
      case DoQueue(id, accepts) => Enqueuing(s1, id, accepts);
      case DoExecute(id, accepts) => Executing(s1, id, accepts);
    }
  }

  /** In every run: tallies are the recorded votes, histories are the newest 64
      checkpoints, and whatever was executed had won. */
  lemma {:induction false} AlwaysSound(s: State, calls: seq<Call>)
    requires Sound(s)
    ensures Sound(Run(s, calls))
  {
    if calls != [] {
      AlwaysSound(s, calls[..|calls| - 1]);
      SoundStep(Run(s, calls[..|calls| - 1]), calls[|calls| - 1]);
    }
  }

  lemma {:induction false} SidesMakeAll(votes: map<(ProposalId, Address), Ballot>, id: ProposalId)
    ensures Total(votes, PowersOf(id)) ==
              Total(votes, Powers(id, For)) + Total(votes, Powers(id, Against)) + Total(votes, Powers(id, Abstain))
    decreases |votes|
  {
    if votes != map[] {
      assert votes.Keys != {};
      var k :| k in votes;
      assert votes.Keys == (votes - {k}).Keys + {k};
      SidesMakeAll(votes - {k}, id);
      TotalSplit(votes, k, PowersOf(id));
      TotalSplit(votes, k, Powers(id, For));
      TotalSplit(votes, k, Powers(id, Against));
      TotalSplit(votes, k, Powers(id, Abstain));
      var b := votes[k];
      assert b.side == For || b.side == Against || b.side == Abstain by { match b.side { case For => case Against => case Abstain => } }
    }
  }

  /** The turnout is the sum of the powers stored under the proposal's vote keys, one per voter. */
  lemma TurnoutIsRecorded(s: State, id: ProposalId)
    requires Sound(s) && id in s.proposals
    ensures s.proposals[id].Turnout() == Total(s.votes, PowersOf(id))
  {
    assert ProposalOk(s, id, s.proposals[id]);
    SidesMakeAll(s.votes, id);
  }

  /** Nothing is executed that was not won: in every run from deployment. */
  lemma ExecutedWasWon(address: Address, calls: seq<Call>, id: ProposalId)
    ensures var s := Run(Deployed(address), calls);
            id in s.proposals && s.proposals[id].executed ==>
              && WonBefore(s, id, s.proposals[id])
              && id in s.executedAt && s.proposals[id].eta <= s.executedAt[id]
              && s.proposals[id].target != address
  {
    DeployedSound(address);
    AlwaysSound(Deployed(address), calls);
    AddressKept(Deployed(address), calls);
    var s := Run(Deployed(address), calls);
    if id in s.proposals { assert ProposalOk(s, id, s.proposals[id]); }
  }

  lemma StepKeeps(s: State, c: Call)
    ensures After(s, c).address == s.address && After(s, c).ledger == s.ledger + c.wait
  {
    match c.action
    case DoVote(a, id, side) =>
    case _ =>
  }

  lemma {:induction false} AddressKept(s: State, calls: seq<Call>)
    ensures Run(s, calls).address == s.address
  {
    if calls != [] {
      AddressKept(s, calls[..|calls| - 1]);
      StepKeeps(Run(s, calls[..|calls| - 1]), calls[|calls| - 1]);
    }
  }

  // ----- Snapshots -----

  lemma SyncWrites(s: State, b: Address, bond: int, registry: Address, a: Address)
    ensures var list := ListAt(s.checkpoints, registry, a);
            match SyncPower(s, b, bond)
            case Done(s') =>
              var list' := ListAt(s'.checkpoints, registry, a);
              list' == list || list' == Pushed(list, Checkpoint(s.ledger, bond))
            case Reverted(_) => true
  {
  }

  lemma OthersWriteNone(s: State, c: Call)
    requires !c.action.DoSync?
    ensures After(s, c).checkpoints == s.checkpoints
  {
    match c.action
    case DoVote(a, id, side) =>
    case _ =>
  }

  /** Only the account's own sync touches its checkpoints. */
  lemma CheckpointsAfter(s: State, c: Call, registry: Address, a: Address)
    ensures var list, list' := ListAt(s.checkpoints, registry, a), ListAt(After(s, c).checkpoints, registry, a);
            list' == list || (c.action.DoSync? && list' == Pushed(list, Checkpoint(s.ledger + c.wait, c.action.bond)))
  {
    if c.action.DoSync? {
      SyncWrites(Later(s, c.wait), c.action.a, c.action.bond, registry, a);
    } else {
      OthersWriteNone(s, c);
    }
  }

  lemma KeptSorted(s: State, registry: Address, a: Address)
    requires Kept(s, (registry, a))
    ensures Sorted(ListAt(s.checkpoints, registry, a))
    ensures forall c <- ListAt(s.checkpoints, registry, a) :: c.ledger <= s.ledger
  {
  }

  lemma SearchAfterSync(cps: seq<Checkpoint>, cps': seq<Checkpoint>, ledger: nat, now: nat, power: int)
    requires Sorted(cps) && ledger < now && forall c <- cps :: c.ledger <= now
    requires cps' == cps || cps' == Pushed(cps, Checkpoint(now, power))
    ensures Search(cps', ledger) == Search(cps, ledger) || Search(cps', ledger) == 0
  {
    SyncEffect(cps, ledger, now, power);
  }

  lemma PowerOnlyFalls(s: State, c: Call, registry: Address, a: Address, ledger: nat)
    requires Kept(s, (registry, a)) && ledger < s.ledger + c.wait
    ensures VotingPower(After(s, c), registry, a, ledger) == VotingPower(s, registry, a, ledger)
            || VotingPower(After(s, c), registry, a, ledger) == 0
  {
    KeptSorted(s, registry, a);
    CheckpointsAfter(s, c, registry, a);
    var list, list' := ListAt(s.checkpoints, registry, a), ListAt(After(s, c).checkpoints, registry, a);
    SearchAfterSync(list, list', ledger, s.ledger + c.wait, if c.action.DoSync? then c.action.bond else 0);
  }

  /** The ledgers of a run's calls all come after `ledger`. */
  predicate AllAfter(s: State, calls: seq<Call>, ledger: nat) {
    calls == [] || ledger < s.ledger + calls[0].wait
  }

  lemma {:induction false} LedgerGrows(s: State, calls: seq<Call>)
    ensures Run(s, calls).ledger >= s.ledger
    ensures calls != [] ==> Run(s, calls).ledger >= s.ledger + calls[0].wait
  {
    if calls != [] {
      var front := calls[..|calls| - 1];
      LedgerGrows(s, front);
      StepKeeps(Run(s, front), calls[|calls| - 1]);
      if front == [] { assert Run(s, front) == s; } else { assert front[0] == calls[0]; }
    }
  }

  /** Stake acquired after a snapshot's ledger has closed never counts: whatever is
      synced later, the power at the snapshot stays what it was or is forgotten. */
  lemma {:induction false} SnapshotNeverRises(s: State, calls: seq<Call>, registry: Address, a: Address, ledger: nat)
    requires Sound(s) && AllAfter(s, calls, ledger)
    ensures VotingPower(Run(s, calls), registry, a, ledger) == VotingPower(s, registry, a, ledger)
            || VotingPower(Run(s, calls), registry, a, ledger) == 0
  {
    if calls != [] {
      var front := calls[..|calls| - 1];
      AlwaysSound(s, front);
      LedgerGrows(s, front);
      if front != [] { assert front[0] == calls[0]; }
      SnapshotNeverRises(s, front, registry, a, ledger);
      assert Kept(Run(s, front), (registry, a));
      PowerOnlyFalls(Run(s, front), calls[|calls| - 1], registry, a, ledger);
    }
  }

  /** Within the snapshot's own ledger it does count: a sync after the proposal, but
      in the same ledger, sets the power the proposal will be voted with. */
  lemma SameLedgerSync(s: State, a: Address, bond: int)
    requires Sound(s) && s.config.Some?
    ensures VotingPower(SyncPower(s, a, bond).state, s.config.value.registry, a, s.ledger) == bond
  {
    assert Kept(s, (s.config.value.registry, a));
    SyncEffect(ListAt(s.checkpoints, s.config.value.registry, a), s.ledger, s.ledger, bond);
  }

  // ----- Cancellation -----

  predicate Canceled(s: State, id: ProposalId) { id in s.proposals && s.proposals[id].canceled }

  lemma CanceledWaits(s: State, c: Call, id: ProposalId)
    requires Canceled(s, id) && !c.action.DoExecute? && (s.config.Some? && id < s.count)
    ensures id in After(s, c).proposals && After(s, c).proposals[id] == s.proposals[id]
  {
    match c.action
    case DoVote(a, k, side) =>
    case _ =>
  }

  /** A cancelled proposal is never changed again except by its execution. */
  lemma CanceledStep(s: State, c: Call, id: ProposalId)
    requires Sound(s) && Canceled(s, id)
    ensures var p, s' := s.proposals[id], After(s, c);
            && id in s'.proposals && s'.proposals[id] == p.(executed := s'.proposals[id].executed)
            && (p.executed ==> s'.proposals[id].executed)
            && (s'.proposals[id].executed && !p.executed ==> p.eta != 0 && s'.ledger >= p.eta)
  {
    assert ProposalOk(s, id, s.proposals[id]);
    if !c.action.DoExecute? { CanceledWaits(s, c, id); }
  }

  /** Whatever follows a cancellation: without an eta the proposal is never executed, and
      with one never before it. */
  lemma {:induction false} CanceledRuns(s: State, calls: seq<Call>, id: ProposalId)
    requires Sound(s) && Canceled(s, id) && !s.proposals[id].executed
    ensures var p, s' := s.proposals[id], Run(s, calls);
            && Sound(s') && id in s'.proposals && s'.proposals[id] == p.(executed := s'.proposals[id].executed)
            && (s'.proposals[id].executed ==> p.eta != 0 && s'.ledger >= p.eta)
  {
    AlwaysSound(s, calls);
    if calls != [] {
      var front, last := calls[..|calls| - 1], calls[|calls| - 1];
      CanceledRuns(s, front, id);
      CanceledStep(Run(s, front), last, id);
      StepKeeps(Run(s, front), last);
    }
  }

  lemma ExecutesAt(s: State, id: ProposalId, wait: nat)
    requires s.config.Some? && Canceled(s, id) && !s.proposals[id].executed && s.proposals[id].eta != 0
    requires s.ledger + wait >= s.proposals[id].eta
    ensures id in After(s, Call(wait, DoExecute(id, true))).proposals
    ensures After(s, Call(wait, DoExecute(id, true))).proposals[id].executed
  {
  }

  /** Cancelling a queued proposal stops nothing: after any continuation that has not
      executed it yet, it can be executed from its eta on. */
  lemma CancelDoesNotStop(s: State, calls: seq<Call>, id: ProposalId, wait: nat)
    requires Sound(s) && Canceled(s, id) && !s.proposals[id].executed && s.proposals[id].eta != 0
    ensures id in Run(s, calls).proposals
    ensures !Run(s, calls).proposals[id].executed && Run(s, calls).ledger + wait >= s.proposals[id].eta ==>
              var s' := After(Run(s, calls), Call(wait, DoExecute(id, true)));
              id in s'.proposals && s'.proposals[id].executed
  {
    CanceledRuns(s, calls, id);
    if !Run(s, calls).proposals[id].executed && Run(s, calls).ledger + wait >= s.proposals[id].eta {
      ExecutesAt(Run(s, calls), id, wait);
    }
  }

  predicate Executes(s: State, calls: seq<Call>, id: ProposalId) {
    var s' := Run(s, calls); id in s'.proposals && s'.proposals[id].executed
  }

  /** So a cancellation prevents execution exactly if it comes before the queueing. */
  lemma CancelStopsExactly(s: State, id: ProposalId)
    requires Sound(s) && Canceled(s, id) && !s.proposals[id].executed
    ensures (exists calls: seq<Call> :: Executes(s, calls, id)) <==> s.proposals[id].eta != 0
  {
    forall calls: seq<Call> ensures Executes(s, calls, id) ==> s.proposals[id].eta != 0 { CanceledRuns(s, calls, id); }
    if s.proposals[id].eta != 0 {
      var c := Call(s.proposals[id].eta, DoExecute(id, true));
      CancelDoesNotStop(s, [], id, c.wait);
      assert [c][..0] == [];
      assert Run(s, [c]) == After(s, c);
      assert Executes(s, [c], id);
    }
  }

  // ----- A cancelled proposal executed -----

  const DEMO := Config(100, 101, 1, 1, 1, 1)

  /** Staker 7 proposes and votes; the timelock cancels what has just been queued; one ledger later it runs. */
  function QueueCancelExecute(): seq<Call> {
    [Call(0, DoInitialize(9, DEMO)), Call(0, DoSync(7, 5)), Call(0, DoPropose(7, 3)), Call(1, DoVote(7, 0, For)),
     Call(2, DoQueue(0, true)), Call(0, DoCancel(101, 0)), Call(1, DoExecute(0, true))]
  }

  lemma RunNext(s: State, calls: seq<Call>, n: nat)
    requires n < |calls|
    ensures Run(s, calls[..n + 1]) == After(Run(s, calls[..n]), calls[n])
  {
    assert calls[..n + 1][..n] == calls[..n];
  }

  ghost predicate Staked(s: State) {
    && s.address == 50 && s.config == Some(DEMO) && s.ledger == 0 && s.count == 0
    && s.proposals == map[] && s.votes == map[] && ListAt(s.checkpoints, 100, 7) == [Checkpoint(0, 5)]
  }

  const PROPOSED := Proposal(7, 0, 2, 0, 0, 0, 0, false, false, 3)

  /** Proposal 0 as `p`, under the demo configuration. */
  ghost predicate Holds(s: State, ledger: nat, p: Proposal) {
    s.config == Some(DEMO) && s.ledger == ledger && 0 in s.proposals && s.proposals[0] == p
  }

  lemma PowerOf(s: State)
    requires ListAt(s.checkpoints, 100, 7) == [Checkpoint(0, 5)]
    ensures VotingPower(s, 100, 7, 0) == 5
  {
    assert Narrowed([Checkpoint(0, 5)], 0, 0, 1) == Narrowed([Checkpoint(0, 5)], 0, 1, 1) == 1;
  }

  lemma Stakes()
    ensures Staked(Run(Deployed(50), QueueCancelExecute()[..2]))
  {
    RunNext(Deployed(50), QueueCancelExecute(), 0);
    RunNext(Deployed(50), QueueCancelExecute(), 1);
  }

  lemma Proposes(s: State)
    requires Staked(s)
    ensures After(s, Call(0, DoPropose(7, 3))) == s.(proposals := map[0 := PROPOSED], count := 1)
  {
    PowerOf(s);
  }

  lemma Votes(s: State)
    requires Holds(s, 0, PROPOSED) && s.votes == map[] && ListAt(s.checkpoints, 100, 7) == [Checkpoint(0, 5)]
    ensures Holds(After(s, Call(1, DoVote(7, 0, For))), 1, PROPOSED.(forVotes := 5))
  {
    PowerOf(Later(s, 1));
  }

  lemma Queues(s: State)
    requires Holds(s, 1, PROPOSED.(forVotes := 5))
    ensures Holds(After(s, Call(2, DoQueue(0, true))), 3, PROPOSED.(forVotes := 5, eta := 4))
  {
  }

  lemma Cancels(s: State)
    requires Holds(s, 3, PROPOSED.(forVotes := 5, eta := 4))
    ensures Holds(After(s, Call(0, DoCancel(101, 0))), 3, PROPOSED.(forVotes := 5, eta := 4, canceled := true))
  {
  }

  lemma Runs(s: State)
    requires Holds(s, 3, PROPOSED.(forVotes := 5, eta := 4, canceled := true))
    ensures var s' := After(s, Call(1, DoExecute(0, true)));
            0 in s'.proposals && s'.proposals[0].canceled && s'.proposals[0].executed
  {
  }

  /** The run ends with a proposal both cancelled and executed. */
  lemma CanceledYetExecuted()
    ensures var s := Run(Deployed(50), QueueCancelExecute());
            0 in s.proposals && s.proposals[0].canceled && s.proposals[0].executed
  {
    var s0, calls := Deployed(50), QueueCancelExecute();
    Stakes();
    RunNext(s0, calls, 2);
    Proposes(Run(s0, calls[..2]));
    RunNext(s0, calls, 3);
    Votes(Run(s0, calls[..3]));
    RunNext(s0, calls, 4);
    Queues(Run(s0, calls[..4]));
    RunNext(s0, calls, 5);
    Cancels(Run(s0, calls[..5]));
    RunNext(s0, calls, 6);
    Runs(Run(s0, calls[..6]));
    assert calls[..7] == calls;
  }
}
