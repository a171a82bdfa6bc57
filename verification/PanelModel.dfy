/**
  The bonded arbiter panel as a transition system: arbiters stake and leave,
  panels are drawn for disputes, votes are cast and tallied. What the settlement
  contract answers, and what the random generator draws, are inputs of a call.
 */
module PanelModel {
  import opened Wrappers
  import opened SettlementMath

  type Address = nat
  type DisputeId = nat

  const VOTE_WINDOW := 86_400
  const CUT_BPS := 1_000

  datatype Vote = Upheld | Dismissed

  datatype Arbiter = Arbiter(bond: int, openVotes: nat)

  datatype Round = Round(panel: seq<Address>, threshold: nat, openedAt: nat, votes: map<Address, Vote>, settled: bool)

  datatype Config = Config(bondAmount: int, panelSize: nat, threshold: nat)

  /** `held` is the panel's balance of the bond token, `wallets` everyone else's. */
  datatype State = State(
    config: Option<Config>, list: seq<Address>, arbiters: map<Address, Arbiter>,
    rounds: map<DisputeId, Round>, held: int, wallets: map<Address, int>)
  {
    function Balance(a: Address): int { if a in wallets then wallets[a] else 0 }
  }

  datatype Error =
    | AlreadyInitialized | NotInitialized | InvalidConfig | AlreadyRegistered | NotRegistered | HasOpenVotes
    | RoundExists | RoundNotFound | NoEligibleArbiters | NotOnPanel | AlreadyVoted | VotingClosed
    | RoundSettled | QuorumNotReached
    | Overflow            // a checked 32- or 128-bit operation
    | WalletShort         // an arbiter cannot pay its bond
    | PanelShort          // the panel cannot pay a bond back
    | SettlementRefused   // the settlement contract rejected the call

  datatype Outcome = Done(state: State) | Reverted(error: Error)

  const EMPTY := State(None, [], map[], map[], 0, map[])

  // ----- Membership -----

  function Initialize(s: State, c: Config): Outcome {
    if s.config.Some? then Reverted(AlreadyInitialized)
    else if c.bondAmount <= 0 || c.threshold == 0 || c.threshold > c.panelSize then Reverted(InvalidConfig)
    else if c.threshold * 2 > U32_MAX then Reverted(Overflow)
    else if c.threshold * 2 <= c.panelSize then Reverted(InvalidConfig)
    else Done(s.(config := Some(c)))
  }

  function Register(s: State, a: Address): Outcome {
    if a in s.arbiters then Reverted(AlreadyRegistered)
    else if s.config.None? then Reverted(NotInitialized)
    else
      var bond := s.config.value.bondAmount;
      if s.Balance(a) < bond then Reverted(WalletShort)
      else Done(s.(list := s.list + [a], arbiters := s.arbiters[a := Arbiter(bond, 0)],
                   held := s.held + bond, wallets := s.wallets[a := s.Balance(a) - bond]))
  }

  function Kept(list: seq<Address>, a: Address): seq<Address> {
    if list == [] then [] else
    var last := list[|list| - 1];
    Kept(list[..|list| - 1], a) + (if last != a then [last] else [])
  }

  function Deregister(s: State, a: Address): Outcome {
    if a !in s.arbiters then Reverted(NotRegistered)
    else if s.arbiters[a].openVotes > 0 then Reverted(HasOpenVotes)
    else
      var bond, left := s.arbiters[a].bond, s.(list := Kept(s.list, a), arbiters := s.arbiters - {a});
      if bond <= 0 then Done(left)
      else if s.config.None? then Reverted(NotInitialized)
      else if s.held < bond then Reverted(PanelShort)
      else Done(left.(held := s.held - bond, wallets := s.wallets[a := s.Balance(a) + bond]))
  }

  // ----- Drawing a panel -----

  datatype Parties = Parties(user: Address, solver: Address)

  predicate May(p: Parties, a: Address) { a != p.user && a != p.solver }

  predicate Loadable(s: State, p: Parties) {
    forall a <- s.list :: May(p, a) ==> a in s.arbiters
  }

  function Eligible(s: State, p: Parties, list: seq<Address>, bondAmount: int): seq<Address>
    requires forall a <- list :: May(p, a) ==> a in s.arbiters
  {
    if list == [] then [] else
    var a := list[|list| - 1];
    Eligible(s, p, list[..|list| - 1], bondAmount)
      + (if May(p, a) && s.arbiters[a].bond >= bondAmount then [a] else [])
  }

  /** The generator's draw for place `i` among `len`: any place from `i` on. */
  function Pick(draw: nat -> nat, i: nat, len: nat): nat
    requires i < len
  {
    i + draw(i) % (len - i)
  }

  function Swap<T>(xs: seq<T>, i: nat, j: nat): seq<T>
    requires i < |xs| && j < |xs|
  {
    xs[i := xs[j]][j := xs[i]]
  }

  /** The eligible list after the first `i` swaps. */
  function Shuffled(xs: seq<Address>, draw: nat -> nat, i: nat): (r: seq<Address>)
    requires i <= |xs|
    ensures |r| == |xs|
  {
    if i == 0 then xs else Swap(Shuffled(xs, draw, i - 1), i - 1, Pick(draw, i - 1, |xs|))
  }

  function Locked(arbiters: map<Address, Arbiter>, panel: seq<Address>): (r: map<Address, Arbiter>)
    requires forall a <- panel :: a in arbiters
    ensures r.Keys == arbiters.Keys
  {
    if panel == [] then arbiters else
    var m, a := Locked(arbiters, panel[..|panel| - 1]), panel[|panel| - 1];
    assert a in panel;
    m[a := m[a].(openVotes := m[a].openVotes + 1)]
  }

  /** `m` of `n` scaled to a panel of `k`, rounded up, at least one. */
  function ScaledThreshold(m: nat, n: nat, k: nat): nat
    requires n > 0
  {
    Max((m * k + n - 1) / n, 1)
  }

  function OpenVote(s: State, now: nat, id: DisputeId, parties: Option<Parties>, draw: nat -> nat): Outcome {
    if id in s.rounds then Reverted(RoundExists)
    else if s.config.None? then Reverted(NotInitialized)
    else if parties.None? then Reverted(SettlementRefused)
    else if !Loadable(s, parties.value) then Reverted(NotRegistered)
    else Empanel(s, now, id, s.config.value, Eligible(s, parties.value, s.list, s.config.value.bondAmount), draw)
  }

  /** The panel is drawn from the eligible arbiters, locked and recorded. */
  function Empanel(s: State, now: nat, id: DisputeId, c: Config, eligible: seq<Address>, draw: nat -> nat): Outcome {
    var k := Min(c.panelSize, |eligible|);
    if eligible == [] then Reverted(NoEligibleArbiters)
    else if c.threshold * k + c.panelSize - 1 > U32_MAX || c.panelSize == 0 then Reverted(Overflow)
    else
      var panel := Shuffled(eligible, draw, k)[..k];
      if exists a <- panel :: a !in s.arbiters then Reverted(NotRegistered)
      else Done(s.(arbiters := Locked(s.arbiters, panel),
                   rounds := s.rounds[id := Round(panel, ScaledThreshold(c.threshold, c.panelSize, k), now, map[], false)]))
  }

  // ----- Voting -----

  function CastVote(s: State, now: nat, a: Address, id: DisputeId, v: Vote): Outcome {
    if id !in s.rounds then Reverted(RoundNotFound)
    else
      var r := s.rounds[id];
      if r.settled then Reverted(RoundSettled)
      else if now >= r.openedAt + VOTE_WINDOW then Reverted(VotingClosed)
      else if a !in r.panel then Reverted(NotOnPanel)
      else if a in r.votes then Reverted(AlreadyVoted)
      else Done(s.(rounds := s.rounds[id := r.(votes := r.votes[a := v])]))
  }

  function Voters(votes: map<Address, Vote>, v: Vote): set<Address> { set a <- votes | votes[a] == v }

  function Count(votes: map<Address, Vote>, v: Vote): nat { |Voters(votes, v)| }

  function Verdict(r: Round): Option<Vote> {
    if Count(r.votes, Upheld) >= r.threshold then Some(Upheld)
    else if Count(r.votes, Dismissed) >= r.threshold then Some(Dismissed)
    else None
  }

  predicate Won(r: Round, a: Address, v: Vote) { a in r.votes && r.votes[a] == v }

  function Winners(r: Round, panel: seq<Address>, v: Vote): seq<Address> {
    if panel == [] then [] else
    var a := panel[|panel| - 1];
    Winners(r, panel[..|panel| - 1], v) + (if Won(r, a, v) then [a] else [])
  }

  function Cut(bond: int): int { TruncDiv(bond * CUT_BPS, BPS) }

  /** What a member loses: nothing without a verdict or on the winning side. */
  function Loss(r: Round, rec: Arbiter, a: Address, verdict: Option<Vote>): int {
    if verdict.Some? && !Won(r, a, verdict.value) then Cut(rec.bond) else 0
  }

  function Released(arbiters: map<Address, Arbiter>, r: Round, panel: seq<Address>, verdict: Option<Vote>): (m: map<Address, Arbiter>)
    requires forall a <- panel :: a in arbiters
    ensures m.Keys == arbiters.Keys
  {
    if panel == [] then arbiters else
    var m, a := Released(arbiters, r, panel[..|panel| - 1], verdict), panel[|panel| - 1];
    assert a in panel;
    m[a := Arbiter(m[a].bond - Loss(r, m[a], a, verdict), if m[a].openVotes == 0 then 0 else m[a].openVotes - 1)]
  }

  function SlashedTotal(arbiters: map<Address, Arbiter>, r: Round, panel: seq<Address>, verdict: Option<Vote>): int
    requires forall a <- panel :: a in arbiters
  {
    if panel == [] then 0 else
    var front, a := panel[..|panel| - 1], panel[|panel| - 1];
    assert a in panel;
    SlashedTotal(arbiters, r, front, verdict) + Loss(r, Released(arbiters, r, front, verdict)[a], a, verdict)
  }

  /** The winners' equal shares; what does not divide goes to the first. */
  function Rewarded(arbiters: map<Address, Arbiter>, winners: seq<Address>, share: int, dust: int): (m: map<Address, Arbiter>)
    requires forall a <- winners :: a in arbiters
    ensures m.Keys == arbiters.Keys
  {
    if winners == [] then arbiters else
    var m, a := Rewarded(arbiters, winners[..|winners| - 1], share, dust), winners[|winners| - 1];
    assert a in winners;
    m[a := m[a].(bond := m[a].bond + share + if |winners| == 1 then dust else 0)]
  }

  function Redistributed(arbiters: map<Address, Arbiter>, winners: seq<Address>, slashed: int): (m: map<Address, Arbiter>)
    requires forall a <- winners :: a in arbiters
    ensures m.Keys == arbiters.Keys
  {
    if winners == [] || slashed <= 0 then arbiters else
    var share := TruncDiv(slashed, |winners|);
    Rewarded(arbiters, winners, share, slashed - share * |winners|)
  }

  lemma {:induction false} WinnersOnPanel(r: Round, panel: seq<Address>, v: Vote)
    ensures forall a :: a in Winners(r, panel, v) <==> a in panel && Won(r, a, v)
  {
    if panel != [] {
      WinnersOnPanel(r, panel[..|panel| - 1], v);
      assert panel == panel[..|panel| - 1] + [panel[|panel| - 1]];
    }
  }

  function Settled(s: State, r: Round, verdict: Option<Vote>): map<Address, Arbiter>
    requires forall a <- r.panel :: a in s.arbiters
  {
    var m := Released(s.arbiters, r, r.panel, verdict);
    if verdict.None? then m else
    WinnersOnPanel(r, r.panel, verdict.value);
    Redistributed(m, Winners(r, r.panel, verdict.value), SlashedTotal(s.arbiters, r, r.panel, verdict))
  }

  /** The first member whose record is missing, or whose bond is so large that a
      tenth of it cannot be computed in 128 bits. */
  function Obstacle(arbiters: map<Address, Arbiter>, r: Round, panel: seq<Address>, verdict: Option<Vote>): (f: Option<Error>)
    ensures f.None? ==> forall a <- panel :: a in arbiters
  {
    if panel == [] then None else
    var front, a := panel[..|panel| - 1], panel[|panel| - 1];
    assert panel == front + [a];
    var f := Obstacle(arbiters, r, front, verdict);
    if f.Some? then f
    else if a !in arbiters then Some(NotRegistered)
    else if verdict.Some? && !Won(r, a, verdict.value)
            && !FitsI128(Released(arbiters, r, front, verdict)[a].bond * CUT_BPS) then Some(Overflow)
    else None
  }

  /** `accepts` is whether the settlement contract takes the resolution. */
  function Tally(s: State, now: nat, id: DisputeId, accepts: bool): Outcome {
    if id !in s.rounds then Reverted(RoundNotFound)
    else
      var r := s.rounds[id];
      if r.settled then Reverted(RoundSettled)
      else
        var verdict := Verdict(r);
        var obstacle := Obstacle(s.arbiters, r, r.panel, verdict);
        if verdict.None? && now < r.openedAt + VOTE_WINDOW then Reverted(QuorumNotReached)
        else if obstacle.Some? then Reverted(obstacle.value)
        else if verdict.Some? && s.config.None? then Reverted(NotInitialized)
        else if verdict.Some? && !accepts then Reverted(SettlementRefused)
        else Done(s.(arbiters := Settled(s, r, verdict), rounds := s.rounds[id := r.(settled := true)]))
  }

  // ----- Runs -----

  datatype Action =
    | DoInitialize(config: Config)
    | DoRegister(a: Address)
    | DoDeregister(a: Address)
    | DoOpenVote(id: DisputeId, parties: Option<Parties>, draw: nat -> nat)
    | DoVote(a: Address, id: DisputeId, v: Vote)
    | DoTally(id: DisputeId, accepts: bool)
    | Fund(a: Address, amount: nat)   // the outside world funds a wallet

  datatype Call = Call(now: nat, action: Action)

  function Perform(s: State, now: nat, x: Action): Outcome {
    match x
    case DoInitialize(c) => Initialize(s, c)
    case DoRegister(a) => Register(s, a)
    case DoDeregister(a) => Deregister(s, a)
    case DoOpenVote(id, parties, draw) => OpenVote(s, now, id, parties, draw)
    case DoVote(a, id, v) => CastVote(s, now, a, id, v)
    case DoTally(id, accepts) => Tally(s, now, id, accepts)
    case Fund(a, amount) => Done(s.(wallets := s.wallets[a := s.Balance(a) + amount]))
  }

  function After(s: State, c: Call): State {
    match Perform(s, c.now, c.action)
    case Done(s') => s'
    case Reverted(_) => s
  }

  function Run(s: State, calls: seq<Call>): State {
    if calls == [] then s else After(Run(s, calls[..|calls| - 1]), calls[|calls| - 1])
  }
}
