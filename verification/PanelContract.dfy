/**
  The arbiter panel contract as an object. Each entrypoint is proved to do what
  its function in PanelModel says; loops run over the lists the contract stores.
 */
module PanelContract {
  import opened Wrappers
  import opened SettlementMath
  import opened PanelModel
  import opened PanelDraw

  predicate Cuttable(r: Round, rec: Arbiter, a: Address, verdict: Option<Vote>) {
    verdict.None? || Won(r, a, verdict.value) || FitsI128(rec.bond * CUT_BPS)
  }

  function Freed(r: Round, rec: Arbiter, a: Address, verdict: Option<Vote>): Arbiter {
    Arbiter(rec.bond - Loss(r, rec, a, verdict), if rec.openVotes == 0 then 0 else rec.openVotes - 1)
  }

  lemma NextObstacle(arbiters: map<Address, Arbiter>, r: Round, panel: seq<Address>, i: nat, verdict: Option<Vote>)
    requires i < |panel| && Obstacle(arbiters, r, panel[..i], verdict).None?
    ensures Obstacle(arbiters, r, panel[..i + 1], verdict)
              == if panel[i] !in arbiters then Some(NotRegistered)
                 else if !Cuttable(r, Released(arbiters, r, panel[..i], verdict)[panel[i]], panel[i], verdict)
                 then Some(Overflow) else None
  {
    assert panel[..i + 1][..i] == panel[..i];
  }

  lemma NextReleased(arbiters: map<Address, Arbiter>, r: Round, panel: seq<Address>, i: nat, verdict: Option<Vote>)
    requires i < |panel| && Obstacle(arbiters, r, panel[..i + 1], verdict).None?
    ensures Obstacle(arbiters, r, panel[..i], verdict).None?
    ensures var m, a := Released(arbiters, r, panel[..i], verdict), panel[i];
            && a in m
            && Released(arbiters, r, panel[..i + 1], verdict)
                 == m[a := Freed(r, m[a], a, verdict)]
            && SlashedTotal(arbiters, r, panel[..i + 1], verdict)
                 == SlashedTotal(arbiters, r, panel[..i], verdict) + Loss(r, m[a], a, verdict)
  {
    assert panel[..i + 1][..i] == panel[..i];
    assert panel[..i + 1][i] == panel[i];
  }

  /** The first `i` members are released into `book`, `slashed` having been cut from them. */
  ghost predicate ReleasedTo(arbiters: map<Address, Arbiter>, r: Round, i: nat, verdict: Option<Vote>,
                             book: map<Address, Arbiter>, slashed: int)
    requires i <= |r.panel|
  {
    && Obstacle(arbiters, r, r.panel[..i], verdict).None?
    && book == Released(arbiters, r, r.panel[..i], verdict)
    && slashed == SlashedTotal(arbiters, r, r.panel[..i], verdict)
  }

  lemma NextBlocked(arbiters: map<Address, Arbiter>, r: Round, i: nat, verdict: Option<Vote>,
                    book: map<Address, Arbiter>, slashed: int)
    requires i < |r.panel| && ReleasedTo(arbiters, r, i, verdict, book, slashed)
    requires r.panel[i] !in book || !Cuttable(r, book[r.panel[i]], r.panel[i], verdict)
    ensures Obstacle(arbiters, r, r.panel, verdict) == Some(if r.panel[i] !in book then NotRegistered else Overflow)
  {
    NextObstacle(arbiters, r, r.panel, i, verdict);
    ObstacleStands(arbiters, r, r.panel, i + 1, verdict);
  }

  lemma NextFreed(arbiters: map<Address, Arbiter>, r: Round, i: nat, verdict: Option<Vote>,
                  book: map<Address, Arbiter>, slashed: int)
    requires i < |r.panel| && ReleasedTo(arbiters, r, i, verdict, book, slashed)
    requires r.panel[i] in book && Cuttable(r, book[r.panel[i]], r.panel[i], verdict)
    ensures var a := r.panel[i];
            ReleasedTo(arbiters, r, i + 1, verdict, book[a := Freed(r, book[a], a, verdict)],
                       slashed + Loss(r, book[a], a, verdict))
  {
    assert Obstacle(arbiters, r, r.panel[..i + 1], verdict).None? by { NextObstacle(arbiters, r, r.panel, i, verdict); }
    NextReleased(arbiters, r, r.panel, i, verdict);
  }

  /** The first obstacle is the one a loop over the panel stops at. */
  lemma {:induction false} ObstacleStands(arbiters: map<Address, Arbiter>, r: Round, panel: seq<Address>, i: nat, verdict: Option<Vote>)
    requires i <= |panel| && Obstacle(arbiters, r, panel[..i], verdict).Some?
    ensures Obstacle(arbiters, r, panel, verdict) == Obstacle(arbiters, r, panel[..i], verdict)
    decreases |panel|
  {
    if i == |panel| {
      assert panel[..i] == panel;
    } else {
      var front := panel[..|panel| - 1];
      assert front[..i] == panel[..i];
      ObstacleStands(arbiters, r, front, i, verdict);
    }
  }

  class ArbiterPanel {
    var config: Option<Config>
    var list: seq<Address>
    var arbiters: map<Address, Arbiter>
    var rounds: map<DisputeId, Round>
    var held: int                    // the panel's balance of the bond token
    var wallets: map<Address, int>   // everyone else's

    ghost function View(): State
      reads this
    {
      State(config, list, arbiters, rounds, held, wallets)
    }

    /** The call ended as `o` says; an error left nothing changed. */
    ghost predicate Ended(o: Outcome, before: State, err: Option<Error>)
      reads this
    {
      match o
      case Done(s) => err == None && View() == s
      case Reverted(e) => err == Some(e) && View() == before
    }

    constructor (funds: map<Address, int>)
      ensures View() == EMPTY.(wallets := funds)
    {
      config, list, arbiters, rounds, held, wallets := None, [], map[], map[], 0, funds;
    }

    method Initialize(c: Config) returns (err: Option<Error>)
      modifies this
      ensures Ended(PanelModel.Initialize(old(View()), c), old(View()), err)
    {
      if config.Some? { return Some(AlreadyInitialized); }
      if c.bondAmount <= 0 || c.threshold == 0 || c.threshold > c.panelSize { return Some(InvalidConfig); }
      if c.threshold * 2 > U32_MAX { return Some(Overflow); }
      if c.threshold * 2 <= c.panelSize { return Some(InvalidConfig); }
      config := Some(c);
      err := None;
    }

    method RegisterArbiter(a: Address) returns (err: Option<Error>)
      modifies this
      ensures Ended(Register(old(View()), a), old(View()), err)
    {
      if a in arbiters { return Some(AlreadyRegistered); }
      if config.None? { return Some(NotInitialized); }
      var bond, balance := config.value.bondAmount, if a in wallets then wallets[a] else 0;
      if balance < bond { return Some(WalletShort); }
      wallets := wallets[a := balance - bond];
      held := held + bond;
      arbiters := arbiters[a := Arbiter(bond, 0)];
      list := list + [a];
      err := None;
    }

    method DeregisterArbiter(a: Address) returns (err: Option<Error>)
      modifies this
      ensures Ended(Deregister(old(View()), a), old(View()), err)
    {
      if a !in arbiters { return Some(NotRegistered); }
      var rec := arbiters[a];
      if rec.openVotes > 0 { return Some(HasOpenVotes); }
      var kept: seq<Address> := [];
      for i := 0 to |list|
        invariant kept == Kept(list[..i], a)
      {
        assert list[..i + 1][..i] == list[..i];
        if list[i] != a { kept := kept + [list[i]]; }
      }
      assert list[..|list|] == list;
      if rec.bond > 0 {
        if config.None? { return Some(NotInitialized); }
        if held < rec.bond { return Some(PanelShort); }
        wallets := wallets[a := (if a in wallets then wallets[a] else 0) + rec.bond];
        held := held - rec.bond;
      }
      arbiters := arbiters - {a};
      list := kept;
      err := None;
    }

    /** The arbiters that may sit, or the first record missing. */
    method EligibleArbiters(p: Parties, amount: int) returns (eligible: seq<Address>, err: Option<Error>)
      ensures err == if Loadable(View(), p) then None else Some(NotRegistered)
      ensures Loadable(View(), p) ==> eligible == Eligible(View(), p, list, amount)
    {
      eligible := [];
      for i := 0 to |list|
        invariant forall a <- list[..i] :: May(p, a) ==> a in arbiters
        invariant eligible == Eligible(View(), p, list[..i], amount)
      {
        var a := list[i];
        assert list[..i + 1][..i] == list[..i];
        assert list[..i + 1] == list[..i] + [a];
        if May(p, a) && a !in arbiters { return [], Some(NotRegistered); }
        if May(p, a) && arbiters[a].bond >= amount { eligible := eligible + [a]; }
      }
      assert list[..|list|] == list;
      err := None;
    }

    /** The partial Fisher-Yates loop: place by place, swapped within the list. */
    method Draw(eligible: seq<Address>, k: nat, draw: nat -> nat) returns (panel: seq<Address>)
      requires k <= |eligible|
      ensures panel == Shuffled(eligible, draw, k)[..k]
    {
      var pool := eligible;
      panel := [];
      for i := 0 to k
        invariant pool == Shuffled(eligible, draw, i)
        invariant panel == pool[..i]
      {
        var j := Pick(draw, i, |eligible|);
        var a, b := pool[i], pool[j];
        pool := pool[i := b];
        pool := pool[j := a];
        panel := panel + [b];
      }
    }

    /** One more open vote for every member. */
    method Lock(panel: seq<Address>) returns (book: map<Address, Arbiter>, err: Option<Error>)
      ensures err == if (exists a <- panel :: a !in arbiters) then Some(NotRegistered) else None
      ensures err.None? ==> book == Locked(arbiters, panel)
    {
      book := arbiters;
      for i := 0 to |panel|
        invariant forall a <- panel[..i] :: a in arbiters
        invariant book == Locked(arbiters, panel[..i])
      {
        var a := panel[i];
        assert panel[..i + 1][..i] == panel[..i];
        assert panel[..i + 1] == panel[..i] + [a];
        if a !in book {
          assert a in panel;
          return book, Some(NotRegistered);
        }
        book := book[a := book[a].(openVotes := book[a].openVotes + 1)];
      }
      assert panel[..|panel|] == panel;
      err := None;
    }

    method OpenVote(now: nat, id: DisputeId, parties: Option<Parties>, draw: nat -> nat)
      returns (panel: seq<Address>, err: Option<Error>)
      modifies this
      ensures Ended(PanelModel.OpenVote(old(View()), now, id, parties, draw), old(View()), err)
      ensures err.None? ==> id in rounds && panel == rounds[id].panel
    {
      panel := [];
      if id in rounds { return [], Some(RoundExists); }
      if config.None? { return [], Some(NotInitialized); }
      if parties.None? { return [], Some(SettlementRefused); }
      var eligible, missing := EligibleArbiters(parties.value, config.value.bondAmount);
      if missing.Some? { return [], missing; }
      panel, err := EmpanelArbiters(now, id, config.value, eligible, draw);
    }

    method EmpanelArbiters(now: nat, id: DisputeId, c: Config, eligible: seq<Address>, draw: nat -> nat)
      returns (panel: seq<Address>, err: Option<Error>)
      modifies this
      ensures Ended(Empanel(old(View()), now, id, c, eligible, draw), old(View()), err)
      ensures err.None? ==> id in rounds && panel == rounds[id].panel
    {
      if eligible == [] { return [], Some(NoEligibleArbiters); }
      var n, m := c.panelSize, c.threshold;
      var k := Min(n, |eligible|);
      if m * k + n - 1 > U32_MAX || n == 0 { return [], Some(Overflow); }
      panel := Draw(eligible, k, draw);
      var book, lost := Lock(panel);
      if lost.Some? { return [], lost; }
      arbiters := book;
      rounds := rounds[id := Round(panel, Max((m * k + n - 1) / n, 1), now, map[], false)];
      err := None;
    }

    method CastVote(now: nat, a: Address, id: DisputeId, v: Vote) returns (err: Option<Error>)
      modifies this
      ensures Ended(PanelModel.CastVote(old(View()), now, a, id, v), old(View()), err)
    {
      if id !in rounds { return Some(RoundNotFound); }
      var round := rounds[id];
      if round.settled { return Some(RoundSettled); }
      if now >= round.openedAt + VOTE_WINDOW { return Some(VotingClosed); }
      if a !in round.panel { return Some(NotOnPanel); }
      if a in round.votes { return Some(AlreadyVoted); }
      round := round.(votes := round.votes[a := v]);
      rounds := rounds[id := round];
      err := None;
    }

    method CountVotes(votes: map<Address, Vote>) returns (upheld: nat, dismissed: nat)
      ensures upheld == Count(votes, Upheld) && dismissed == Count(votes, Dismissed)
    {
      upheld, dismissed := 0, 0;
      var rest := votes.Keys;
      ghost var u, d := {}, {};
      while rest != {}
        invariant rest <= votes.Keys
        invariant u == Voters(votes, Upheld) - rest && upheld == |u|
        invariant d == Voters(votes, Dismissed) - rest && dismissed == |d|
        decreases |rest|
      {
        var a :| a in rest;
        rest := rest - {a};
        if votes[a] == Upheld {
          upheld, u := upheld + 1, u + {a};
        } else {
          dismissed, d := dismissed + 1, d + {a};
        }
      }
      assert u == Voters(votes, Upheld) && d == Voters(votes, Dismissed);
    }

    /** One member gives up its seat, and its cut unless it won; `None` when the cut overflows. */
    static method ReleaseMember(r: Round, rec: Arbiter, a: Address, verdict: Option<Vote>) returns (out: Option<(Arbiter, int)>)
      ensures out.Some? <==> Cuttable(r, rec, a, verdict)
      ensures out.Some? ==> out.value == (Freed(r, rec, a, verdict), Loss(r, rec, a, verdict))
    {
      var freed, cut := rec.(openVotes := if rec.openVotes == 0 then 0 else rec.openVotes - 1), 0;
      if verdict.Some? && !(a in r.votes && r.votes[a] == verdict.value) {
        if !FitsI128(rec.bond * CUT_BPS) { return None; }
        cut := TruncDiv(rec.bond * CUT_BPS, BPS);
        freed := freed.(bond := freed.bond - cut);
      }
      out := Some((freed, cut));
    }

    /** Seats are given up and losers cut, member by member. */
    static method Release(arbiters: map<Address, Arbiter>, r: Round, verdict: Option<Vote>)
      returns (book: map<Address, Arbiter>, slashed: int, err: Option<Error>)
      ensures err == Obstacle(arbiters, r, r.panel, verdict)
      ensures err.None? ==> book == Released(arbiters, r, r.panel, verdict)
                            && slashed == SlashedTotal(arbiters, r, r.panel, verdict)
    {
      book, slashed := arbiters, 0;
      for i := 0 to |r.panel|
        invariant ReleasedTo(arbiters, r, i, verdict, book, slashed)
      {
        var a := r.panel[i];
        if a !in book {
          NextBlocked(arbiters, r, i, verdict, book, slashed);
          return book, slashed, Some(NotRegistered);
        }
        var out := ReleaseMember(r, book[a], a, verdict);
        if out.None? {
          NextBlocked(arbiters, r, i, verdict, book, slashed);
          return book, slashed, Some(Overflow);
        }
        NextFreed(arbiters, r, i, verdict, book, slashed);
        book := book[a := out.value.0];
        slashed := slashed + out.value.1;
      }
      assert r.panel[..|r.panel|] == r.panel;
      err := None;
    }

    static method WinnersOf(r: Round, v: Vote) returns (winners: seq<Address>)
      ensures winners == Winners(r, r.panel, v)
    {
      winners := [];
      for i := 0 to |r.panel|
        invariant winners == Winners(r, r.panel[..i], v)
      {
        var a := r.panel[i];
        assert r.panel[..i + 1][..i] == r.panel[..i];
        if a in r.votes && r.votes[a] == v { winners := winners + [a]; }
      }
      assert r.panel[..|r.panel|] == r.panel;
    }

    /** The losers' bond, shared among the winners. */
    static method Reward(released: map<Address, Arbiter>, winners: seq<Address>, slashed: int) returns (book: map<Address, Arbiter>)
      requires forall a <- winners :: a in released
      ensures book == Redistributed(released, winners, slashed)
    {
      book := released;
      if winners == [] || slashed <= 0 { return; }
      var share := TruncDiv(slashed, |winners|);
      var dust := slashed - share * |winners|;
      for i := 0 to |winners|
        invariant book == Rewarded(released, winners[..i], share, dust)
      {
        var a := winners[i];
        assert winners[..i + 1][..i] == winners[..i];
        book := book[a := book[a].(bond := book[a].bond + share + if i == 0 then dust else 0)];
      }
      assert winners[..|winners|] == winners;
    }

    /** `accepts` is the settlement contract's answer to `resolve_dispute`. */
    method Tally(now: nat, id: DisputeId, accepts: bool) returns (verdict: Option<Vote>, err: Option<Error>)
      modifies this
      ensures Ended(PanelModel.Tally(old(View()), now, id, accepts), old(View()), err)
      ensures err.None? ==> id in old(rounds) && verdict == Verdict(old(rounds)[id])
    {
      verdict := None;
      if id !in rounds { return None, Some(RoundNotFound); }
      var round := rounds[id];
      if round.settled { return None, Some(RoundSettled); }
      var upheld, dismissed := CountVotes(round.votes);
      verdict := if upheld >= round.threshold then Some(Upheld)
                 else if dismissed >= round.threshold then Some(Dismissed) else None;
      if verdict.None? && now < round.openedAt + VOTE_WINDOW { return None, Some(QuorumNotReached); }
      var book, slashed, obstacle := Release(arbiters, round, verdict);
      if obstacle.Some? { return None, obstacle; }
      if verdict.Some? {
        WinnersOnPanel(round, round.panel, verdict.value);
        var winners := WinnersOf(round, verdict.value);
        book := Reward(book, winners, slashed);
        if config.None? { return None, Some(NotInitialized); }
        if !accepts { return None, Some(SettlementRefused); }
      }
      arbiters := book;
      rounds := rounds[id := round.(settled := true)];
      err := None;
    }
  }
}
