/**
  What each call does to each account and each arbiter, the tokens of all of them
  together, and how losing a vote ends an arbiter's service.
 */
module PanelStandings {
  import opened Wrappers
  import opened SettlementMath
  import opened PanelModel
  import opened PanelDraw
  import opened PanelTheorems
  import opened PanelRounds
  import opened Sums

  // ----- Joining, leaving and the bonds -----

  /** What account `a` is paid by a call that goes through, less what it pays. */
  function Paid(s: State, x: Action, a: Address): int {
    match x
    case DoRegister(b) => if a == b && s.config.Some? then -s.config.value.bondAmount else 0
    case DoDeregister(b) => if a == b && a in s.arbiters then s.arbiters[a].bond else 0
    case Fund(b, amount) => if a == b then amount else 0
    case _ => 0
  }

  /** Whether `a` is an arbiter afterwards, and the bond it then has. */
  ghost predicate StandsAfter(s: State, x: Action, s': State, a: Address) {
    && (a in s'.arbiters <==> x == DoRegister(a) || (a in s.arbiters && x != DoDeregister(a)))
    && (a in s'.arbiters ==>
          s'.arbiters[a].bond ==
            if x == DoRegister(a) && s.config.Some? then s.config.value.bondAmount
            else if a !in s.arbiters then 0
            else if x.DoTally? && x.id in s.rounds && Verdict(s.rounds[x.id]).Some?
                    && Winners(s.rounds[x.id], s.rounds[x.id].panel, Verdict(s.rounds[x.id]).value) != []
            then BondAfter(s.arbiters, s.rounds[x.id], Verdict(s.rounds[x.id]).value, a)
            else s.arbiters[a].bond)
  }

  lemma TallyStands(s: State, now: nat, x: Action, a: Address)
    requires Sound(s) && x.DoTally? && Perform(s, now, x).Done?
    ensures Perform(s, now, x).state.Balance(a) == s.Balance(a) && StandsAfter(s, x, Perform(s, now, x).state, a)
  {
    TallyPays(s, now, x.id, x.accepts);
    TallyKeepsRecords(s, now, x);
  }

  lemma TallyKeepsRecords(s: State, now: nat, x: Action)
    requires x.DoTally? && Perform(s, now, x).Done?
    ensures Perform(s, now, x).state.arbiters.Keys == s.arbiters.Keys
    ensures Perform(s, now, x).state.wallets == s.wallets
  {
  }

  lemma OpenStands(s: State, now: nat, x: Action, a: Address)
    requires Sound(s) && x.DoOpenVote? && Perform(s, now, x).Done?
    ensures Perform(s, now, x).state.Balance(a) == s.Balance(a) && StandsAfter(s, x, Perform(s, now, x).state, a)
  {
    var r := OpenFollows(s, now, x);
  }

  lemma LeaveStands(s: State, now: nat, x: Action, a: Address)
    requires Sound(s) && (x.DoRegister? || x.DoDeregister?) && Perform(s, now, x).Done?
    ensures Perform(s, now, x).state.Balance(a) == s.Balance(a) + Paid(s, x, a)
    ensures StandsAfter(s, x, Perform(s, now, x).state, a)
  {
  }

  /** Every call, for every account: what it is paid, whether it is an arbiter, and its bond. */
  lemma EveryoneStands(s: State, c: Call, a: Address)
    requires Sound(s)
    ensures if Perform(s, c.now, c.action).Done?
            then After(s, c).Balance(a) == s.Balance(a) + Paid(s, c.action, a) && StandsAfter(s, c.action, After(s, c), a)
            else After(s, c) == s
  {
    if Perform(s, c.now, c.action).Done? {
      if c.action.DoTally? {
        TallyStands(s, c.now, c.action, a);
      } else if c.action.DoOpenVote? {
        OpenStands(s, c.now, c.action, a);
      } else if c.action.DoRegister? || c.action.DoDeregister? {
        LeaveStands(s, c.now, c.action, a);
      } else if c.action.DoVote? {
        VoteFollows(s, c.now, c.action);
      }
    }
  }

  /** Who may join, leave and set the panel up. */
  predicate MayEnter(s: State, x: Action)
    requires x.DoRegister? || x.DoDeregister? || x.DoInitialize?
  {
    match x
    case DoRegister(a) => a !in s.arbiters && s.config.Some? && s.Balance(a) >= s.config.value.bondAmount
    case DoDeregister(a) => a in s.arbiters && s.arbiters[a].openVotes == 0
    case DoInitialize(c) =>
      s.config.None? && c.bondAmount > 0 && 0 < c.threshold <= c.panelSize < 2 * c.threshold <= U32_MAX
    case _ => false
  }

  lemma EntersExactly(s: State, now: nat, x: Action)
    requires Sound(s) && (x.DoRegister? || x.DoDeregister? || x.DoInitialize?)
    ensures Perform(s, now, x).Done? <==> MayEnter(s, x)
  {
    if x.DoDeregister? && x.a in s.arbiters && s.arbiters[x.a].openVotes == 0 { ExitPaid(s, x.a); }
  }

  /** The configuration is set by the first initialisation that may, and never again. */
  lemma ConfiguredOnce(s: State, c: Call)
    requires Sound(s)
    ensures After(s, c).config
              == if c.action.DoInitialize? && MayEnter(s, c.action) then Some(c.action.config) else s.config
  {
    if c.action.DoInitialize? { EntersExactly(s, c.now, c.action); }
  }

  // ----- Tokens -----

  function Brought(calls: seq<Call>): nat {
    if calls == [] then 0 else
    var x := calls[|calls| - 1].action;
    Brought(calls[..|calls| - 1]) + if x.Fund? then x.amount else 0
  }

  ghost function Each(): (Address, int) -> int { (a: Address, n: int) => n }

  lemma WalletsMove(s: State, c: Call)
    ensures After(s, c).held + Total(After(s, c).wallets, Each()) ==
              s.held + Total(s.wallets, Each()) + if c.action.Fund? then c.action.amount else 0
  {
    if Perform(s, c.now, c.action).Done? {
      var s' := After(s, c);
      if c.action.DoRegister? || c.action.DoDeregister? || c.action.Fund? {
        var a: Address := c.action.a;
        if s'.wallets != s.wallets { TotalUpdate(s.wallets, a, s'.wallets[a], Each()); }
      }
    }
  }

  /** No call makes or destroys a token. */
  lemma {:induction false} TokensConserved(s: State, calls: seq<Call>)
    ensures Run(s, calls).held + Total(Run(s, calls).wallets, Each()) == s.held + Total(s.wallets, Each()) + Brought(calls)
  {
    if calls != [] {
      TokensConserved(s, calls[..|calls| - 1]);
      WalletsMove(Run(s, calls[..|calls| - 1]), calls[|calls| - 1]);
    }
  }

  // ----- Losing a vote ends an arbiter's service -----

  /** Registered, in no open round, with less at stake than the panel asks for. */
  ghost predicate Benched(s: State, a: Address) {
    && s.config.Some? && a in s.arbiters && s.arbiters[a].bond < s.config.value.bondAmount
    && forall id <- s.rounds :: !s.rounds[id].settled ==> a !in s.rounds[id].panel
  }

  /** Benched in `s'` too, with the same bond, and drawn for nothing since `s`. */
  ghost predicate StillBenched(s: State, s': State, a: Address) {
    && Benched(s, a) && Benched(s', a) && s'.arbiters[a].bond == s.arbiters[a].bond
    && forall id <- s'.rounds :: a in s'.rounds[id].panel ==> id in s.rounds && a in s.rounds[id].panel
  }

  lemma ConfigStays(s: State, c: Call)
    requires s.config.Some?
    ensures After(s, c).config == s.config
  {
  }

  lemma BenchedStep(s: State, c: Call, a: Address)
    requires Sound(s) && Benched(s, a) && c.action != DoDeregister(a)
    ensures StillBenched(s, After(s, c), a)
  {
    var s' := After(s, c);
    ConfigStays(s, c);
    StaysOnList(s, c, a);
    forall id | id in s'.rounds
      ensures a in s'.rounds[id].panel ==> id in s.rounds && a in s.rounds[id].panel && s'.rounds[id].settled
    {
      RoundStep(s, c, id);
      if id in s.rounds { RoundKept(s, c, id); }
    }
  }

  lemma StaysOnList(s: State, c: Call, a: Address)
    requires Sound(s) && Benched(s, a) && c.action != DoDeregister(a)
    ensures a in After(s, c).arbiters && After(s, c).arbiters[a].bond == s.arbiters[a].bond
  {
    EveryoneStands(s, c, a);
    EntersExactly(s, c.now, DoRegister(a));
    if c.action.DoTally? && Perform(s, c.now, c.action).Done? { TallyPassesExactly(s, c.now, c.action); }
  }

  /** Once benched, an arbiter is drawn for no later round unless it leaves and joins again. */
  lemma {:induction false} BenchedForever(s: State, calls: seq<Call>, a: Address)
    requires Sound(s) && Benched(s, a)
    requires forall c <- calls :: c.action != DoDeregister(a)
    ensures StillBenched(s, Run(s, calls), a)
  {
    if calls != [] {
      var front, last := calls[..|calls| - 1], calls[|calls| - 1];
      assert last in calls;
      BenchedForever(s, front, a);
      AlwaysSound(s, front);
      RunIs(s, calls, front);
      BenchedStep(Run(s, front), last, a);
      BenchedOn(s, Run(s, front), Run(s, calls), a);
    }
  }

  lemma BenchedOn(s: State, m: State, s': State, a: Address)
    requires StillBenched(s, m, a) && StillBenched(m, s', a)
    ensures StillBenched(s, s', a)
  {
  }

  lemma OutvotedPays(s: State, now: nat, x: Action, a: Address, v: Vote)
    requires Sound(s) && x.DoTally? && Perform(s, now, x).Done?
    requires Decided(s.rounds[x.id], v) && a in s.rounds[x.id].panel && !Won(s.rounds[x.id], a, v)
    ensures a in s.arbiters && a in Perform(s, now, x).state.arbiters
    ensures Perform(s, now, x).state.arbiters[a].bond == s.arbiters[a].bond - s.arbiters[a].bond / 10
  {
    var r := s.rounds[x.id];
    DecidedIs(r, v);
    assert Seated(s.arbiters, r.panel);
    TallyStands(s, now, x, a);
    VerdictHasWinner(r);
  }

  /** A member outvoted in its only open round is benched exactly when nine tenths of its
      bond, rounded up, are less than the bond asked for. */
  lemma OutvotedIsBenched(s: State, now: nat, x: Action, a: Address, v: Vote)
    requires Sound(s) && x.DoTally? && Perform(s, now, x).Done?
    requires Decided(s.rounds[x.id], v) && a in s.rounds[x.id].panel && !Won(s.rounds[x.id], a, v)
    requires forall id <- s.rounds :: id != x.id && !s.rounds[id].settled ==> a !in s.rounds[id].panel
    ensures a in s.arbiters && s.config.Some?
    ensures Benched(Perform(s, now, x).state, a)
            <==> s.arbiters[a].bond - s.arbiters[a].bond / 10 < s.config.value.bondAmount
  {
    OutvotedPays(s, now, x, a, v);
    Settles(s, now, x);
    BenchedIf(s, Perform(s, now, x).state, x.id, a);
  }

  lemma BenchedIf(s: State, s': State, id: DisputeId, a: Address)
    requires Configured(s) && a in s.arbiters && a in s'.arbiters && s'.config == s.config && id in s.rounds
    requires s'.rounds == s.rounds[id := s.rounds[id].(settled := true)]
    requires forall other <- s.rounds :: other != id && !s.rounds[other].settled ==> a !in s.rounds[other].panel
    ensures s.config.Some?
    ensures Benched(s', a) <==> s'.arbiters[a].bond < s.config.value.bondAmount
  {
  }

  lemma Settles(s: State, now: nat, x: Action)
    requires x.DoTally? && Perform(s, now, x).Done?
    ensures x.id in s.rounds && Perform(s, now, x).state.rounds == s.rounds[x.id := s.rounds[x.id].(settled := true)]
    ensures Perform(s, now, x).state.config == s.config
  {
  }
}
