/**
  A run after which the replay's open counter is wrong for good: the user raises the
  minimum before the first fill, which the replay takes for the whole.
 */
module ReplayAmended {
  import opened Wrappers
  import opened SettlementMath
  import opened SettlementModel
  import opened SettlementScenario
  import opened SettlementJams
  import opened IndexerModel
  import opened Sums
  import R = ReplayTheorems
  import D = ReplayDrift

  /** Submitted for one unit, amended to two, and one unit is filled. */
  function Raised(): seq<Call> {
    Bonding() + [Call(0, DoSubmit(USER, 1, OUT, 1, None, None, true, 0)), Call(0, DoAmend(USER, 0, 2, INTENT_EXPIRY))]
      + [Call(0, DoAccept(7, 0, 0, 0, NEUTRAL)), Call(0, DoFill(7, 0, 1, true, NEUTRAL))]
  }

  lemma NotesNext(s: State, before: seq<Call>, c: Call)
    ensures D.Notes(s, before + [c]) == D.NotedAfter(D.Notes(s, before), Run(s, before), c)
  {
    assert (before + [c])[..|before|] == before;
  }

  /** Only submissions, payouts and closings are noted. */
  lemma NothingNoted(s: State, before: seq<Call>, c: Call)
    requires c.action.DoRegister? || c.action.DoAmend? || c.action.DoAccept? || c.action.DoFill?
    ensures D.Notes(s, before + [c]) == D.Notes(s, before)
  {
    NotesNext(s, before, c);
  }

  function Amended(s: State): State {
    var s1 := Admitted(s, 0, 1, 0);
    s1.(intents := s1.intents[0 := s1.intents[0].(minDst := 2, deadline := INTENT_EXPIRY)],
        stamps := s1.stamps.(amends := s1.stamps.amends[USER := 0]))
  }

  lemma Amending(s: State)
    requires Start(s)
    ensures var s1 := After(s, Call(0, DoSubmit(USER, 1, OUT, 1, None, None, true, 0)));
            s1 == Admitted(s, 0, 1, 0) && After(s1, Call(0, DoAmend(USER, 0, 2, INTENT_EXPIRY))) == Amended(s)
  {
    Submits(s, 0, 1, 0);
    Amends(Admitted(s, 0, 1, 0), 0, 0, 2);
  }

  /** Open on chain: one unit of two. */
  ghost predicate HalfOpen(s: State) {
    && s.intents.Keys == {0} && s.openIntents == 1
    && s.intents[0].phase == PartiallyFilled && s.intents[0].totalFilled == 1 && s.intents[0].minDst == 2
    && s.intents[0].disputeDeadline.None?
  }

  lemma Filled(s: State)
    requires Start(s)
    ensures var s1 := After(Amended(s), Call(0, DoAccept(7, 0, 0, 0, NEUTRAL)));
            HalfOpen(After(s1, Call(0, DoFill(7, 0, 1, true, NEUTRAL))))
  {
    var e := Accepts(Amended(s), 0, 7, 0);
    var bank := FillsOne(Committed(Amended(s), 0, 7, 0, e), 0, 7, 0);
  }

  lemma Noting()
    requires Perform(Run(Deployed(), Bonding()), 0, Raised()[2].action).Done?
    ensures D.Notes(Deployed(), Raised()) == D.NOTHING.(asked := map[0 := 1])
  {
    var s, calls := Deployed(), Raised();
    assert calls == [] + [calls[0]] + [calls[1]] + [calls[2]] + [calls[3]] + [calls[4]] + [calls[5]];
    assert Bonding() == [] + [calls[0]] + [calls[1]];
    NothingNoted(s, [], calls[0]);
    NothingNoted(s, [] + [calls[0]], calls[1]);
    NotesNext(s, Bonding(), calls[2]);
    NothingNoted(s, Bonding() + [calls[2]], calls[3]);
    NothingNoted(s, Bonding() + [calls[2]] + [calls[3]], calls[4]);
    NothingNoted(s, Bonding() + [calls[2]] + [calls[3]] + [calls[4]], calls[5]);
  }

  lemma Submitted(s: State)
    requires Start(s)
    ensures Perform(s, 0, Raised()[2].action).Done?
  {
  }

  lemma Reached()
    ensures HalfOpen(Run(Deployed(), Raised()))
  {
    var calls, s := Raised(), Run(Deployed(), Bonding());
    var four := Bonding() + [calls[2], calls[3]];
    Bonded();
    RunTwo(Deployed(), Bonding(), calls[2], calls[3]);
    Amending(s);
    assert calls == four + [calls[4], calls[5]];
    RunTwo(Deployed(), four, calls[4], calls[5]);
    Filled(s);
  }

  /** The contract has one open intent, the replay of its log none. */
  lemma OpenCounterDrifts()
    ensures Run(Deployed(), Raised()).openIntents == 1
    ensures Replayed(EMPTY, Log(Deployed(), Raised(), false)).totals.open == 0
  {
    Bonded();
    Submitted(Run(Deployed(), Bonding()));
    Noting();
    Reached();
    D.ReplayFollows(PARAMS, ADMIN, ADMIN, Deployed().bank.wallets, Raised(), false);
    NothingShown(Run(Deployed(), Raised()), Replayed(EMPTY, Log(Deployed(), Raised(), false)), D.Notes(Deployed(), Raised()));
  }

  lemma NothingShown(s: State, x: Indexer, u: D.Unseen)
    requires D.Follows(s, x, u) && HalfOpen(s) && u.Asked(0) == 1 && u.closed == map[]
    ensures x.totals.open == 0
  {
    forall id | id in x.intents ensures R.ViewOpen()(id, x.intents[id]) == 0 { assert id in s.intents; }
    TotalZero(x.intents, R.ViewOpen());
  }
}
