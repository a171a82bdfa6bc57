/**
  Replay is a simulation: whatever is submitted, accepted, filled, cancelled,
  expired and slashed, replaying the published events gives the contract's own
  intents, counters and volume. Registrations, published in another shape than
  documented, it misses, and exactly those.
 */
module ReplayTheorems {
  import opened Wrappers
  import opened SettlementMath
  import opened SettlementModel
  import opened SettlementCounters
  import opened SettlementFrames
  import opened IndexerModel
  import opened Sums

  /** The calls whose whole effect on intents is in their events: all but amendments,
      the bid window and the escrow path. */
  predicate Replayable(x: Action) {
    !x.DoAmend? && !x.DoBid? && !x.DoSettleBids? && !x.DoBeginFill? && !x.DoDispute? && !x.DoResolve? && !x.DoRelease?
  }

  /** A slash re-opens as Open on chain and as PartiallyFilled in a replay. */
  predicate SamePhase(p: Phase, q: Phase) {
    p == q || (p in {Open, PartiallyFilled} && q in {Open, PartiallyFilled})
  }

  predicate SameIntent(i: Intent, v: IntentView) {
    && v.user == i.user && v.minDst == i.minDst && v.totalFilled == i.totalFilled
    && SamePhase(i.phase, v.phase)
    && (i.phase == Accepted ==> v.solver == i.solver && v.fillDeadline == i.deadline)
    && i.phase in {Open, PartiallyFilled, Accepted, Filled, Cancelled, Expired}
  }

  ghost function ViewOpen(): (IntentId, IntentView) -> int {
    (id: IntentId, v: IntentView) => if v.OpenLike() then 1 else 0
  }

  ghost predicate Mirrors(s: State, x: Indexer) {
    && (forall id <- s.intents :: id in x.intents && SameIntent(s.intents[id], x.intents[id]))
    && (forall id <- x.intents :: id !in s.intents ==> id in s.tombstones)
    && x.totals.intents == s.totalIntents
    && x.totals.volume == s.totalVolume
    && x.totals.open == s.openIntents
    && x.totals.open == Total(x.intents, ViewOpen())
  }

  /** One intent and its view change together, and the open counters with them. */
  lemma MirroredChange(s: State, s': State, x: Indexer, y: Indexer, id: IntentId, i: Intent, v: IntentView)
    requires Mirrors(s, x)
    requires s'.intents == s.intents[id := i] && s'.tombstones == s.tombstones
    requires y.intents == x.intents[id := v] && SameIntent(i, v)
    requires id in s.intents || id !in x.intents
    requires y.totals.intents == s'.totalIntents && y.totals.volume == s'.totalVolume
    requires s'.openIntents == y.totals.open
               == x.totals.open + ViewOpen()(id, v) - if id in x.intents then ViewOpen()(id, x.intents[id]) else 0
    ensures Mirrors(s', y)
  {
    TotalUpdate(x.intents, id, v, ViewOpen());
  }

  /** Nothing the mirror shows changes. */
  lemma MirroredSame(s: State, s': State, x: Indexer, y: Indexer)
    requires Mirrors(s, x)
    requires s'.intents == s.intents && s'.tombstones == s.tombstones
    requires s'.totalIntents == s.totalIntents && s'.totalVolume == s.totalVolume && s'.openIntents == s.openIntents
    requires y.intents == x.intents && y.totals.intents == x.totals.intents
    requires y.totals.volume == x.totals.volume && y.totals.open == x.totals.open
    ensures Mirrors(s', y)
  {
  }

  lemma OpenSeen(s: State, x: Indexer, id: IntentId)
    requires Mirrors(s, x) && id in s.intents && s.intents[id].phase in {Open, PartiallyFilled}
    ensures x.intents[id].OpenLike() && x.totals.open > 0
  {
    TotalCovers(x.intents, id, ViewOpen());
  }

  // ----- One lemma per call -----

  lemma Submitting(s: State, now: U64, u: Address, src: I128, dst: Token, min: I128, expiry: Option<U64>,
                   ref: Option<Address>, ext: bool, id: IntentId, x: Indexer)
    requires Mirrors(s, x) && Submit(s, now, u, src, dst, min, expiry, ref, ext, id).Done?
    ensures var o := Submit(s, now, u, src, dst, min, expiry, ref, ext, id);
            |o.events| == 1 && Mirrors(o.state, Fed(x, Other(now, o.events[0]))) && !o.events[0].SolverRegistered?
  {
    var o := Submit(s, now, u, src, dst, min, expiry, ref, ext, id);
    var y := Fed(x, Other(now, o.events[0]));
    MirroredChange(s, o.state, x, y, id, o.state.intents[id], y.intents[id]);
  }

  lemma Accepting(s: State, now: U64, a: Address, id: IntentId, t: Token, tier: nat, w: Quantity, x: Indexer)
    requires Mirrors(s, x) && Accept(s, now, a, id, t, tier, w).Done?
    ensures var o := Accept(s, now, a, id, t, tier, w);
            |o.events| == 1 && Mirrors(o.state, Fed(x, Other(now, o.events[0]))) && !o.events[0].SolverRegistered?
  {
    var o := Accept(s, now, a, id, t, tier, w);
    var y := Fed(x, Other(now, o.events[0]));
    OpenSeen(s, x, id);
    MirroredChange(s, o.state, x, y, id, o.state.intents[id], y.intents[id]);
  }

  lemma Filling(s: State, now: U64, a: Address, id: IntentId, amount: I128, proof: bool, w: Quantity, x: Indexer)
    requires Mirrors(s, x) && Fill(s, now, a, id, amount, proof, w).Done?
    ensures var o := Fill(s, now, a, id, amount, proof, w);
            |o.events| == 1 && Mirrors(o.state, Fed(x, Other(now, o.events[0]))) && !o.events[0].SolverRegistered?
  {
    var o := Fill(s, now, a, id, amount, proof, w);
    var y := Fed(x, Other(now, o.events[0]));
    MirroredChange(s, o.state, x, y, id, o.state.intents[id], y.intents[id]);
  }

  lemma Cancelling(s: State, now: U64, u: Address, id: IntentId, x: Indexer)
    requires Mirrors(s, x) && Cancel(s, now, u, id).Done?
    ensures var o := Cancel(s, now, u, id);
            |o.events| == 1 && Mirrors(o.state, Fed(x, Other(now, o.events[0]))) && !o.events[0].SolverRegistered?
  {
    var o := Cancel(s, now, u, id);
    var y := Fed(x, Other(now, o.events[0]));
    OpenSeen(s, x, id);
    MirroredChange(s, o.state, x, y, id, o.state.intents[id], y.intents[id]);
  }

  lemma Expiring(s: State, now: U64, id: IntentId, x: Indexer)
    requires Mirrors(s, x) && Expire(s, now, id).Done?
    ensures var o := Expire(s, now, id);
            |o.events| == 1 && Mirrors(o.state, Fed(x, Other(now, o.events[0]))) && !o.events[0].SolverRegistered?
  {
    var o := Expire(s, now, id);
    var y := Fed(x, Other(now, o.events[0]));
    OpenSeen(s, x, id);
    MirroredChange(s, o.state, x, y, id, o.state.intents[id], y.intents[id]);
  }

  lemma Slashing(s: State, now: U64, id: IntentId, w: Quantity, x: Indexer)
    requires Mirrors(s, x) && Slash(s, now, id, w).Done?
    ensures var o := Slash(s, now, id, w);
            |o.events| == 1 && Mirrors(o.state, Fed(x, Other(now, o.events[0]))) && !o.events[0].SolverRegistered?
  {
    var o := Slash(s, now, id, w);
    var y := Fed(x, Other(now, o.events[0]));
    MirroredChange(s, o.state, x, y, id, o.state.intents[id], y.intents[id]);
  }

  lemma Extending(s: State, now: U64, a: Address, id: IntentId, x: Indexer)
    requires Mirrors(s, x) && Extend(s, a, id).Done?
    ensures var o := Extend(s, a, id);
            |o.events| == 1 && Mirrors(o.state, Fed(x, Other(now, o.events[0]))) && !o.events[0].SolverRegistered?
  {
    var o := Extend(s, a, id);
    var y := Fed(x, Other(now, o.events[0]));
    MirroredChange(s, o.state, x, y, id, o.state.intents[id], y.intents[id]);
  }

  /** The indexer keeps showing a closed intent; on chain only its tombstone remains. */
  lemma Closing(s: State, now: U64, id: IntentId, x: Indexer)
    requires Mirrors(s, x) && Close(s, now, id).Done?
    ensures var o := Close(s, now, id);
            |o.events| == 1 && Mirrors(o.state, Fed(x, Other(now, o.events[0]))) && !o.events[0].SolverRegistered?
  {
  }

  /** Solver bookkeeping never shows in the mirror of intents. */
  lemma SolverCalls(s: State, c: Call, x: Indexer, documented: bool)
    requires Mirrors(s, x)
    requires c.action.DoRegister? || c.action.DoWithdraw? || c.action.DoDeregister?
    requires Perform(s, c.now, c.action).Done?
    ensures var o := Perform(s, c.now, c.action);
            |o.events| == 1 && Mirrors(o.state, Fed(x, Published(c.now, o.events[0], documented)))
  {
    var o := Perform(s, c.now, c.action);
    MirroredSame(s, o.state, x, Fed(x, Published(c.now, o.events[0], documented)));
  }

  lemma SilentCalls(s: State, c: Call, x: Indexer)
    requires Mirrors(s, x) && (c.action.DoAdminister? || c.action.Mint?) && Perform(s, c.now, c.action).Done?
    ensures Perform(s, c.now, c.action).events == [] && Mirrors(Perform(s, c.now, c.action).state, x)
  {
    if c.action.DoAdminister? { AdministerSilent(s, c.action.change); }
    MirroredSame(s, Perform(s, c.now, c.action).state, x, x);
  }

  // ----- Every run -----

  lemma OneMessage(now: U64, es: seq<Event>, x: Indexer, documented: bool)
    requires |es| == 1
    ensures Replayed(x, PublishedAll(now, es, documented)) == Fed(x, Published(now, es[0], documented))
  {
    var ms := PublishedAll(now, es, documented);
    assert ms[..0] == [];
    assert Replayed(x, ms[..0]) == x;
  }

  lemma IntentCalls(s: State, c: Call, x: Indexer)
    requires Mirrors(s, x) && Perform(s, c.now, c.action).Done?
    requires c.action.DoSubmit? || c.action.DoAccept? || c.action.DoFill? || c.action.DoCancel? || c.action.DoExpire?
             || c.action.DoSlash? || c.action.DoExtend? || c.action.DoClose?
    ensures var o := Perform(s, c.now, c.action);
            |o.events| == 1 && Mirrors(o.state, Fed(x, Other(c.now, o.events[0]))) && !o.events[0].SolverRegistered?
  {
    var now, a := c.now, c.action;
    if a.DoSubmit? {
      Submitting(s, now, a.user, a.srcAmount, a.dst, a.minDst, a.expiry, a.referrer, a.external, a.id, x);
    } else if a.DoAccept? {
      Accepting(s, now, a.a, a.id, a.t, a.tier, a.weight, x);
    } else if a.DoFill? {
      Filling(s, now, a.a, a.id, a.amount, a.proof, a.weight, x);
    } else if a.DoCancel? {
      Cancelling(s, now, a.user, a.id, x);
    } else if a.DoExpire? {
      Expiring(s, now, a.id, x);
    } else if a.DoSlash? {
      Slashing(s, now, a.id, a.weight, x);
    } else if a.DoExtend? {
      Extending(s, now, a.a, a.id, x);
    } else {
      Closing(s, now, a.id, x);
    }
  }

  lemma MirrorsStep(s: State, c: Call, x: Indexer, documented: bool)
    requires Mirrors(s, x) && Replayable(c.action)
    ensures Mirrors(After(s, c), Replayed(x, Messages(s, c, documented)))
  {
    var o := Perform(s, c.now, c.action);
    if o.Done? {
      if c.action.DoAdminister? || c.action.Mint? {
        SilentCalls(s, c, x);
      } else {
        if c.action.DoRegister? || c.action.DoWithdraw? || c.action.DoDeregister? {
          SolverCalls(s, c, x, documented);
        } else {
          IntentCalls(s, c, x);
        }
        OneMessage(c.now, o.events, x, documented);
      }
    }
  }

  lemma {:induction false} ReplayedConcat(x: Indexer, front: seq<Message>, back: seq<Message>)
    ensures Replayed(x, front + back) == Replayed(Replayed(x, front), back)
  {
    if back == [] {
      assert front + back == front;
    } else {
      var rest, last := back[..|back| - 1], back[|back| - 1];
      ReplayedConcat(x, front, rest);
      assert (front + back)[..|front + back| - 1] == front + rest;
      assert (front + back)[|front + back| - 1] == last;
    }
  }

  /** For every run of replayable calls, replaying its log mirrors the state it ends in. */
  lemma {:induction false} ReplayMirrors(s: State, x: Indexer, calls: seq<Call>, documented: bool)
    requires Mirrors(s, x)
    requires forall c <- calls :: Replayable(c.action)
    ensures Mirrors(Run(s, calls), Replayed(x, Log(s, calls, documented)))
  {
    if calls != [] {
      var front, last := calls[..|calls| - 1], calls[|calls| - 1];
      assert last in calls;
      ReplayMirrors(s, x, front, documented);
      var y := Replayed(x, Log(s, front, documented));
      MirrorsStep(Run(s, front), last, y, documented);
      ReplayedConcat(x, Log(s, front, documented), Messages(Run(s, front), last, documented));
    }
  }

  /** From a fresh deployment: the same number of intents, volume, amounts filled and
      states, and on both sides an open counter that is the number of open intents. */
  lemma ReplayRebuilds(params: Params, recipient: Address, admin: Address, funds: map<(Token, Address), int>, calls: seq<Call>)
    requires forall c <- calls :: Replayable(c.action)
    ensures var s0 := Fresh(params, recipient, admin, funds);
            var s, x := Run(s0, calls), Replayed(EMPTY, Log(s0, calls, false));
            && Mirrors(s, x)
            && x.totals.intents == s.totalIntents && x.totals.volume == s.totalVolume
            && s.openIntents == Total(s.intents, IsOpen()) && x.totals.open == Total(x.intents, ViewOpen())
            && x.totals.open == s.openIntents
  {
    var s0 := Fresh(params, recipient, admin, funds);
    ReplayMirrors(s0, EMPTY, calls, false);
    CountersExact(s0, calls);
  }

  // ----- What a replay misses -----

  ghost function RegistrationsIn(): Message -> int { (m: Message) => if m.Registration? then 1 else 0 }

  predicate AsPublished(m: Message) { m.Registration? ==> m.value.Pair? }

  lemma {:induction false} NoSolversSeen(x: Indexer, messages: seq<Message>)
    requires x.solvers == map[] && forall m <- messages :: AsPublished(m)
    ensures var y := Replayed(x, messages);
            && y.solvers == map[]
            && |y.errors| == |x.errors| + LogSum(messages, RegistrationsIn())
            && y.processed == x.processed + |messages| - LogSum(messages, RegistrationsIn())
  {
    if messages != [] {
      var front, last := messages[..|messages| - 1], messages[|messages| - 1];
      assert last in messages;
      NoSolversSeen(x, front);
      FedWithoutSolvers(Replayed(x, front), last);
    }
  }

  lemma FedWithoutSolvers(x: Indexer, m: Message)
    requires x.solvers == map[] && AsPublished(m)
    ensures Fed(x, m).solvers == map[]
    ensures m.Registration? ==> Fed(x, m) == x.(errors := x.errors + [m])
    ensures !m.Registration? ==> Fed(x, m).errors == x.errors && Fed(x, m).processed == x.processed + 1
  {
    if m.Other? {
      match m.event {
        case SolverDeregistered(a, n) =>
        case SolverSlashed(a, id, n) =>
        case IntentFilled(a, id, n, fee) =>
        case _ =>
      }
    }
  }

  lemma {:induction false} LogAsPublished(s: State, calls: seq<Call>)
    ensures forall m <- Log(s, calls, false) :: AsPublished(m)
  {
    if calls != [] { LogAsPublished(s, calls[..|calls| - 1]); }
  }

  /** The contract publishes registrations as a pair, on which the handler throws: in
      every run the indexer knows no solver, and its set of solvers is the contract's
      exactly when nobody is registered. */
  lemma SolversLost(s: State, calls: seq<Call>)
    ensures var x := Replayed(EMPTY, Log(s, calls, false));
            && x.solvers == map[] && x.totals.solvers == 0
            && |x.errors| == LogSum(Log(s, calls, false), RegistrationsIn())
            && (x.solvers.Keys == Run(s, calls).solvers.Keys <==> Run(s, calls).solvers == map[])
  {
    LogAsPublished(s, calls);
    NoSolversSeen(EMPTY, Log(s, calls, false));
    NoSolverCount(EMPTY, Log(s, calls, false));
  }

  lemma {:induction false} NoSolverCount(x: Indexer, messages: seq<Message>)
    requires x.solvers == map[] && x.totals.solvers == 0 && forall m <- messages :: AsPublished(m)
    ensures Replayed(x, messages).totals.solvers == 0
  {
    if messages != [] {
      assert messages[|messages| - 1] in messages;
      NoSolverCount(x, messages[..|messages| - 1]);
    }
  }

  // ----- With registrations as documented -----

  predicate AboutSolverSet(e: Event) { e.SolverRegistered? || e.SolverDeregistered? }

  /** The registered solvers stay and no event says otherwise. */
  ghost predicate SameSolvers(s: State, o: Outcome) {
    o.Done? ==> o.state.solvers.Keys == s.solvers.Keys && forall e <- o.events :: !AboutSolverSet(e)
  }

  /** Only registering and deregistering change who is registered, and only they say so. */
  lemma OthersKeepSolvers(s: State, c: Call)
    requires !c.action.DoRegister? && !c.action.DoDeregister?
    ensures SameSolvers(s, Perform(s, c.now, c.action))
  {
    CallFramed(s, c);
  }

  lemma FedKeepsSolvers(x: Indexer, m: Message)
    requires m.Other? && !AboutSolverSet(m.event)
    ensures Fed(x, m).solvers.Keys == x.solvers.Keys && Fed(x, m).errors == x.errors
  {
    match m.event
    case SolverSlashed(a, id, n) =>
    case IntentAccepted(a, id, d) =>
    case IntentFilled(a, id, n, fee) =>
    case BondWithdrawn(a, n, left) =>
    case _ =>
  }

  lemma {:induction false} ReplayKeepsSolvers(x: Indexer, messages: seq<Message>)
    requires forall m <- messages :: m.Other? && !AboutSolverSet(m.event)
    ensures Replayed(x, messages).solvers.Keys == x.solvers.Keys && Replayed(x, messages).errors == x.errors
  {
    if messages != [] {
      var front, last := messages[..|messages| - 1], messages[|messages| - 1];
      assert last in messages;
      ReplayKeepsSolvers(x, front);
      FedKeepsSolvers(Replayed(x, front), last);
    }
  }

  lemma RegisterSeen(s: State, a: Address, t: Token, amount: I128, received: Quantity, now: U64, x: Indexer)
    requires x.solvers.Keys == s.solvers.Keys && Register(s, a, t, amount, received).Done?
    ensures var o := Register(s, a, t, amount, received);
            |o.events| == 1 && Fed(x, Published(now, o.events[0], true)).solvers.Keys == o.state.solvers.Keys
            && Fed(x, Published(now, o.events[0], true)).errors == x.errors
  {
  }

  lemma DeregisterSeen(s: State, a: Address, now: U64, x: Indexer)
    requires x.solvers.Keys == s.solvers.Keys && Deregister(s, a).Done?
    ensures var o := Deregister(s, a);
            |o.events| == 1 && Fed(x, Published(now, o.events[0], true)).solvers.Keys == o.state.solvers.Keys
            && Fed(x, Published(now, o.events[0], true)).errors == x.errors
  {
  }

  lemma QuietMessages(now: U64, es: seq<Event>, x: Indexer)
    requires forall e <- es :: !AboutSolverSet(e)
    ensures var y := Replayed(x, PublishedAll(now, es, true)); y.solvers.Keys == x.solvers.Keys && y.errors == x.errors
  {
    var ms := PublishedAll(now, es, true);
    forall m | m in ms ensures m.Other? && !AboutSolverSet(m.event) {
      var i :| 0 <= i < |ms| && ms[i] == m;
      assert es[i] in es;
    }
    ReplayKeepsSolvers(x, ms);
  }

  lemma SameSolversStep(s: State, c: Call, x: Indexer)
    requires x.solvers.Keys == s.solvers.Keys && x.errors == []
    ensures var y := Replayed(x, Messages(s, c, true));
            y.solvers.Keys == After(s, c).solvers.Keys && y.errors == []
  {
    var o := Perform(s, c.now, c.action);
    if o.Done? {
      if c.action.DoRegister? {
        RegisterSeen(s, c.action.a, c.action.t, c.action.amount, c.action.received, c.now, x);
        OneMessage(c.now, o.events, x, true);
      } else if c.action.DoDeregister? {
        DeregisterSeen(s, c.action.a, c.now, x);
        OneMessage(c.now, o.events, x, true);
      } else {
        OthersKeepSolvers(s, c);
        QuietMessages(c.now, o.events, x);
      }
    }
  }

  /** Had registrations been published as the event schema says, with the bare amount,
      every run's replay would know exactly the registered solvers and meet no error. */
  lemma {:induction false} SolversAsDocumented(s: State, x: Indexer, calls: seq<Call>)
    requires x.solvers.Keys == s.solvers.Keys && x.errors == []
    ensures var y := Replayed(x, Log(s, calls, true));
            y.solvers.Keys == Run(s, calls).solvers.Keys && y.errors == []
  {
    if calls != [] {
      var front, last := calls[..|calls| - 1], calls[|calls| - 1];
      SolversAsDocumented(s, x, front);
      var y := Replayed(x, Log(s, front, true));
      SameSolversStep(Run(s, front), last, y);
      ReplayedConcat(x, Log(s, front, true), Messages(Run(s, front), last, true));
    }
  }
}
