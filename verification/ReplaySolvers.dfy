/**
  What a replay shows of a solver after any run, had registrations been published with the
  bare amount: its bond, its counts and its volume, short of what the escrow path, other
  tokens and transfer fees hide; and that it never shows a suspension.
 */
module ReplaySolvers {
  import opened Wrappers
  import opened SettlementMath
  import opened SettlementModel
  import opened SettlementCounters
  import opened SettlementLedger
  import opened SettlementFrames
  import opened SettlementTheorems
  import opened IndexerModel
  import A = SettlementAccounts
  import T = SettlementTransitions
  import S = SettlementStandings
  import D = ReplayDrift
  import R = ReplayTheorems
  import L = SettlementRecords
  import opened Sums

  /** How far the view of a solver falls short of its record; `ended` counts obligations
      that the view still holds open. */
  datatype Hidden = Hidden(bond: int, completed: int, failed: int, volume: int, ended: nat)

  const SHOWN := Hidden(0, 0, 0, 0, 0)

  /** What a call that goes through adds to it. A full fill is told by the minimum last
      amended, and shown by the minimum submitted. */
  function HiddenAfter(h: Hidden, s: State, u: D.Unseen, x: Action, a: Address): Hidden {
    match x
    case DoRegister(b, t, amount, received) =>
      if b != a then h else
      var had := if a in s.solvers then h else SHOWN;
      had.(bond := had.bond + (if t == s.params.bondToken then received else 0) - amount)
    case DoWithdraw(b, t, amount) =>
      if b != a then h else
      h.(bond := if t == s.params.bondToken then 0 else A.Bonded(s, a, s.params.bondToken) - (A.Bonded(s, a, t) - amount))
    case DoFill(b, id, amount, _, _) =>
      if b != a || id !in s.intents then h else
      var total := s.intents[id].totalFilled + amount;
      h.(completed := h.completed + (if total >= s.intents[id].minDst then 1 else 0) - (if total >= u.Asked(id) then 1 else 0))
    case DoSlash(id, _) =>
      if S.Penalizes(s, x, a) && s.intents[id].bondToken != s.params.bondToken then h.(bond := h.bond + A.Forfeit(s, id)) else h
    case DoResolve(_, id, ruling) =>
      if id !in s.intents || s.intents[id].solver != Some(a) then h
      else if ruling == Dismissed then
        h.(completed := h.completed + 1, volume := h.volume + A.Escrowed(s, id), ended := h.ended + 1)
      else
        h.(failed := h.failed + 1, ended := h.ended + 1,
           bond := h.bond - if s.intents[id].bondToken == s.params.bondToken then A.Forfeit(s, id) else 0)
    case DoRelease(id) =>
      if id !in s.intents || s.intents[id].solver != Some(a) then h
      else if s.intents[id].phase == Filling then
        h.(completed := h.completed + 1, volume := h.volume + A.Escrowed(s, id), ended := h.ended + 1)
      else h.(ended := h.ended + 1)
    case _ => h
  }

  function Hides(s: State, calls: seq<Call>, a: Address): Hidden {
    if calls == [] then SHOWN else
    var front, last := calls[..|calls| - 1], calls[|calls| - 1];
    var h := Hides(s, front, a);
    if Perform(Run(s, front), last.now, last.action).Done?
    then HiddenAfter(h, Run(s, front), D.Notes(s, front), last.action, a) else h
  }

  /** The view of a registered solver; it is always shown active. */
  predicate Pictures(bond: int, rec: Solver, v: SolverView, h: Hidden) {
    && v.bond + h.bond == bond && v.completed + h.completed == rec.completed && v.failed + h.failed == rec.failed
    && v.volume + h.volume == rec.volume && v.activeIntents == rec.activeIntents + h.ended && v.active
  }

  predicate Pictured(s: State, x: Indexer, h: Hidden, a: Address) {
    a in s.solvers ==>
      a in x.solvers && Pictures(A.Bonded(s, a, s.params.bondToken), s.solvers[a], x.solvers[a], h)
  }

  // ----- The contract's side -----

  /** Obligations of `a` a call that goes through begins, less those it ends. */
  function Undertakes(s: State, x: Action, a: Address): int {
    if x.DoAccept? then (if x.a == a then 1 else 0)
    else if x.DoFill? then (if x.a == a then -1 else 0)
    else if (x.DoSlash? || x.DoResolve? || x.DoRelease?) && x.id in s.intents && s.intents[x.id].solver == Some(a) then -1
    else 0
  }

  lemma ArrowUndertakes(s: State, now: nat, x: Action, a: Address)
    requires L.Lifecycle(x) && x.id in s.intents && T.May(s, now, x, s.intents[x.id])
    ensures Owes(a)(x.id, T.Next(s, now, x, s.intents[x.id])) - Owes(a)(x.id, s.intents[x.id]) == Undertakes(s, x, a)
  {
  }

  lemma ActiveAlong(s: State, now: nat, x: Action, o: Outcome, a: Address)
    requires L.Lifecycle(x) && T.Follows(s, now, x, o) && Counters(s) && Counters(o.state)
    requires a in s.solvers && a in o.state.solvers
    ensures o.state.solvers[a].activeIntents == s.solvers[a].activeIntents + Undertakes(s, x, a)
  {
    ArrowUndertakes(s, now, x, a);
    TotalUpdate(s.intents, x.id, T.Next(s, now, x, s.intents[x.id]), Owes(a));
  }

  /** What an arrow does to the record of `a`, registered before and after. */
  ghost predicate RecordMoves(s: State, now: nat, x: Action, o: Outcome, a: Address) {
    && o.Done? && o.state.params == s.params && o.state.solvers.Keys == s.solvers.Keys
    && S.Stands(s, now, x, o, a) && S.BondMoves(s, x, o, a, s.params.bondToken)
    && (a in s.solvers ==> o.state.solvers[a].activeIntents == s.solvers[a].activeIntents + Undertakes(s, x, a))
  }

  lemma RecordAlong(s: State, now: U64, x: Action, a: Address)
    requires Invariant(s) && L.Lifecycle(x) && Perform(s, now, x).Done?
    ensures RecordMoves(s, now, x, Perform(s, now, x), a)
  {
    var c := Call(now, x);
    CallFramed(s, c);
    S.EveryoneStands(s, c, a, s.params.bondToken);
    T.CallFollows(s, now, x);
    CountersStep(s, c);
    if a in s.solvers { ActiveAlong(s, now, x, Perform(s, now, x), a); }
  }

  // ----- The indexer's side -----

  /** The intent's view while it is accepted. */
  predicate Shows(x: Indexer, u: D.Unseen, id: IntentId, i: Intent) {
    id in x.intents && x.intents[id].minDst == u.Asked(id) && x.intents[id].totalFilled == i.totalFilled
  }

  lemma AcceptPictured(s: State, now: nat, c: Action, o: Outcome, x: Indexer, u: D.Unseen, h: Hidden, a: Address)
    requires c.DoAccept? && T.Follows(s, now, c, o) && RecordMoves(s, now, c, o, a) && Pictured(s, x, h, a)
    requires Shows(x, u, c.id, s.intents[c.id])
    ensures Pictured(o.state, Fed(x, Other(now, o.events[0])), HiddenAfter(h, s, u, c, a), a)
  {
  }

  lemma FillPictured(s: State, now: nat, c: Action, o: Outcome, x: Indexer, u: D.Unseen, h: Hidden, a: Address)
    requires c.DoFill? && T.Follows(s, now, c, o) && RecordMoves(s, now, c, o, a) && Pictured(s, x, h, a)
    requires Shows(x, u, c.id, s.intents[c.id])
    ensures Pictured(o.state, Fed(x, Other(now, o.events[0])), HiddenAfter(h, s, u, c, a), a)
  {
  }

  lemma SlashPictured(s: State, now: nat, c: Action, o: Outcome, x: Indexer, u: D.Unseen, h: Hidden, a: Address)
    requires c.DoSlash? && T.Follows(s, now, c, o) && RecordMoves(s, now, c, o, a) && Pictured(s, x, h, a)
    requires s.intents[c.id].solver.Some?
    ensures Pictured(o.state, Fed(x, Other(now, o.events[0])), HiddenAfter(h, s, u, c, a), a)
  {
  }

  lemma UserPictured(s: State, now: nat, c: Action, o: Outcome, x: Indexer, u: D.Unseen, h: Hidden, a: Address)
    requires c.DoCancel? || c.DoExpire? || c.DoExtend? || c.DoAmend? || c.DoBeginFill? || c.DoDispute?
    requires T.Follows(s, now, c, o) && RecordMoves(s, now, c, o, a) && Pictured(s, x, h, a)
    ensures Pictured(o.state, Fed(x, Other(now, o.events[0])), HiddenAfter(h, s, u, c, a), a)
  {
  }

  lemma ExitPictured(s: State, now: nat, c: Action, o: Outcome, x: Indexer, u: D.Unseen, h: Hidden, a: Address)
    requires c.DoResolve? || c.DoRelease?
    requires T.Follows(s, now, c, o) && RecordMoves(s, now, c, o, a) && Pictured(s, x, h, a)
    ensures Pictured(o.state, Fed(x, Other(now, o.events[0])), HiddenAfter(h, s, u, c, a), a)
  {
  }

  /** Replay and contract know the same solvers, and the intent of a live obligation is shown. */
  ghost predicate Aligned(s: State, x: Indexer, u: D.Unseen) {
    Invariant(s) && x.solvers.Keys == s.solvers.Keys && D.Follows(s, x, u)
  }

  lemma ShownAccepted(s: State, x: Indexer, u: D.Unseen, id: IntentId)
    requires Aligned(s, x, u) && id in s.intents && !s.intents[id].Terminal()
    ensures Shows(x, u, id, s.intents[id])
  {
    assert D.Viewed(x, u, id, s.intents[id]);
  }

  lemma ArrowPictured(s: State, now: nat, c: Action, o: Outcome, x: Indexer, u: D.Unseen, h: Hidden, a: Address)
    requires L.Lifecycle(c) && T.Follows(s, now, c, o) && RecordMoves(s, now, c, o, a) && Pictured(s, x, h, a)
    requires !s.intents[c.id].Terminal() ==> Shows(x, u, c.id, s.intents[c.id])
    requires s.intents[c.id].Obliged() ==> s.intents[c.id].solver.Some?
    ensures Pictured(o.state, Fed(x, Other(now, o.events[0])), HiddenAfter(h, s, u, c, a), a)
  {
    if c.DoAccept? {
      AcceptPictured(s, now, c, o, x, u, h, a);
    } else if c.DoFill? {
      FillPictured(s, now, c, o, x, u, h, a);
    } else if c.DoSlash? {
      SlashPictured(s, now, c, o, x, u, h, a);
    } else if c.DoResolve? || c.DoRelease? {
      ExitPictured(s, now, c, o, x, u, h, a);
    } else {
      UserPictured(s, now, c, o, x, u, h, a);
    }
  }

  lemma LifecyclePictured(s: State, now: U64, c: Action, x: Indexer, u: D.Unseen, h: Hidden, a: Address)
    requires Aligned(s, x, u) && Pictured(s, x, h, a) && L.Lifecycle(c) && Perform(s, now, c).Done?
    ensures var o := Perform(s, now, c);
            && |o.events| == 1 && !o.events[0].SolverRegistered?
            && Pictured(o.state, Fed(x, Other(now, o.events[0])), HiddenAfter(h, s, u, c, a), a)
  {
    T.CallFollows(s, now, c);
    RecordAlong(s, now, c, a);
    if !s.intents[c.id].Terminal() { ShownAccepted(s, x, u, c.id); }
    ArrowPictured(s, now, c, Perform(s, now, c), x, u, h, a);
  }

  // ----- Joining and leaving -----

  /** Nothing of a record but its bond, its bond tokens and its suspension is touched. */
  predicate CountsStay(was: Solver, rec: Solver) {
    && rec.completed == was.completed && rec.failed == was.failed && rec.volume == was.volume
    && rec.activeIntents == was.activeIntents
  }

  /** What a registration does to the record of `a`, and says. */
  ghost predicate Joined(s: State, c: Action, o: Outcome, a: Address)
    requires c.DoRegister?
  {
    var default := s.params.bondToken;
    && o.Done? && o.events == [SolverRegistered(c.a, c.t, c.amount)] && o.state.params == s.params
    && (a in o.state.solvers <==> a == c.a || a in s.solvers)
    && (a in o.state.solvers ==> CountsStay(if a in s.solvers then s.solvers[a] else NEW_SOLVER, o.state.solvers[a]))
    && A.Bonded(o.state, a, default) == A.Bonded(s, a, default) + (if a == c.a && c.t == default then c.received else 0)
  }

  lemma RegisterSays(s: State, now: U64, c: Action)
    requires c.DoRegister? && Perform(s, now, c).Done?
    ensures Perform(s, now, c).events == [SolverRegistered(c.a, c.t, c.amount)]
  {
  }

  lemma RegisterRecord(s: State, now: U64, c: Action, a: Address)
    requires Ledger(s) && c.DoRegister? && Perform(s, now, c).Done?
    ensures Joined(s, c, Perform(s, now, c), a)
  {
    RegisterSays(s, now, c);
    EnlistedBond(s, c.a, c.t);
    var bank := RegisterIs(s, c.a, c.t, c.amount, c.received);
    S.RegisterBonds(s, Call(now, c), a, s.params.bondToken);
  }

  lemma Enrolls(s: State, o: Outcome, now: nat, c: Action, x: Indexer, u: D.Unseen, h: Hidden, a: Address)
    requires c.DoRegister? && Joined(s, c, o, a) && x.solvers.Keys == s.solvers.Keys && Pictured(s, x, h, a)
    ensures Pictured(o.state, Fed(x, Published(now, o.events[0], true)), HiddenAfter(h, s, u, c, a), a)
  {
  }

  /** What a withdrawal or an exit does to the record of `a`, and says. */
  ghost predicate Left(s: State, c: Action, o: Outcome, a: Address)
    requires c.DoWithdraw? || c.DoDeregister?
  {
    var default := s.params.bondToken;
    && o.Done? && |o.events| == 1 && c.a in s.solvers && o.state.params == s.params
    && (if c.DoWithdraw? then o.events[0] == BondWithdrawn(c.a, c.amount, A.Bonded(s, c.a, c.t) - c.amount)
        else o.events[0].SolverDeregistered? && o.events[0].solver == c.a)
    && (a in o.state.solvers <==> a in s.solvers && !(c.DoDeregister? && a == c.a))
    && (a in o.state.solvers ==>
          && CountsStay(s.solvers[a], o.state.solvers[a])
          && A.Bonded(o.state, a, default)
               == A.Bonded(s, a, default) - (if c.DoWithdraw? && a == c.a && c.t == default then c.amount else 0))
  }

  lemma LeaveRecord(s: State, now: U64, c: Action, a: Address)
    requires Ledger(s) && (c.DoWithdraw? || c.DoDeregister?) && Perform(s, now, c).Done?
    ensures Left(s, c, Perform(s, now, c), a)
  {
    S.BondCallsBonds(s, Call(now, c), a, s.params.bondToken);
  }

  lemma LeavePictured(s: State, o: Outcome, now: nat, c: Action, x: Indexer, u: D.Unseen, h: Hidden, a: Address)
    requires (c.DoWithdraw? || c.DoDeregister?) && Left(s, c, o, a) && x.solvers.Keys == s.solvers.Keys && Pictured(s, x, h, a)
    ensures Pictured(o.state, Fed(x, Published(now, o.events[0], true)), HiddenAfter(h, s, u, c, a), a)
  {
  }

  // ----- Every run -----

  lemma SubmitKeeps(s: State, now: U64, c: Action)
    requires c.DoSubmit? && Perform(s, now, c).Done?
    ensures var o := Perform(s, now, c);
            |o.events| == 1 && o.events[0].IntentSubmitted? && o.state.solvers == s.solvers && o.state.bonds == s.bonds
            && o.state.params == s.params
  {
    var expiry := Admits(s, now, c);
  }

  lemma CloseKeeps(s: State, now: U64, c: Action)
    requires c.DoClose? && Perform(s, now, c).Done?
    ensures var o := Perform(s, now, c);
            |o.events| == 1 && o.events[0].OtherEvent? && o.state.solvers == s.solvers && o.state.bonds == s.bonds
            && o.state.params == s.params
  {
  }

  lemma OutsideKeeps(s: State, now: U64, c: Action)
    requires (c.DoAdminister? || c.Mint?) && Perform(s, now, c).Done?
    ensures var o := Perform(s, now, c);
            o.events == [] && o.state.solvers == s.solvers && o.state.bonds == s.bonds && o.state.params == s.params
  {
    if c.DoAdminister? { AdministerSilent(s, c.change); }
  }

  /** The one message of the call carries the picture on. */
  ghost predicate Carried(s: State, now: nat, c: Action, o: Outcome, x: Indexer, u: D.Unseen, h: Hidden, a: Address) {
    o.Done? ==>
      |o.events| == 1 && Pictured(o.state, Fed(x, Published(now, o.events[0], true)), HiddenAfter(h, s, u, c, a), a)
  }

  lemma StakeCarried(s: State, now: U64, c: Action, x: Indexer, u: D.Unseen, h: Hidden, a: Address)
    requires Aligned(s, x, u) && Pictured(s, x, h, a) && (c.DoRegister? || c.DoWithdraw? || c.DoDeregister?)
    ensures Carried(s, now, c, Perform(s, now, c), x, u, h, a)
  {
    var o := Perform(s, now, c);
    if o.Done? {
      if c.DoRegister? {
        RegisterRecord(s, now, c, a);
        Enrolls(s, o, now, c, x, u, h, a);
      } else {
        LeaveRecord(s, now, c, a);
        LeavePictured(s, o, now, c, x, u, h, a);
      }
    }
  }

  lemma UntouchedCarried(s: State, now: nat, c: Action, o: Outcome, x: Indexer, u: D.Unseen, h: Hidden, a: Address)
    requires Pictured(s, x, h, a) && (c.DoSubmit? || c.DoClose?)
    requires o.Done? ==> && |o.events| == 1 && (o.events[0].IntentSubmitted? || o.events[0].OtherEvent?)
                         && o.state.solvers == s.solvers && o.state.bonds == s.bonds && o.state.params == s.params
    ensures Carried(s, now, c, o, x, u, h, a)
  {
  }

  lemma ComeOrGoCarried(s: State, now: U64, c: Action, x: Indexer, u: D.Unseen, h: Hidden, a: Address)
    requires Pictured(s, x, h, a) && (c.DoSubmit? || c.DoClose?)
    ensures Carried(s, now, c, Perform(s, now, c), x, u, h, a)
  {
    if Perform(s, now, c).Done? {
      if c.DoSubmit? { SubmitKeeps(s, now, c); } else { CloseKeeps(s, now, c); }
    }
    UntouchedCarried(s, now, c, Perform(s, now, c), x, u, h, a);
  }

  lemma LifecycleCarried(s: State, now: U64, c: Action, x: Indexer, u: D.Unseen, h: Hidden, a: Address)
    requires Aligned(s, x, u) && Pictured(s, x, h, a) && L.Lifecycle(c)
    ensures Carried(s, now, c, Perform(s, now, c), x, u, h, a)
  {
    if Perform(s, now, c).Done? { LifecyclePictured(s, now, c, x, u, h, a); }
  }

  lemma OnePictured(s: State, c: Call, x: Indexer, u: D.Unseen, h: Hidden, a: Address)
    requires Aligned(s, x, u) && Pictured(s, x, h, a)
    requires !D.OfOthers(c.action) && !c.action.DoBid? && !c.action.DoSettleBids?
    ensures Carried(s, c.now, c.action, Perform(s, c.now, c.action), x, u, h, a)
  {
    if c.action.DoRegister? || c.action.DoWithdraw? || c.action.DoDeregister? {
      StakeCarried(s, c.now, c.action, x, u, h, a);
    } else if c.action.DoSubmit? || c.action.DoClose? {
      ComeOrGoCarried(s, c.now, c.action, x, u, h, a);
    } else {
      LifecycleCarried(s, c.now, c.action, x, u, h, a);
    }
  }

  lemma Relayed(s: State, now: U64, c: Action, o: Outcome, x: Indexer, u: D.Unseen, h: Hidden, a: Address)
    requires o.Done? && Carried(s, now, c, o, x, u, h, a)
    ensures Pictured(o.state, Replayed(x, PublishedAll(now, o.events, true)), HiddenAfter(h, s, u, c, a), a)
  {
    R.OneMessage(now, o.events, x, true);
  }

  lemma OutsidePictured(s: State, now: U64, c: Action, x: Indexer, u: D.Unseen, h: Hidden, a: Address)
    requires Pictured(s, x, h, a) && D.OfOthers(c) && Perform(s, now, c).Done?
    ensures var o := Perform(s, now, c);
            Pictured(o.state, Replayed(x, PublishedAll(now, o.events, true)), HiddenAfter(h, s, u, c, a), a)
  {
    OutsideKeeps(s, now, c);
  }

  lemma PicturedStep(s: State, c: Call, x: Indexer, u: D.Unseen, h: Hidden, a: Address)
    requires Aligned(s, x, u) && Pictured(s, x, h, a) && Perform(s, c.now, c.action).Done?
    ensures var o := Perform(s, c.now, c.action);
            Pictured(o.state, Replayed(x, PublishedAll(c.now, o.events, true)), HiddenAfter(h, s, u, c.action, a), a)
  {
    if D.OfOthers(c.action) {
      OutsidePictured(s, c.now, c.action, x, u, h, a);
    } else if c.action.DoBid? || c.action.DoSettleBids? {
      BidsRefused(s, c);
    } else {
      OnePictured(s, c, x, u, h, a);
      Relayed(s, c.now, c.action, Perform(s, c.now, c.action), x, u, h, a);
    }
  }

  lemma BidsRefused(s: State, c: Call)
    requires Invariant(s) && (c.action.DoBid? || c.action.DoSettleBids?)
    ensures Perform(s, c.now, c.action).Reverted?
  {
    if c.action.id in s.intents { assert L.IntentOk(s, c.action.id, s.intents[c.action.id]); }
    D.NoBids(s, c);
  }

  /** In every run from deployment: the replay knows exactly the registered solvers, and shows
      of each what its record says, less what went unseen. */
  lemma {:induction false} SolversPictured(params: Params, recipient: Address, admin: Address, funds: map<(Token, Address), int>,
                                           calls: seq<Call>, a: Address)
    ensures var s0 := Fresh(params, recipient, admin, funds);
            var x := Replayed(EMPTY, Log(s0, calls, true));
            x.solvers.Keys == Run(s0, calls).solvers.Keys && Pictured(Run(s0, calls), x, Hides(s0, calls, a), a)
  {
    var s0 := Fresh(params, recipient, admin, funds);
    R.SolversAsDocumented(s0, EMPTY, calls);
    if calls != [] {
      var front, last := calls[..|calls| - 1], calls[|calls| - 1];
      SolversPictured(params, recipient, admin, funds, front, a);
      var s, x := Run(s0, front), Replayed(EMPTY, Log(s0, front, true));
      Always(params, recipient, admin, funds, front);
      D.ReplayFollows(params, recipient, admin, funds, front, true);
      if Perform(s, last.now, last.action).Done? { PicturedStep(s, last, x, D.Notes(s0, front), Hides(s0, front, a), a); }
      R.ReplayedConcat(EMPTY, Log(s0, front, true), Messages(s, last, true));
    }
  }
}
