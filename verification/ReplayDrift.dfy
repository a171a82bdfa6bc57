/**
  What a replay shows after any run at all, amendments and escrow included: which
  minimum, state and amount it has for every intent ever submitted, how far its volume
  lags, and when its open counter is off. The escrow path and amendments publish
  events the indexer does not know.
 */
module ReplayDrift {
  import opened Wrappers
  import opened SettlementMath
  import opened SettlementModel
  import opened SettlementCounters
  import opened SettlementFrames
  import opened IndexerModel
  import R = ReplayTheorems
  import T = SettlementTransitions
  import opened Sums

  /** What the calls of a run did that their events do not tell: the minimum each intent
      was submitted with, the escrow paid out for it, how it ended once pruned, and the
      volume of released and dismissed escrows. */
  datatype Unseen = Unseen(asked: map<IntentId, int>, paid: map<IntentId, int>, closed: map<IntentId, Intent>, volume: int) {
    function Asked(id: IntentId): int { if id in asked then asked[id] else 0 }

    function Paid(id: IntentId): int { if id in paid then paid[id] else 0 }
  }

  const NOTHING := Unseen(map[], map[], map[], 0)

  function PaidOut(u: Unseen, s: State, id: IntentId, counted: bool): Unseen {
    if id !in s.intents then u else
    var escrow := s.intents[id].fillAmount.GetOr(0);
    u.(paid := u.paid[id := escrow], volume := u.volume + if counted then escrow else 0)
  }

  /** The notes after a call that went through. */
  function Noted(u: Unseen, s: State, x: Action): Unseen {
    match x
    case DoSubmit(_, _, _, min, _, _, _, id) => u.(asked := u.asked[id := min])
    case DoRelease(id) => PaidOut(u, s, id, true)
    case DoResolve(_, id, ruling) => PaidOut(u, s, id, ruling == Dismissed)
    case DoClose(id) => if id in s.intents then u.(closed := u.closed[id := s.intents[id]]) else u
    case _ => u
  }

  function NotedAfter(u: Unseen, s: State, c: Call): Unseen {
    if Perform(s, c.now, c.action).Done? then Noted(u, s, c.action) else u
  }

  function Notes(s: State, calls: seq<Call>): Unseen {
    if calls == [] then NOTHING else
    NotedAfter(Notes(s, calls[..|calls| - 1]), Run(s, calls[..|calls| - 1]), calls[|calls| - 1])
  }

  // ----- What is shown of one intent -----

  /** Once escrowed an intent is shown as accepted for ever; otherwise the state is the
      contract's, except that full and partial are told apart by the minimum submitted. */
  function Shown(i: Intent, asked: int): Phase {
    if i.disputeDeadline.Some? then Accepted else
    match i.phase
    case Open => if i.totalFilled > 0 then PartiallyFilled else Open
    case PartiallyFilled => if i.totalFilled >= asked then Filled else PartiallyFilled
    case Filled => if i.totalFilled >= asked then Filled else PartiallyFilled
    case p => p
  }

  /** The phases an intent goes through before and after its escrow. */
  predicate Staged(i: Intent) {
    if i.disputeDeadline.Some? then i.phase in {Filling, Disputed, Filled, Resolved}
    else
      && i.phase in {Open, PartiallyFilled, Accepted, Filled, Cancelled, Expired}
      && (i.phase == PartiallyFilled ==> i.totalFilled < i.minDst)
      && (i.phase == Filled ==> i.totalFilled >= i.minDst)
  }

  predicate Shows(i: Intent, v: IntentView, asked: int, paid: int) {
    && Staged(i)
    && v.user == i.user && v.minDst == asked && v.totalFilled + paid == i.totalFilled
    && v.phase == Shown(i, asked)
    && (v.phase == Accepted ==> v.solver == i.solver && v.fillDeadline == i.deadline)
    && (!i.Terminal() ==> paid == 0)
  }

  predicate Viewed(x: Indexer, u: Unseen, id: IntentId, i: Intent) {
    id in x.intents && Shows(i, x.intents[id], u.Asked(id), u.Paid(id))
  }

  /** Every intent ever submitted has its view, and nothing else has. */
  ghost predicate Views(s: State, x: Indexer, u: Unseen) {
    && (forall id <- s.intents :: Viewed(x, u, id, s.intents[id]))
    && (forall id <- u.closed :: id in s.tombstones && u.closed[id].Terminal() && Viewed(x, u, id, u.closed[id]))
    && (forall id <- s.intents :: id !in s.tombstones)
    && (forall id <- x.intents :: id in s.intents || id in u.closed)
    && (forall id <- u.paid :: id in x.intents)
  }

  ghost predicate Tallies(s: State, x: Indexer, u: Unseen) {
    && x.totals.intents == s.totalIntents
    && x.totals.volume + u.volume == s.totalVolume
    && x.totals.open == Total(x.intents, R.ViewOpen())
  }

  /** Replay and contract after the same run, with what went unseen. */
  ghost predicate Follows(s: State, x: Indexer, u: Unseen) { Views(s, x, u) && Tallies(s, x, u) }

  /** The views of the other intents are as before. */
  ghost predicate Elsewhere(u: Unseen, u': Unseen, id: IntentId) {
    && u'.closed == u.closed
    && (forall k :: k != id ==> u'.Asked(k) == u.Asked(k) && u'.Paid(k) == u.Paid(k))
    && (forall k <- u'.paid :: k in u.paid || k == id)
  }

  // ----- One intent at a time -----

  /** The replay moved to a view that shows `i`, counting it open exactly if the view is. */
  ghost predicate Carried(x: Indexer, y: Indexer, id: IntentId, i: Intent, asked: int, paid: int, more: int) {
    && id in x.intents && id in y.intents && y.intents == x.intents[id := y.intents[id]]
    && Shows(i, y.intents[id], asked, paid)
    && y.totals.intents == x.totals.intents && y.totals.volume == x.totals.volume + more
    && y.totals.open == x.totals.open + R.ViewOpen()(id, y.intents[id]) - R.ViewOpen()(id, x.intents[id])
  }

  lemma OneView(s: State, s': State, x: Indexer, y: Indexer, u: Unseen, u': Unseen, id: IntentId, i: Intent)
    requires Views(s, x, u) && id in s.intents && Elsewhere(u, u', id)
    requires s'.intents == s.intents[id := i] && s'.tombstones == s.tombstones
    requires id in y.intents && y.intents == x.intents[id := y.intents[id]] && Viewed(y, u', id, i)
    ensures Views(s', y, u')
  {
    forall k | k in s'.intents && k != id ensures Viewed(y, u', k, s'.intents[k]) { assert Viewed(x, u, k, s.intents[k]); }
    forall k | k in u'.closed ensures Viewed(y, u', k, u'.closed[k]) { assert Viewed(x, u, k, u.closed[k]); }
  }

  lemma Combined(s: State, o: Outcome, x: Indexer, y: Indexer, u: Unseen, u': Unseen, id: IntentId, i: Intent, e: Event, more: int)
    requires Follows(s, x, u) && T.Rewrote(s, o, id, i, e, more) && Elsewhere(u, u', id)
    requires Carried(x, y, id, i, u'.Asked(id), u'.Paid(id), more - (u'.volume - u.volume))
    ensures Follows(o.state, y, u')
  {
    OneView(s, o.state, x, y, u, u', id, i);
    TotalUpdate(x.intents, id, y.intents[id], R.ViewOpen());
  }

  /** The view of one intent, and an open counter that counts it. */
  ghost predicate Seen(x: Indexer, id: IntentId, i: Intent, asked: int, paid: int) {
    id in x.intents && Shows(i, x.intents[id], asked, paid) && (x.intents[id].OpenLike() ==> x.totals.open > 0)
  }

  lemma SeenIn(s: State, x: Indexer, u: Unseen, id: IntentId)
    requires Follows(s, x, u) && id in s.intents
    ensures Seen(x, id, s.intents[id], u.Asked(id), u.Paid(id))
  {
    TotalCovers(x.intents, id, R.ViewOpen());
  }

  lemma FollowedSame(s: State, s': State, x: Indexer, y: Indexer, u: Unseen)
    requires Follows(s, x, u)
    requires s'.intents == s.intents && s'.tombstones == s.tombstones
    requires s'.totalIntents == s.totalIntents && s'.totalVolume == s.totalVolume
    requires y.intents == x.intents && y.totals.intents == x.totals.intents
    requires y.totals.volume == x.totals.volume && y.totals.open == x.totals.open
    ensures Follows(s', y, u)
  {
  }

  // ----- Calls the indexer hears of -----

  lemma AcceptSeen(x: Indexer, now: nat, id: IntentId, was: Intent, i: Intent, a: Address, d: nat, asked: int, paid: int)
    requires Seen(x, id, was, asked, paid) && was.phase in {Open, PartiallyFilled}
    requires i == was.(solver := Some(a), phase := Accepted, bondToken := i.bondToken, solverTier := i.solverTier, deadline := d)
    ensures Carried(x, Fed(x, Other(now, IntentAccepted(a, id, d))), id, i, asked, paid, 0)
  {
  }

  lemma FillSeen(x: Indexer, now: nat, id: IntentId, was: Intent, a: Address, amount: int, fee: int, asked: int, paid: int)
    requires Seen(x, id, was, asked, paid) && was.phase == Accepted
    ensures Carried(x, Fed(x, Other(now, IntentFilled(a, id, amount, fee))), id, IntentAfterFill(was, now, amount), asked, paid, amount)
  {
  }

  lemma EndSeen(x: Indexer, now: nat, id: IntentId, was: Intent, e: Event, p: Phase, asked: int, paid: int)
    requires Seen(x, id, was, asked, paid) && was.phase in {Open, PartiallyFilled}
    requires (p == Cancelled && e.IntentCancelled? && e.id == id) || (p == Expired && e == IntentExpiredEvent(id))
    ensures Carried(x, Fed(x, Other(now, e)), id, was.(phase := p, terminalAt := Some(now)), asked, paid, 0)
  {
  }

  lemma SlashSeen(x: Indexer, now: nat, id: IntentId, was: Intent, d: nat, who: Address, cut: int, asked: int, paid: int)
    requires Seen(x, id, was, asked, paid) && was.phase == Accepted
    ensures Carried(x, Fed(x, Other(now, SolverSlashed(who, id, cut))), id,
                    was.(solver := None, solverTier := 0, phase := Open, deadline := d), asked, paid, 0)
  {
  }

  lemma ExtendSeen(x: Indexer, now: nat, id: IntentId, was: Intent, a: Address, d: nat, asked: int, paid: int)
    requires Seen(x, id, was, asked, paid) && was.phase == Accepted
    ensures Carried(x, Fed(x, Other(now, ExtensionGranted(a, id, d))), id, was.(deadline := d), asked, paid, 0)
  {
  }

  /** Every call on an existing intent that an event handler follows up. */
  predicate Heard(a: Action) { a.DoAccept? || a.DoFill? || a.DoCancel? || a.DoExpire? || a.DoSlash? || a.DoExtend? }

  /** Every handler follows the arrow its event announces. */
  lemma HeardSeen(s: State, now: nat, a: Action, x: Indexer, asked: int, paid: int)
    requires Heard(a) && a.id in s.intents && T.May(s, now, a, s.intents[a.id])
    requires Seen(x, a.id, s.intents[a.id], asked, paid)
    ensures var i := T.Next(s, now, a, s.intents[a.id]);
            Carried(x, Fed(x, Other(now, T.Announced(s, a, i))), a.id, i, asked, paid, T.Volume(s, a))
  {
    var was := s.intents[a.id];
    var i := T.Next(s, now, a, was);
    match a
    case DoAccept(b, id, _, _, _) => AcceptSeen(x, now, id, was, i, b, i.deadline, asked, paid);
    case DoFill(b, id, amount, _, _) => FillSeen(x, now, id, was, b, amount, T.Announced(s, a, i).fee, asked, paid);
    case DoSlash(id, _) =>
      SlashSeen(x, now, id, was, i.deadline, T.Announced(s, a, i).solver, T.Announced(s, a, i).amount, asked, paid);
    case DoExtend(b, id) => ExtendSeen(x, now, id, was, b, i.deadline, asked, paid);
    case DoCancel(_, id) => EndSeen(x, now, id, was, T.Announced(s, a, i), Cancelled, asked, paid);
    case DoExpire(id) => EndSeen(x, now, id, was, T.Announced(s, a, i), Expired, asked, paid);
  }

  // ----- Calls it does not hear of -----

  /** Amendments and the escrow path. */
  predicate Unheard(a: Action) { a.DoAmend? || a.DoBeginFill? || a.DoDispute? || a.DoResolve? || a.DoRelease? }

  /** What such a call leaves to show, given what it paid out. */
  ghost predicate ShownAlike(was: Intent, i: Intent, escrow: int) {
    && i.user == was.user && i.totalFilled == was.totalFilled + escrow
    && (Staged(was) ==> Staged(i) && forall asked :: Shown(i, asked) == Shown(was, asked))
    && (was.phase == Accepted || was.Escrowed() ==> i.solver == was.solver && i.deadline == was.deadline)
    && (i.Terminal() || escrow == 0) && !was.Terminal()
  }

  /** What is paid out by the call, and what of it is volume. */
  function Payout(s: State, a: Action): int {
    if (a.DoRelease? || a.DoResolve?) && a.id in s.intents then s.intents[a.id].fillAmount.GetOr(0) else 0
  }

  function Counted(s: State, a: Action): int { if a.DoResolve? && a.ruling == Upheld then 0 else Payout(s, a) }

  lemma UnheardAlike(s: State, now: nat, a: Action)
    requires Unheard(a) && a.id in s.intents && s.intents[a.id].phase != Bidding && T.May(s, now, a, s.intents[a.id])
    ensures var i := T.Next(s, now, a, s.intents[a.id]);
            && ShownAlike(s.intents[a.id], i, Payout(s, a)) && T.Volume(s, a) == Counted(s, a)
            && T.Announced(s, a, i) == OtherEvent(a.id)
  {
  }

  lemma UnheardSeen(x: Indexer, now: nat, id: IntentId, was: Intent, i: Intent, asked: int, escrow: int)
    requires id in x.intents && Shows(was, x.intents[id], asked, 0) && ShownAlike(was, i, escrow)
    ensures Carried(x, Fed(x, Other(now, OtherEvent(id))), id, i, asked, escrow, 0)
  {
    assert x.intents[id := x.intents[id]] == x.intents;
  }

  // ----- Every call -----

  lemma Hearing(s: State, o: Outcome, now: U64, a: Action, x: Indexer, u: Unseen)
    requires Follows(s, x, u) && Heard(a) && T.Follows(s, now, a, o)
    ensures |o.events| == 1 && !o.events[0].SolverRegistered? && Follows(o.state, Fed(x, Other(now, o.events[0])), u)
  {
    var i := T.Next(s, now, a, s.intents[a.id]);
    var e := T.Announced(s, a, i);
    SeenIn(s, x, u, a.id);
    HeardSeen(s, now, a, x, u.Asked(a.id), u.Paid(a.id));
    Combined(s, o, x, Fed(x, Other(now, e)), u, u, a.id, i, e, T.Volume(s, a));
  }

  lemma NotedUnheard(u: Unseen, s: State, a: Action)
    requires Unheard(a) && a.id in s.intents && u.Paid(a.id) == 0
    ensures var u' := Noted(u, s, a);
            && Elsewhere(u, u', a.id) && u'.Asked(a.id) == u.Asked(a.id) && u'.Paid(a.id) == Payout(s, a)
            && u'.volume == u.volume + Counted(s, a)
  {
  }

  lemma NotHearing(s: State, o: Outcome, now: U64, a: Action, x: Indexer, u: Unseen)
    requires Follows(s, x, u) && Unheard(a) && T.Follows(s, now, a, o)
    ensures |o.events| == 1 && !o.events[0].SolverRegistered?
    ensures Follows(o.state, Fed(x, Other(now, o.events[0])), Noted(u, s, a))
  {
    assert Viewed(x, u, a.id, s.intents[a.id]);
    UnheardAlike(s, now, a);
    Unmoved(s, o, now, a, x, u, T.Next(s, now, a, s.intents[a.id]));
  }

  /** The replay stands still while intent `a.id` becomes `i`. */
  lemma Unmoved(s: State, o: Outcome, now: nat, a: Action, x: Indexer, u: Unseen, i: Intent)
    requires Follows(s, x, u) && Unheard(a) && T.Rewrote(s, o, a.id, i, OtherEvent(a.id), Counted(s, a))
    requires ShownAlike(s.intents[a.id], i, Payout(s, a))
    ensures Follows(o.state, Fed(x, Other(now, OtherEvent(a.id))), Noted(u, s, a))
  {
    assert Viewed(x, u, a.id, s.intents[a.id]);
    NotedUnheard(u, s, a);
    UnheardSeen(x, now, a.id, s.intents[a.id], i, u.Asked(a.id), Payout(s, a));
    Combined(s, o, x, Fed(x, Other(now, OtherEvent(a.id))), u, Noted(u, s, a), a.id, i, OtherEvent(a.id), Counted(s, a));
  }

  lemma Submitting(s: State, now: U64, a: Action, x: Indexer, u: Unseen)
    requires Follows(s, x, u) && a.DoSubmit? && Perform(s, now, a).Done?
    ensures var o := Perform(s, now, a);
            |o.events| == 1 && !o.events[0].SolverRegistered? && Follows(o.state, Fed(x, Other(now, o.events[0])), Noted(u, s, a))
  {
    T.SubmitFollows(s, now, a);
    Submitted(s, Perform(s, now, a).state, x, u, now, a.user, a.id, a.minDst, T.Submitted(s, now, a));
  }

  lemma NewView(s: State, s': State, x: Indexer, y: Indexer, u: Unseen, id: IntentId, i: Intent, v: IntentView, min: int)
    requires Views(s, x, u) && id !in s.intents && id !in s.tombstones && id !in x.intents
    requires s'.intents == s.intents[id := i] && s'.tombstones == s.tombstones
    requires y.intents == x.intents[id := v] && Shows(i, v, min, 0)
    ensures Views(s', y, u.(asked := u.asked[id := min]))
  {
    var u' := u.(asked := u.asked[id := min]);
    forall k | k != id ensures u'.Asked(k) == u.Asked(k) && u'.Paid(k) == u.Paid(k) {}
    forall k | k in s'.intents ensures k in y.intents && Shows(s'.intents[k], y.intents[k], u'.Asked(k), u'.Paid(k)) {
      if k == id { assert u'.Asked(k) == min && u'.Paid(k) == 0; }
    }
    forall k | k in u'.closed ensures k in y.intents && Shows(u'.closed[k], y.intents[k], u'.Asked(k), u'.Paid(k)) {
      assert k != id;
    }
  }

  lemma FollowedNew(s: State, s': State, x: Indexer, y: Indexer, u: Unseen, id: IntentId, i: Intent, v: IntentView, min: int)
    requires Follows(s, x, u) && id !in s.intents && id !in s.tombstones && id !in x.intents
    requires s'.intents == s.intents[id := i] && s'.tombstones == s.tombstones
    requires y.intents == x.intents[id := v] && Shows(i, v, min, 0) && v.OpenLike()
    requires s'.totalIntents == s.totalIntents + 1 && s'.totalVolume == s.totalVolume
    requires y.totals == x.totals.(intents := x.totals.intents + 1, open := x.totals.open + 1)
    ensures Follows(s', y, u.(asked := u.asked[id := min]))
  {
    TotalUpdate(x.intents, id, v, R.ViewOpen());
    NewView(s, s', x, y, u, id, i, v, min);
  }

  lemma Unknown(s: State, x: Indexer, u: Unseen, id: IntentId)
    requires Follows(s, x, u) && id !in s.intents && id !in s.tombstones
    ensures id !in x.intents
  {
  }

  lemma Submitted(s: State, s': State, x: Indexer, u: Unseen, now: nat, user: Address, id: IntentId, min: int, i: Intent)
    requires Follows(s, x, u) && id !in s.intents && id !in s.tombstones
    requires i.user == user && i.totalFilled == 0 && i.phase == Open && i.disputeDeadline.None?
    requires s'.intents == s.intents[id := i] && s'.tombstones == s.tombstones
    requires s'.totalIntents == s.totalIntents + 1 && s'.totalVolume == s.totalVolume
    ensures Follows(s', Fed(x, Other(now, IntentSubmitted(user, id, min, i.deadline))), u.(asked := u.asked[id := min]))
  {
    var v := IntentView(user, min, i.deadline, None, Open, 0, 0, now);
    Unknown(s, x, u, id);
    FollowedNew(s, s', x, Fed(x, Other(now, IntentSubmitted(user, id, min, i.deadline))), u, id, i, v, min);
  }

  lemma ViewKept(x: Indexer, u: Unseen, u': Unseen, id: IntentId, i: Intent)
    requires Viewed(x, u, id, i) && u'.asked == u.asked && u'.paid == u.paid
    ensures Viewed(x, u', id, i)
  {
  }

  lemma LiveViews(s: State, s': State, x: Indexer, u: Unseen, u': Unseen, id: IntentId)
    requires Views(s, x, u) && s'.intents == s.intents - {id} && u'.asked == u.asked && u'.paid == u.paid
    ensures forall k <- s'.intents :: Viewed(x, u', k, s'.intents[k])
  {
    forall k | k in s'.intents ensures Viewed(x, u', k, s'.intents[k]) { ViewKept(x, u, u', k, s.intents[k]); }
  }

  lemma PrunedViews(s: State, x: Indexer, u: Unseen, id: IntentId)
    requires Views(s, x, u) && id in s.intents && s.intents[id].Terminal()
    ensures var u' := u.(closed := u.closed[id := s.intents[id]]);
            forall k <- u'.closed :: u'.closed[k].Terminal() && Viewed(x, u', k, u'.closed[k])
  {
    var u' := u.(closed := u.closed[id := s.intents[id]]);
    forall k | k in u'.closed ensures u'.closed[k].Terminal() && Viewed(x, u', k, u'.closed[k]) {
      ViewKept(x, u, u', k, u'.closed[k]);
    }
  }

  lemma ClosedViews(s: State, s': State, x: Indexer, u: Unseen, id: IntentId)
    requires Views(s, x, u) && id in s.intents && s.intents[id].Terminal()
    requires s'.intents == s.intents - {id} && s'.tombstones == s.tombstones + {id}
    ensures Views(s', x, u.(closed := u.closed[id := s.intents[id]]))
  {
    LiveViews(s, s', x, u, u.(closed := u.closed[id := s.intents[id]]), id);
    PrunedViews(s, x, u, id);
  }

  lemma SameViews(s: State, x: Indexer, y: Indexer, u: Unseen)
    requires Views(s, x, u) && y.intents == x.intents
    ensures Views(s, y, u)
  {
  }

  lemma Closed(s: State, s': State, x: Indexer, y: Indexer, u: Unseen, id: IntentId)
    requires Follows(s, x, u) && id in s.intents && s.intents[id].Terminal() && y == x.(processed := y.processed)
    requires s'.intents == s.intents - {id} && s'.tombstones == s.tombstones + {id}
    requires s'.totalIntents == s.totalIntents && s'.totalVolume == s.totalVolume
    ensures Follows(s', y, u.(closed := u.closed[id := s.intents[id]]))
  {
    ClosedViews(s, s', x, u, id);
    SameViews(s', x, y, u.(closed := u.closed[id := s.intents[id]]));
  }

  lemma CloseCall(s: State, c: Call, x: Indexer, u: Unseen)
    requires Follows(s, x, u) && c.action.DoClose? && Perform(s, c.now, c.action).Done?
    ensures var o := Perform(s, c.now, c.action);
            |o.events| == 1 && !o.events[0].SolverRegistered?
            && Follows(o.state, Fed(x, Other(c.now, o.events[0])), Noted(u, s, c.action))
  {
    var id := c.action.id;
    T.CloseFollows(s, c.now, id);
    Pruned(s, Close(s, c.now, id), c.now, x, u, id);
  }

  lemma Pruned(s: State, o: Outcome, now: nat, x: Indexer, u: Unseen, id: IntentId)
    requires Follows(s, x, u) && id in s.intents && s.intents[id].Terminal()
    requires o.Done? && o.state.intents == s.intents - {id} && o.state.tombstones == s.tombstones + {id}
    requires o.state.totalIntents == s.totalIntents && o.state.totalVolume == s.totalVolume && o.events == [OtherEvent(id)]
    ensures Follows(o.state, Fed(x, Other(now, o.events[0])), u.(closed := u.closed[id := s.intents[id]]))
  {
    Closed(s, o.state, x, Fed(x, Other(now, OtherEvent(id))), u, id);
  }

  predicate AboutSolver(e: Event) { e.SolverRegistered? || e.SolverDeregistered? || e.BondWithdrawn? }

  predicate OfSolvers(a: Action) { a.DoRegister? || a.DoWithdraw? || a.DoDeregister? }

  lemma SolverCallIs(s: State, now: U64, a: Action) returns (e: Event)
    requires OfSolvers(a) && Perform(s, now, a).Done?
    ensures var o := Perform(s, now, a);
            && o.events == [e] && AboutSolver(e) && o.state.intents == s.intents && o.state.tombstones == s.tombstones
            && o.state.totalIntents == s.totalIntents && o.state.totalVolume == s.totalVolume
  {
    e := Perform(s, now, a).events[0];
  }

  lemma SolverMessage(x: Indexer, now: nat, e: Event, documented: bool)
    requires AboutSolver(e)
    ensures var y := Fed(x, Published(now, e, documented));
            && y.intents == x.intents && y.totals.intents == x.totals.intents
            && y.totals.volume == x.totals.volume && y.totals.open == x.totals.open
  {
  }

  lemma OtherwiseQuiet(s: State, c: Call, x: Indexer, u: Unseen, documented: bool)
    requires Follows(s, x, u) && OfSolvers(c.action) && Perform(s, c.now, c.action).Done?
    ensures var o := Perform(s, c.now, c.action);
            |o.events| == 1 && Follows(o.state, Fed(x, Published(c.now, o.events[0], documented)), u)
  {
    var e := SolverCallIs(s, c.now, c.action);
    SolverMessage(x, c.now, e, documented);
    FollowedSame(s, Perform(s, c.now, c.action).state, x, Fed(x, Published(c.now, e, documented)), u);
  }

  lemma Silent(s: State, c: Call, x: Indexer, u: Unseen)
    requires Follows(s, x, u) && (c.action.DoAdminister? || c.action.Mint?) && Perform(s, c.now, c.action).Done?
    ensures Perform(s, c.now, c.action).events == [] && Follows(Perform(s, c.now, c.action).state, x, u)
  {
    if c.action.DoAdminister? { AdministerSilent(s, c.action.change); }
    FollowedSame(s, Perform(s, c.now, c.action).state, x, x, u);
  }

  /** Nothing is ever put up for bids. */
  lemma NoBids(s: State, c: Call)
    requires (c.action.DoBid? || c.action.DoSettleBids?) && c.action.id in s.intents ==> s.intents[c.action.id].phase != Bidding
    requires c.action.DoBid? || c.action.DoSettleBids?
    ensures Perform(s, c.now, c.action).Reverted?
  {
  }

  // ----- Every run -----

  lemma IntentCall(s: State, c: Call, x: Indexer, u: Unseen)
    requires Follows(s, x, u) && Perform(s, c.now, c.action).Done?
    requires Heard(c.action) || Unheard(c.action) || c.action.DoSubmit? || c.action.DoClose?
    ensures var o := Perform(s, c.now, c.action);
            |o.events| == 1 && !o.events[0].SolverRegistered?
            && Follows(o.state, Fed(x, Other(c.now, o.events[0])), Noted(u, s, c.action))
  {
    if Heard(c.action) {
      T.CallFollows(s, c.now, c.action);
      Hearing(s, Perform(s, c.now, c.action), c.now, c.action, x, u);
    } else if Unheard(c.action) {
      T.CallFollows(s, c.now, c.action);
      NotHearing(s, Perform(s, c.now, c.action), c.now, c.action, x, u);
    } else if c.action.DoSubmit? {
      Submitting(s, c.now, c.action, x, u);
    } else {
      CloseCall(s, c, x, u);
    }
  }

  /** Administration and the outside world. */
  predicate OfOthers(a: Action) { a.DoAdminister? || a.Mint? }

  lemma OneCall(s: State, c: Call, x: Indexer, u: Unseen, documented: bool)
    requires Follows(s, x, u) && Perform(s, c.now, c.action).Done?
    requires !OfOthers(c.action) && !c.action.DoBid? && !c.action.DoSettleBids?
    ensures var o := Perform(s, c.now, c.action);
            |o.events| == 1 && Follows(o.state, Fed(x, Published(c.now, o.events[0], documented)), Noted(u, s, c.action))
  {
    if OfSolvers(c.action) { OtherwiseQuiet(s, c, x, u, documented); } else { IntentCall(s, c, x, u); }
  }

  lemma DoneStep(s: State, c: Call, x: Indexer, u: Unseen, documented: bool)
    requires Follows(s, x, u) && Perform(s, c.now, c.action).Done?
    ensures Follows(Perform(s, c.now, c.action).state,
                    Replayed(x, PublishedAll(c.now, Perform(s, c.now, c.action).events, documented)), Noted(u, s, c.action))
  {
    if OfOthers(c.action) {
      Silent(s, c, x, u);
    } else if c.action.DoBid? || c.action.DoSettleBids? {
      NoBids(s, c);
    } else {
      OneCall(s, c, x, u, documented);
      R.OneMessage(c.now, Perform(s, c.now, c.action).events, x, documented);
    }
  }

  lemma FollowsStep(s: State, c: Call, x: Indexer, u: Unseen, documented: bool)
    requires Follows(s, x, u)
    ensures Follows(After(s, c), Replayed(x, Messages(s, c, documented)), NotedAfter(u, s, c))
  {
    if Perform(s, c.now, c.action).Done? { DoneStep(s, c, x, u, documented); }
  }

  /** Whatever is called, replay, contract and notes stay in step. */
  lemma {:induction false} ReplayFollows(params: Params, recipient: Address, admin: Address, funds: map<(Token, Address), int>,
                                         calls: seq<Call>, documented: bool)
    ensures var s0 := Fresh(params, recipient, admin, funds);
            Follows(Run(s0, calls), Replayed(EMPTY, Log(s0, calls, documented)), Notes(s0, calls))
  {
    var s0 := Fresh(params, recipient, admin, funds);
    if calls != [] {
      var front, last := calls[..|calls| - 1], calls[|calls| - 1];
      ReplayFollows(params, recipient, admin, funds, front, documented);
      var x := Replayed(EMPTY, Log(s0, front, documented));
      FollowsStep(Run(s0, front), last, x, Notes(s0, front), documented);
      R.ReplayedConcat(EMPTY, Log(s0, front, documented), Messages(Run(s0, front), last, documented));
    }
  }

  // ----- What differs, and when -----

  /** A partial or full fill whose amount lies between the submitted and the amended minimum. */
  predicate Between(i: Intent, asked: int) {
    && i.disputeDeadline.None? && i.phase in {PartiallyFilled, Filled}
    && ((i.totalFilled >= asked) != (i.totalFilled >= i.minDst))
  }

  /** The minimum shown is the one submitted; the amount differs exactly if an escrow was
      paid out, the state exactly if the intent was escrowed or its fills lie between the
      two minimums, and only then is it open on one side alone. */
  predicate DiffersExactly(i: Intent, v: IntentView, asked: int, paid: int) {
    && v.user == i.user && v.minDst == asked
    && (v.totalFilled != i.totalFilled <==> paid != 0)
    && (!R.SamePhase(i.phase, v.phase) <==> i.disputeDeadline.Some? || Between(i, asked))
    && (v.OpenLike() != i.OpenLike() <==> Between(i, asked))
  }

  lemma ViewDiffers(i: Intent, v: IntentView, asked: int, paid: int)
    requires Shows(i, v, asked, paid)
    ensures DiffersExactly(i, v, asked, paid)
  {
  }

  /** For every intent after any run: where its view differs from the record, exactly. */
  lemma ReplayDiffers(params: Params, recipient: Address, admin: Address, funds: map<(Token, Address), int>,
                      calls: seq<Call>, id: IntentId)
    ensures var s0 := Fresh(params, recipient, admin, funds);
            var s, x, u := Run(s0, calls), Replayed(EMPTY, Log(s0, calls, false)), Notes(s0, calls);
            id in s.intents ==> id in x.intents && DiffersExactly(s.intents[id], x.intents[id], u.Asked(id), u.Paid(id))
  {
    var s0 := Fresh(params, recipient, admin, funds);
    ReplayFollows(params, recipient, admin, funds, calls, false);
    var s, x, u := Run(s0, calls), Replayed(EMPTY, Log(s0, calls, false)), Notes(s0, calls);
    if id in s.intents { ViewDiffers(s.intents[id], x.intents[id], u.Asked(id), u.Paid(id)); }
  }

  /** The indexer's volume lags by exactly the escrows released or dismissed. */
  lemma VolumeLags(params: Params, recipient: Address, admin: Address, funds: map<(Token, Address), int>, calls: seq<Call>)
    ensures var s0 := Fresh(params, recipient, admin, funds);
            Replayed(EMPTY, Log(s0, calls, false)).totals.volume + Notes(s0, calls).volume == Run(s0, calls).totalVolume
  {
    ReplayFollows(params, recipient, admin, funds, calls, false);
  }

  // ----- The open counter -----

  /** The record of an intent, or its last one if it has been pruned. */
  function Last(s: State, u: Unseen, id: IntentId): Intent
    requires id in s.intents || id in u.closed
  {
    if id in s.intents then s.intents[id] else u.closed[id]
  }

  /** Whether the contract counts an intent as open, asked for each intent the replay shows. */
  ghost function RecordOpen(s: State): (IntentId, IntentView) -> int {
    (id: IntentId, v: IntentView) => if id in s.intents && s.intents[id].OpenLike() then 1 else 0
  }

  /** Two maps of the same weights, the larger with nothing else that weighs. */
  lemma {:induction false} TotalWithin<K, V, W>(m: map<K, V>, n: map<K, W>, w: (K, V) -> int, z: (K, W) -> int)
    requires n.Keys <= m.Keys
    requires forall k <- m :: w(k, m[k]) == if k in n then z(k, n[k]) else 0
    ensures Total(m, w) == Total(n, z)
    decreases |m|
  {
    if m == map[] {
      assert n == map[];
    } else {
      assert m.Keys != {};
      var k :| k in m;
      assert m.Keys == (m - {k}).Keys + {k};
      TotalSplit(m, k, w);
      if k in n { TotalSplit(n, k, z); } else { assert n - {k} == n; }
      TotalWithin(m - {k}, n - {k}, w, z);
    }
  }

  lemma RecordsCounted(s: State, x: Indexer, u: Unseen)
    requires Views(s, x, u) && s.openIntents == Total(s.intents, IsOpen())
    ensures s.openIntents == Total(x.intents, RecordOpen(s))
  {
    TotalWithin(x.intents, s.intents, RecordOpen(s), IsOpen());
  }

  lemma OpenDiffers(s: State, x: Indexer, u: Unseen, id: IntentId)
    requires Views(s, x, u) && id in x.intents
    ensures R.ViewOpen()(id, x.intents[id]) != RecordOpen(s)(id, x.intents[id]) <==> Between(Last(s, u, id), u.Asked(id))
  {
    ViewDiffers(Last(s, u, id), x.intents[id], u.Asked(id), u.Paid(id));
  }

  /** Both open counters after any run, as counts over the intents ever submitted: the
      replay's of what it shows as open, the contract's of what is, which differ exactly
      at the intents whose fills lie between two minimums. */
  lemma OpenCounters(params: Params, recipient: Address, admin: Address, funds: map<(Token, Address), int>, calls: seq<Call>)
    ensures var s0 := Fresh(params, recipient, admin, funds);
            var s, x, u := Run(s0, calls), Replayed(EMPTY, Log(s0, calls, false)), Notes(s0, calls);
            && x.totals.open == Total(x.intents, R.ViewOpen())
            && s.openIntents == Total(x.intents, RecordOpen(s))
            && forall id <- x.intents ::
                 && (id in s.intents || id in u.closed)
                 && (R.ViewOpen()(id, x.intents[id]) != RecordOpen(s)(id, x.intents[id])
                     <==> Between(Last(s, u, id), u.Asked(id)))
  {
    var s0 := Fresh(params, recipient, admin, funds);
    var s, x, u := Run(s0, calls), Replayed(EMPTY, Log(s0, calls, false)), Notes(s0, calls);
    ReplayFollows(params, recipient, admin, funds, calls, false);
    CountersExact(s0, calls);
    RecordsCounted(s, x, u);
    forall id | id in x.intents
      ensures id in s.intents || id in u.closed
      ensures R.ViewOpen()(id, x.intents[id]) != RecordOpen(s)(id, x.intents[id]) <==> Between(Last(s, u, id), u.Asked(id))
    {
      OpenDiffers(s, x, u, id);
    }
  }

  // ----- Without amendments -----

  ghost predicate AsAsked(s: State, u: Unseen) {
    && (forall id <- s.intents :: u.Asked(id) == s.intents[id].minDst)
    && (forall id <- u.closed :: id in s.tombstones && u.Asked(id) == u.closed[id].minDst)
  }

  lemma AsAskedSubmit(s: State, c: Call, u: Unseen)
    requires AsAsked(s, u) && c.action.DoSubmit?
    ensures AsAsked(After(s, c), NotedAfter(u, s, c))
  {
    if Perform(s, c.now, c.action).Done? { T.SubmitFollows(s, c.now, c.action); }
  }

  lemma AsAskedClose(s: State, c: Call, u: Unseen)
    requires AsAsked(s, u) && c.action.DoClose?
    ensures AsAsked(After(s, c), NotedAfter(u, s, c))
  {
    if Perform(s, c.now, c.action).Done? { T.CloseFollows(s, c.now, c.action.id); }
  }

  lemma AsAskedStep(s: State, c: Call, u: Unseen)
    requires AsAsked(s, u) && !c.action.DoAmend?
    ensures AsAsked(After(s, c), NotedAfter(u, s, c))
  {
    if c.action.DoSubmit? {
      AsAskedSubmit(s, c, u);
    } else if c.action.DoClose? {
      AsAskedClose(s, c, u);
    } else {
      CallFramed(s, c);
    }
  }

  lemma {:induction false} AlwaysAsAsked(s: State, calls: seq<Call>)
    requires s.intents == map[] && forall c <- calls :: !c.action.DoAmend?
    ensures AsAsked(Run(s, calls), Notes(s, calls))
  {
    if calls != [] {
      assert calls[|calls| - 1] in calls;
      AlwaysAsAsked(s, calls[..|calls| - 1]);
      AsAskedStep(Run(s, calls[..|calls| - 1]), calls[|calls| - 1], Notes(s, calls[..|calls| - 1]));
    }
  }

  /** As long as nothing is amended both open counters agree, escrows and disputes included. */
  lemma OpenAgreesUnamended(params: Params, recipient: Address, admin: Address, funds: map<(Token, Address), int>, calls: seq<Call>)
    requires forall c <- calls :: !c.action.DoAmend?
    ensures var s0 := Fresh(params, recipient, admin, funds);
            Replayed(EMPTY, Log(s0, calls, false)).totals.open == Run(s0, calls).openIntents
  {
    var s0 := Fresh(params, recipient, admin, funds);
    var s, x, u := Run(s0, calls), Replayed(EMPTY, Log(s0, calls, false)), Notes(s0, calls);
    AlwaysAsAsked(s0, calls);
    OpenCounters(params, recipient, admin, funds, calls);
    forall id | id in x.intents ensures R.ViewOpen()(id, x.intents[id]) == RecordOpen(s)(id, x.intents[id]) {
      assert u.Asked(id) == Last(s, u, id).minDst;
    }
    TotalWithin(x.intents, x.intents, R.ViewOpen(), RecordOpen(s));
  }
}
