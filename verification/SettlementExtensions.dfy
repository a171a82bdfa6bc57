/**
  Extensions over whole runs: whatever is granted, closed and submitted again, no
  intent is ever extended twice.
 */
module SettlementExtensions {
  import opened Wrappers
  import opened SettlementMath
  import opened SettlementModel
  import opened SettlementFrames
  import opened SettlementTransitions
  import opened SettlementJams
  import opened SettlementScenario
  import opened Sums

  function EventsOf(s: State, c: Call): seq<Event> {
    match Perform(s, c.now, c.action)
    case Done(_, es) => es
    case Reverted(_) => []
  }

  /** Everything a run publishes, oldest first. */
  function EventLog(s: State, calls: seq<Call>): seq<Event> {
    if calls == [] then [] else
    EventLog(s, calls[..|calls| - 1]) + EventsOf(Run(s, calls[..|calls| - 1]), calls[|calls| - 1])
  }

  ghost function Grants(id: IntentId): Event -> int {
    (e: Event) => if e.ExtensionGranted? && e.id == id then 1 else 0
  }

  /** How often the log extends the intent. */
  ghost function Granted(log: seq<Event>, id: IntentId): int { LogSum(log, Grants(id)) }

  /** At most once; the extensions stored are those of the intents still known, and an
      id not yet issued has none. */
  ghost predicate OnceEach(s: State, log: seq<Event>) {
    && (forall id :: 0 <= Granted(log, id) <= 1)
    && (forall id :: id in s.extensions <==> id in s.intents && Granted(log, id) == 1)
    && (forall id :: id !in s.intents && id !in s.tombstones ==> Granted(log, id) == 0)
    && s.intents.Keys !! s.tombstones
  }

  lemma NotGranted(log: seq<Event>, more: seq<Event>, id: IntentId)
    requires forall e <- more :: e.ExtensionGranted? ==> e.id != id
    ensures Granted(log + more, id) == Granted(log, id)
  {
    LogSumConcat(log, more, Grants(id));
    LogSumNone(more, Grants(id));
  }

  lemma GrantStep(s: State, s': State, id: IntentId, log: seq<Event>, e: Event)
    requires OnceEach(s, log) && id in s.intents && id !in s.extensions && e.ExtensionGranted? && e.id == id
    requires s'.intents.Keys == s.intents.Keys && s'.tombstones == s.tombstones
    requires s'.extensions.Keys == s.extensions.Keys + {id}
    ensures OnceEach(s', log + [e])
  {
    LogSumPush(log, e, Grants(id));
    forall k | k != id ensures Granted(log + [e], k) == Granted(log, k) { NotGranted(log, [e], k); }
  }

  lemma ExtendStep(s: State, c: Call, log: seq<Event>)
    requires OnceEach(s, log) && c.action.DoExtend? && Perform(s, c.now, c.action).Done?
    ensures OnceEach(After(s, c), log + Perform(s, c.now, c.action).events)
  {
    CallFollows(s, c.now, c.action);
    ExtensionNoted(s, c);
    GrantStep(s, After(s, c), c.action.id, log, Perform(s, c.now, c.action).events[0]);
  }

  /** The intents known and extended afterwards, when nothing was granted. */
  lemma OtherStep(s: State, c: Call, log: seq<Event>)
    requires OnceEach(s, log) && !c.action.DoExtend? && Perform(s, c.now, c.action).Done?
    ensures OnceEach(Perform(s, c.now, c.action).state, log + Perform(s, c.now, c.action).events)
  {
    var o := Perform(s, c.now, c.action);
    CallFramed(s, c);
    forall k ensures Granted(log + o.events, k) == Granted(log, k) { NotGranted(log, o.events, k); }
    if c.action.DoSubmit? { SubmitFollows(s, c.now, c.action); }
    if c.action.DoClose? { CloseFollows(s, c.now, c.action.id); }
  }

  lemma OnceEachStep(s: State, c: Call, log: seq<Event>)
    requires OnceEach(s, log)
    ensures OnceEach(After(s, c), log + EventsOf(s, c))
  {
    if Perform(s, c.now, c.action).Reverted? {
      assert log + [] == log;
    } else if c.action.DoExtend? {
      ExtendStep(s, c, log);
    } else {
      OtherStep(s, c, log);
    }
  }

  lemma {:induction false} OnceEachAlways(params: Params, recipient: Address, admin: Address,
                                          funds: map<(Token, Address), int>, calls: seq<Call>)
    ensures var s0 := Fresh(params, recipient, admin, funds); OnceEach(Run(s0, calls), EventLog(s0, calls))
  {
    if calls != [] {
      var s0, front := Fresh(params, recipient, admin, funds), calls[..|calls| - 1];
      OnceEachAlways(params, recipient, admin, funds, front);
      OnceEachStep(Run(s0, front), calls[|calls| - 1], EventLog(s0, front));
    }
  }

  /** In every run from deployment an intent is extended at most once, also counting
      what happened to it before it was closed. */
  lemma ExtendedAtMostOnce(params: Params, recipient: Address, admin: Address, funds: map<(Token, Address), int>,
                           calls: seq<Call>, id: IntentId)
    ensures Granted(EventLog(Fresh(params, recipient, admin, funds), calls), id) <= 1
  {
    OnceEachAlways(params, recipient, admin, funds, calls);
  }

  /** Exactly when the next request is granted, and what it does: the solver of an
      accepted intent, never yet extended, if one extension is within the total. */
  lemma ExtensionGrantedExactly(params: Params, recipient: Address, admin: Address, funds: map<(Token, Address), int>,
                                calls: seq<Call>, a: Address, id: IntentId)
    ensures var s0 := Fresh(params, recipient, admin, funds);
            var s, log := Run(s0, calls), EventLog(s0, calls);
            && (Extend(s, a, id).Done? <==>
                && id in s.intents && s.intents[id].phase == Accepted && s.intents[id].solver == Some(a)
                && Granted(log, id) == 0 && MAX_EXTENSION_DURATION <= s.params.maxExtension
                && FitsU64(s.intents[id].deadline + MAX_EXTENSION_DURATION))
            && (Extend(s, a, id).Done? ==>
                && id in Extend(s, a, id).state.intents
                && Extend(s, a, id).state.intents[id].deadline == s.intents[id].deadline + MAX_EXTENSION_DURATION)
  {
    OnceEachAlways(params, recipient, admin, funds, calls);
  }

  /** With room for three extensions in the total, the second is refused all the same. */
  lemma SecondExtensionRefused()
    ensures PARAMS.maxExtension >= 3 * MAX_EXTENSION_DURATION
    ensures var s := Run(Deployed(), Bonding() + Engaging(0, 1, 0, 7));
            && Extend(s, 7, 0).Done?
            && Extend(Extend(s, 7, 0).state, 7, 0) == Reverted(ExtensionAlreadyGranted)
  {
    Bonded();
    var s, two := Run(Deployed(), Bonding()), Engaging(0, 1, 0, 7);
    RunTwo(Deployed(), Bonding(), two[0], two[1]);
    var e := Engages(s, 0, 1, 0, 7);
    SecondRefused(Engaged(s, e));
  }

  lemma SecondRefused(s: State)
    requires Plain(s) && 0 in s.intents && 0 !in s.extensions
    requires s.intents[0].phase == Accepted && s.intents[0].solver == Some(7) && s.intents[0].deadline == 300
    ensures Extend(s, 7, 0).Done? && Extend(Extend(s, 7, 0).state, 7, 0) == Reverted(ExtensionAlreadyGranted)
  {
  }
}
