/**
  The reference indexer: it rebuilds intents, solvers and statistics from the
  published events alone. One function per handler; `None` is a handler that
  throws before it has changed anything.
 */
module IndexerModel {
  import opened Wrappers
  import opened SettlementMath
  import opened SettlementModel

  /** A decoded payload: one value, or the tuple the contract publishes. */
  datatype Value = Scalar(n: int) | Pair(token: Token, n: int)

  /** A message as the RPC delivers it. Only registrations differ between the
      documented schema and what the contract publishes. */
  datatype Message =
    | Registration(ledger: nat, solver: Address, value: Value)
    | Other(ledger: nat, event: Event)

  datatype IntentView = IntentView(
    user: Address, minDst: int, expiry: nat, solver: Option<Address>, phase: Phase,
    totalFilled: int, fillDeadline: nat, ledger: nat)
  {
    predicate OpenLike() { phase == Open || phase == PartiallyFilled }
  }

  datatype SolverView = SolverView(bond: int, completed: nat, failed: nat, volume: int, active: bool, activeIntents: nat)

  datatype Totals = Totals(intents: nat, volume: int, open: nat, solvers: nat)

  datatype Indexer = Indexer(
    intents: map<IntentId, IntentView>, solvers: map<Address, SolverView>, totals: Totals,
    processed: nat, errors: seq<Message>)

  const EMPTY := Indexer(map[], map[], Totals(0, 0, 0, 0), 0, [])

  function Dec(n: nat): nat { if n > 0 then n - 1 else 0 }

  /** Applied only to solvers the indexer knows. */
  function WithSolver(solvers: map<Address, SolverView>, a: Address, f: SolverView -> SolverView): map<Address, SolverView> {
    if a in solvers then solvers[a := f(solvers[a])] else solvers
  }

  // ----- Solver events -----

  function OnRegistered(x: Indexer, a: Address, bond: int): Indexer {
    if a in x.solvers then
      x.(solvers := x.solvers[a := x.solvers[a].(bond := x.solvers[a].bond + bond, active := true)])
    else
      x.(solvers := x.solvers[a := SolverView(bond, 0, 0, 0, true, 0)], totals := x.totals.(solvers := x.totals.solvers + 1))
  }

  function OnDeregistered(x: Indexer, a: Address): Indexer {
    x.(solvers := x.solvers - {a}, totals := x.totals.(solvers := Dec(x.totals.solvers)))
  }

  function OnWithdrawn(x: Indexer, a: Address, remaining: int): Indexer {
    x.(solvers := WithSolver(x.solvers, a, (r: SolverView) => r.(bond := remaining)))
  }

  function OnSlashed(x: Indexer, ledger: nat, a: Address, id: IntentId, amount: int): Indexer {
    var y := x.(solvers := WithSolver(x.solvers, a, (r: SolverView) =>
      r.(bond := r.bond - amount, failed := r.failed + 1, activeIntents := Dec(r.activeIntents))));
    if id !in x.intents then y else
    var v := x.intents[id];
    y.(intents := x.intents[id := v.(phase := if v.totalFilled > 0 then PartiallyFilled else Open, solver := None, ledger := ledger)],
       totals := if v.OpenLike() then x.totals else x.totals.(open := x.totals.open + 1))
  }

  // ----- Intent events -----

  function OnSubmitted(x: Indexer, ledger: nat, user: Address, id: IntentId, minDst: int, expiry: nat): Indexer {
    x.(intents := x.intents[id := IntentView(user, minDst, expiry, None, Open, 0, 0, ledger)],
       totals := x.totals.(intents := x.totals.intents + 1, open := x.totals.open + 1))
  }

  function OnAccepted(x: Indexer, ledger: nat, a: Address, id: IntentId, deadline: nat): Indexer {
    if id !in x.intents then x else
    var v := x.intents[id];
    x.(intents := x.intents[id := v.(solver := Some(a), phase := Accepted, fillDeadline := deadline, ledger := ledger)],
       totals := if v.OpenLike() then x.totals.(open := Dec(x.totals.open)) else x.totals,
       solvers := WithSolver(x.solvers, a, (r: SolverView) => r.(activeIntents := r.activeIntents + 1)))
  }

  function OnFilled(x: Indexer, ledger: nat, a: Address, id: IntentId, amount: int): Indexer {
    if id !in x.intents then x else
    var v := x.intents[id];
    var total := v.totalFilled + amount;
    var full := total >= v.minDst;
    x.(intents := x.intents[id := v.(totalFilled := total, ledger := ledger, solver := None,
                                     phase := if full then Filled else PartiallyFilled)],
       solvers := WithSolver(x.solvers, a, (r: SolverView) =>
         r.(volume := r.volume + amount, activeIntents := Dec(r.activeIntents),
            completed := if full then r.completed + 1 else r.completed)),
       totals := x.totals.(volume := x.totals.volume + amount, open := if full then x.totals.open else x.totals.open + 1))
  }

  /** `intent_cancelled` and `intent_expired` differ in the state they leave. */
  function OnEnded(x: Indexer, ledger: nat, id: IntentId, phase: Phase): Indexer {
    if id !in x.intents then x else
    var v := x.intents[id];
    x.(intents := x.intents[id := v.(phase := phase, ledger := ledger)],
       totals := if v.OpenLike() then x.totals.(open := Dec(x.totals.open)) else x.totals)
  }

  function OnExtended(x: Indexer, ledger: nat, id: IntentId, deadline: nat): Indexer {
    if id !in x.intents then x else
    x.(intents := x.intents[id := x.intents[id].(fillDeadline := deadline, ledger := ledger)])
  }

  // ----- Replay -----

  function Dispatch(x: Indexer, m: Message): Option<Indexer> {
    match m
    case Registration(_, a, Scalar(n)) => Some(OnRegistered(x, a, n))
    case Registration(_, _, Pair(_, _)) => None   // the tuple is no BigInt
    case Other(l, e) =>
      match e
      case SolverDeregistered(a, _) => Some(OnDeregistered(x, a))
      case BondWithdrawn(a, _, remaining) => Some(OnWithdrawn(x, a, remaining))
      case SolverSlashed(a, id, n) => Some(OnSlashed(x, l, a, id, n))
      case IntentSubmitted(u, id, min, expiry) => Some(OnSubmitted(x, l, u, id, min, expiry))
      case IntentAccepted(a, id, d) => Some(OnAccepted(x, l, a, id, d))
      case IntentFilled(a, id, n, _) => Some(OnFilled(x, l, a, id, n))
      case IntentCancelled(_, id) => Some(OnEnded(x, l, id, Cancelled))
      case IntentExpiredEvent(id) => Some(OnEnded(x, l, id, Expired))
      case ExtensionGranted(_, id, d) => Some(OnExtended(x, l, id, d))
      case _ => Some(x)   // unknown event: logged and skipped
  }

  function Fed(x: Indexer, m: Message): Indexer {
    match Dispatch(x, m)
    case Some(y) => y.(processed := x.processed + 1)
    case None => x.(errors := x.errors + [m])
  }

  function Replayed(x: Indexer, messages: seq<Message>): Indexer {
    if messages == [] then x else Fed(Replayed(x, messages[..|messages| - 1]), messages[|messages| - 1])
  }

  // ----- What the contract publishes -----

  /** The message of an event: as published, or as the event schema documents it. */
  function Published(ledger: nat, e: Event, documented: bool): Message {
    if e.SolverRegistered? then
      Registration(ledger, e.solver, if documented then Scalar(e.amount) else Pair(e.token, e.amount))
    else Other(ledger, e)
  }

  function PublishedAll(ledger: nat, es: seq<Event>, documented: bool): seq<Message> {
    seq(|es|, i requires 0 <= i < |es| => Published(ledger, es[i], documented))
  }

  /** The messages of one call; a reverted call publishes nothing. */
  function Messages(s: State, c: Call, documented: bool): seq<Message> {
    match Perform(s, c.now, c.action)
    case Done(_, es) => PublishedAll(c.now, es, documented)
    case Reverted(_) => []
  }

  function Log(s: State, calls: seq<Call>, documented: bool): seq<Message> {
    if calls == [] then [] else
    var front := calls[..|calls| - 1];
    Log(s, front, documented) + Messages(Run(s, front), calls[|calls| - 1], documented)
  }
}
