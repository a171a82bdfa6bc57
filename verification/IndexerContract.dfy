/**
  The reference indexer as the object it is: handlers mutate the maps and the
  statistics, and `Replay` feeds it an ordered list of messages, noting the ones
  whose handler throws. It is proved to compute what IndexerModel says.
 */
module IndexerContract {
  import opened Wrappers
  import opened SettlementMath
  import opened SettlementModel
  import opened IndexerModel

  class VortexIndexer {
    var intents: map<IntentId, IntentView>
    var solvers: map<Address, SolverView>
    var totals: Totals
    var processed: nat
    var errors: seq<Message>

    function View(): Indexer
      reads this
    {
      Indexer(intents, solvers, totals, processed, errors)
    }

    constructor ()
      ensures View() == EMPTY
    {
      intents, solvers, totals, processed, errors := map[], map[], Totals(0, 0, 0, 0), 0, [];
    }

    // ----- Solver handlers -----

    /** Throws on a tuple; otherwise tops a known solver up or adds a new one. */
    method OnSolverRegistered(a: Address, value: Value) returns (ok: bool)
      modifies this
      ensures ok <==> value.Scalar?
      ensures View() == if ok then OnRegistered(old(View()), a, value.n) else old(View())
    {
      if value.Pair? { return false; }
      if a in solvers {
        var rec := solvers[a];
        solvers := solvers[a := rec.(bond := rec.bond + value.n, active := true)];
      } else {
        solvers := solvers[a := SolverView(value.n, 0, 0, 0, true, 0)];
        totals := totals.(solvers := totals.solvers + 1);
      }
      ok := true;
    }

    method OnSolverDeregistered(a: Address)
      modifies this
      ensures View() == OnDeregistered(old(View()), a)
    {
      solvers := solvers - {a};
      totals := totals.(solvers := if totals.solvers > 0 then totals.solvers - 1 else 0);
    }

    method OnBondWithdrawn(a: Address, remaining: int)
      modifies this
      ensures View() == OnWithdrawn(old(View()), a, remaining)
    {
      if a in solvers { solvers := solvers[a := solvers[a].(bond := remaining)]; }
    }

    method OnSolverSlashed(ledger: nat, a: Address, id: IntentId, amount: int)
      modifies this
      ensures View() == OnSlashed(old(View()), ledger, a, id, amount)
    {
      if a in solvers {
        var rec := solvers[a];
        solvers := solvers[a := rec.(bond := rec.bond - amount, failed := rec.failed + 1,
                                     activeIntents := if rec.activeIntents > 0 then rec.activeIntents - 1 else 0)];
      }
      if id in intents {
        var v := intents[id];
        var wasOpen := v.phase == Open || v.phase == PartiallyFilled;
        v := v.(phase := if v.totalFilled > 0 then PartiallyFilled else Open, solver := None, ledger := ledger);
        intents := intents[id := v];
        if !wasOpen { totals := totals.(open := totals.open + 1); }
      }
    }

    // ----- Intent handlers -----

    method OnIntentSubmitted(ledger: nat, user: Address, id: IntentId, minDst: int, expiry: nat)
      modifies this
      ensures View() == OnSubmitted(old(View()), ledger, user, id, minDst, expiry)
    {
      intents := intents[id := IntentView(user, minDst, expiry, None, Open, 0, 0, ledger)];
      totals := totals.(intents := totals.intents + 1, open := totals.open + 1);
    }

    method OnIntentAccepted(ledger: nat, a: Address, id: IntentId, deadline: nat)
      modifies this
      ensures View() == OnAccepted(old(View()), ledger, a, id, deadline)
    {
      if id !in intents { return; }
      var v := intents[id];
      var wasOpen := v.phase == Open || v.phase == PartiallyFilled;
      v := v.(solver := Some(a), phase := Accepted, fillDeadline := deadline, ledger := ledger);
      intents := intents[id := v];
      if wasOpen { totals := totals.(open := if totals.open > 0 then totals.open - 1 else 0); }
      if a in solvers { solvers := solvers[a := solvers[a].(activeIntents := solvers[a].activeIntents + 1)]; }
    }

    method OnIntentFilled(ledger: nat, a: Address, id: IntentId, amount: int)
      modifies this
      ensures View() == OnFilled(old(View()), ledger, a, id, amount)
    {
      if id !in intents { return; }
      var v := intents[id];
      v := v.(totalFilled := v.totalFilled + amount, ledger := ledger);
      if a in solvers {
        var rec := solvers[a];
        solvers := solvers[a := rec.(volume := rec.volume + amount,
                                     activeIntents := if rec.activeIntents > 0 then rec.activeIntents - 1 else 0)];
      }
      totals := totals.(volume := totals.volume + amount);
      if v.totalFilled >= v.minDst {
        v := v.(phase := Filled, solver := None);
        if a in solvers { solvers := solvers[a := solvers[a].(completed := solvers[a].completed + 1)]; }
      } else {
        v := v.(phase := PartiallyFilled, solver := None);
        totals := totals.(open := totals.open + 1);
      }
      intents := intents[id := v];
    }

    method OnIntentEnded(ledger: nat, id: IntentId, phase: Phase)
      modifies this
      ensures View() == OnEnded(old(View()), ledger, id, phase)
    {
      if id !in intents { return; }
      var v := intents[id];
      var wasOpen := v.phase == Open || v.phase == PartiallyFilled;
      intents := intents[id := v.(phase := phase, ledger := ledger)];
      if wasOpen { totals := totals.(open := if totals.open > 0 then totals.open - 1 else 0); }
    }

    method OnExtensionGranted(ledger: nat, id: IntentId, deadline: nat)
      modifies this
      ensures View() == OnExtended(old(View()), ledger, id, deadline)
    {
      if id !in intents { return; }
      intents := intents[id := intents[id].(fillDeadline := deadline, ledger := ledger)];
    }

    // ----- Replay -----

    /** Routes a message to its handler; false when the handler throws. */
    method DispatchMessage(m: Message) returns (ok: bool)
      modifies this
      ensures ok <==> Dispatch(old(View()), m).Some?
      ensures View() == Dispatch(old(View()), m).GetOr(old(View()))
    {
      ok := true;
      match m {
        case Registration(l, a, value) => ok := OnSolverRegistered(a, value);
        case Other(l, e) =>
          if e.SolverDeregistered? {
            OnSolverDeregistered(e.solver);
          } else if e.BondWithdrawn? {
            OnBondWithdrawn(e.solver, e.remaining);
          } else if e.SolverSlashed? {
            OnSolverSlashed(l, e.solver, e.id, e.amount);
          } else if e.IntentSubmitted? {
            OnIntentSubmitted(l, e.user, e.id, e.minDst, e.expiry);
          } else if e.IntentAccepted? {
            OnIntentAccepted(l, e.solver, e.id, e.deadline);
          } else if e.IntentFilled? {
            OnIntentFilled(l, e.solver, e.id, e.amount);
          } else if e.IntentCancelled? {
            OnIntentEnded(l, e.id, Cancelled);
          } else if e.IntentExpiredEvent? {
            OnIntentEnded(l, e.id, Expired);
          } else if e.ExtensionGranted? {
            OnExtensionGranted(l, e.id, e.deadline);
          }
      }
    }

    method Replay(messages: seq<Message>)
      modifies this
      ensures View() == Replayed(old(View()), messages)
    {
      for i := 0 to |messages|
        invariant View() == Replayed(old(View()), messages[..i])
      {
        assert messages[..i + 1][..i] == messages[..i];
        var ok := DispatchMessage(messages[i]);
        if ok {
          processed := processed + 1;
        } else {
          errors := errors + [messages[i]];
        }
      }
      assert messages[..|messages|] == messages;
    }
  }
}
