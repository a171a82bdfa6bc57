/**
  The panel and the settlement contract as one system: what each answers the other
  is what the other's state says at that moment. Which rulings settlement takes, how
  rounds and disputes agree in every joint run, and what becomes of a round that
  settlement did not wait for.
 */
module PanelSettlement {
  import opened Wrappers
  import opened SettlementMath
  import opened SettlementModel
  import opened SettlementLedger
  import opened SettlementRecords
  import opened SettlementFrames
  import opened SettlementTheorems
  import opened SettlementStuck
  import P = PanelModel
  import T = PanelTheorems

  function AsRuling(v: P.Vote): Ruling { if v == P.Upheld then Upheld else Dismissed }

  // ----- Which rulings are taken -----

  /** What a ruling computes without checks stays in range. */
  predicate RulingFits(s: State, id: IntentId, ruling: Ruling)
    requires id in s.intents && !Unassigned(s, id)
  {
    var i, rec := s.intents[id], s.solvers[s.intents[id].solver.value];
    match ruling
    case Upheld => FitsI128(i.minDst - i.totalFilled) && FitsI128(i.totalFilled + i.Escrow()) && FitsU32(rec.failed + 1)
    case Dismissed =>
      FitsI128(i.Escrow() * PROTOCOL_FEE_BPS) && FitsI128(s.totalVolume + i.Escrow()) && FitsU32(rec.completed + 1)
  }

  lemma UpheldTaken(s: State, now: U64, id: IntentId, a: Address)
    requires Solvent(s) && id in s.intents && s.intents[id].phase == Disputed && a in s.solvers
    requires s.intents[id].solver == Some(a)
    ensures Resolve(s, now, s.rules.arbiter, id, Upheld).Done? <==> RulingFits(s, id, Upheld)
  {
    UpholdFunded(s, now, id, a);
  }

  lemma DismissalTaken(s: State, now: U64, id: IntentId, a: Address)
    requires id in s.intents && s.intents[id].phase == Disputed && a in s.solvers && s.intents[id].solver == Some(a)
    requires Dismiss(s, now, id, a) != Reverted(ContractShort)
    requires var escrow := s.intents[id].Escrow();
             && (PayoutFits(s, s.intents[id], escrow) <==> FitsI128(s.totalVolume + escrow))
             && (FitsI128(s.totalVolume + escrow) ==> FitsI128(s.solvers[a].volume + escrow))
    ensures Resolve(s, now, s.rules.arbiter, id, Dismissed).Done? <==> RulingFits(s, id, Dismissed)
  {
    DismissIff(s, now, id, a);
  }

  lemma DismissIff(s: State, now: U64, id: IntentId, a: Address)
    requires id in s.intents && s.intents[id].phase == Disputed && a in s.solvers
    requires Dismiss(s, now, id, a) != Reverted(ContractShort)
    ensures var i, escrow := s.intents[id], s.intents[id].Escrow();
            Dismiss(s, now, id, a).Done? <==>
              FitsI128(escrow * PROTOCOL_FEE_BPS) && CreditFits(s.solvers[a], escrow) && PayoutFits(s, i, escrow)
  {
  }

  /** The arbiter's ruling is taken exactly while the intent is disputed and the numbers
      of that ruling stay in range. */
  lemma RulingTaken(s: State, now: U64, id: IntentId, ruling: Ruling)
    requires Invariant(s)
    ensures Resolve(s, now, s.rules.arbiter, id, ruling).Done?
      <==> id in s.intents && s.intents[id].phase == Disputed && !Unassigned(s, id) && RulingFits(s, id, ruling)
  {
    if id in s.intents && s.intents[id].phase == Disputed {
      ObligationSound(s, id);
      var a := s.intents[id].solver.value;
      match ruling {
        case Upheld => UpheldTaken(s, now, id, a);
        case Dismissed =>
          DismissFunded(s, now, id, a);
          VolumeDecides(s, id);
          DismissalTaken(s, now, id, a);
      }
    }
  }

  // ----- What is over -----

  /** The intent is over: its record is terminal, or pruned for good. */
  predicate Over(s: State, id: IntentId) {
    if id in s.intents then s.intents[id].Terminal() else id in s.tombstones
  }

  lemma TerminalStays(s: State, c: Call, id: IntentId)
    requires Lifecycle(c.action) && c.action.id == id && Over(s, id)
    ensures Perform(s, c.now, c.action).Reverted?
  {
    if id !in s.intents { NoSubjectNoEffect(s, c); }
  }

  lemma PrunedEdges(s: State, c: Call, id: IntentId)
    requires (c.action.DoClose? || c.action.DoSubmit?) && id !in s.intents && id in s.tombstones
    ensures id !in After(s, c).intents && id in After(s, c).tombstones
  {
  }

  lemma PrunedStays(s: State, c: Call, id: IntentId)
    requires id !in s.intents && id in s.tombstones
    ensures id !in After(s, c).intents && id in After(s, c).tombstones
  {
    if c.action.DoClose? || c.action.DoSubmit? { PrunedEdges(s, c, id); } else { CallFramed(s, c); }
  }

  lemma OwnEdges(s: State, c: Call, id: IntentId)
    requires id in s.intents && Over(s, id) && (c.action.DoClose? || c.action.DoSubmit?) && c.action.id == id
    ensures After(s, c) == s || (id !in After(s, c).intents && id in After(s, c).tombstones)
  {
  }

  /** A terminal record stays as it is until it is pruned for good. */
  lemma OverStep(s: State, c: Call, id: IntentId)
    requires Records(s) && Over(s, id)
    ensures Over(After(s, c), id)
    ensures id in After(s, c).intents ==> id in s.intents && After(s, c).intents[id] == s.intents[id]
  {
    var x := c.action;
    if id !in s.intents {
      PrunedStays(s, c, id);
    } else if Lifecycle(x) && x.id == id {
      TerminalStays(s, c, id);
    } else if (x.DoClose? || x.DoSubmit?) && x.id == id {
      OwnEdges(s, c, id);
    } else {
      OtherCallsMiss(s, c, id);
    }
  }

  /** What is over stays over, so no later ruling on it is ever taken. */
  lemma {:induction false} OverForever(s: State, calls: seq<Call>, id: IntentId)
    requires Records(s) && Over(s, id)
    ensures Records(Run(s, calls)) && Over(Run(s, calls), id)
    ensures forall now, caller, ruling :: Resolve(Run(s, calls), now, caller, id, ruling).Reverted?
  {
    if calls != [] {
      OverForever(s, calls[..|calls| - 1], id);
      RecordsStep(Run(s, calls[..|calls| - 1]), calls[|calls| - 1]);
      OverStep(Run(s, calls[..|calls| - 1]), calls[|calls| - 1], id);
    }
  }
}
