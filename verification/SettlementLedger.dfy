/**
  The multi-token bond ledger: every solver's token list names exactly the
  tokens with a positive bond, and per token the contract holds precisely the
  bonds plus the fills in escrow. Hence no payout of the contract ever fails.
 */
module SettlementLedger {
  import opened Wrappers
  import opened SettlementMath
  import opened SettlementModel
  import opened Sums

  /** The token list is the set of tokens with a positive bond, each once, at most eight. */
  ghost predicate BondsListed(s: State, a: Address, rec: Solver) {
    && rec.bond >= 0
    && NoRepeats(rec.bondTokens)
    && |rec.bondTokens| <= MAX_BOND_TOKENS
    && forall t :: t in rec.bondTokens <==> BondOf(s, a, rec, t) > 0
  }

  ghost predicate Ledger(s: State) {
    && (forall a <- s.solvers :: BondsListed(s, a, s.solvers[a]))
    && (forall k <- s.bonds :: k.0 in s.solvers && k.1 != s.params.bondToken && s.bonds[k] > 0)
    && (forall id <- s.intents :: s.intents[id].Escrowed() ==>
          s.intents[id].fillAmount.Some? && s.intents[id].fillAmount.value >= 0)
  }

  ghost function DefaultBond(): (Address, Solver) -> int {
    (a: Address, rec: Solver) => rec.bond
  }

  ghost function BondIn(t: Token): ((Address, Token), int) -> int {
    (k: (Address, Token), amount: int) => if k.1 == t then amount else 0
  }

  ghost function EscrowOf(t: Token): (IntentId, Intent) -> int {
    (id: IntentId, i: Intent) => if i.dstToken == t then i.Escrow() else 0
  }

  ghost function BondTotal(s: State, t: Token): int {
    if t == s.params.bondToken then Total(s.solvers, DefaultBond()) else Total(s.bonds, BondIn(t))
  }

  /** What the contract owes in token `t`. */
  ghost function Owed(s: State, t: Token): int {
    BondTotal(s, t) + Total(s.intents, EscrowOf(t))
  }

  ghost predicate Backed(s: State) {
    forall t :: s.bank.Held(t) == Owed(s, t)
  }

  ghost predicate Solvent(s: State) { Ledger(s) && Backed(s) }

  // ----- How one bond and one intent move the totals -----

  lemma {:induction false} WithoutFacts(ts: seq<Token>, t: Token)
    ensures forall u :: u in Without(ts, t) <==> u in ts && u != t
    ensures |Without(ts, t)| <= |ts|
    ensures NoRepeats(ts) ==> NoRepeats(Without(ts, t))
  {
    if ts != [] {
      var front, last := ts[..|ts| - 1], ts[|ts| - 1];
      WithoutFacts(front, t);
      assert ts == front + [last];
      if NoRepeats(ts) {
        forall i | 0 <= i < |front| ensures front[i] != last { assert ts[i] != ts[|ts| - 1]; }
        assert last !in Without(front, t);
      }
    }
  }

  /** Writing one bond keeps the record's list exact. */
  lemma BondWritten(s: State, a: Address, rec: Solver, t: Token, amount: int)
    requires BondsListed(s, a, rec)
    requires forall k <- s.bonds :: k.1 != s.params.bondToken && s.bonds[k] > 0
    requires amount >= 0
    requires BondOf(s, a, rec, t) == 0 && amount > 0 ==> |rec.bondTokens| < MAX_BOND_TOKENS
    ensures BondsListed(s.(bonds := BondsAfter(s, a, t, amount)), a, RecordWithBond(s, rec, t, amount))
    ensures forall k <- BondsAfter(s, a, t, amount) ::
              k.1 != s.params.bondToken && BondsAfter(s, a, t, amount)[k] > 0 && (k in s.bonds || k.0 == a)
  {
    WithoutFacts(rec.bondTokens, t);
    var s', rec' := s.(bonds := BondsAfter(s, a, t, amount)), RecordWithBond(s, rec, t, amount);
    forall u ensures u in rec'.bondTokens <==> BondOf(s', a, rec', u) > 0 {
      assert u in rec.bondTokens <==> BondOf(s, a, rec, u) > 0;
    }
  }

  /** The other solvers' lists do not notice. */
  lemma OthersListed(s: State, s': State, a: Address, t: Token, amount: int, b: Address)
    requires Ledger(s) && b in s.solvers && b != a
    requires s'.params == s.params && s'.bonds == BondsAfter(s, a, t, amount)
    ensures BondsListed(s', b, s.solvers[b])
  {
    forall u ensures BondOf(s', b, s.solvers[b], u) == BondOf(s, b, s.solvers[b], u) {}
  }

  lemma BondTotalMoves(s: State, s': State, a: Address, rec: Solver, t: Token, amount: int, u: Token)
    requires s'.params == s.params && amount >= 0
    requires s'.bonds == BondsAfter(s, a, t, amount)
    requires a in s'.solvers && s'.solvers == s.solvers[a := s'.solvers[a]]
    requires s'.solvers[a].bond == if t == s.params.bondToken then amount else rec.bond
    requires rec.bond == if a in s.solvers then s.solvers[a].bond else 0
    ensures BondTotal(s', u) == BondTotal(s, u) + (if u == t then amount - BondOf(s, a, rec, t) else 0)
  {
    if u == s.params.bondToken {
      TotalUpdate(s.solvers, a, s'.solvers[a], DefaultBond());
    } else if t != s.params.bondToken {
      if amount > 0 {
        TotalUpdate(s.bonds, (a, t), amount, BondIn(u));
      } else if (a, t) in s.bonds {
        TotalSplit(s.bonds, (a, t), BondIn(u));
      } else {
        assert s.bonds - {(a, t)} == s.bonds;
      }
    }
  }

  lemma BondTotalCovers(s: State, a: Address, t: Token)
    requires Ledger(s) && a in s.solvers
    ensures 0 <= BondOf(s, a, s.solvers[a], t) <= BondTotal(s, t)
  {
    assert BondsListed(s, a, s.solvers[a]);
    if t == s.params.bondToken {
      TotalCovers(s.solvers, a, DefaultBond());
    } else if (a, t) in s.bonds {
      TotalCovers(s.bonds, (a, t), BondIn(t));
    } else {
      TotalNonNegative(s.bonds, BondIn(t));
    }
  }

  lemma EscrowTotalMoves(s: State, id: IntentId, i: Intent, t: Token)
    ensures Total(s.intents[id := i], EscrowOf(t)) ==
              Total(s.intents, EscrowOf(t)) + EscrowOf(t)(id, i)
                - (if id in s.intents then EscrowOf(t)(id, s.intents[id]) else 0)
  {
    TotalUpdate(s.intents, id, i, EscrowOf(t));
  }

  lemma EscrowCovered(s: State, id: IntentId)
    requires Ledger(s) && id in s.intents
    ensures 0 <= s.intents[id].Escrow() <= Total(s.intents, EscrowOf(s.intents[id].dstToken))
  {
    TotalCovers(s.intents, id, EscrowOf(s.intents[id].dstToken));
  }

  /** The contract can pay one bond and one escrow out of what it holds. */
  lemma Covered(s: State, a: Address, t: Token, id: IntentId)
    requires Solvent(s) && a in s.solvers && id in s.intents
    ensures var dst, escrow := s.intents[id].dstToken, s.intents[id].Escrow();
            && 0 <= escrow <= s.bank.Held(dst)
            && 0 <= BondOf(s, a, s.solvers[a], t) <= s.bank.Held(t) - (if t == dst then escrow else 0)
  {
    var dst := s.intents[id].dstToken;
    BondTotalCovers(s, a, t);
    BondTotalCovers(s, a, dst);
    EscrowCovered(s, id);
    TotalNonNegative(s.intents, EscrowOf(t));
  }

  lemma CutWithinBond(bond: int, unfilled: int)
    requires bond >= 0
    ensures 0 <= SlashAmount(bond, unfilled) <= bond
    ensures bond > 0 ==> SlashAmount(bond, unfilled) >= 1
  {
  }

  // ----- Calls that move bonds -----

  /** One solver's record and bond in `t` are rewritten; nothing else about bonds changes. */
  lemma RecordRewritten(s: State, s': State, a: Address, rec: Solver, t: Token, amount: int)
    requires Ledger(s) && amount >= 0
    requires s'.params == s.params && s'.intents == s.intents
    requires rec.bond == if a in s.solvers then s.solvers[a].bond else 0
    requires rec.bondTokens == if a in s.solvers then s.solvers[a].bondTokens else []
    requires BondOf(s, a, rec, t) == 0 && amount > 0 ==> |rec.bondTokens| < MAX_BOND_TOKENS
    requires a in s'.solvers && s'.solvers == s.solvers[a := s'.solvers[a]]
    requires s'.solvers[a].bond == RecordWithBond(s, rec, t, amount).bond
    requires s'.solvers[a].bondTokens == RecordWithBond(s, rec, t, amount).bondTokens
    requires s'.bonds == BondsAfter(s, a, t, amount)
    ensures Ledger(s')
    ensures forall u :: BondTotal(s', u) == BondTotal(s, u) + (if u == t then amount - BondOf(s, a, rec, t) else 0)
  {
    if a in s.solvers {
      assert BondsListed(s, a, s.solvers[a]);
      forall u ensures BondOf(s, a, rec, u) == BondOf(s, a, s.solvers[a], u) {}
    } else {
      forall u ensures BondOf(s, a, rec, u) == 0 {}
    }
    assert BondsListed(s, a, rec);
    BondWritten(s, a, rec, t, amount);
    var s1, rec1 := s.(bonds := BondsAfter(s, a, t, amount)), RecordWithBond(s, rec, t, amount);
    forall u ensures BondOf(s', a, s'.solvers[a], u) == BondOf(s1, a, rec1, u) {}
    assert BondsListed(s', a, s'.solvers[a]);
    forall b | b in s.solvers && b != a ensures BondsListed(s', b, s'.solvers[b]) {
      OthersListed(s, s', a, t, amount, b);
    }
    forall u ensures BondTotal(s', u) == BondTotal(s, u) + (if u == t then amount - BondOf(s, a, rec, t) else 0) {
      BondTotalMoves(s, s', a, rec, t, amount, u);
    }
  }

  lemma Rebacked(s: State, s': State, t: Token, d: int)
    requires Backed(s)
    requires s'.intents == s.intents
    requires forall u :: BondTotal(s', u) == BondTotal(s, u) + (if u == t then d else 0)
    requires forall u :: s'.bank.Held(u) == s.bank.Held(u) + (if u == t then d else 0)
    ensures Backed(s')
  {
    forall u ensures s'.bank.Held(u) == Owed(s', u) { assert s.bank.Held(u) == Owed(s, u); }
  }

  lemma EnlistedBond(s: State, a: Address, t: Token)
    requires Ledger(s)
    ensures BondOf(s, a, Enlisted(s, a), t) >= 0
  {
    if a in s.solvers { assert BondsListed(s, a, s.solvers[a]); }
  }

  lemma {:induction false} WithoutAbsent(ts: seq<Token>, t: Token)
    requires t !in ts
    ensures Without(ts, t) == ts
  {
    if ts != [] {
      assert ts == ts[..|ts| - 1] + [ts[|ts| - 1]];
      WithoutAbsent(ts[..|ts| - 1], t);
    }
  }

  /** Recording the requested bond and then correcting it to what arrived leaves
      the same record as recording what arrived. */
  lemma Corrected(s: State, a: Address, rec: Solver, t: Token, asked: int, got: int)
    requires asked > 0 && got >= 0
    ensures Stored(s, a, rec, t, asked, got) == RecordWithBond(s, rec, t, got)
    ensures StoredEntries(s, a, t, asked, got) == BondsAfter(s, a, t, got)
  {
    if t !in rec.bondTokens {
      WithoutAbsent(rec.bondTokens, t);
      assert (rec.bondTokens + [t])[..|rec.bondTokens|] == rec.bondTokens;
    }
  }

  lemma PulledIn(bank: Bank, t: Token, a: Address, amount: int, received: nat, p: Purpose)
    requires bank.Pull(t, a, amount, received, p).Some?
    ensures forall u :: bank.Pull(t, a, amount, received, p).value.Held(u)
                          == bank.Held(u) + (if u == t then received else 0)
  {
  }

  /** A bond that grew by what the contract received leaves everything backed. */
  lemma Recorded(s: State, a: Address, t: Token, received: nat, bank: Bank)
    requires Solvent(s)
    requires BondOf(s, a, Enlisted(s, a), t) == 0 ==> |Enlisted(s, a).bondTokens| < MAX_BOND_TOKENS
    requires forall u :: bank.Held(u) == s.bank.Held(u) + (if u == t then received else 0)
    ensures var got := BondOf(s, a, Enlisted(s, a), t) + received;
            Solvent(Enrolled(s, a, RecordWithBond(s, Enlisted(s, a), t, got), BondsAfter(s, a, t, got), bank))
  {
    var rec := Enlisted(s, a);
    var got := BondOf(s, a, rec, t) + received;
    var s' := Enrolled(s, a, RecordWithBond(s, rec, t, got), BondsAfter(s, a, t, got), bank);
    EnlistedBond(s, a, t);
    RecordRewritten(s, s', a, rec, t, got);
    Rebacked(s, s', t, received);
  }

  /** What a registration leaves behind, with both writes of the bond folded into one. */
  lemma EnrollIs(s: State, a: Address, t: Token, amount: I128, received: Quantity, existing: int) returns (bank: Bank)
    requires amount > 0 && existing >= 0
    requires Enroll(s, a, t, amount, received, existing).Done?
    ensures Enroll(s, a, t, amount, received, existing).state
              == Enrolled(s, a, RecordWithBond(s, Enlisted(s, a), t, existing + received),
                          BondsAfter(s, a, t, existing + received), bank)
    ensures forall u :: bank.Held(u) == s.bank.Held(u) + (if u == t then received else 0)
  {
    Corrected(s, a, Enlisted(s, a), t, existing + amount, existing + received);
    PulledIn(s.bank, t, a, amount, received, Purpose.BondIn);
    bank := s.bank.Pull(t, a, amount, received, Purpose.BondIn).value;
  }

  lemma RegisterIs(s: State, a: Address, t: Token, amount: I128, received: Quantity) returns (bank: Bank)
    requires BondOf(s, a, Enlisted(s, a), t) >= 0 && Register(s, a, t, amount, received).Done?
    ensures BondOf(s, a, Enlisted(s, a), t) == 0 ==> |Enlisted(s, a).bondTokens| < MAX_BOND_TOKENS
    ensures var got := BondOf(s, a, Enlisted(s, a), t) + received;
            Register(s, a, t, amount, received).state
              == Enrolled(s, a, RecordWithBond(s, Enlisted(s, a), t, got), BondsAfter(s, a, t, got), bank)
    ensures forall u :: bank.Held(u) == s.bank.Held(u) + (if u == t then received else 0)
  {
    bank := EnrollIs(s, a, t, amount, received, BondOf(s, a, Enlisted(s, a), t));
  }

  lemma Registering(s: State, a: Address, t: Token, amount: I128, received: Quantity)
    requires Solvent(s) && Register(s, a, t, amount, received).Done?
    ensures Solvent(Register(s, a, t, amount, received).state)
  {
    EnlistedBond(s, a, t);
    var bank := RegisterIs(s, a, t, amount, received);
    Recorded(s, a, t, received, bank);
  }

  lemma Withdrawing(s: State, a: Address, t: Token, amount: I128)
    requires Solvent(s) && Withdraw(s, a, t, amount).Done?
    ensures Solvent(Withdraw(s, a, t, amount).state)
  {
    var s', rec := Withdraw(s, a, t, amount).state, s.solvers[a];
    var taken: int := amount;
    RecordRewritten(s, s', a, rec, t, BondOf(s, a, rec, t) - taken);
    Rebacked(s, s', t, -taken);
  }

  // ----- Deregistration -----

  ghost function RefundIn(t: Token): ((Token, int)) -> int {
    (r: (Token, int)) => if r.0 == t then r.1 else 0
  }

  lemma {:induction false} OtherRefundsFacts(s: State, a: Address, ts: seq<Token>, t: Token)
    requires NoRepeats(ts)
    ensures LogSum(OtherRefunds(s, a, ts), RefundIn(t)) ==
              if t in ts && t != s.params.bondToken && (a, t) in s.bonds then Max(s.bonds[(a, t)], 0) else 0
    ensures forall r <- OtherRefunds(s, a, ts) :: r.1 > 0 && r.0 != s.params.bondToken
    ensures (exists r <- OtherRefunds(s, a, ts) :: r.0 == t) <==>
              t in ts && t != s.params.bondToken && (a, t) in s.bonds && s.bonds[(a, t)] > 0
  {
    if ts != [] {
      var front, u := ts[..|ts| - 1], ts[|ts| - 1];
      OtherRefundsFacts(s, a, front, t);
      assert ts == front + [u];
      var amount := if (a, u) in s.bonds then s.bonds[(a, u)] else 0;
      var rest := OtherRefunds(s, a, front);
      if u != s.params.bondToken && amount > 0 {
        assert OtherRefunds(s, a, ts) == rest + [(u, amount)];
        LogSumPush(rest, (u, amount), RefundIn(t));
        if u == t { assert (u, amount) in OtherRefunds(s, a, ts); }
      } else {
        assert OtherRefunds(s, a, ts) == rest;
      }
    }
  }

  /** Every token's refund is the whole bond in it. */
  lemma RefundsAreBonds(s: State, a: Address, t: Token)
    requires Ledger(s) && a in s.solvers
    ensures LogSum(Refunds(s, a, s.solvers[a]), RefundIn(t)) == BondOf(s, a, s.solvers[a], t)
    ensures forall r <- Refunds(s, a, s.solvers[a]) :: r.1 > 0
    ensures t != s.params.bondToken ==>
              ((a, t) in RefundedKeys(a, Refunds(s, a, s.solvers[a]), s.params.bondToken) <==> (a, t) in s.bonds)
  {
    var rec := s.solvers[a];
    assert BondsListed(s, a, rec);
    var others := OtherRefunds(s, a, rec.bondTokens);
    OtherRefundsFacts(s, a, rec.bondTokens, t);
    assert t in rec.bondTokens <==> BondOf(s, a, rec, t) > 0;
    var first: seq<(Token, int)> := if rec.bond > 0 then [(s.params.bondToken, rec.bond)] else [];
    LogSumConcat(first, others, RefundIn(t));
    if rec.bond > 0 { LogSumPush([], (s.params.bondToken, rec.bond), RefundIn(t)); }
    assert [] + first == first;
    if t == s.params.bondToken { LogSumNone(others, RefundIn(t)); }
    assert forall r :: r in Refunds(s, a, rec) <==> r in first || r in others;
    if t != s.params.bondToken {
      assert (a, t) in RefundedKeys(a, Refunds(s, a, rec), s.params.bondToken) <==> exists r <- others :: r.0 == t;
    }
  }

  /** Paying refunds takes exactly their sum from each token, and fails only for want of it. */
  lemma {:induction false} Paying(bank: Bank, a: Address, refunds: seq<(Token, int)>)
    requires forall r <- refunds :: r.1 > 0
    requires forall t :: LogSum(refunds, RefundIn(t)) <= bank.Held(t)
    ensures PayRefunds(bank, a, refunds).Some?
    ensures forall t :: PayRefunds(bank, a, refunds).value.Held(t) == bank.Held(t) - LogSum(refunds, RefundIn(t))
    ensures forall t :: PayRefunds(bank, a, refunds).value.Balance(t, a)
                          == bank.Balance(t, a) + LogSum(refunds, RefundIn(t))
  {
    if refunds != [] {
      var front, last := refunds[..|refunds| - 1], refunds[|refunds| - 1];
      assert last in refunds;
      forall t ensures LogSum(front, RefundIn(t)) <= bank.Held(t) - RefundIn(t)(last) {
        assert LogSum(refunds, RefundIn(t)) == LogSum(front, RefundIn(t)) + RefundIn(t)(last);
      }
      forall t ensures LogSum(front, RefundIn(t)) <= bank.Held(t) {
        assert RefundIn(t)(last) >= 0;
      }
      Paying(bank, a, front);
    }
  }

  /** `deregister_solver` returns every bond in full and leaves no entry behind. */
  lemma RefundedInFull(s: State, a: Address)
    requires Solvent(s) && a in s.solvers && s.solvers[a].activeIntents == 0 && !s.rules.paused
    ensures var o := Deregister(s, a);
            && o.Done?
            && a !in o.state.solvers
            && (forall k <- o.state.bonds :: k.0 != a)
            && (forall k <- s.bonds :: k.0 != a ==> k in o.state.bonds && o.state.bonds[k] == s.bonds[k])
            && (forall t :: o.state.bank.Balance(t, a) == s.bank.Balance(t, a) + BondOf(s, a, s.solvers[a], t))
            && (forall t :: o.state.bank.Held(t) == s.bank.Held(t) - BondOf(s, a, s.solvers[a], t))
  {
    var refunds := Refunds(s, a, s.solvers[a]);
    forall t
      ensures LogSum(refunds, RefundIn(t)) == BondOf(s, a, s.solvers[a], t)
      ensures LogSum(refunds, RefundIn(t)) <= s.bank.Held(t)
    {
      RefundsAreBonds(s, a, t);
      BondTotalCovers(s, a, t);
      TotalNonNegative(s.intents, EscrowOf(t));
    }
    RefundsAreBonds(s, a, s.params.bondToken);
    Paying(s.bank, a, refunds);
    var o := Deregister(s, a);
    forall k | k in o.state.bonds ensures k.0 != a {
      if k.0 == a { RefundsAreBonds(s, a, k.1); }
    }
  }

  lemma {:induction false} BondsRemoved(m: map<(Address, Token), int>, a: Address, gone: set<Token>, t: Token)
    requires forall u <- gone :: (a, u) in m
    ensures Total(m - (set u <- gone :: (a, u)), BondIn(t)) == Total(m, BondIn(t)) - (if t in gone then m[(a, t)] else 0)
    decreases |gone|
  {
    if gone == {} {
      assert m - (set u <- gone :: (a, u)) == m;
    } else {
      var u :| u in gone;
      var rest := gone - {u};
      assert |rest| < |gone|;
      BondsRemoved(m - {(a, u)}, a, rest, t);
      assert m - (set v <- gone :: (a, v)) == m - {(a, u)} - (set v <- rest :: (a, v));
      TotalSplit(m, (a, u), BondIn(t));
    }
  }

  lemma Departed(s: State, s': State, a: Address)
    requires Ledger(s) && a in s.solvers
    requires s'.params == s.params && s'.solvers == s.solvers - {a}
    requires forall k :: k in s'.bonds <==> k in s.bonds && k.0 != a
    requires forall k <- s'.bonds :: s'.bonds[k] == s.bonds[k]
    ensures forall b <- s'.solvers :: BondsListed(s', b, s'.solvers[b])
    ensures forall t :: BondTotal(s', t) == BondTotal(s, t) - BondOf(s, a, s.solvers[a], t)
  {
    forall b | b in s'.solvers ensures BondsListed(s', b, s'.solvers[b]) {
      assert BondsListed(s, b, s.solvers[b]);
      forall t ensures BondOf(s', b, s'.solvers[b], t) == BondOf(s, b, s.solvers[b], t) {}
    }
    var gone := set k <- s.bonds | k.0 == a :: k.1;
    assert s'.bonds == s.bonds - (set u <- gone :: (a, u));
    forall t ensures BondTotal(s', t) == BondTotal(s, t) - BondOf(s, a, s.solvers[a], t) {
      if t == s.params.bondToken {
        TotalSplit(s.solvers, a, DefaultBond());
      } else {
        BondsRemoved(s.bonds, a, gone, t);
        assert t in gone <==> (a, t) in s.bonds;
      }
    }
  }

  lemma Deregistering(s: State, a: Address)
    requires Solvent(s) && Deregister(s, a).Done?
    ensures Solvent(Deregister(s, a).state)
  {
    RefundedInFull(s, a);
    var s' := Deregister(s, a).state;
    Departed(s, s', a);
    forall t ensures s'.bank.Held(t) == Owed(s', t) { assert s.bank.Held(t) == Owed(s, t); }
  }

  // ----- Calls that move an intent -----

  /** One intent changes and the contract's holding of its output token moves with its escrow. */
  lemma IntentMoved(s: State, s': State, id: IntentId, i: Intent)
    requires Solvent(s)
    requires s'.params == s.params && s'.intents == s.intents[id := i]
    requires id in s.intents ==> i.dstToken == s.intents[id].dstToken
    requires i.Escrowed() ==> i.fillAmount.Some? && i.fillAmount.value >= 0
    requires s'.bonds == s.bonds && s'.solvers.Keys == s.solvers.Keys
    requires forall a <- s.solvers ::
               s'.solvers[a].bond == s.solvers[a].bond && s'.solvers[a].bondTokens == s.solvers[a].bondTokens
    requires forall t :: s'.bank.Held(t) == s.bank.Held(t) +
               (if t == i.dstToken then i.Escrow() - (if id in s.intents then s.intents[id].Escrow() else 0) else 0)
    ensures Solvent(s')
  {
    TotalAgree(s.solvers, s'.solvers, DefaultBond());
    forall t ensures s'.bank.Held(t) == Owed(s', t) {
      assert s.bank.Held(t) == Owed(s, t);
      EscrowTotalMoves(s, id, i, t);
    }
    forall a | a in s'.solvers ensures BondsListed(s', a, s'.solvers[a]) {
      assert BondsListed(s, a, s.solvers[a]);
      forall t ensures BondOf(s', a, s'.solvers[a], t) == BondOf(s, a, s.solvers[a], t) {}
    }
  }

  /** A slash of `cut` from the bond in `t`, before the intent itself is rewritten. */
  ghost function SlashedOnly(s: State, s': State, t: Token, cut: int): State {
    s.(solvers := s'.solvers, bonds := s'.bonds, bank := s.bank.(held := s.bank.held[t := s.bank.Held(t) - cut]))
  }

  lemma SlashKeepsSolvent(s: State, s': State, a: Address, t: Token, cut: int, now: U64)
    requires Solvent(s) && a in s.solvers && cut <= BondOf(s, a, s.solvers[a], t)
    requires var left := BondOf(s, a, s.solvers[a], t) - cut;
             && s'.solvers == s.solvers[a := RecordAfterSlash(s, s.solvers[a], t, left, now)]
             && s'.bonds == BondsAfter(s, a, t, left)
    requires s'.params == s.params && cut >= 0
    ensures Solvent(SlashedOnly(s, s', t, cut))
  {
    var s1, left := SlashedOnly(s, s', t, cut), BondOf(s, a, s.solvers[a], t) - cut;
    RecordRewritten(s, s1, a, s.solvers[a], t, left);
    Rebacked(s, s1, t, -cut);
  }

  lemma Submitting(s: State, now: U64, u: Address, src: I128, dst: Token, min: I128, expiry: Option<U64>,
                   ref: Option<Address>, ext: bool, id: IntentId)
    requires Solvent(s) && Submit(s, now, u, src, dst, min, expiry, ref, ext, id).Done?
    ensures Solvent(Submit(s, now, u, src, dst, min, expiry, ref, ext, id).state)
  {
    var s' := Submit(s, now, u, src, dst, min, expiry, ref, ext, id).state;
    IntentMoved(s, s', id, s'.intents[id]);
  }

  lemma Accepting(s: State, now: U64, a: Address, id: IntentId, t: Token, tier: nat, w: Quantity)
    requires Solvent(s) && Accept(s, now, a, id, t, tier, w).Done?
    ensures Solvent(Accept(s, now, a, id, t, tier, w).state)
  {
    var s' := Accept(s, now, a, id, t, tier, w).state;
    IntentMoved(s, s', id, s'.intents[id]);
  }

  lemma Delivering(s: State, now: U64, a: Address, id: IntentId, amount: I128, proof: bool, w: Quantity)
    requires Solvent(s) && Fill(s, now, a, id, amount, proof, w).Done?
    ensures Solvent(Fill(s, now, a, id, amount, proof, w).state)
  {
    var s' := Fill(s, now, a, id, amount, proof, w).state;
    IntentMoved(s, s', id, s'.intents[id]);
  }

  lemma Cancelling(s: State, now: U64, u: Address, id: IntentId)
    requires Solvent(s) && Cancel(s, now, u, id).Done?
    ensures Solvent(Cancel(s, now, u, id).state)
  {
    var s' := Cancel(s, now, u, id).state;
    IntentMoved(s, s', id, s'.intents[id]);
  }

  lemma Amending(s: State, now: U64, u: Address, id: IntentId, min: I128, deadline: U64)
    requires Solvent(s) && Amend(s, now, u, id, min, deadline).Done?
    ensures Solvent(Amend(s, now, u, id, min, deadline).state)
  {
    var s' := Amend(s, now, u, id, min, deadline).state;
    IntentMoved(s, s', id, s'.intents[id]);
  }

  lemma Expiring(s: State, now: U64, id: IntentId)
    requires Solvent(s) && Expire(s, now, id).Done?
    ensures Solvent(Expire(s, now, id).state)
  {
    var s' := Expire(s, now, id).state;
    IntentMoved(s, s', id, s'.intents[id]);
  }

  /** What a successful slash does to the bonds and the holdings. */
  lemma SlashShape(s: State, now: U64, id: IntentId, w: Quantity) returns (a: Address, t: Token, cut: int)
    requires Slash(s, now, id, w).Done?
    requires forall b <- s.solvers, u :: BondOf(s, b, s.solvers[b], u) >= 0
    ensures a in s.solvers && 0 <= cut <= BondOf(s, a, s.solvers[a], t)
    ensures var s', i := Slash(s, now, id, w).state, s.intents[id];
            var left := BondOf(s, a, s.solvers[a], t) - cut;
            && i.phase == Accepted
            && s'.params == s.params
            && s'.solvers == s.solvers[a := RecordAfterSlash(s, s.solvers[a], t, left, now)]
            && s'.bonds == BondsAfter(s, a, t, left)
            && (forall u :: s'.bank.Held(u) == s.bank.Held(u) - (if u == t then cut else 0))
            && id in s'.intents && s'.intents == s.intents[id := s'.intents[id]]
            && s'.intents[id].phase == Open && s'.intents[id].dstToken == i.dstToken
  {
    var i := s.intents[id];
    a, t := i.solver.value, i.bondToken;
    CutWithinBond(BondOf(s, a, s.solvers[a], t), i.minDst - i.totalFilled);
    cut := SlashAmount(BondOf(s, a, s.solvers[a], t), i.minDst - i.totalFilled);
  }

  lemma BondsNonNegative(s: State)
    requires Ledger(s)
    ensures forall b <- s.solvers, u :: BondOf(s, b, s.solvers[b], u) >= 0
  {
    forall b, u | b in s.solvers ensures BondOf(s, b, s.solvers[b], u) >= 0 { assert BondsListed(s, b, s.solvers[b]); }
  }

  lemma Slashing(s: State, now: U64, id: IntentId, w: Quantity)
    requires Solvent(s) && Slash(s, now, id, w).Done?
    ensures Solvent(Slash(s, now, id, w).state)
  {
    BondsNonNegative(s);
    var a, t, cut := SlashShape(s, now, id, w);
    SlashAndIntent(s, Slash(s, now, id, w).state, a, t, cut, now, id);
  }

  /** A slash together with the rewriting of its intent. */
  lemma SlashAndIntent(s: State, s': State, a: Address, t: Token, cut: int, now: U64, id: IntentId)
    requires Solvent(s) && a in s.solvers && 0 <= cut <= BondOf(s, a, s.solvers[a], t)
    requires var left := BondOf(s, a, s.solvers[a], t) - cut;
             && s'.solvers == s.solvers[a := RecordAfterSlash(s, s.solvers[a], t, left, now)]
             && s'.bonds == BondsAfter(s, a, t, left)
    requires s'.params == s.params && id in s.intents && id in s'.intents
    requires s'.intents == s.intents[id := s'.intents[id]] && !s'.intents[id].Escrowed()
    requires s'.intents[id].dstToken == s.intents[id].dstToken
    requires forall u :: s'.bank.Held(u) == s.bank.Held(u) - (if u == t then cut else 0)
                           - (if u == s.intents[id].dstToken then s.intents[id].Escrow() else 0)
    ensures Solvent(s')
  {
    var s1 := SlashedOnly(s, s', t, cut);
    SlashKeepsSolvent(s, s', a, t, cut, now);
    forall u ensures s1.bank.Held(u) == s.bank.Held(u) - (if u == t then cut else 0) {}
    IntentMoved(s1, s', id, s'.intents[id]);
  }

  lemma Awarding(s: State, now: U64, id: IntentId, a: Address)
    requires Solvent(s) && id in s.intents && s.intents[id].phase == Bidding && a in s.solvers
    ensures Solvent(AwardBid(s, now, id, a))
  {
    var s' := AwardBid(s, now, id, a);
    IntentMoved(s, s', id, s'.intents[id]);
  }

  lemma Reopening(s: State, now: U64, id: IntentId)
    requires Solvent(s) && id in s.intents && s.intents[id].phase == Bidding
    ensures Solvent(ReopenAfterBids(s, now, id))
  {
    var s' := ReopenAfterBids(s, now, id);
    IntentMoved(s, s', id, s'.intents[id]);
  }

  lemma SettlingBids(s: State, now: U64, id: IntentId)
    requires Solvent(s) && SettleBids(s, now, id).Done?
    ensures Solvent(SettleBids(s, now, id).state)
  {
    if id in s.bids && Eligible(s, now, s.bids[id].solver) {
      Awarding(s, now, id, s.bids[id].solver);
    } else {
      Reopening(s, now, id);
    }
  }

  lemma Escrowing(s: State, now: U64, a: Address, id: IntentId, amount: I128, received: Quantity)
    requires Solvent(s) && BeginFill(s, now, a, id, amount, received).Done?
    ensures Solvent(BeginFill(s, now, a, id, amount, received).state)
  {
    var s' := BeginFill(s, now, a, id, amount, received).state;
    IntentMoved(s, s', id, s'.intents[id]);
  }

  lemma Disputing(s: State, now: U64, u: Address, id: IntentId)
    requires Solvent(s) && Dispute(s, now, u, id).Done?
    ensures Solvent(Dispute(s, now, u, id).state)
  {
    var s' := Dispute(s, now, u, id).state;
    IntentMoved(s, s', id, s'.intents[id]);
  }

  /** An escrow is paid out in full: what is not the fee reaches the user. */
  lemma EscrowPaid(bank: Bank, i: Intent, id: IntentId, escrow: int, fee: int, r: Address)
    requires 0 <= fee <= escrow <= bank.Held(i.dstToken)
    ensures PayEscrow(bank, i, id, escrow, fee, r).Some?
    ensures forall t :: PayEscrow(bank, i, id, escrow, fee, r).value.Held(t)
                          == bank.Held(t) - (if t == i.dstToken then escrow else 0)
  {
  }

  lemma FeeWithinEscrow(escrow: int)
    requires escrow >= 0
    ensures 0 <= TruncDiv(escrow * PROTOCOL_FEE_BPS, BPS) <= escrow
  {
  }

  lemma Releasing(s: State, now: U64, id: IntentId)
    requires Solvent(s) && Release(s, now, id).Done?
    ensures Solvent(Release(s, now, id).state)
  {
    var s', i := Release(s, now, id).state, s.intents[id];
    Covered(s, i.solver.value, i.dstToken, id);
    FeeWithinEscrow(i.Escrow());
    EscrowPaid(s.bank, i, id, i.Escrow(), ReleaseFee(i, now).value, s.rules.feeRecipient);
    IntentMoved(s, s', id, s'.intents[id]);
  }

  lemma Dismissing(s: State, now: U64, id: IntentId, a: Address)
    requires Solvent(s) && id in s.intents && s.intents[id].phase == Disputed && a in s.solvers
    requires Dismiss(s, now, id, a).Done?
    ensures Solvent(Dismiss(s, now, id, a).state)
  {
    var s', i := Dismiss(s, now, id, a).state, s.intents[id];
    Covered(s, a, i.dstToken, id);
    FeeWithinEscrow(i.Escrow());
    EscrowPaid(s.bank, i, id, i.Escrow(), TruncDiv(i.Escrow() * PROTOCOL_FEE_BPS, BPS), s.rules.feeRecipient);
    IntentMoved(s, s', id, s'.intents[id]);
  }

  /** What an upheld ruling does to the bonds and the holdings. */
  lemma UpholdShape(s: State, now: U64, id: IntentId, a: Address) returns (t: Token, cut: int)
    requires id in s.intents && s.intents[id].phase == Disputed && a in s.solvers
    requires Uphold(s, now, id, a).Done?
    requires forall b <- s.solvers, u :: BondOf(s, b, s.solvers[b], u) >= 0
    ensures 0 <= cut <= BondOf(s, a, s.solvers[a], t)
    ensures var s', i := Uphold(s, now, id, a).state, s.intents[id];
            var left := BondOf(s, a, s.solvers[a], t) - cut;
            && s'.params == s.params
            && s'.solvers == s.solvers[a := RecordAfterSlash(s, s.solvers[a], t, left, now)]
            && s'.bonds == BondsAfter(s, a, t, left)
            && id in s'.intents && s'.intents == s.intents[id := s'.intents[id]]
            && s'.intents[id].phase == Resolved && s'.intents[id].dstToken == i.dstToken
            && (forall u :: s'.bank.Held(u) == s.bank.Held(u) - (if u == t then cut else 0)
                                                 - (if u == i.dstToken then i.Escrow() else 0))
  {
    var i := s.intents[id];
    t := i.bondToken;
    CutWithinBond(BondOf(s, a, s.solvers[a], t), i.minDst - i.totalFilled);
    cut := SlashAmount(BondOf(s, a, s.solvers[a], t), i.minDst - i.totalFilled);
  }

  lemma Upholding(s: State, now: U64, id: IntentId, a: Address)
    requires Solvent(s) && id in s.intents && s.intents[id].phase == Disputed && a in s.solvers
    requires Uphold(s, now, id, a).Done?
    ensures Solvent(Uphold(s, now, id, a).state)
  {
    BondsNonNegative(s);
    var t, cut := UpholdShape(s, now, id, a);
    SlashAndIntent(s, Uphold(s, now, id, a).state, a, t, cut, now, id);
  }

  lemma Resolving(s: State, now: U64, caller: Address, id: IntentId, ruling: Ruling)
    requires Solvent(s) && Resolve(s, now, caller, id, ruling).Done?
    ensures Solvent(Resolve(s, now, caller, id, ruling).state)
  {
    if ruling == Upheld {
      Upholding(s, now, id, s.intents[id].solver.value);
    } else {
      Dismissing(s, now, id, s.intents[id].solver.value);
    }
  }

  lemma Extending(s: State, a: Address, id: IntentId)
    requires Solvent(s) && Extend(s, a, id).Done?
    ensures Solvent(Extend(s, a, id).state)
  {
    var s' := Extend(s, a, id).state;
    IntentMoved(s, s', id, s'.intents[id]);
  }

  lemma Closing(s: State, now: U64, id: IntentId)
    requires Solvent(s) && Close(s, now, id).Done?
    ensures Solvent(Close(s, now, id).state)
  {
    var s' := Close(s, now, id).state;
    forall t ensures s'.bank.Held(t) == Owed(s', t) {
      assert s.bank.Held(t) == Owed(s, t);
      TotalSplit(s.intents, id, EscrowOf(t));
    }
    SameBonds(s, s');
  }

  /** Nothing about bonds, intents or holdings changes. */
  lemma SameBonds(s: State, s': State)
    requires Ledger(s)
    requires s'.params == s.params && s'.solvers == s.solvers && s'.bonds == s.bonds
    ensures forall a <- s'.solvers :: BondsListed(s', a, s'.solvers[a])
    ensures forall t :: BondTotal(s', t) == BondTotal(s, t)
  {
    forall a | a in s'.solvers ensures BondsListed(s', a, s'.solvers[a]) {
      assert BondsListed(s, a, s.solvers[a]);
      forall t ensures BondOf(s', a, s'.solvers[a], t) == BondOf(s, a, s.solvers[a], t) {}
    }
  }

  lemma Elsewhere(s: State, s': State)
    requires Solvent(s)
    requires s'.params == s.params && s'.solvers == s.solvers && s'.bonds == s.bonds
    requires s'.intents == s.intents && s'.bank.held == s.bank.held
    ensures Solvent(s')
  {
    SameBonds(s, s');
    forall t ensures s'.bank.Held(t) == Owed(s', t) { assert s.bank.Held(t) == Owed(s, t); }
  }

  lemma BiddingQuietly(s: State, now: U64, a: Address, id: IntentId, q: I128)
    requires Solvent(s) && PlaceBid(s, now, a, id, q).Done?
    ensures Solvent(PlaceBid(s, now, a, id, q).state)
  {
    Elsewhere(s, PlaceBid(s, now, a, id, q).state);
  }

  lemma Administering(s: State, change: Change)
    requires Solvent(s) && Administer(s, change).Done?
    ensures Solvent(Administer(s, change).state)
  {
    Elsewhere(s, Administer(s, change).state);
  }

  /** Every call keeps each token's holding equal to the bonds and escrows in it. */
  lemma SolventStep(s: State, c: Call)
    requires Solvent(s)
    ensures Solvent(After(s, c))
  {
    var now, o := c.now, Perform(s, c.now, c.action);
    if o.Done? {
      match c.action
      case DoRegister(a, t, amount, received) => Registering(s, a, t, amount, received);
      case DoWithdraw(a, t, amount) => Withdrawing(s, a, t, amount);
      case DoDeregister(a) => Deregistering(s, a);
      case DoSubmit(u, src, dst, min, expiry, ref, ext, id) => Submitting(s, now, u, src, dst, min, expiry, ref, ext, id);
      case DoAccept(a, id, t, tier, w) => Accepting(s, now, a, id, t, tier, w);
      case DoFill(a, id, amount, proof, w) => Delivering(s, now, a, id, amount, proof, w);
      case DoCancel(u, id) => Cancelling(s, now, u, id);
      case DoAmend(u, id, min, deadline) => Amending(s, now, u, id, min, deadline);
      case DoExpire(id) => Expiring(s, now, id);
      case DoSlash(id, w) => Slashing(s, now, id, w);
      case DoBid(a, id, q) => BiddingQuietly(s, now, a, id, q);
      case DoSettleBids(id) => SettlingBids(s, now, id);
      case DoBeginFill(a, id, amount, received) => Escrowing(s, now, a, id, amount, received);
      case DoDispute(u, id) => Disputing(s, now, u, id);
      case DoResolve(caller, id, ruling) => Resolving(s, now, caller, id, ruling);
      case DoRelease(id) => Releasing(s, now, id);
      case DoExtend(a, id) => Extending(s, a, id);
      case DoClose(id) => Closing(s, now, id);
      case DoAdminister(change) => Administering(s, change);
      case Mint(t, a, n) => Elsewhere(s, o.state);
    }
  }

  lemma {:induction false} AlwaysSolvent(s: State, calls: seq<Call>)
    requires Solvent(s)
    ensures Solvent(Run(s, calls))
  {
    if calls != [] {
      AlwaysSolvent(s, calls[..|calls| - 1]);
      SolventStep(Run(s, calls[..|calls| - 1]), calls[|calls| - 1]);
    }
  }

  // ----- No payout fails -----

  lemma ReleaseFunded(s: State, now: U64, id: IntentId)
    requires Solvent(s)
    ensures Release(s, now, id) != Reverted(ContractShort)
  {
    if id in s.intents && s.intents[id].solver.Some? && s.intents[id].solver.value in s.solvers {
      var i := s.intents[id];
      if ReleaseFee(i, now).Ok? {
        Covered(s, i.solver.value, i.dstToken, id);
        FeeWithinEscrow(i.Escrow());
        EscrowPaid(s.bank, i, id, i.Escrow(), ReleaseFee(i, now).value, s.rules.feeRecipient);
      }
    }
  }

  lemma SlashFunded(s: State, now: U64, id: IntentId, w: Quantity)
    requires Solvent(s)
    ensures Slash(s, now, id, w) != Reverted(ContractShort)
  {
    if id in s.intents && s.intents[id].solver.Some? && s.intents[id].solver.value in s.solvers {
      var i := s.intents[id];
      var bond := BondOf(s, i.solver.value, s.solvers[i.solver.value], i.bondToken);
      Covered(s, i.solver.value, i.bondToken, id);
      CutWithinBond(bond, i.minDst - i.totalFilled);
    }
  }

  lemma UpholdFunded(s: State, now: U64, id: IntentId, a: Address)
    requires Solvent(s) && id in s.intents && s.intents[id].phase == Disputed && a in s.solvers
    ensures Uphold(s, now, id, a) != Reverted(ContractShort)
    ensures UpholdFits(s.intents[id], s.solvers[a]) ==> Uphold(s, now, id, a).Done?
  {
    var i := s.intents[id];
    Covered(s, a, i.bondToken, id);
    CutWithinBond(BondOf(s, a, s.solvers[a], i.bondToken), i.minDst - i.totalFilled);
    EscrowPaid(s.bank, i, id, i.Escrow(), 0, s.rules.feeRecipient);
  }

  lemma DismissFunded(s: State, now: U64, id: IntentId, a: Address)
    requires Solvent(s) && id in s.intents && s.intents[id].phase == Disputed && a in s.solvers
    ensures Dismiss(s, now, id, a) != Reverted(ContractShort)
  {
    var i := s.intents[id];
    Covered(s, a, i.bondToken, id);
    FeeWithinEscrow(i.Escrow());
    EscrowPaid(s.bank, i, id, i.Escrow(), TruncDiv(i.Escrow() * PROTOCOL_FEE_BPS, BPS), s.rules.feeRecipient);
  }

  lemma ResolveFunded(s: State, now: U64, caller: Address, id: IntentId, ruling: Ruling)
    requires Solvent(s)
    ensures Resolve(s, now, caller, id, ruling) != Reverted(ContractShort)
  {
    if id in s.intents && s.intents[id].phase == Disputed && s.intents[id].solver.Some?
       && s.intents[id].solver.value in s.solvers {
      UpholdFunded(s, now, id, s.intents[id].solver.value);
      DismissFunded(s, now, id, s.intents[id].solver.value);
    }
  }

  lemma BondExitFunded(s: State, a: Address, t: Token, amount: I128)
    requires Solvent(s)
    ensures Withdraw(s, a, t, amount) != Reverted(ContractShort)
    ensures Deregister(s, a) != Reverted(ContractShort)
  {
    if a in s.solvers {
      BondTotalCovers(s, a, t);
      TotalNonNegative(s.intents, EscrowOf(t));
      if s.solvers[a].activeIntents == 0 && !s.rules.paused { RefundedInFull(s, a); }
    }
  }

  /** In every reachable state, no call reverts because the contract lacks tokens. */
  lemma NeverShort(s: State, c: Call)
    requires Solvent(s)
    ensures Perform(s, c.now, c.action) != Reverted(ContractShort)
  {
    match c.action
    case DoWithdraw(a, t, amount) => BondExitFunded(s, a, t, amount);
    case DoDeregister(a) => BondExitFunded(s, a, 0, 0);
    case DoSlash(id, w) => SlashFunded(s, c.now, id, w);
    case DoResolve(caller, id, ruling) => ResolveFunded(s, c.now, caller, id, ruling);
    case DoRelease(id) => ReleaseFunded(s, c.now, id);
    case _ =>
  }
}
