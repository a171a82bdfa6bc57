/**
  The intent_settlement contract as an object: storage entries are fields, an
  entrypoint is a method that checks its guards in turn, updates the records it
  loaded and writes them back. Each method is proved to do exactly what the
  function of the same entrypoint in SettlementModel says.
 */
module SettlementContract {
  import opened Wrappers
  import opened SettlementMath
  import opened SettlementModel

  /** The intent entries of storage. */
  datatype Book = Book(
    intents: map<IntentId, Intent>, tombstones: set<IntentId>, extensions: map<IntentId, nat>,
    bids: map<IntentId, Bid>, history: map<Address, seq<Option<IntentId>>>)

  /** The solver entries. */
  datatype Crew = Crew(solvers: map<Address, Solver>, bonds: map<(Address, Token), int>, exposure: map<Address, int>)

  datatype Stats = Stats(openIntents: nat, totalIntents: nat, totalVolume: int)

  /** What only the model remembers. */
  datatype Notes = Notes(
    acceptances: map<IntentId, Acceptance>, issued: map<Address, seq<IntentId>>, short: set<IntentId>)

  class Settlement {
    const params: Params
    var rules: Rules
    var stamps: Stamps
    var book: Book
    var crew: Crew
    var stats: Stats
    var bank: Bank            // the token contracts' side: balances and transfers
    var events: seq<Event>    // published so far
    ghost var notes: Notes

    ghost function View(): State
      reads this
    {
      State(params, rules, book.intents, book.tombstones, book.extensions, book.bids, book.history,
            crew.solvers, crew.bonds, crew.exposure, stamps,
            stats.openIntents, stats.totalIntents, stats.totalVolume, bank,
            notes.acceptances, notes.issued, notes.short)
    }

    /** The call ended as `o` says: its state and events on success, nothing changed on an error. */
    ghost predicate Ended(o: Outcome, before: State, published: seq<Event>, err: Option<Error>)
      reads this
    {
      match o
      case Done(s, more) => err == None && View() == s && events == published + more
      case Reverted(e) => err == Some(e) && View() == before && events == published
    }

    constructor (p: Params, recipient: Address, admin: Address, funds: map<(Token, Address), int>)
      ensures View() == Fresh(p, recipient, admin, funds) && events == []
    {
      params := p;
      rules := Rules(Config(MIN_BOND, 300, INTENT_EXPIRY, PROTOCOL_FEE_BPS, 10, 10), false, recipient, admin,
                     2_592_000, {}, map[], map[]);
      stamps := Stamps(map[], map[], map[]);
      book := Book(map[], {}, map[], map[], map[]);
      crew := Crew(map[], map[], map[]);
      stats := Stats(0, 0, 0);
      bank, events := Bank(map[], funds, []), [];
      notes := Notes(map[], map[], {});
    }

    // ----- Solver bonds -----

    method BondAmount(a: Address, rec: Solver, t: Token) returns (amount: int)
      ensures amount == BondOf(View(), a, rec, t)
    {
      if t == params.bondToken {
        amount := rec.bond;
      } else {
        amount := if (a, t) in crew.bonds then crew.bonds[(a, t)] else 0;
      }
    }

    method MinimumBond(t: Token) returns (amount: int)
      ensures amount == MinBondFor(View(), t)
    {
      if t == params.bondToken {
        amount := rules.config.minBond;
      } else {
        amount := if t in rules.minBonds then rules.minBonds[t] else MIN_BOND;
      }
    }

    /** `set_solver_bond_amount`: writes the entry and keeps the token list in step. */
    method SetBondAmount(a: Address, rec: Solver, t: Token, amount: int) returns (rec': Solver)
      modifies this`crew
      ensures rec' == RecordWithBond(old(View()), rec, t, amount)
      ensures crew == old(crew).(bonds := BondsAfter(old(View()), a, t, amount))
    {
      rec' := rec;
      if t == params.bondToken {
        rec' := rec'.(bond := amount);
      } else if amount > 0 {
        crew := crew.(bonds := crew.bonds[(a, t) := amount]);
      } else {
        crew := crew.(bonds := crew.bonds - {(a, t)});
      }
      var present, i := false, 0;
      while i < |rec.bondTokens| && !present
        invariant 0 <= i <= |rec.bondTokens|
        invariant present ==> t in rec.bondTokens
        invariant !present ==> t !in rec.bondTokens[..i]
      {
        assert rec.bondTokens[..i + 1] == rec.bondTokens[..i] + [rec.bondTokens[i]];
        present := rec.bondTokens[i] == t;
        i := i + 1;
      }
      assert rec.bondTokens[..|rec.bondTokens|] == rec.bondTokens;
      if amount > 0 && !present {
        rec' := rec'.(bondTokens := rec.bondTokens + [t]);
      } else if amount == 0 && present {
        var rebuilt: seq<Token> := [];
        for k := 0 to |rec.bondTokens|
          invariant rebuilt == Without(rec.bondTokens[..k], t)
        {
          assert rec.bondTokens[..k + 1][..k] == rec.bondTokens[..k];
          if rec.bondTokens[k] != t { rebuilt := rebuilt + [rec.bondTokens[k]]; }
        }
        rec' := rec'.(bondTokens := rebuilt);
      }
    }

    /** Recorded at the requested amount first, corrected once the delta is known. */
    method StoreBond(a: Address, rec: Solver, t: Token, asked: int, got: int) returns (rec': Solver)
      modifies this`crew
      ensures rec' == Stored(old(View()), a, rec, t, asked, got)
      ensures crew == old(crew).(bonds := StoredEntries(old(View()), a, t, asked, got))
    {
      rec' := SetBondAmount(a, rec, t, asked);
      if got != asked { rec' := SetBondAmount(a, rec', t, got); }
    }

    method RegisterSolver(a: Address, t: Token, amount: I128, received: Quantity) returns (err: Option<Error>)
      modifies this
      ensures Ended(Register(old(View()), a, t, amount, received), old(View()), old(events), err)
    {
      if rules.paused { return Some(ContractPaused); }
      if amount <= 0 { return Some(ZeroAmount); }
      if t != params.bondToken && t !in rules.allowedBonds { return Some(BondTokenNotAllowed); }
      var rec := if a in crew.solvers then crew.solvers[a].(active := true) else NEW_SOLVER;
      var existing := BondAmount(a, rec, t);
      var minimum := MinimumBond(t);
      if !FitsI128(existing + amount) { return Some(Overflow); }
      if existing + amount < minimum { return Some(SolverBondTooLow); }
      if existing == 0 && |rec.bondTokens| >= MAX_BOND_TOKENS { return Some(TooManyBondTokens); }
      err := EnrollSolver(a, rec, t, amount, received, existing);
    }

    method EnrollSolver(a: Address, rec: Solver, t: Token, amount: int, received: nat, existing: int)
      returns (err: Option<Error>)
      requires rec == Enlisted(View(), a)
      modifies this
      ensures Ended(Enroll(old(View()), a, t, amount, received, existing), old(View()), old(events), err)
    {
      var pulled := bank.Pull(t, a, amount, received, BondIn);
      if pulled.None? { return Some(WalletShort); }
      if !FitsI128(existing + received) { return Some(Overflow); }
      var stored := StoreBond(a, rec, t, existing + amount, existing + received);
      crew, bank, events :=
        crew.(solvers := crew.solvers[a := stored]), pulled.value, events + [SolverRegistered(a, t, amount)];
      return None;
    }

    method WithdrawBond(a: Address, t: Token, amount: I128) returns (err: Option<Error>)
      modifies this
      ensures Ended(Withdraw(old(View()), a, t, amount), old(View()), old(events), err)
    {
      if rules.paused { return Some(ContractPaused); }
      if amount <= 0 { return Some(ZeroAmount); }
      if a !in crew.solvers { return Some(SolverNotRegistered); }
      var rec := crew.solvers[a];
      if rec.activeIntents > 0 { return Some(SolverHasActiveIntents); }
      var current := BondAmount(a, rec, t);
      if amount > current { return Some(InsufficientBond); }
      var minimum := MinimumBond(t);
      if current - amount < minimum { return Some(SolverBondTooLow); }
      var sent := bank.Send(t, a, amount, BondOut);
      if sent.None? { return Some(ContractShort); }
      rec := SetBondAmount(a, rec, t, current - amount);
      crew := crew.(solvers := crew.solvers[a := rec]);
      bank := sent.value;
      events := events + [BondWithdrawn(a, amount, current - amount)];
      return None;
    }

    method CollectRefunds(a: Address, rec: Solver) returns (refunds: seq<(Token, int)>)
      ensures refunds == Refunds(View(), a, rec)
    {
      var others: seq<(Token, int)> := [];
      for i := 0 to |rec.bondTokens|
        invariant others == OtherRefunds(View(), a, rec.bondTokens[..i])
      {
        assert rec.bondTokens[..i + 1][..i] == rec.bondTokens[..i];
        var t := rec.bondTokens[i];
        if t != params.bondToken {
          var amount := if (a, t) in crew.bonds then crew.bonds[(a, t)] else 0;
          if amount > 0 { others := others + [(t, amount)]; }
        }
      }
      assert rec.bondTokens[..|rec.bondTokens|] == rec.bondTokens;
      refunds := (if rec.bond > 0 then [(params.bondToken, rec.bond)] else []) + others;
    }

    method PayAll(a: Address, refunds: seq<(Token, int)>) returns (paid: Option<Bank>, cleared: set<(Address, Token)>)
      ensures paid == PayRefunds(bank, a, refunds)
      ensures paid.Some? ==> cleared == RefundedKeys(a, refunds, params.bondToken)
    {
      paid, cleared := Some(bank), {};
      for i := 0 to |refunds|
        invariant paid.Some? && PayRefunds(bank, a, refunds[..i]) == paid
        invariant cleared == RefundedKeys(a, refunds[..i], params.bondToken)
      {
        assert refunds[..i + 1][..i] == refunds[..i];
        assert refunds[..i + 1] == refunds[..i] + [refunds[i]];
        var (t, amount) := refunds[i];
        if t != params.bondToken { cleared := cleared + {(a, t)}; }
        paid := paid.value.Send(t, a, amount, BondOut);
        if paid.None? {
          PayingStops(bank, a, refunds, i + 1);
          return;
        }
      }
      assert refunds[..|refunds|] == refunds;
    }

    method DeregisterSolver(a: Address) returns (err: Option<Error>)
      modifies this
      ensures Ended(Deregister(old(View()), a), old(View()), old(events), err)
    {
      if rules.paused { return Some(ContractPaused); }
      if a !in crew.solvers { return Some(SolverNotRegistered); }
      var rec := crew.solvers[a];
      if rec.activeIntents > 0 { return Some(SolverHasActiveIntents); }
      var refunds := CollectRefunds(a, rec);
      var paid, cleared := PayAll(a, refunds);
      if paid.None? { return Some(ContractShort); }
      crew := crew.(bonds := crew.bonds - cleared, solvers := crew.solvers - {a});
      bank := paid.value;
      events := events + [SolverDeregistered(a, if rec.bond > 0 then rec.bond else 0)];
      return None;
    }

    // ----- Intent lifecycle -----

    method SubmitIntent(now: U64, user: Address, srcAmount: I128, dst: Token, minDst: I128, deadline: Option<U64>,
                        referrer: Option<Address>, external: bool, id: IntentId) returns (err: Option<Error>)
      modifies this
      ensures Ended(Submit(old(View()), now, user, srcAmount, dst, minDst, deadline, referrer, external, id),
                    old(View()), old(events), err)
    {
      if rules.paused { return Some(ContractPaused); }
      if srcAmount <= 0 || minDst <= 0 { return Some(ZeroAmount); }
      if srcAmount > MAX_AMOUNT || minDst > MAX_AMOUNT { return Some(AmountTooLarge); }
      if !external { return Some(ExternalCheck); }
      if !FitsU64(now + rules.config.intentExpiry) { return Some(Overflow); }
      var expiry := deadline.GetOr(now + rules.config.intentExpiry);
      if expiry <= now { return Some(InvalidDeadline); }
      if referrer == Some(user) { return Some(SelfReferral); }
      var nonce := if user in stamps.nonces then stamps.nonces[user] else 0;
      if !FitsU64(nonce + 1) { return Some(Overflow); }
      if id in book.intents || id in book.tombstones { return Some(IntentAlreadyExists); }
      var listed := if user in book.history then book.history[user] else [];
      if !FitsU32(|listed| + 1) || !FitsU64(stats.totalIntents + 1) || !FitsU64(stats.openIntents + 1) {
        return Some(Overflow);
      }
      err := AdmitIntent(now, user, dst, minDst, expiry, id);
    }

    method AdmitIntent(now: U64, user: Address, dst: Token, minDst: int, expiry: nat, id: IntentId)
      returns (err: Option<Error>)
      modifies this
      ensures Ended(Admit(old(View()), now, user, dst, minDst, expiry, id), old(View()), old(events), err)
    {
      var nonce := if user in stamps.nonces then stamps.nonces[user] else 0;
      stamps := stamps.(nonces := stamps.nonces[user := nonce + 1]);
      var intent := Intent(user, dst, minDst, None, Open, now, expiry, None, None, 0, params.bondToken,
                           None, None, None, 0, None);
      var listed := if user in book.history then book.history[user] else [];
      book := book.(intents := book.intents[id := intent], history := book.history[user := listed + [Some(id)]]);
      stats := stats.(totalIntents := stats.totalIntents + 1, openIntents := stats.openIntents + 1);
      ghost var mine := if user in notes.issued then notes.issued[user] else [];
      notes := notes.(issued := notes.issued[user := mine + [id]]);
      events := events + [IntentSubmitted(user, id, minDst, expiry)];
      return None;
    }

    method AcceptIntent(now: U64, a: Address, id: IntentId, t: Token, registryTier: nat, weight: Quantity)
      returns (err: Option<Error>)
      modifies this
      ensures Ended(Accept(old(View()), now, a, id, t, registryTier, weight), old(View()), old(events), err)
    {
      if rules.paused { return Some(ContractPaused); }
      if a !in crew.solvers { return Some(SolverNotRegistered); }
      var rec := crew.solvers[a];
      if !rec.active { return Some(SolverInactive); }
      if rec.lastSlash > 0 && !FitsU64(rec.lastSlash + SLASH_COOLDOWN) { return Some(Overflow); }
      if rec.lastSlash > 0 && now < rec.lastSlash + SLASH_COOLDOWN { return Some(SolverInactive); }
      if t != params.bondToken && t !in rules.allowedBonds { return Some(BondTokenNotAllowed); }
      if id !in book.intents { return Some(IntentNotFound); }
      var intent := book.intents[id];
      var bond := BondAmount(a, rec, t);
      var required := MinimumBond(t);
      if t == params.bondToken {
        var multiplied := rules.config.minBond * if intent.dstToken in rules.multipliers then rules.multipliers[intent.dstToken] else 10;
        if !FitsI128(multiplied) { return Some(Overflow); }
        required := TruncDiv(multiplied, 10);
      }
      if bond < required { return Some(SolverBondTooLow); }
      if now >= intent.deadline { return Some(IntentExpired); }
      if intent.phase != Open && intent.phase != PartiallyFilled { return Some(IntentNotOpen); }
      if rec.activeIntents >= rules.config.maxActive { return Some(MaxActiveIntentsCapReached); }
      var exposed := SatI128((if a in crew.exposure then crew.exposure[a] else 0) + Notional(intent.minDst, weight));
      err := AssignIntent(now, a, id, t, Min(registryTier, 4), exposed);
    }

    method AssignIntent(now: U64, a: Address, id: IntentId, t: Token, tier: nat, exposed: int)
      returns (err: Option<Error>)
      requires id in book.intents && a in crew.solvers
      modifies this
      ensures Ended(Assign(old(View()), now, a, id, t, tier, exposed), old(View()), old(events), err)
    {
      var intent, rec := book.intents[id], crew.solvers[a];
      if !FitsU64(now + TierFillWindow(tier, rules.config.fillWindow)) { return Some(Overflow); }
      intent := intent.(solver := Some(a), phase := Accepted, bondToken := t, solverTier := tier,
                        deadline := now + TierFillWindow(tier, rules.config.fillWindow));
      rec := rec.(activeIntents := rec.activeIntents + 1);
      var bond := BondAmount(a, rec, t);
      if exposed > CheckedMul(bond, rules.config.coverage).GetOr(I128_MAX) { return Some(ExposureExceeded); }
      notes := notes.(acceptances := notes.acceptances[id := Acceptance(now, rules.config.fillWindow)]);
      crew, stats, book, events :=
        crew.(exposure := crew.exposure[a := exposed], solvers := crew.solvers[a := rec]),
        stats.(openIntents := SatSub(stats.openIntents, 1)),
        book.(intents := book.intents[id := intent]),
        events + [IntentAccepted(a, id, intent.deadline)];
      return None;
    }

    method FillIntent(now: U64, a: Address, id: IntentId, amount: I128, proof: bool, weight: Quantity)
      returns (err: Option<Error>)
      modifies this
      ensures Ended(Fill(old(View()), now, a, id, amount, proof, weight), old(View()), old(events), err)
    {
      if rules.paused { return Some(ContractPaused); }
      if id !in book.intents { return Some(IntentNotFound); }
      var intent := book.intents[id];
      if now >= intent.deadline { return Some(FillWindowExpired); }
      if intent.phase == Filled { return Some(IntentAlreadyFilled); }
      if intent.phase != Accepted { return Some(IntentNotAccepted); }
      if intent.solver != Some(a) { return Some(Unauthorized); }
      if amount <= 0 { return Some(ZeroAmount); }
      if amount > MAX_AMOUNT { return Some(AmountTooLarge); }
      if !proof { return Some(ExternalCheck); }
      var product := CheckedMul(amount, rules.config.feeBps);
      if product.None? { return Some(FeeOverflow); }
      if !FitsI128(intent.totalFilled + amount) { return Some(Overflow); }
      if a !in crew.solvers { return Some(Trap); }
      var rec, closes := crew.solvers[a], intent.totalFilled + amount >= intent.minDst;
      if !FitsI128(rec.volume + amount) || !FitsI128(stats.totalVolume + amount) { return Some(Overflow); }
      if closes && !FitsU32(rec.completed + 1) { return Some(Overflow); }
      if !closes && (!FitsU64(now + INTENT_EXPIRY) || !FitsU64(stats.openIntents + 1)) { return Some(Overflow); }
      err := DeliverFill(now, a, id, amount, TruncDiv(product.value, BPS), weight);
    }

    /** Adds a delivery: the intent closes at its minimum and reopens below it. */
    method CreditFill(now: U64, intent: Intent, amount: int) returns (i: Intent)
      ensures i == IntentAfterFill(intent, now, amount)
    {
      var cumulative := intent.totalFilled + amount;
      i := intent.(totalFilled := cumulative, fillAmount := Some(cumulative));
      if cumulative >= i.minDst {
        i := i.(phase := Filled, filledAt := Some(now), terminalAt := Some(now));
      } else {
        i := i.(phase := PartiallyFilled, solver := None, solverTier := 0, deadline := now + INTENT_EXPIRY);
      }
    }

    method DeliverFill(now: U64, a: Address, id: IntentId, amount: int, fee: int, weight: Quantity)
      returns (err: Option<Error>)
      requires id in book.intents && a in crew.solvers
      modifies this
      ensures Ended(Deliver(old(View()), now, a, id, amount, fee, weight), old(View()), old(events), err)
    {
      var paid := PayFill(bank, book.intents[id], id, a, amount, fee, rules.feeRecipient);
      if paid.None? { return Some(WalletShort); }
      var intent := CreditFill(now, book.intents[id], amount);
      RecordDelivery(a, id, intent, amount, weight, paid.value);
      events := events + [IntentFilled(a, id, amount, fee)];
      return None;
    }

    method RecordDelivery(a: Address, id: IntentId, intent: Intent, amount: int, weight: Quantity, paid: Bank)
      requires a in crew.solvers
      modifies this
      ensures View() == Delivered(old(View()), a, id, intent, amount, weight, paid) && events == old(events)
    {
      var rec := crew.solvers[a];
      var full := intent.phase == Filled;
      rec := rec.(volume := rec.volume + amount,
                  completed := if full then rec.completed + 1 else rec.completed,
                  activeIntents := SatSub(rec.activeIntents, 1));
      var released := Notional(if full then intent.minDst else amount, weight);
      var exposed := SatI128((if a in crew.exposure then crew.exposure[a] else 0) - released);
      var open := if full then stats.openIntents else stats.openIntents + 1;
      crew, stats, book, bank :=
        crew.(exposure := crew.exposure[a := exposed], solvers := crew.solvers[a := rec]),
        stats.(openIntents := open, totalVolume := stats.totalVolume + amount),
        book.(intents := book.intents[id := intent]),
        paid;
    }

    method CancelIntent(now: U64, user: Address, id: IntentId) returns (err: Option<Error>)
      modifies this
      ensures Ended(Cancel(old(View()), now, user, id), old(View()), old(events), err)
    {
      if user in stamps.cancels && !FitsU64(stamps.cancels[user] + CANCEL_COOLDOWN) { return Some(Overflow); }
      if user in stamps.cancels && now < stamps.cancels[user] + CANCEL_COOLDOWN { return Some(CancelCooldownNotExpired); }
      if id !in book.intents { return Some(IntentNotFound); }
      var intent := book.intents[id];
      if intent.user != user { return Some(Unauthorized); }
      if intent.phase == Accepted { return Some(CannotCancelAccepted); }
      if intent.phase != Open && intent.phase != PartiallyFilled { return Some(IntentNotOpen); }
      book := book.(intents := book.intents[id := intent.(phase := Cancelled, terminalAt := Some(now))]);
      stats := stats.(openIntents := SatSub(stats.openIntents, 1));
      stamps := stamps.(cancels := stamps.cancels[user := now]);
      events := events + [IntentCancelled(user, id)];
      return None;
    }

    method AmendIntent(now: U64, user: Address, id: IntentId, minDst: I128, deadline: U64) returns (err: Option<Error>)
      modifies this
      ensures Ended(Amend(old(View()), now, user, id, minDst, deadline), old(View()), old(events), err)
    {
      if user in stamps.amends && !FitsU64(stamps.amends[user] + AMENDMENT_COOLDOWN) { return Some(Overflow); }
      if user in stamps.amends && now < stamps.amends[user] + AMENDMENT_COOLDOWN { return Some(AmendmentCooldownActive); }
      if id !in book.intents { return Some(IntentNotFound); }
      var intent := book.intents[id];
      if intent.user != user { return Some(Unauthorized); }
      if intent.phase != Open && intent.phase != Bidding { return Some(IntentNotAmendable); }
      if deadline <= now { return Some(InvalidAmendmentDeadline); }
      if !FitsU64(now + rules.config.intentExpiry) { return Some(Overflow); }
      if deadline > now + rules.config.intentExpiry { return Some(InvalidAmendmentDeadline); }
      var tightening := minDst > intent.minDst || deadline < intent.deadline;
      if tightening && intent.phase != Open { return Some(AmendmentTooTightening); }
      book := book.(intents := book.intents[id := intent.(minDst := minDst, deadline := deadline)]);
      stamps := stamps.(amends := stamps.amends[user := now]);
      events := events + [OtherEvent(id)];
      return None;
    }

    method ExpireIntent(now: U64, id: IntentId) returns (err: Option<Error>)
      modifies this
      ensures Ended(Expire(old(View()), now, id), old(View()), old(events), err)
    {
      if id !in book.intents { return Some(IntentNotFound); }
      var intent := book.intents[id];
      if intent.phase != Open && intent.phase != PartiallyFilled { return Some(IntentNotOpen); }
      if now < intent.deadline { return Some(DeadlineNotReached); }
      book := book.(intents := book.intents[id := intent.(phase := Expired, terminalAt := Some(now))]);
      stats := stats.(openIntents := SatSub(stats.openIntents, 1));
      events := events + [IntentExpiredEvent(id)];
      return None;
    }

    /** The part slash_solver and an upheld dispute share: debit the bond, note the failure. */
    method PenaliseSolver(now: U64, a: Address, rec: Solver, t: Token, left: int) returns (rec': Solver)
      modifies this`crew
      ensures rec' == RecordAfterSlash(old(View()), rec, t, left, now)
      ensures crew == old(crew).(bonds := BondsAfter(old(View()), a, t, left))
    {
      rec' := SetBondAmount(a, rec, t, left);
      rec' := rec'.(failed := rec'.failed + 1, lastSlash := now, activeIntents := SatSub(rec'.activeIntents, 1));
      var minimum := MinimumBond(t);
      if left < minimum { rec' := rec'.(active := false); }
    }

    method SlashSolver(now: U64, id: IntentId, weight: Quantity) returns (err: Option<Error>)
      modifies this
      ensures Ended(Slash(old(View()), now, id, weight), old(View()), old(events), err)
    {
      if id !in book.intents { return Some(IntentNotFound); }
      var intent := book.intents[id];
      if intent.phase != Accepted { return Some(IntentNotAccepted); }
      if now < SatAdd(intent.deadline, params.grace) { return Some(FillWindowExpired); }
      if intent.solver.None? || intent.solver.value !in crew.solvers { return Some(Trap); }
      if !FitsI128(intent.minDst - intent.totalFilled) || !FitsU64(now + rules.config.intentExpiry)
         || !FitsU32(crew.solvers[intent.solver.value].failed + 1) || !FitsU64(stats.openIntents + 1) {
        return Some(Overflow);
      }
      err := SlashAssigned(now, id, intent.solver.value, weight);
    }

    method SlashAssigned(now: U64, id: IntentId, a: Address, weight: Quantity) returns (err: Option<Error>)
      requires id in book.intents && a in crew.solvers
      modifies this
      ensures Ended(SlashAccepted(old(View()), now, id, a, weight), old(View()), old(events), err)
    {
      var intent, rec := book.intents[id], crew.solvers[a];
      var unfilled := intent.minDst - intent.totalFilled;
      var bond := BondAmount(a, rec, intent.bondToken);
      var cut := SlashAmount(bond, unfilled);
      var sent := SendIfAny(bank, intent.bondToken, rules.feeRecipient, cut, Penalty);
      if sent.None? { return Some(ContractShort); }
      rec := PenaliseSolver(now, a, rec, intent.bondToken, bond - cut);
      var exposed := SatI128((if a in crew.exposure then crew.exposure[a] else 0) - Notional(SatI128(unfilled), weight));
      intent := intent.(solver := None, solverTier := 0, phase := Open, deadline := now + rules.config.intentExpiry);
      crew, stats, book, bank, events :=
        crew.(exposure := crew.exposure[a := exposed], solvers := crew.solvers[a := rec]),
        stats.(openIntents := stats.openIntents + 1),
        book.(intents := book.intents[id := intent]),
        sent.value,
        events + [SolverSlashed(a, id, cut)];
      return None;
    }

    // ----- Bid window -----

    method IsEligible(now: U64, a: Address) returns (ok: bool)
      ensures ok == Eligible(View(), now, a)
    {
      if a !in crew.solvers { return false; }
      var rec := crew.solvers[a];
      var cooled := rec.lastSlash == 0 || rec.lastSlash + SLASH_COOLDOWN <= now;
      ok := rec.active && rec.bond >= rules.config.minBond && rec.activeIntents < rules.config.maxActive && cooled;
    }

    method BidIntent(now: U64, a: Address, id: IntentId, quoted: I128) returns (err: Option<Error>)
      modifies this
      ensures Ended(PlaceBid(old(View()), now, a, id, quoted), old(View()), old(events), err)
    {
      if rules.paused { return Some(ContractPaused); }
      if quoted <= 0 { return Some(ZeroAmount); }
      if id !in book.intents { return Some(IntentNotFound); }
      if book.intents[id].phase != Bidding { return Some(IntentNotBidding); }
      if now >= book.intents[id].deadline { return Some(BidWindowClosed); }
      if a in crew.solvers && !CooldownFits(crew.solvers[a]) { return Some(Overflow); }
      var eligible := IsEligible(now, a);
      if !eligible { return Some(SolverInactive); }
      if id in book.bids && quoted <= book.bids[id].quoted { return Some(BidNotHigher); }
      book := book.(bids := book.bids[id := Bid(a, quoted)]);
      events := events + [OtherEvent(id)];
      return None;
    }

    method SettleBidWindow(now: U64, id: IntentId) returns (err: Option<Error>)
      modifies this
      ensures Ended(SettleBids(old(View()), now, id), old(View()), old(events), err)
    {
      if id !in book.intents { return Some(IntentNotFound); }
      var intent := book.intents[id];
      if intent.phase != Bidding { return Some(IntentNotBidding); }
      if now < intent.deadline { return Some(BidWindowStillOpen); }
      if id in book.bids && book.bids[id].solver in crew.solvers && !CooldownFits(crew.solvers[book.bids[id].solver]) {
        return Some(Overflow);
      }
      var won := false;
      if id in book.bids { won := IsEligible(now, book.bids[id].solver); }
      if !FitsU64(now + if won then rules.config.fillWindow else rules.config.intentExpiry) { return Some(Overflow); }
      if won {
        var a := book.bids[id].solver;
        crew := crew.(solvers := crew.solvers[a := crew.solvers[a].(activeIntents := crew.solvers[a].activeIntents + 1)]);
        intent := intent.(solver := Some(a), phase := Accepted, bondToken := params.bondToken,
                          deadline := now + rules.config.fillWindow);
        stats := stats.(openIntents := SatSub(stats.openIntents, 1));
        notes := notes.(acceptances := notes.acceptances[id := Acceptance(now, rules.config.fillWindow)]);
        events := events + [IntentAccepted(a, id, intent.deadline), OtherEvent(id)];
      } else {
        intent := intent.(phase := Open, deadline := now + rules.config.intentExpiry);
        events := events + [OtherEvent(id)];
      }
      book := book.(bids := book.bids - {id}, intents := book.intents[id := intent]);
      return None;
    }

    // ----- Escrow and disputes -----

    method BeginFillEscrow(now: U64, a: Address, id: IntentId, amount: I128, received: Quantity) returns (err: Option<Error>)
      modifies this
      ensures Ended(BeginFill(old(View()), now, a, id, amount, received), old(View()), old(events), err)
    {
      if rules.paused { return Some(ContractPaused); }
      if id !in book.intents { return Some(IntentNotFound); }
      var intent := book.intents[id];
      if intent.phase != Accepted { return Some(IntentNotAcceptedForFill); }
      if intent.solver != Some(a) { return Some(Unauthorized); }
      if now >= intent.deadline { return Some(FillWindowExpired); }
      if amount <= 0 { return Some(ZeroAmount); }
      if !FitsI128(intent.totalFilled + amount) { return Some(Overflow); }
      if intent.totalFilled + amount < intent.minDst { return Some(InsufficientOutput); }
      if !FitsU64(now + DISPUTE_WINDOW) { return Some(Overflow); }
      var pulled := bank.Pull(intent.dstToken, a, amount, received, EscrowIn(id));
      if pulled.None? { return Some(WalletShort); }
      intent := intent.(phase := Filling, disputeDeadline := Some(now + DISPUTE_WINDOW), fillAmount := Some(amount));
      bank := pulled.value;
      if received != amount { intent := intent.(fillAmount := Some(received)); }
      book := book.(intents := book.intents[id := intent]);
      notes := notes.(short := if intent.totalFilled + received < intent.minDst then notes.short + {id} else notes.short);
      events := events + [OtherEvent(id)];
      return None;
    }

    method DisputeFill(now: U64, user: Address, id: IntentId) returns (err: Option<Error>)
      modifies this
      ensures Ended(Dispute(old(View()), now, user, id), old(View()), old(events), err)
    {
      if id !in book.intents { return Some(IntentNotFound); }
      var intent := book.intents[id];
      if intent.phase != Filling { return Some(IntentNotFilling); }
      if intent.user != user { return Some(Unauthorized); }
      if now >= intent.disputeDeadline.GetOr(0) { return Some(DisputeWindowClosed); }
      book := book.(intents := book.intents[id := intent.(phase := Disputed, disputeRaisedAt := Some(now))]);
      events := events + [OtherEvent(id)];
      return None;
    }

    method ResolveDispute(now: U64, caller: Address, id: IntentId, ruling: Ruling) returns (err: Option<Error>)
      modifies this
      ensures Ended(Resolve(old(View()), now, caller, id, ruling), old(View()), old(events), err)
    {
      if caller != rules.arbiter { return Some(NotArbiter); }
      if id !in book.intents { return Some(IntentNotFound); }
      var intent := book.intents[id];
      if intent.phase != Disputed { return Some(IntentNotDisputed); }
      if intent.solver.None? || intent.solver.value !in crew.solvers { return Some(Trap); }
      if ruling == Upheld {
        err := UpholdDispute(now, id, intent.solver.value);
      } else {
        err := DismissDispute(now, id, intent.solver.value);
      }
    }

    method UpholdDispute(now: U64, id: IntentId, a: Address) returns (err: Option<Error>)
      requires id in book.intents && a in crew.solvers
      modifies this
      ensures Ended(Uphold(old(View()), now, id, a), old(View()), old(events), err)
    {
      var intent, rec := book.intents[id], crew.solvers[a];
      var escrow := intent.fillAmount.GetOr(0);
      var bond := BondAmount(a, rec, intent.bondToken);
      if !UpholdFits(intent, rec) { return Some(Overflow); }
      var cut := SlashAmount(bond, intent.minDst - intent.totalFilled);
      var paid := PayEscrow(bank, intent, id, escrow, 0, rules.feeRecipient);
      if paid.None? { return Some(ContractShort); }
      paid := SendIfAny(paid.value, intent.bondToken, rules.feeRecipient, cut, Penalty);
      if paid.None? { return Some(ContractShort); }
      rec := PenaliseSolver(now, a, rec, intent.bondToken, bond - cut);
      intent := IntentAfterEscrow(intent, now, Resolved, Some(Upheld));
      crew, book, bank, events :=
        crew.(solvers := crew.solvers[a := rec]), book.(intents := book.intents[id := intent]),
        paid.value, events + [OtherEvent(id)];
      return None;
    }

    method DismissDispute(now: U64, id: IntentId, a: Address) returns (err: Option<Error>)
      requires id in book.intents && a in crew.solvers
      modifies this
      ensures Ended(Dismiss(old(View()), now, id, a), old(View()), old(events), err)
    {
      var intent := book.intents[id];
      var escrow := intent.fillAmount.GetOr(0);
      var product := CheckedMul(escrow, PROTOCOL_FEE_BPS);
      if product.None? { return Some(FeeOverflow); }
      if !CreditFits(crew.solvers[a], escrow) { return Some(Overflow); }
      if !FitsI128(intent.totalFilled + escrow) || !FitsI128(stats.totalVolume + escrow) { return Some(Overflow); }
      var paid := PayEscrow(bank, intent, id, escrow, TruncDiv(product.value, BPS), rules.feeRecipient);
      if paid.None? { return Some(ContractShort); }
      RecordSettlement(id, IntentAfterEscrow(intent, now, Resolved, Some(Dismissed)),
                       a, Credited(crew.solvers[a], escrow), escrow, paid.value);
      events := events + [OtherEvent(id)];
      return None;
    }

    /** Writes back an intent and its solver once the escrow is paid, and counts the volume. */
    method RecordSettlement(id: IntentId, intent: Intent, a: Address, rec: Solver, escrow: int, paid: Bank)
      modifies this
      ensures View() == Settled(old(View()), id, intent, a, rec, escrow, paid) && events == old(events)
    {
      crew, stats, book, bank :=
        crew.(solvers := crew.solvers[a := rec]), stats.(totalVolume := stats.totalVolume + escrow),
        book.(intents := book.intents[id := intent]), paid;
    }

    method ReleaseFill(now: U64, id: IntentId) returns (err: Option<Error>)
      modifies this
      ensures Ended(Release(old(View()), now, id), old(View()), old(events), err)
    {
      if id !in book.intents { return Some(IntentNotFound); }
      var intent := book.intents[id];
      if intent.solver.None? || intent.solver.value !in crew.solvers { return Some(Trap); }
      var fee := 0;
      if intent.phase == Filling {
        if now < intent.disputeDeadline.GetOr(0) { return Some(DisputeWindowStillOpen); }
        var product := CheckedMul(intent.fillAmount.GetOr(0), PROTOCOL_FEE_BPS);
        if product.None? { return Some(FeeOverflow); }
        fee := TruncDiv(product.value, BPS);
      } else if intent.phase == Disputed {
        if !FitsU64(intent.disputeRaisedAt.GetOr(0) + ARBITER_WINDOW) { return Some(Overflow); }
        if now < intent.disputeRaisedAt.GetOr(0) + ARBITER_WINDOW { return Some(DisputeWindowStillOpen); }
      } else {
        return Some(IntentNotFilling);
      }
      err := PayOutEscrow(now, id, intent.solver.value, fee);
    }

    method PayOutEscrow(now: U64, id: IntentId, a: Address, fee: int) returns (err: Option<Error>)
      requires id in book.intents && a in crew.solvers
      modifies this
      ensures Ended(SettleEscrow(old(View()), now, id, a, fee), old(View()), old(events), err)
    {
      var intent, rec := book.intents[id], crew.solvers[a];
      var escrow, undisputed := intent.fillAmount.GetOr(0), intent.phase == Filling;
      if undisputed && !CreditFits(rec, escrow) { return Some(Overflow); }
      if !FitsI128(intent.totalFilled + escrow) || !FitsI128(stats.totalVolume + escrow) { return Some(Overflow); }
      var paid := PayEscrow(bank, intent, id, escrow, fee, rules.feeRecipient);
      if paid.None? { return Some(ContractShort); }
      if undisputed {
        rec := Credited(rec, escrow);
        intent := IntentAfterEscrow(intent, now, Filled, intent.ruling);
      } else {
        rec := rec.(activeIntents := SatSub(rec.activeIntents, 1));
        intent := IntentAfterEscrow(intent, now, Resolved, None);
      }
      RecordSettlement(id, intent, a, rec, escrow, paid.value);
      events := events + [OtherEvent(id)];
      return None;
    }

    method RequestExtension(a: Address, id: IntentId) returns (err: Option<Error>)
      modifies this
      ensures Ended(Extend(old(View()), a, id), old(View()), old(events), err)
    {
      if id !in book.intents { return Some(IntentNotFound); }
      var intent := book.intents[id];
      if intent.phase != Accepted { return Some(IntentNotAccepted); }
      if intent.solver != Some(a) { return Some(Unauthorized); }
      if id in book.extensions { return Some(ExtensionAlreadyGranted); }
      if MAX_EXTENSION_DURATION > params.maxExtension { return Some(ExtensionCapExceeded); }
      if !FitsU64(intent.deadline + MAX_EXTENSION_DURATION) { return Some(Overflow); }
      intent := intent.(deadline := intent.deadline + MAX_EXTENSION_DURATION);
      book := book.(extensions := book.extensions[id := MAX_EXTENSION_DURATION], intents := book.intents[id := intent]);
      events := events + [ExtensionGranted(a, id, intent.deadline)];
      return None;
    }

    // ----- Pruning and administration -----

    method CloseIntent(now: U64, id: IntentId) returns (err: Option<Error>)
      modifies this
      ensures Ended(Close(old(View()), now, id), old(View()), old(events), err)
    {
      if id !in book.intents { return Some(IntentNotFound); }
      var intent := book.intents[id];
      if !intent.Terminal() { return Some(IntentNotTerminal); }
      if now < SatAdd(intent.terminalAt.GetOr(intent.createdAt), rules.retention) { return Some(RetentionPeriodNotElapsed); }
      var pages := book.history;
      if intent.user in pages {
        var page := BlankSlot(pages[intent.user], id);
        pages := pages[intent.user := page];
      }
      book := Book(book.intents - {id}, book.tombstones + {id}, book.extensions - {id}, book.bids - {id}, pages);
      events := events + [OtherEvent(id)];
      return None;
    }

    /** Scans for the slot holding `id` and blanks it. */
    method BlankSlot(page: seq<Option<IntentId>>, id: IntentId) returns (r: seq<Option<IntentId>>)
      ensures r == BlankFirst(page, id)
    {
      var k := 0;
      while k < |page| && page[k] != Some(id)
        invariant 0 <= k <= |page|
        invariant BlankFirst(page, id) == page[..k] + BlankFirst(page[k..], id)
      {
        assert page[k..][1..] == page[k + 1..];
        assert page[..k + 1] == page[..k] + [page[k]];
        k := k + 1;
      }
      if k == |page| { return page; }
      assert page[k..][1..] == page[k + 1..];
      return page[k := None];
    }

    method Govern(c: Change) returns (err: Option<Error>)
      modifies this
      ensures Ended(Administer(old(View()), c), old(View()), old(events), err)
    {
      match c {
        case SetConfig(cfg) =>
          if !cfg.Valid() { return Some(InvalidConfig); }
          rules := rules.(config := cfg.(coverage := rules.config.coverage));
        case SetPaused(p) => rules := rules.(paused := p);
        case SetFeeRecipient(a) => rules := rules.(feeRecipient := a);
        case SetArbiter(a) => rules := rules.(arbiter := a);
        case AllowBond(t) => rules := rules.(allowedBonds := rules.allowedBonds + {t});
        case DisallowBond(t) => rules := rules.(allowedBonds := rules.allowedBonds - {t});
        case SetMinBond(t, n) =>
          if n <= 0 { return Some(ZeroAmount); }
          rules := rules.(minBonds := rules.minBonds[t := n]);
        case SetMultiplier(t, n) =>
          if n <= 0 { return Some(ZeroAmount); }
          rules := rules.(multipliers := rules.multipliers[t := n]);
        case SetRetention(n) => rules := rules.(retention := n);
      }
      return None;
    }
  }

  /** A refund that cannot be paid stops the whole series. */
  lemma {:induction false} PayingStops(bank: Bank, a: Address, refunds: seq<(Token, int)>, n: nat)
    requires n <= |refunds| && PayRefunds(bank, a, refunds[..n]).None?
    ensures PayRefunds(bank, a, refunds).None?
  {
    if n == |refunds| {
      assert refunds[..n] == refunds;
    } else {
      var front := refunds[..|refunds| - 1];
      assert front[..n] == refunds[..n];
      PayingStops(bank, a, front, n);
    }
  }
}
