/**
  intent_settlement as a transition system: the stored records, the token
  balances the contract moves, and one function per entrypoint. A function
  returns the state after the call together with the events it published, or
  the error the call reverted with. Guards stand in the order of the source.
 */
module SettlementModel {
  import opened Wrappers
  import opened SettlementMath

  type Address = nat
  type Token = nat
  type IntentId = nat

  const INTENT_EXPIRY := 1_800
  const DISPUTE_WINDOW := 3_600
  const ARBITER_WINDOW := 86_400
  const SLASH_COOLDOWN := 3_600
  const CANCEL_COOLDOWN := 60
  const AMENDMENT_COOLDOWN := 60
  const MAX_EXTENSION_DURATION := 300
  const MAX_BOND_TOKENS := 8
  const MIN_BOND := 500_000_000
  const MAX_PROTOCOL_FEE_BPS := 1_000
  const MIN_FILL_WINDOW_SECS := 60
  const MIN_INTENT_EXPIRY_SECS := 300
  const MIN_BOND_FLOOR := 10_000_000

  datatype Phase =
    | Open | Accepted | PartiallyFilled | Filled | Cancelled | Expired
    | Slashed | Bidding | Filling | Disputed | Resolved

  datatype Ruling = Upheld | Dismissed

  datatype Intent = Intent(
    user: Address, dstToken: Token, minDst: int, solver: Option<Address>, phase: Phase,
    createdAt: nat, deadline: nat, filledAt: Option<nat>, fillAmount: Option<int>,
    totalFilled: int, bondToken: Token, disputeDeadline: Option<nat>,
    disputeRaisedAt: Option<nat>, ruling: Option<Ruling>, solverTier: nat,
    terminalAt: Option<nat>)
  {
    /** A solver owes this intent a fill, or its escrow is not settled yet. */
    predicate Obliged() { phase in {Accepted, Filling, Disputed} }

    predicate Escrowed() { phase in {Filling, Disputed} }

    /** Counted by `OpenIntents`. */
    predicate OpenLike() { phase in {Open, PartiallyFilled, Bidding} }

    predicate Terminal() { phase in {Filled, Cancelled, Expired, Resolved, Slashed} }

    /** The amount in contract escrow. */
    function Escrow(): int { if Escrowed() then fillAmount.GetOr(0) else 0 }
  }

  datatype Solver = Solver(
    bond: int, bondTokens: seq<Token>, completed: nat, failed: nat, volume: int,
    active: bool, activeIntents: nat, lastSlash: nat)

  datatype Config = Config(
    minBond: I128, fillWindow: U64, intentExpiry: U64, feeBps: I128, maxActive: U32, coverage: I128)
  {
    predicate Valid() {
      && 0 <= feeBps <= MAX_PROTOCOL_FEE_BPS
      && fillWindow >= MIN_FILL_WINDOW_SECS
      && intentExpiry >= MIN_INTENT_EXPIRY_SECS && intentExpiry > fillWindow
      && minBond >= MIN_BOND_FLOOR
      && maxActive > 0
    }
  }

  datatype Bid = Bid(solver: Address, quoted: int)

  // ----- Token movements -----

  datatype Party = Contract | Wallet(owner: Address)

  /** What a transfer is for. `Delivery` is output reaching the user of an intent. */
  datatype Purpose =
    | Delivery(id: IntentId) | EscrowIn(id: IntentId) | EscrowFee(id: IntentId)
    | FillFee | Penalty | BondIn | BondOut

  datatype Transfer = Transfer(token: Token, from: Party, to: Party, amount: int, purpose: Purpose)

  /** Balances held by the contract and by everyone else, and every transfer so far. */
  datatype Bank = Bank(held: map<Token, int>, wallets: map<(Token, Address), int>, log: seq<Transfer>) {
    function Held(t: Token): int { if t in held then held[t] else 0 }

    function Balance(t: Token, a: Address): int { if (t, a) in wallets then wallets[(t, a)] else 0 }

    /** The contract pays `a`; fails when the contract is short. */
    function Send(t: Token, a: Address, amount: int, purpose: Purpose): Option<Bank> {
      if amount < 0 || Held(t) < amount then None else
      Some(Bank(held[t := Held(t) - amount], wallets[(t, a) := Balance(t, a) + amount],
                log + [Transfer(t, Contract, Wallet(a), amount, purpose)]))
    }

    /** The contract pulls `amount` from `a` and measures `received`, which a
        fee-on-transfer token makes smaller. */
    function Pull(t: Token, a: Address, amount: int, received: nat, purpose: Purpose): Option<Bank> {
      if amount < 0 || Balance(t, a) < amount then None else
      Some(Bank(held[t := Held(t) + received], wallets[(t, a) := Balance(t, a) - amount],
                log + [Transfer(t, Wallet(a), Contract, received, purpose)]))
    }

    /** One wallet pays another; the contract only orders the transfer. */
    function Direct(t: Token, from: Address, to: Address, amount: int, purpose: Purpose): Option<Bank> {
      if amount < 0 || Balance(t, from) < amount then None else
      var w := wallets[(t, from) := Balance(t, from) - amount];
      var had := if (t, to) in w then w[(t, to)] else 0;
      Some(Bank(held, w[(t, to) := had + amount], log + [Transfer(t, Wallet(from), Wallet(to), amount, purpose)]))
    }
  }

  // ----- State -----

  /** When the current obligation on an intent began and the window then in force. */
  datatype Acceptance = Acceptance(at: nat, window: nat)

  /** Fixed at deployment. `grace` stands for SLASH_GRACE_SECS and `maxExtension`
      for MAX_TOTAL_EXTENSION, which the source uses but does not declare. */
  datatype Params = Params(bondToken: Token, grace: U64, maxExtension: U64)

  /** What the admin sets. */
  datatype Rules = Rules(
    config: Config, paused: bool, feeRecipient: Address, arbiter: Address, retention: U64,
    allowedBonds: set<Token>, minBonds: map<Token, I128>, multipliers: map<Token, I128>)

  /** Per-user nonce and the times of the last cancel and amendment. */
  datatype Stamps = Stamps(nonces: map<Address, nat>, cancels: map<Address, nat>, amends: map<Address, nat>)

  datatype State = State(
    params: Params, rules: Rules,
    intents: map<IntentId, Intent>, tombstones: set<IntentId>,
    extensions: map<IntentId, nat>, bids: map<IntentId, Bid>,
    history: map<Address, seq<Option<IntentId>>>,
    solvers: map<Address, Solver>, bonds: map<(Address, Token), int>, exposure: map<Address, int>,
    stamps: Stamps,
    openIntents: nat, totalIntents: nat, totalVolume: int,
    bank: Bank,
    // Kept by the model only, to state what no stored field records:
    acceptances: map<IntentId, Acceptance>,   // when each obligation began
    issued: map<Address, seq<IntentId>>,      // ids of each user in submission order
    short: set<IntentId>)                     // escrows that arrived below the outstanding amount

  datatype Error =
    | ContractPaused | ZeroAmount | AmountTooLarge | ExternalCheck | InvalidDeadline | SelfReferral
    | IntentAlreadyExists | IntentNotFound | SolverNotRegistered | SolverInactive
    | BondTokenNotAllowed | SolverBondTooLow | IntentExpired | IntentNotOpen
    | MaxActiveIntentsCapReached | ExposureExceeded | FillWindowExpired | IntentAlreadyFilled
    | IntentNotAccepted | Unauthorized | FeeOverflow | CancelCooldownNotExpired
    | CannotCancelAccepted | IntentNotAmendable | InvalidAmendmentDeadline | AmendmentTooTightening
    | AmendmentCooldownActive | DeadlineNotReached | IntentNotBidding | BidWindowClosed
    | BidNotHigher | BidWindowStillOpen | IntentNotAcceptedForFill | InsufficientOutput
    | IntentNotFilling | DisputeWindowClosed | NotArbiter | IntentNotDisputed
    | DisputeWindowStillOpen | ExtensionAlreadyGranted | ExtensionCapExceeded | IntentNotTerminal
    | RetentionPeriodNotElapsed | TooManyBondTokens | SolverHasActiveIntents | InsufficientBond
    | InvalidConfig
    | Overflow        // an unchecked operation outside the width of its type
    | WalletShort     // a transfer out of someone's wallet failed
    | ContractShort   // a transfer out of the contract failed
    | Trap            // an `unwrap` on a missing value

  datatype Event =
    | IntentSubmitted(user: Address, id: IntentId, minDst: int, expiry: nat)
    | IntentAccepted(solver: Address, id: IntentId, deadline: nat)
    | IntentFilled(solver: Address, id: IntentId, amount: int, fee: int)
    | IntentCancelled(user: Address, id: IntentId)
    | IntentExpiredEvent(id: IntentId)
    | SolverSlashed(solver: Address, id: IntentId, amount: int)
    | ExtensionGranted(solver: Address, id: IntentId, deadline: nat)
    | SolverRegistered(solver: Address, token: Token, amount: int)
    | SolverDeregistered(solver: Address, refund: int)
    | BondWithdrawn(solver: Address, amount: int, remaining: int)
    | OtherEvent(id: IntentId)   // fill_begun, fill_disputed, fill_released, intent_closed, ...

  datatype Outcome = Done(state: State, events: seq<Event>) | Reverted(error: Error)

  /** A configured contract nobody has used yet. `funds` are the wallets of the outside world. */
  function Fresh(params: Params, feeRecipient: Address, admin: Address, funds: map<(Token, Address), int>): State {
    var config := Config(MIN_BOND, 300, INTENT_EXPIRY, PROTOCOL_FEE_BPS, 10, 10);
    State(params, Rules(config, false, feeRecipient, admin, 2_592_000, {}, map[], map[]),
          map[], {}, map[], map[], map[], map[], map[], map[], Stamps(map[], map[], map[]),
          0, 0, 0, Bank(map[], funds, []), map[], map[], {})
  }

  // ----- Solver bonds -----

  function BondOf(s: State, a: Address, rec: Solver, t: Token): int {
    if t == s.params.bondToken then rec.bond
    else if (a, t) in s.bonds then s.bonds[(a, t)] else 0
  }

  function MinBondFor(s: State, t: Token): int {
    if t == s.params.bondToken then s.rules.config.minBond
    else if t in s.rules.minBonds then s.rules.minBonds[t] else MIN_BOND
  }

  predicate BondAllowed(s: State, t: Token) { t == s.params.bondToken || t in s.rules.allowedBonds }

  /** The token list rebuilt without `t`. */
  function Without(ts: seq<Token>, t: Token): seq<Token> {
    if ts == [] then []
    else Without(ts[..|ts| - 1], t) + (if ts[|ts| - 1] == t then [] else [ts[|ts| - 1]])
  }

  function TokensAfter(ts: seq<Token>, t: Token, amount: int): seq<Token> {
    if amount > 0 && t !in ts then ts + [t]
    else if amount == 0 && t in ts then Without(ts, t)
    else ts
  }

  /** `set_solver_bond_amount`: the record afterwards. */
  function RecordWithBond(s: State, rec: Solver, t: Token, amount: int): Solver {
    rec.(bond := if t == s.params.bondToken then amount else rec.bond,
         bondTokens := TokensAfter(rec.bondTokens, t, amount))
  }

  /** `set_solver_bond_amount`: the per-token entries afterwards. */
  function BondsAfter(s: State, a: Address, t: Token, amount: int): map<(Address, Token), int> {
    if t == s.params.bondToken then s.bonds
    else if amount > 0 then s.bonds[(a, t) := amount]
    else s.bonds - {(a, t)}
  }

  const NEW_SOLVER := Solver(0, [], 0, 0, 0, true, 0, 0)

  /** A registration writes the bond it asked for and then corrects it to what arrived. */
  function Stored(s: State, a: Address, rec: Solver, t: Token, asked: int, got: int): Solver {
    var first := RecordWithBond(s, rec, t, asked);
    if got == asked then first else RecordWithBond(s.(bonds := BondsAfter(s, a, t, asked)), first, t, got)
  }

  function StoredEntries(s: State, a: Address, t: Token, asked: int, got: int): map<(Address, Token), int> {
    var first := s.(bonds := BondsAfter(s, a, t, asked));
    if got == asked then first.bonds else BondsAfter(first, a, t, got)
  }

  /** The record a registration starts from: a top-up reactivates the solver. */
  function Enlisted(s: State, a: Address): Solver {
    if a in s.solvers then s.solvers[a].(active := true) else NEW_SOLVER
  }

  function Register(s: State, a: Address, t: Token, amount: I128, received: Quantity): Outcome {
    if s.rules.paused then Reverted(ContractPaused)
    else if amount <= 0 then Reverted(ZeroAmount)
    else if !BondAllowed(s, t) then Reverted(BondTokenNotAllowed)
    else
      var rec := Enlisted(s, a);
      var existing := BondOf(s, a, rec, t);
      if !FitsI128(existing + amount) then Reverted(Overflow)
      else if existing + amount < MinBondFor(s, t) then Reverted(SolverBondTooLow)
      else if existing == 0 && |rec.bondTokens| >= MAX_BOND_TOKENS then Reverted(TooManyBondTokens)
      else Enroll(s, a, t, amount, received, existing)
  }

  /** The bond is pulled in and recorded. */
  function Enroll(s: State, a: Address, t: Token, amount: int, received: nat, existing: int): Outcome {
    match s.bank.Pull(t, a, amount, received, BondIn)
    case None => Reverted(WalletShort)
    case Some(bank) =>
      if !FitsI128(existing + received) then Reverted(Overflow) else
      Done(Enrolled(s, a, Stored(s, a, Enlisted(s, a), t, existing + amount, existing + received),
                    StoredEntries(s, a, t, existing + amount, existing + received), bank),
           [SolverRegistered(a, t, amount)])
  }

  function Enrolled(s: State, a: Address, rec: Solver, entries: map<(Address, Token), int>, bank: Bank): State {
    s.(solvers := s.solvers[a := rec], bonds := entries, bank := bank)
  }

  function Withdraw(s: State, a: Address, t: Token, amount: I128): Outcome {
    if s.rules.paused then Reverted(ContractPaused)
    else if amount <= 0 then Reverted(ZeroAmount)
    else if a !in s.solvers then Reverted(SolverNotRegistered)
    else if s.solvers[a].activeIntents > 0 then Reverted(SolverHasActiveIntents)
    else
      var remaining := BondOf(s, a, s.solvers[a], t) - amount;
      if remaining < 0 then Reverted(InsufficientBond)
      else if remaining < MinBondFor(s, t) then Reverted(SolverBondTooLow)
      else
        match s.bank.Send(t, a, amount, BondOut)
        case None => Reverted(ContractShort)
        case Some(bank) =>
          Done(s.(solvers := s.solvers[a := RecordWithBond(s, s.solvers[a], t, remaining)],
                  bonds := BondsAfter(s, a, t, remaining),
                  bank := bank),
               [BondWithdrawn(a, amount, remaining)])
  }

  /** What `deregister_solver` gives back: the default bond first, then the other tokens listed. */
  function Refunds(s: State, a: Address, rec: Solver): seq<(Token, int)> {
    (if rec.bond > 0 then [(s.params.bondToken, rec.bond)] else []) + OtherRefunds(s, a, rec.bondTokens)
  }

  function OtherRefunds(s: State, a: Address, ts: seq<Token>): seq<(Token, int)> {
    if ts == [] then [] else
    var t := ts[|ts| - 1];
    var amount := if (a, t) in s.bonds then s.bonds[(a, t)] else 0;
    OtherRefunds(s, a, ts[..|ts| - 1])
      + (if t != s.params.bondToken && amount > 0 then [(t, amount)] else [])
  }

  function PayRefunds(bank: Bank, a: Address, refunds: seq<(Token, int)>): Option<Bank> {
    if refunds == [] then Some(bank) else
    var (t, amount) := refunds[|refunds| - 1];
    match PayRefunds(bank, a, refunds[..|refunds| - 1])
    case None => None
    case Some(b) => b.Send(t, a, amount, BondOut)
  }

  function RefundedKeys(a: Address, refunds: seq<(Token, int)>, default: Token): set<(Address, Token)> {
    set r <- refunds | r.0 != default :: (a, r.0)
  }

  function Deregister(s: State, a: Address): Outcome {
    if s.rules.paused then Reverted(ContractPaused)
    else if a !in s.solvers then Reverted(SolverNotRegistered)
    else if s.solvers[a].activeIntents > 0 then Reverted(SolverHasActiveIntents)
    else
      var rec := s.solvers[a];
      var refunds := Refunds(s, a, rec);
      match PayRefunds(s.bank, a, refunds)
      case None => Reverted(ContractShort)
      case Some(bank) =>
        Done(s.(solvers := s.solvers - {a},
                bonds := s.bonds - RefundedKeys(a, refunds, s.params.bondToken),
                bank := bank),
             [SolverDeregistered(a, Max(rec.bond, 0))])
  }

  // ----- Intent lifecycle -----

  function HistoryOf(s: State, u: Address): seq<Option<IntentId>> {
    if u in s.history then s.history[u] else []
  }

  function IssuedTo(s: State, u: Address): seq<IntentId> {
    if u in s.issued then s.issued[u] else []
  }

  /** `id` is the hash of the submission; `external` is false when an allowlist,
      the token format, the decimals bound or the policy hook refuses. */
  function Submit(s: State, now: U64, user: Address, srcAmount: I128, dst: Token, minDst: I128,
                  deadline: Option<U64>, referrer: Option<Address>, external: bool, id: IntentId): Outcome
  {
    if s.rules.paused then Reverted(ContractPaused)
    else if srcAmount <= 0 || minDst <= 0 then Reverted(ZeroAmount)
    else if srcAmount > MAX_AMOUNT || minDst > MAX_AMOUNT then Reverted(AmountTooLarge)
    else if !external then Reverted(ExternalCheck)
    else if !FitsU64(now + s.rules.config.intentExpiry) then Reverted(Overflow)
    else
      var expiry := deadline.GetOr(now + s.rules.config.intentExpiry);
      if expiry <= now then Reverted(InvalidDeadline)
      else if referrer == Some(user) then Reverted(SelfReferral)
      else if !FitsU64(NonceOf(s, user) + 1) then Reverted(Overflow)
      else if id in s.intents || id in s.tombstones then Reverted(IntentAlreadyExists)
      else if !AdmitFits(s, user) then Reverted(Overflow)
      else
        Admit(s, now, user, dst, minDst, expiry, id)
  }

  function NonceOf(s: State, u: Address): nat { if u in s.stamps.nonces then s.stamps.nonces[u] else 0 }

  /** The counts an admission adds to. */
  predicate AdmitFits(s: State, user: Address) {
    FitsU32(|HistoryOf(s, user)| + 1) && FitsU64(s.totalIntents + 1) && FitsU64(s.openIntents + 1)
  }

  function Admit(s: State, now: nat, user: Address, dst: Token, minDst: int, expiry: nat, id: IntentId): Outcome {
    var i := Intent(user, dst, minDst, None, Open, now, expiry, None, None, 0, s.params.bondToken,
                    None, None, None, 0, None);
    Done(s.(intents := s.intents[id := i],
            history := s.history[user := HistoryOf(s, user) + [Some(id)]],
            stamps := s.stamps.(nonces := s.stamps.nonces[user := NonceOf(s, user) + 1]),
            openIntents := s.openIntents + 1,
            totalIntents := s.totalIntents + 1,
            issued := s.issued[user := IssuedTo(s, user) + [id]]),
         [IntentSubmitted(user, id, minDst, expiry)])
  }

  /** Exposure value of `amount`: the oracle's weight in basis points, a ten-thousandth of it on overflow. */
  function Notional(amount: int, weight: nat): int {
    TruncDiv(CheckedMul(amount, weight).GetOr(amount), BPS)
  }

  function ExposureOf(s: State, a: Address): int { if a in s.exposure then s.exposure[a] else 0 }

  function Multiplied(s: State, dst: Token): int {
    s.rules.config.minBond * if dst in s.rules.multipliers then s.rules.multipliers[dst] else 10
  }

  function RequiredBond(s: State, t: Token, dst: Token): int {
    if t == s.params.bondToken then TruncDiv(Multiplied(s, dst), 10) else MinBondFor(s, t)
  }

  function SatSub(n: nat, k: nat): nat { if n < k then 0 else n - k }

  /** The end of a slash cooldown can be computed. */
  predicate CooldownFits(rec: Solver) { rec.lastSlash > 0 ==> FitsU64(rec.lastSlash + SLASH_COOLDOWN) }

  function Accept(s: State, now: U64, a: Address, id: IntentId, t: Token, registryTier: nat, weight: Quantity): Outcome {
    if s.rules.paused then Reverted(ContractPaused)
    else if a !in s.solvers then Reverted(SolverNotRegistered)
    else
      var rec := s.solvers[a];
      if !rec.active then Reverted(SolverInactive)
      else if !CooldownFits(rec) then Reverted(Overflow)
      else if rec.lastSlash > 0 && now < rec.lastSlash + SLASH_COOLDOWN then Reverted(SolverInactive)
      else if !BondAllowed(s, t) then Reverted(BondTokenNotAllowed)
      else if id !in s.intents then Reverted(IntentNotFound)
      else
        var i := s.intents[id];
        var bond := BondOf(s, a, rec, t);
        if t == s.params.bondToken && !FitsI128(Multiplied(s, i.dstToken)) then Reverted(Overflow)
        else if bond < RequiredBond(s, t, i.dstToken) then Reverted(SolverBondTooLow)
        else if now >= i.deadline then Reverted(IntentExpired)
        else if i.phase != Open && i.phase != PartiallyFilled then Reverted(IntentNotOpen)
        else if rec.activeIntents >= s.rules.config.maxActive then Reverted(MaxActiveIntentsCapReached)
        else
          Assign(s, now, a, id, t, Min(registryTier, 4), SatI128(ExposureOf(s, a) + Notional(i.minDst, weight)))
  }

  /** The obligation is taken on, unless the solver's exposure would exceed its cover. */
  function Assign(s: State, now: nat, a: Address, id: IntentId, t: Token, tier: nat, exposed: int): Outcome
    requires id in s.intents && a in s.solvers
  {
    var i, rec := s.intents[id], s.solvers[a];
    if !FitsU64(now + TierFillWindow(tier, s.rules.config.fillWindow)) then Reverted(Overflow)
    else if exposed > CheckedMul(BondOf(s, a, rec, t), s.rules.config.coverage).GetOr(I128_MAX)
    then Reverted(ExposureExceeded)
    else
      var deadline := now + TierFillWindow(tier, s.rules.config.fillWindow);
      Done(s.(intents := s.intents[id := i.(solver := Some(a), phase := Accepted, bondToken := t,
                                            solverTier := tier, deadline := deadline)],
              solvers := s.solvers[a := rec.(activeIntents := rec.activeIntents + 1)],
              exposure := s.exposure[a := exposed],
              openIntents := SatSub(s.openIntents, 1),
              acceptances := s.acceptances[id := Acceptance(now, s.rules.config.fillWindow)]),
           [IntentAccepted(a, id, deadline)])
  }

  function FillGuards(i: Intent, a: Address, now: nat): Option<Error> {
    if now >= i.deadline then Some(FillWindowExpired)
    else if i.phase == Filled then Some(IntentAlreadyFilled)
    else if i.phase != Accepted then Some(IntentNotAccepted)
    else if i.solver != Some(a) then Some(Unauthorized)
    else None
  }

  function IntentAfterFill(i: Intent, now: nat, amount: int): Intent {
    var total := i.totalFilled + amount;
    if total >= i.minDst then
      i.(totalFilled := total, fillAmount := Some(total), phase := Filled,
         filledAt := Some(now), terminalAt := Some(now))
    else
      i.(totalFilled := total, fillAmount := Some(total), phase := PartiallyFilled,
         solver := None, solverTier := 0, deadline := now + INTENT_EXPIRY)
  }

  /** `proof` is false when the proof gate refuses. */
  function Fill(s: State, now: U64, a: Address, id: IntentId, amount: I128, proof: bool, weight: Quantity): Outcome {
    if s.rules.paused then Reverted(ContractPaused)
    else if id !in s.intents then Reverted(IntentNotFound)
    else
      var i := s.intents[id];
      var guards := FillGuards(i, a, now);
      if guards.Some? then Reverted(guards.value)
      else if amount <= 0 then Reverted(ZeroAmount)
      else if amount > MAX_AMOUNT then Reverted(AmountTooLarge)
      else if !proof then Reverted(ExternalCheck)
      else
        match CheckedMul(amount, s.rules.config.feeBps)
        case None => Reverted(FeeOverflow)
        case Some(product) =>
          if !FitsI128(i.totalFilled + amount) then Reverted(Overflow)
          else if a !in s.solvers then Reverted(Trap)
          else if !FillFits(s, now, i, s.solvers[a], amount) then Reverted(Overflow)
          else Deliver(s, now, a, id, amount, TruncDiv(product, BPS), weight)
  }

  /** What a fill adds to besides the intent's own total. */
  predicate FillFits(s: State, now: nat, i: Intent, rec: Solver, amount: int) {
    && FitsI128(rec.volume + amount) && FitsI128(s.totalVolume + amount)
    && (if i.totalFilled + amount >= i.minDst then FitsU32(rec.completed + 1)
        else FitsU64(now + INTENT_EXPIRY) && FitsU64(s.openIntents + 1))
  }

  /** The solver pays the user and then its fee; the intent closes or reopens. */
  function Deliver(s: State, now: nat, a: Address, id: IntentId, amount: int, fee: int, weight: nat): Outcome
    requires id in s.intents && a in s.solvers
  {
    match PayFill(s.bank, s.intents[id], id, a, amount, fee, s.rules.feeRecipient)
    case None => Reverted(WalletShort)
    case Some(bank) =>
      Done(Delivered(s, a, id, IntentAfterFill(s.intents[id], now, amount), amount, weight, bank),
           [IntentFilled(a, id, amount, fee)])
  }

  /** The records of a delivery paid for in `bank` that left the intent as `i`. */
  function Delivered(s: State, a: Address, id: IntentId, i: Intent, amount: int, weight: nat, bank: Bank): State
    requires a in s.solvers
  {
    var rec, full := s.solvers[a], i.phase == Filled;
    s.(intents := s.intents[id := i],
       solvers := s.solvers[a := rec.(volume := rec.volume + amount,
                                      completed := if full then rec.completed + 1 else rec.completed,
                                      activeIntents := SatSub(rec.activeIntents, 1))],
       exposure := s.exposure[a := SatI128(ExposureOf(s, a) - Notional(if full then i.minDst else amount, weight))],
       openIntents := if full then s.openIntents else s.openIntents + 1,
       totalVolume := s.totalVolume + amount,
       bank := bank)
  }

  function PayFill(bank: Bank, i: Intent, id: IntentId, a: Address, amount: int, fee: int, r: Address): Option<Bank> {
    match bank.Direct(i.dstToken, a, i.user, amount, Delivery(id))
    case None => None
    case Some(paid) => if fee > 0 then paid.Direct(i.dstToken, a, r, fee, FillFee) else Some(paid)
  }

  function Cancel(s: State, now: U64, user: Address, id: IntentId): Outcome {
    if user in s.stamps.cancels && !FitsU64(s.stamps.cancels[user] + CANCEL_COOLDOWN) then Reverted(Overflow)
    else if user in s.stamps.cancels && now < s.stamps.cancels[user] + CANCEL_COOLDOWN then Reverted(CancelCooldownNotExpired)
    else if id !in s.intents then Reverted(IntentNotFound)
    else
      var i := s.intents[id];
      if i.user != user then Reverted(Unauthorized)
      else if i.phase == Accepted then Reverted(CannotCancelAccepted)
      else if i.phase != Open && i.phase != PartiallyFilled then Reverted(IntentNotOpen)
      else
        Done(s.(intents := s.intents[id := i.(phase := Cancelled, terminalAt := Some(now))],
                stamps := s.stamps.(cancels := s.stamps.cancels[user := now]),
                openIntents := SatSub(s.openIntents, 1)),
             [IntentCancelled(user, id)])
  }

  function Amend(s: State, now: U64, user: Address, id: IntentId, minDst: I128, deadline: U64): Outcome {
    if user in s.stamps.amends && !FitsU64(s.stamps.amends[user] + AMENDMENT_COOLDOWN) then Reverted(Overflow)
    else if user in s.stamps.amends && now < s.stamps.amends[user] + AMENDMENT_COOLDOWN then Reverted(AmendmentCooldownActive)
    else if id !in s.intents then Reverted(IntentNotFound)
    else
      var i := s.intents[id];
      if i.user != user then Reverted(Unauthorized)
      else if i.phase != Open && i.phase != Bidding then Reverted(IntentNotAmendable)
      else if deadline <= now then Reverted(InvalidAmendmentDeadline)
      else if !FitsU64(now + s.rules.config.intentExpiry) then Reverted(Overflow)
      else if deadline > now + s.rules.config.intentExpiry then Reverted(InvalidAmendmentDeadline)
      else if (minDst > i.minDst || deadline < i.deadline) && i.phase != Open then Reverted(AmendmentTooTightening)
      else
        Done(s.(intents := s.intents[id := i.(minDst := minDst, deadline := deadline)],
                stamps := s.stamps.(amends := s.stamps.amends[user := now])),
             [OtherEvent(id)])
  }

  function Expire(s: State, now: U64, id: IntentId): Outcome {
    if id !in s.intents then Reverted(IntentNotFound)
    else
      var i := s.intents[id];
      if i.phase != Open && i.phase != PartiallyFilled then Reverted(IntentNotOpen)
      else if now < i.deadline then Reverted(DeadlineNotReached)
      else
        Done(s.(intents := s.intents[id := i.(phase := Expired, terminalAt := Some(now))],
                openIntents := SatSub(s.openIntents, 1)),
             [IntentExpiredEvent(id)])
  }

  /** The record of a solver slashed by `amount` in token `t`, as both slashing paths leave it. */
  function RecordAfterSlash(s: State, rec: Solver, t: Token, left: int, now: nat): Solver {
    var r := RecordWithBond(s, rec, t, left);
    r.(failed := rec.failed + 1,
       lastSlash := now,
       active := rec.active && !(left < MinBondFor(s, t)),
       activeIntents := SatSub(rec.activeIntents, 1))
  }

  function SendIfAny(bank: Bank, t: Token, a: Address, amount: int, purpose: Purpose): Option<Bank> {
    if amount > 0 then bank.Send(t, a, amount, purpose) else Some(bank)
  }

  function Slash(s: State, now: U64, id: IntentId, weight: Quantity): Outcome {
    if id !in s.intents then Reverted(IntentNotFound)
    else
      var i := s.intents[id];
      if i.phase != Accepted then Reverted(IntentNotAccepted)
      else if now < SatAdd(i.deadline, s.params.grace) then Reverted(FillWindowExpired)
      else if i.solver.None? || i.solver.value !in s.solvers then Reverted(Trap)
      else if !SlashFits(s, now, i, s.solvers[i.solver.value]) then Reverted(Overflow)
      else
        SlashAccepted(s, now, id, i.solver.value, weight)
  }

  /** What a slash computes without checks: the unfilled amount, the new deadline, two counts. */
  predicate SlashFits(s: State, now: nat, i: Intent, rec: Solver) {
    && FitsI128(i.minDst - i.totalFilled) && FitsU64(now + s.rules.config.intentExpiry)
    && FitsU32(rec.failed + 1) && FitsU64(s.openIntents + 1)
  }

  function SlashAccepted(s: State, now: nat, id: IntentId, a: Address, weight: nat): Outcome
    requires id in s.intents && a in s.solvers
  {
    var i, rec := s.intents[id], s.solvers[a];
    var bond := BondOf(s, a, rec, i.bondToken);
    var cut := SlashAmount(bond, i.minDst - i.totalFilled);
    match SendIfAny(s.bank, i.bondToken, s.rules.feeRecipient, cut, Penalty)
    case None => Reverted(ContractShort)
    case Some(bank) =>
      Done(s.(intents := s.intents[id := i.(solver := None, solverTier := 0, phase := Open,
                                            deadline := now + s.rules.config.intentExpiry)],
              solvers := s.solvers[a := RecordAfterSlash(s, rec, i.bondToken, bond - cut, now)],
              bonds := BondsAfter(s, a, i.bondToken, bond - cut),
              exposure := s.exposure[a := SatI128(ExposureOf(s, a) - Notional(SatI128(i.minDst - i.totalFilled), weight))],
              openIntents := s.openIntents + 1,
              bank := bank),
           [SolverSlashed(a, id, cut)])
  }

  // ----- Bid window -----

  function Eligible(s: State, now: nat, a: Address): bool {
    && a in s.solvers
    && s.solvers[a].active
    && s.solvers[a].bond >= s.rules.config.minBond
    && s.solvers[a].activeIntents < s.rules.config.maxActive
    && (s.solvers[a].lastSlash == 0 || s.solvers[a].lastSlash + SLASH_COOLDOWN <= now)
  }

  function PlaceBid(s: State, now: U64, a: Address, id: IntentId, quoted: I128): Outcome {
    if s.rules.paused then Reverted(ContractPaused)
    else if quoted <= 0 then Reverted(ZeroAmount)
    else if id !in s.intents then Reverted(IntentNotFound)
    else if s.intents[id].phase != Bidding then Reverted(IntentNotBidding)
    else if now >= s.intents[id].deadline then Reverted(BidWindowClosed)
    else if a in s.solvers && !CooldownFits(s.solvers[a]) then Reverted(Overflow)
    else if !Eligible(s, now, a) then Reverted(SolverInactive)
    else if id in s.bids && quoted <= s.bids[id].quoted then Reverted(BidNotHigher)
    else Done(s.(bids := s.bids[id := Bid(a, quoted)]), [OtherEvent(id)])
  }

  function AwardBid(s: State, now: nat, id: IntentId, a: Address): State
    requires id in s.intents && a in s.solvers
  {
    var rec := s.solvers[a];
    s.(intents := s.intents[id := s.intents[id].(solver := Some(a), phase := Accepted,
                                                 bondToken := s.params.bondToken,
                                                 deadline := now + s.rules.config.fillWindow)],
       solvers := s.solvers[a := rec.(activeIntents := rec.activeIntents + 1)],
       bids := s.bids - {id},
       openIntents := SatSub(s.openIntents, 1),
       acceptances := s.acceptances[id := Acceptance(now, s.rules.config.fillWindow)])
  }

  function ReopenAfterBids(s: State, now: nat, id: IntentId): State
    requires id in s.intents
  {
    s.(intents := s.intents[id := s.intents[id].(phase := Open, deadline := now + s.rules.config.intentExpiry)],
       bids := s.bids - {id})
  }

  function SettleBids(s: State, now: U64, id: IntentId): Outcome {
    if id !in s.intents then Reverted(IntentNotFound)
    else
      var i := s.intents[id];
      if i.phase != Bidding then Reverted(IntentNotBidding)
      else if now < i.deadline then Reverted(BidWindowStillOpen)
      else if id in s.bids && s.bids[id].solver in s.solvers && !CooldownFits(s.solvers[s.bids[id].solver])
      then Reverted(Overflow)
      else if id in s.bids && Eligible(s, now, s.bids[id].solver) then
        var a := s.bids[id].solver;
        if !FitsU64(now + s.rules.config.fillWindow) then Reverted(Overflow) else
        Done(AwardBid(s, now, id, a), [IntentAccepted(a, id, now + s.rules.config.fillWindow), OtherEvent(id)])
      else if !FitsU64(now + s.rules.config.intentExpiry) then Reverted(Overflow)
      else
        Done(ReopenAfterBids(s, now, id), [OtherEvent(id)])
  }

  // ----- Escrow and disputes -----

  function BeginFill(s: State, now: U64, a: Address, id: IntentId, amount: I128, received: Quantity): Outcome {
    if s.rules.paused then Reverted(ContractPaused)
    else if id !in s.intents then Reverted(IntentNotFound)
    else
      var i := s.intents[id];
      if i.phase != Accepted then Reverted(IntentNotAcceptedForFill)
      else if i.solver != Some(a) then Reverted(Unauthorized)
      else if now >= i.deadline then Reverted(FillWindowExpired)
      else if amount <= 0 then Reverted(ZeroAmount)
      else if !FitsI128(i.totalFilled + amount) then Reverted(Overflow)
      else if i.totalFilled + amount < i.minDst then Reverted(InsufficientOutput)
      else if !FitsU64(now + DISPUTE_WINDOW) then Reverted(Overflow)
      else
        match s.bank.Pull(i.dstToken, a, amount, received, EscrowIn(id))
        case None => Reverted(WalletShort)
        case Some(bank) =>
          Done(s.(intents := s.intents[id := i.(phase := Filling, disputeDeadline := Some(now + DISPUTE_WINDOW),
                                                fillAmount := Some(received))],
                  bank := bank,
                  short := if i.totalFilled + received < i.minDst then s.short + {id} else s.short),
               [OtherEvent(id)])
  }

  function Dispute(s: State, now: U64, user: Address, id: IntentId): Outcome {
    if id !in s.intents then Reverted(IntentNotFound)
    else
      var i := s.intents[id];
      if i.phase != Filling then Reverted(IntentNotFilling)
      else if i.user != user then Reverted(Unauthorized)
      else if now >= i.disputeDeadline.GetOr(0) then Reverted(DisputeWindowClosed)
      else Done(s.(intents := s.intents[id := i.(phase := Disputed, disputeRaisedAt := Some(now))]), [OtherEvent(id)])
  }

  /** The escrow leaves the contract: `fee` to the fee recipient, the rest to the user. */
  function PayEscrow(bank: Bank, i: Intent, id: IntentId, escrow: int, fee: int, feeRecipient: Address): Option<Bank> {
    match bank.Send(i.dstToken, i.user, escrow - fee, Delivery(id))
    case None => None
    case Some(b) => SendIfAny(b, i.dstToken, feeRecipient, fee, EscrowFee(id))
  }

  function IntentAfterEscrow(i: Intent, now: nat, phase: Phase, ruling: Option<Ruling>): Intent {
    var total := i.totalFilled + i.fillAmount.GetOr(0);
    i.(totalFilled := total, fillAmount := Some(total), filledAt := Some(now), terminalAt := Some(now),
       phase := phase, ruling := ruling)
  }

  /** What a ruling against the solver computes without checks. */
  predicate UpholdFits(i: Intent, rec: Solver) {
    && FitsI128(i.minDst - i.totalFilled) && FitsU32(rec.failed + 1)
    && FitsI128(i.totalFilled + i.fillAmount.GetOr(0))
  }

  /** What crediting the solver with a completed escrow adds to. */
  predicate CreditFits(rec: Solver, escrow: int) { FitsU32(rec.completed + 1) && FitsI128(rec.volume + escrow) }

  /** What paying out an escrow adds to. */
  predicate PayoutFits(s: State, i: Intent, escrow: int) {
    FitsI128(i.totalFilled + escrow) && FitsI128(s.totalVolume + escrow)
  }

  /** Misconduct: the whole escrow goes to the user and the solver is slashed. */
  function Uphold(s: State, now: nat, id: IntentId, a: Address): Outcome
    requires id in s.intents && a in s.solvers
  {
    var i, rec := s.intents[id], s.solvers[a];
    var bond := BondOf(s, a, rec, i.bondToken);
    var cut := SlashAmount(bond, i.minDst - i.totalFilled);
    if !UpholdFits(i, rec) then Reverted(Overflow) else
    match PayEscrow(s.bank, i, id, i.fillAmount.GetOr(0), 0, s.rules.feeRecipient)
    case None => Reverted(ContractShort)
    case Some(paid) =>
      match SendIfAny(paid, i.bondToken, s.rules.feeRecipient, cut, Penalty)
      case None => Reverted(ContractShort)
      case Some(bank) =>
        Done(s.(intents := s.intents[id := IntentAfterEscrow(i, now, Resolved, Some(Upheld))],
                solvers := s.solvers[a := RecordAfterSlash(s, rec, i.bondToken, bond - cut, now)],
                bonds := BondsAfter(s, a, i.bondToken, bond - cut),
                bank := bank),
             [OtherEvent(id)])
  }

  /** The solver's record credited with a completed escrow fill. */
  function Credited(rec: Solver, escrow: int): Solver {
    rec.(completed := rec.completed + 1, volume := rec.volume + escrow, activeIntents := SatSub(rec.activeIntents, 1))
  }

  /** The records of an escrow paid out in `bank`: the intent as `i`, the solver as `rec`. */
  function Settled(s: State, id: IntentId, i: Intent, a: Address, rec: Solver, escrow: int, bank: Bank): State {
    s.(intents := s.intents[id := i], solvers := s.solvers[a := rec],
       totalVolume := s.totalVolume + escrow, bank := bank)
  }

  /** A legitimate fill: escrow less fee to the user, and the solver is credited. */
  function Dismiss(s: State, now: nat, id: IntentId, a: Address): Outcome
    requires id in s.intents && a in s.solvers
  {
    var i := s.intents[id];
    var escrow := i.fillAmount.GetOr(0);
    match CheckedMul(escrow, PROTOCOL_FEE_BPS)
    case None => Reverted(FeeOverflow)
    case Some(product) =>
      if !CreditFits(s.solvers[a], escrow) || !PayoutFits(s, i, escrow) then Reverted(Overflow) else
      match PayEscrow(s.bank, i, id, escrow, TruncDiv(product, BPS), s.rules.feeRecipient)
      case None => Reverted(ContractShort)
      case Some(bank) =>
        Done(Settled(s, id, IntentAfterEscrow(i, now, Resolved, Some(Dismissed)),
                     a, Credited(s.solvers[a], escrow), escrow, bank),
             [OtherEvent(id)])
  }

  function Resolve(s: State, now: U64, caller: Address, id: IntentId, ruling: Ruling): Outcome {
    if caller != s.rules.arbiter then Reverted(NotArbiter)
    else if id !in s.intents then Reverted(IntentNotFound)
    else
      var i := s.intents[id];
      if i.phase != Disputed then Reverted(IntentNotDisputed)
      else if i.solver.None? || i.solver.value !in s.solvers then Reverted(Trap)
      else if ruling == Upheld then Uphold(s, now, id, i.solver.value)
      else Dismiss(s, now, id, i.solver.value)
  }

  /** The fee `release_fill` takes, or why it refuses: none after an arbiter timeout. */
  function ReleaseFee(i: Intent, now: nat): Result<int, Error> {
    match i.phase
    case Filling =>
      if now < i.disputeDeadline.GetOr(0) then Err(DisputeWindowStillOpen) else
      (match CheckedMul(i.fillAmount.GetOr(0), PROTOCOL_FEE_BPS)
       case None => Err(FeeOverflow)
       case Some(product) => Ok(TruncDiv(product, BPS)))
    case Disputed =>
      if !FitsU64(i.disputeRaisedAt.GetOr(0) + ARBITER_WINDOW) then Err(Overflow)
      else if now < i.disputeRaisedAt.GetOr(0) + ARBITER_WINDOW then Err(DisputeWindowStillOpen) else Ok(0)
    case _ => Err(IntentNotFilling)
  }

  function Release(s: State, now: U64, id: IntentId): Outcome {
    if id !in s.intents then Reverted(IntentNotFound)
    else
      var i := s.intents[id];
      if i.solver.None? || i.solver.value !in s.solvers then Reverted(Trap)
      else
        match ReleaseFee(i, now)
        case Err(e) => Reverted(e)
        case Ok(fee) => SettleEscrow(s, now, id, i.solver.value, fee)
  }

  function SettleEscrow(s: State, now: nat, id: IntentId, a: Address, fee: int): Outcome
    requires id in s.intents && a in s.solvers
  {
    var i, rec := s.intents[id], s.solvers[a];
    var escrow, undisputed := i.fillAmount.GetOr(0), i.phase == Filling;
    if (undisputed && !CreditFits(rec, escrow)) || !PayoutFits(s, i, escrow) then Reverted(Overflow) else
    match PayEscrow(s.bank, i, id, escrow, fee, s.rules.feeRecipient)
    case None => Reverted(ContractShort)
    case Some(bank) =>
      var i' := IntentAfterEscrow(i, now, if undisputed then Filled else Resolved, if undisputed then i.ruling else None);
      var rec' := if undisputed then Credited(rec, escrow) else rec.(activeIntents := SatSub(rec.activeIntents, 1));
      Done(Settled(s, id, i', a, rec', escrow, bank), [OtherEvent(id)])
  }

  function Extend(s: State, a: Address, id: IntentId): Outcome {
    if id !in s.intents then Reverted(IntentNotFound)
    else
      var i := s.intents[id];
      if i.phase != Accepted then Reverted(IntentNotAccepted)
      else if i.solver != Some(a) then Reverted(Unauthorized)
      else if id in s.extensions then Reverted(ExtensionAlreadyGranted)
      else if MAX_EXTENSION_DURATION > s.params.maxExtension then Reverted(ExtensionCapExceeded)
      else
        var deadline := i.deadline + MAX_EXTENSION_DURATION;
        if !FitsU64(deadline) then Reverted(Overflow) else
        Done(s.(intents := s.intents[id := i.(deadline := deadline)],
                extensions := s.extensions[id := MAX_EXTENSION_DURATION]),
             [ExtensionGranted(a, id, deadline)])
  }

  // ----- Pruning -----

  /** The first slot holding `id` is blanked; the others keep their places. */
  function BlankFirst(h: seq<Option<IntentId>>, id: IntentId): seq<Option<IntentId>> {
    if h == [] then []
    else if h[0] == Some(id) then [None] + h[1..]
    else [h[0]] + BlankFirst(h[1..], id)
  }

  function Close(s: State, now: U64, id: IntentId): Outcome {
    if id !in s.intents then Reverted(IntentNotFound)
    else
      var i := s.intents[id];
      if !i.Terminal() then Reverted(IntentNotTerminal)
      else if now < SatAdd(i.terminalAt.GetOr(i.createdAt), s.rules.retention) then Reverted(RetentionPeriodNotElapsed)
      else
        Done(s.(intents := s.intents - {id},
                tombstones := s.tombstones + {id},
                extensions := s.extensions - {id},
                bids := s.bids - {id},
                history := if i.user in s.history
                           then s.history[i.user := BlankFirst(s.history[i.user], id)] else s.history),
             [OtherEvent(id)])
  }

  // ----- Administration -----

  datatype Change =
    | SetConfig(config: Config) | SetPaused(paused: bool) | SetFeeRecipient(to: Address)
    | SetArbiter(arbiter: Address) | AllowBond(token: Token) | DisallowBond(token: Token)
    | SetMinBond(token: Token, amount: I128) | SetMultiplier(token: Token, amount: I128)
    | SetRetention(secs: U64)

  /** The admin entrypoints the lifecycle depends on. `coverage` is not settable. */
  function Administer(s: State, c: Change): Outcome {
    var r := s.rules;
    match c
    case SetConfig(cfg) =>
      if !cfg.Valid() then Reverted(InvalidConfig)
      else Done(s.(rules := r.(config := cfg.(coverage := r.config.coverage))), [])
    case SetPaused(p) => Done(s.(rules := r.(paused := p)), [])
    case SetFeeRecipient(a) => Done(s.(rules := r.(feeRecipient := a)), [])
    case SetArbiter(a) => Done(s.(rules := r.(arbiter := a)), [])
    case AllowBond(t) => Done(s.(rules := r.(allowedBonds := r.allowedBonds + {t})), [])
    case DisallowBond(t) => Done(s.(rules := r.(allowedBonds := r.allowedBonds - {t})), [])
    case SetMinBond(t, n) =>
      if n <= 0 then Reverted(ZeroAmount) else Done(s.(rules := r.(minBonds := r.minBonds[t := n])), [])
    case SetMultiplier(t, n) =>
      if n <= 0 then Reverted(ZeroAmount) else Done(s.(rules := r.(multipliers := r.multipliers[t := n])), [])
    case SetRetention(n) => Done(s.(rules := r.(retention := n)), [])
  }

  // ----- Runs -----

  datatype Action =
    | DoRegister(a: Address, t: Token, amount: I128, received: Quantity)
    | DoWithdraw(a: Address, t: Token, amount: I128)
    | DoDeregister(a: Address)
    | DoSubmit(user: Address, srcAmount: I128, dst: Token, minDst: I128, expiry: Option<U64>,
               referrer: Option<Address>, external: bool, id: IntentId)
    | DoAccept(a: Address, id: IntentId, t: Token, tier: nat, weight: Quantity)
    | DoFill(a: Address, id: IntentId, amount: I128, proof: bool, weight: Quantity)
    | DoCancel(user: Address, id: IntentId)
    | DoAmend(user: Address, id: IntentId, minDst: I128, deadline: U64)
    | DoExpire(id: IntentId)
    | DoSlash(id: IntentId, weight: Quantity)
    | DoBid(a: Address, id: IntentId, quoted: I128)
    | DoSettleBids(id: IntentId)
    | DoBeginFill(a: Address, id: IntentId, amount: I128, received: Quantity)
    | DoDispute(user: Address, id: IntentId)
    | DoResolve(caller: Address, id: IntentId, ruling: Ruling)
    | DoRelease(id: IntentId)
    | DoExtend(a: Address, id: IntentId)
    | DoClose(id: IntentId)
    | DoAdminister(change: Change)
    | Mint(t: Token, a: Address, minted: nat)   // the outside world funds a wallet

  function Perform(s: State, now: U64, x: Action): Outcome {
    match x
    case DoRegister(a, t, amount, received) => Register(s, a, t, amount, received)
    case DoWithdraw(a, t, amount) => Withdraw(s, a, t, amount)
    case DoDeregister(a) => Deregister(s, a)
    case DoSubmit(u, src, dst, min, expiry, ref, ext, id) => Submit(s, now, u, src, dst, min, expiry, ref, ext, id)
    case DoAccept(a, id, t, tier, w) => Accept(s, now, a, id, t, tier, w)
    case DoFill(a, id, amount, proof, w) => Fill(s, now, a, id, amount, proof, w)
    case DoCancel(u, id) => Cancel(s, now, u, id)
    case DoAmend(u, id, min, deadline) => Amend(s, now, u, id, min, deadline)
    case DoExpire(id) => Expire(s, now, id)
    case DoSlash(id, w) => Slash(s, now, id, w)
    case DoBid(a, id, q) => PlaceBid(s, now, a, id, q)
    case DoSettleBids(id) => SettleBids(s, now, id)
    case DoBeginFill(a, id, amount, received) => BeginFill(s, now, a, id, amount, received)
    case DoDispute(u, id) => Dispute(s, now, u, id)
    case DoResolve(c, id, r) => Resolve(s, now, c, id, r)
    case DoRelease(id) => Release(s, now, id)
    case DoExtend(a, id) => Extend(s, a, id)
    case DoClose(id) => Close(s, now, id)
    case DoAdminister(c) => Administer(s, c)
    case Mint(t, a, n) => Done(s.(bank := s.bank.(wallets := s.bank.wallets[(t, a) := s.bank.Balance(t, a) + n])), [])
  }

  /** A call at ledger time `now`. A reverted call leaves the state as it was. */
  datatype Call = Call(now: U64, action: Action)

  function After(s: State, c: Call): State {
    match Perform(s, c.now, c.action)
    case Done(s', _) => s'
    case Reverted(_) => s
  }

  function Run(s: State, calls: seq<Call>): State {
    if calls == [] then s else After(Run(s, calls[..|calls| - 1]), calls[|calls| - 1])
  }
}
