# Vortex Protocol: a verified model

Vortex lets a user post an *intent* to swap tokens across chains and lets bonded *solvers* compete to deliver the output
on Stellar. The parts below are modelled, each against the code as it stands, and their guarantees are proved
for every run: whoever calls whatever, in any order and at any ledger times.

| part | source | Dafny files |
|---|---|---|
| Intent settlement: intents, solver bonds in several tokens, escrow and disputes | `intent_settlement/src/lib.rs` | `SettlementModel`, `SettlementCounters`, `SettlementLedger`, `SettlementRecords`, `SettlementWidths`, `SettlementTheorems`, `SettlementFrames`, `SettlementDelivery`, `SettlementExtensions`, `SettlementAccounts`, `SettlementStandings`, `SettlementTransitions`, `SettlementFees`, `SettlementExposure`, `SettlementBids`, `SettlementStuck`, `SettlementScenario`, `SettlementJams`, `SettlementContract` |
| Its arithmetic and proof payloads | `intent_settlement/src/math.rs` | `SettlementMath`, `SettlementArithmetic`, `ProofPayload` |
| Its two index structures | `intent_settlement/src/lib.rs` | `SolverIndex`, `UserHistory` |
| Arbiter panel | `arbiter_panel/src/lib.rs` | `PanelModel`, `PanelDraw`, `PanelTheorems`, `PanelRounds`, `PanelStandings`, `PanelContract` |
| Panel and settlement together | both | `PanelSettlement`, `DisputeSystem`, `DisputeTimeout` |
| Backstop vault | `backstop_vault/src/lib.rs` | `VaultModel`, `VaultTheorems`, `VaultAccounts`, `VaultEmergency`, `VaultContract` |
| Governor | `governor/src/lib.rs` | `GovernorModel`, `GovernorTheorems`, `GovernorHistory`, `GovernorContract` |
| Event-replay indexer | `indexer/reference-indexer.js` | `IndexerModel`, `ReplayTheorems`, `ReplayDrift`, `ReplaySolvers`, `ReplayAmended`, `IndexerContract` |
| Error-reference call graph | `scripts/generate-error-reference.py` | `CallGraph` |

`Sums` holds the totals over maps and logs that every counter and ledger is compared with; `Wrappers` holds `Option` and
`Result`.

## How it is built

Each contract appears twice. A `...Model` file gives its stored state as a value and one function per entrypoint: the
state after the call and the events published, or the error the call reverts with, guards in the order of the source.
The `...Theorems` files prove invariants of single calls and then of runs (`Run` folds a sequence of calls). The
`...Contract` file is the imperative form, a class whose fields are the storage entries and whose methods load, update and
write them; each method is proved to end exactly as its function says, and to change nothing when it fails. A revert is
modelled as the absence of any effect.

What those functions themselves do is stated apart from their bodies: `SettlementAccounts`, `SettlementStandings`,
`SettlementTransitions`, `SettlementBids` and `SettlementExposure`, `GovernorHistory`, `VaultAccounts`, `PanelRounds` and
`PanelStandings` say of every call when it is allowed and by how much it moves every balance, bond, share, vote and
record, with fees, penalties, windows and thresholds written out, and sum these movements over runs.

A token is an exact balance map. A transfer out of a short balance fails and reverts the call. A pull of tokens into the
settlement contract takes the amount that arrives as an input, so fee-on-transfer tokens are covered. Ledger times are
arbitrary inputs of settlement, panel and vault calls; the governor's ledger sequence never decreases. Random draws, the
oracle's weight, a solver's tier, the registry's bond, the proof gate, the allowlists and what other contracts answer are
inputs of the calls too. In `DisputeSystem` the panel and the settlement contract run side by side instead, and what each
answers the other comes from its state.

Both manifests set `overflow-checks = true`, so a plain operation that leaves its type panics. In the settlement
entrypoints every such operation is a revert with `Overflow`, amounts, times and counts that callers pass are bounded by
their types, and checked and saturating operations are what they are in the code.

`intent_settlement/src/lib.rs` carries duplicated definitions from merges. Modelled are `fill_intent_inner` at line 3484,
`begin_fill` at 4330 and the helpers at 6282-7101. `SLASH_GRACE_SECS` and `MAX_TOTAL_EXTENSION` are used but declared
nowhere; they are arbitrary constants of a deployment here.

## Where the code and its documentation differ

The code is followed, and what it does instead is proved.

- Slash cap. The documentation caps a slash at `bond * 1000 / 10000`; the code computes `(bond / 10000) * 1000`. They
  agree exactly as `SettlementArithmetic.SlashAsDocumented` and `FullDefault` say. The repository's own unit test at
  `intent_settlement/src/math.rs:308-313` expects 100 where the code gives 1.
- Fill window. The helper is said to return at least the base window always; it does so exactly up to
  `u64::MAX / 10000` (`FillWindowBounds`).
- Auction price. The contract's `current_min_dst` lacks the guard of `dutch_decay`; `DecayAgrees` says when they differ.
- Bounded progress. Slashing and releasing are meant to be open to anyone in the end. They are exactly while the numbers
  they compute stay in range (`BoundedProgress`), which nothing makes sure of: an escrow has no upper bound, an amended
  minimum no lower one, and the total volume only grows. The failures that amounts and
  settings cause, rather than a count used up, are each reached by a run (`SettlementJams`); which failures are for good
  is exact, and those stay for ever (`JammedExactly`, `StuckForever`).
- Extensions. The comment on `request_extension` allows several per intent within a budget, the event schema one. The
  guard at line 5228 grants one, in every run (`ExtendedAtMostOnce`), and refuses a second whatever the budget
  (`SecondExtensionRefused`).
- Registrations. The event schema and the indexer expect the bare bond amount; the contract publishes the pair of token
  and amount, and the indexer's handler throws (`SolversLost`, `SolversAsDocumented`).
- Arbiter timeouts. A panel round that reached its verdict but was not tallied before settlement stopped taking it can
  never be settled, and its members can never leave (`LateRoundTraps`); such a joint run is given (`LateRoundReached`).
- Vault solvency holds until compensation is paid. After it a withdrawal is refused exactly when its part exceeds the
  tokens behind the assets (`WithdrawShortExactly`), which for the last provider is a loss of a billionth of the shares
  (`LastProviderRefused`).
- Emergency exits. A queued exit stays counted in the assets, so later exits are promised more than their part
  (`LaterExitsPromisedMore`); the promises can exceed what the vault holds, and then one is refused
  (`PromiseRefusedExactly`, `PromisesExceedTokens`).
- Exposure cap. What a solver owes stays within the cover of its bond while weights do not change (`OwedWithinCover`), but
  the escrow path gives nothing back, so a solver that only uses it works its cover off (`EscrowsStayCounted`,
  `CoverUsedUp`).
- Snapshot voting. Stake synced after a proposal but in the same ledger does count (`SameLedgerSync`); from the next
  ledger on it never does (`SnapshotNeverRises`, `LateStakeNeverVotes`).
- Cancelled proposals. `execute` does not look at the cancellation: cancelling stops a proposal if and only if it comes
  before the queueing (`CancelStopsExactly`, `CanceledYetExecuted`).
- Replays. The state documented as rebuilt from events alone misses escrow and amendments; how far is exact
  (`ReplayDiffers`, `VolumeLags`, `OpenCounters`, `SolversPictured`). It never shows a solver suspended.

## Model

| member | source | states |
|---|---|---|
| SettlementCounters.CountersStep | intent_settlement/src/lib.rs:3365-3401 | One call of any entrypoint keeps every solver's `active_intents` equal to the number of its Accepted, Filling and Disputed intents, and `OpenIntents` equal to the number of Open, PartiallyFilled and Bidding ones |
| SettlementCounters.CountersExact | intent_settlement/src/lib.rs:3923 | The same after any sequence of calls at any ledger times, so no saturating decrement ever saturates |
| SettlementCounters.ObligationCounted | intent_settlement/src/lib.rs:3885-3903 | The solver of a live obligation is registered and its counter is positive when slash_solver decrements it |
| SettlementCounters.OpenCounted | intent_settlement/src/lib.rs:4066-4073 | An open intent makes `OpenIntents` positive when expire_intent decrements it |
| SettlementLedger.BondWritten | intent_settlement/src/lib.rs:6789-6829 | Writing one bond keeps `bond_tokens` the list, without repeats, of exactly the tokens with a positive bond, at most eight |
| SettlementLedger.Corrected | intent_settlement/src/lib.rs:2775-2824 | Recording the requested bond and then correcting it to what a fee-on-transfer token delivered leaves the record and entries of the delivered amount |
| SettlementLedger.RefundedInFull | intent_settlement/src/lib.rs:2861-2921 | deregister_solver always succeeds for an idle solver, pays every bond in every token in full and leaves no entry of that solver, touching nobody else's |
| SettlementLedger.SolventStep | intent_settlement/src/lib.rs:4562-4572 | One call of any entrypoint keeps, per token, the contract's balance equal to all bonds plus all escrows in that token, with the slash paid out once, by lines 4026-4030 (the source text also pays at 3996-4025) |
| SettlementLedger.AlwaysSolvent | intent_settlement/src/lib.rs:6894-6906 | The same after any sequence of calls, fee-on-transfer tokens included, slashes under that single payout |
| SettlementLedger.NeverShort | intent_settlement/src/lib.rs:4668-4674 | In such a state no call reverts because the contract cannot pay, a slash paying once |
| SettlementRecords.RecordsStep | intent_settlement/src/lib.rs:3543-3577 | One call of any entrypoint keeps every intent record true: receipts add up, deadlines follow from the acceptance, phases fit the totals, listings match submissions |
| SettlementRecords.RecordsAlways | intent_settlement/src/lib.rs:4533-4565 | The same over any run: output received plus escrow fees equals `total_filled`, every escrow leaves exactly once and in full, Filled means at least the minimum unless the escrow arrived short, PartiallyFilled means strictly between zero and the minimum, no id is issued twice |
| SettlementRecords.NothingToSettle | intent_settlement/src/lib.rs:4181-4200 | No reachable intent is in the bid window, so settle_bids never does anything |
| SettlementRecords.WindowBound | intent_settlement/src/lib.rs:6685-6691 | A tier stretches the fill window to at most one and a half times the configured one |
| SettlementWidths.WidthsStep | intent_settlement/Cargo.toml:12 | One call of any entrypoint keeps every stored amount, time and count within its type, the volumes from falling, and TotalVolume at least every solver's volume and every live intent's `total_filled` |
| SettlementWidths.WidthsAlways | intent_settlement/Cargo.toml:12 | The same over any run, so the refusals of the model are the overflow panics of the code |
| SettlementTheorems.Always | intent_settlement/src/lib.rs:3060-3247 | Counters, ledger, records and widths hold in every state reachable from a fresh deployment |
| SettlementTheorems.ObligationLocksBond | intent_settlement/src/lib.rs:2978-2980 | While a solver owes an intent it stays registered and can neither withdraw nor deregister |
| SettlementTheorems.TrapsExactly | intent_settlement/src/lib.rs:4601-4606 | The one unwrap that can fail in a reachable state is release_fill's, exactly on an intent whose assigned solver is missing, and never on a live obligation |
| SettlementTheorems.VolumeDecides | intent_settlement/src/lib.rs:4628-4669 | Of the three sums an escrow payout adds to, TotalVolume is the largest, so it overflows first |
| SettlementTheorems.BoundedProgress | intent_settlement/src/lib.rs:4590-4645 | Once the accept time + 1.5 windows + 300 + max(grace, dispute window + arbiter window) has passed, anyone can end an obligation, paused or not: exactly when what slash_solver or release_fill computes without checks stays in range (`CanEnd`: min minus filled, now plus expiry and two counts for an accepted intent; TotalVolume plus escrow for an escrow and, undisputed, its fee and the solver's count) |
| SettlementStuck.JammedExactly | intent_settlement/src/lib.rs:3912-3978 | Past its exit time, and with room left in the 64-bit clock and open count, an obligation can be ended by some further calls, short of a ruling against the solver, if and only if it is not `Jammed`: the failing exits of an escrow are all for good, of an accepted intent all but an expiry set too long |
| SettlementStuck.StuckForever | intent_settlement/src/lib.rs:4617-4675 | An obligation so jammed is the same after any run of calls made once filling or disputing is over, short of a ruling against the solver: same phase, solver, amounts and escrow, and still jammed |
| SettlementStuck.StuckMeans | intent_settlement/src/lib.rs:2978-2980 | Neither exit then ever works, and the solver can neither withdraw nor deregister |
| SettlementStuck.ShorterExpiryHelps | intent_settlement/src/lib.rs:2010-2057 | A slash refused for the configured expiry goes through once the admin has set the shortest one |
| SettlementJams.OversizedFillReached | intent_settlement/src/lib.rs:4330-4383 | A run into an escrow whose fee overflows: begin_fill has no upper bound on the amount |
| SettlementJams.FullVolumeReached | intent_settlement/src/lib.rs:4662-4669 | A run into an undisputed escrow of a single unit that TotalVolume has no room for, after an escrow of 2^127 - 1 was released on the arbiter timeout |
| SettlementJams.FullVolumeDisputed | intent_settlement/src/lib.rs:4634-4645 | The same for a disputed escrow |
| SettlementJams.LowestMinimumReached | intent_settlement/src/lib.rs:3912 | A run into an accepted intent whose minimum, amended to the lowest i128 after a partial fill, makes min minus filled overflow |
| SettlementJams.EndlessExpiryReached | intent_settlement/src/lib.rs:3967 | A run after which the configured expiry makes every slash overflow |
| SettlementExtensions.ExtendedAtMostOnce | intent_settlement/src/lib.rs:5228-5236 | In every run from deployment the log grants an intent at most one extension, closing and resubmitting included |
| SettlementExtensions.ExtensionGrantedExactly | intent_settlement/src/lib.rs:5208-5272 | After any run a request is granted exactly to the solver of an accepted intent the log has not extended yet, if 300 seconds are within the total and the new deadline fits; it moves the deadline by 300 |
| SettlementExtensions.SecondExtensionRefused | intent_settlement/src/lib.rs:5228-5247 | With room for three extensions in the total, the second request of a concrete run is refused |
| SettlementDelivery.DeliveryLedger | intent_settlement/src/lib.rs:3543-3577 | In every run from deployment: output the user received plus fees taken from escrow equals `total_filled`; what went into escrow is out again except what is pending; PartiallyFilled means strictly between zero and the minimum |
| SettlementDelivery.FilledMeansMinimum | intent_settlement/src/lib.rs:4358-4383 | With tokens that arrive in full, Filled means at least the minimum and every escrow completes it |
| SettlementDelivery.IdsNeverReissued | intent_settlement/src/lib.rs:3167-3177 | No id is ever issued twice, to the same user or to two, across closing and resubmitting |
| SettlementAccounts.BalancesMove | intent_settlement/src/lib.rs:3543-3577 | Of every call that goes through, by how much it moves the balance of every wallet and of the contract in every token, and nothing else moves: a fill costs the solver the amount and its fee in bps on top; an undisputed or dismissed escrow pays the user all but its 5 bps, a timed-out or upheld one everything; a refund, a stake and an escrow exactly themselves |
| SettlementAccounts.SlashMoves | intent_settlement/src/lib.rs:3912-4030 | A slash moves from the contract to the fee recipient, and publishes, exactly the penalty of the unfilled amount: 1 at least, otherwise a tenth of the unfilled amount or the bond if less, up to 1000 per whole 10 000 of the bond |
| SettlementStandings.EveryoneStands | intent_settlement/src/lib.rs:3955-3980 | After every call each solver's bond in each token has moved by what it staked, took out or forfeited; its completed, failed, volume, last slash and suspension as its part in the call says; and nobody else's at all |
| SettlementStandings.StatementOfAccount | intent_settlement/src/lib.rs:4668-4674 | From deployment, after any run: every balance is its funds plus what the calls moved, and every bond what was staked less what was taken out and forfeited |
| SettlementTransitions.CallFollows | intent_settlement/src/lib.rs:3297-3412 | A call on an intent goes through only for who may, from the phases and in the window it may, with a solver that is active, past its suspension, below its cap, bonded and covered; it makes of the record exactly the next one, with the tier's window, and publishes exactly its event |
| SettlementTransitions.NothingElseRefuses | intent_settlement/src/lib.rs:3484-3545 | Conversely whatever is allowed goes through, unless a balance is short or a number leaves its type |
| SettlementTransitions.EveryMoveLawful | intent_settlement/src/lib.rs:3060-3247 | In every reachable state and for every call: each intent stays as it is, moves along an allowed arrow, is new by a submission, or goes by a pruning past its retention |
| SettlementTransitions.SubmitFollows | intent_settlement/src/lib.rs:3060-3247 | A submission passes only within its limits and adds exactly one open intent, one history entry and one nonce |
| SettlementTransitions.CloseFollows | intent_settlement/src/lib.rs:5444-5478 | close_intent succeeds exactly on an ended intent past its retention and leaves a tombstone |
| SettlementTransitions.StakeFollows | intent_settlement/src/lib.rs:2725-2760 | Registering, withdrawing and leaving go through only outside a pause, within the minimum of the token, the cap of eight tokens and, to take out, without obligations |
| SettlementTransitions.StakePasses | intent_settlement/src/lib.rs:2948-3008 | Conversely they then go through unless a balance or a number fails |
| SettlementFees.FeesExact | intent_settlement/src/lib.rs:4624-4670 | In every run from deployment, on each intent: the escrow fee taken is 5 bps, rounded down, of what went into escrow if it was released undisputed or dismissed, and nothing otherwise; the user has all the rest of `total_filled` |
| SettlementFees.DeadlineKept | intent_settlement/src/lib.rs:3355-3370 | In every run the deadline of an accepted intent is the acceptance time plus the configured window stretched by its tier, by 0, 10, 20, 30 or 50 percent, or 300 more, which only an intent with an extension has |
| SettlementExposure.EveryExposure | intent_settlement/src/lib.rs:3372-3393 | Every call moves each solver's exposure by exactly this: an acceptance adds the weighed minimum, a direct fill takes it back (or the weighed amount if it reopens), a slash the weighed unfilled part, everything else nothing |
| SettlementExposure.OwedWithinCover | intent_settlement/src/lib.rs:3382-3390 | In every run with unchanging weights, what a solver owes at once weighs no more than its exposure on record, and at each acceptance no more than the coverage of the bond it accepts with |
| SettlementExposure.FillMoves | intent_settlement/src/lib.rs:3579-3603 | A full fill moves the margin between exposure and what is owed by what the intent weighed less what it weighs at the fill |
| SettlementExposure.EscrowsStayCounted | intent_settlement/src/lib.rs:4617-4672 | Without a direct fill or a slash, after any run the exposure is the start plus all the solver ever accepted, up to i128::MAX: releases and rulings give nothing back |
| SettlementExposure.CoverUsedUp | intent_settlement/src/lib.rs:3382-3390 | So from deployment such a solver is refused an intent once that sum and the intent exceed its coverage, even with no obligation left |
| SettlementBids.BidFollows | intent_settlement/src/lib.rs:4109-4160 | In any state, a bid is taken only in the window, from a solver that may serve, strictly above the best, and replaces it; conversely such a bid is taken unless a number overflows |
| SettlementBids.HighestBidLeads | intent_settlement/src/lib.rs:4109-4160 | However bids come in, the bid on record was taken and none taken was higher |
| SettlementBids.SettleFollows | intent_settlement/src/lib.rs:4181-4270 | After the window the best bidder gets the intent if it may still serve, and otherwise the intent is open again |
| SettlementBids.ChangeFollows | intent_settlement/src/lib.rs:2010-2057 | Each admin change is accepted exactly within its bounds and sets its rule alone |
| SettlementContract.Settlement.constructor | intent_settlement/src/lib.rs:1711-1759 | A deployment starts in the modelled initial state |
| SettlementContract.Settlement.SetBondAmount | intent_settlement/src/lib.rs:6789-6829 | The loop over `bond_tokens` and the entry writes leave the record and entries of the specification |
| SettlementContract.Settlement.RegisterSolver | intent_settlement/src/lib.rs:2725-2832 | Refines the specification: the bond stored is what arrived, a new token counts against the cap of eight, a top-up reactivates; on any error storage, balances and events are unchanged |
| SettlementContract.Settlement.DeregisterSolver | intent_settlement/src/lib.rs:2838-2927 | Refines the specification: refused while obligations are open, otherwise record and entries go and each listed bond is paid back once |
| SettlementContract.Settlement.WithdrawBond | intent_settlement/src/lib.rs:2948-3008 | Refines the specification: only an idle solver, only down to the minimum of that token, paid exactly the amount |
| SettlementContract.Settlement.SubmitIntent | intent_settlement/src/lib.rs:3060-3247 | Refines the specification: fresh id, appended to the user's history, counted once in both counters, deadline strictly in the future |
| SettlementContract.Settlement.AcceptIntent | intent_settlement/src/lib.rs:3297-3412 | Refines the specification: guards in source order, the deadline becomes the tiered window from now, the counter moves from open to the solver, the exposure, saturated at 128 bits, within cover |
| SettlementContract.Settlement.FillIntent | intent_settlement/src/lib.rs:3484-3641 | Refines the specification: the user gets the whole amount, the fee comes on top from the solver; the intent closes at its minimum and otherwise reopens unassigned; refused when a total or count would overflow |
| SettlementContract.Settlement.CancelIntent | intent_settlement/src/lib.rs:3693-3734 | Refines the specification: only the owner, only while open, not within the cooldown |
| SettlementContract.Settlement.AmendIntent | intent_settlement/src/lib.rs:3739-3805 | Refines the specification: only the owner; tightening only while Open; any i128 as the new minimum |
| SettlementContract.Settlement.SlashSolver | intent_settlement/src/lib.rs:3878-4037 | Refines the specification, which takes the penalty of the unfilled amount (SettlementAccounts.SlashMoves): anyone, only after deadline plus grace; the slash leaves the bond once, the intent reopens; refused when min minus filled, now plus expiry or a count would overflow; the payout is the single transfer of the whole slash |
| SettlementContract.Settlement.ExpireIntent | intent_settlement/src/lib.rs:4043-4077 | Refines the specification: anyone, from the deadline on, only while open |
| SettlementContract.Settlement.BidIntent | intent_settlement/src/lib.rs:4109-4160 | Refines the specification: only a strictly higher quote of an eligible solver replaces the best bid |
| SettlementContract.Settlement.SettleBidWindow | intent_settlement/src/lib.rs:4181-4270 | Refines the specification: the best bid is awarded if its solver is still eligible, otherwise the intent reopens |
| SettlementContract.Settlement.BeginFillEscrow | intent_settlement/src/lib.rs:4330-4389 | Refines the specification: escrow holds what arrived, only a completing amount is accepted, no upper bound but that of i128 on the sum |
| SettlementContract.Settlement.DisputeFill | intent_settlement/src/lib.rs:4414-4447 | Refines the specification: only the owner, strictly within the dispute window |
| SettlementContract.Settlement.ResolveDispute | intent_settlement/src/lib.rs:4458-4578 | Refines the specification: either ruling pays the whole escrow out, Upheld slashes, Dismissed takes the fee and credits; refused when one of their sums or differences would overflow |
| SettlementContract.Settlement.ReleaseFill | intent_settlement/src/lib.rs:4590-4680 | Refines the specification, which pays the user the escrow less 5 bps, or all of it after a dispute (SettlementAccounts.BalancesMove): undisputed after its window with fee and credit, timed-out dispute without either; refused when a volume or count would overflow |
| SettlementContract.Settlement.RequestExtension | intent_settlement/src/lib.rs:5208-5272 | Refines the specification: the assigned solver, once per intent, by 300 seconds |
| SettlementContract.Settlement.CloseIntent | intent_settlement/src/lib.rs:5444-5550 | Refines the specification: terminal and past retention; record, extension and slot go, the tombstone stays |
| SettlementContract.Settlement.Govern | intent_settlement/src/lib.rs:2010-2057 | Refines the specification of the admin setters the lifecycle depends on: set_config within its bounds and keeping the cover multiplier |
| SettlementArithmetic.SlashWithinBond | intent_settlement/src/math.rs:53-83 | A slash is 0 without a bond, otherwise between 1 and the bond; a better tier never pays more and the lowest tier pays the flat rate |
| SettlementArithmetic.SlashOrdered | intent_settlement/src/math.rs:72-83 | A slash never falls as the unfilled amount grows |
| SettlementArithmetic.SlashAsDocumented | intent_settlement/src/math.rs:40-48 | The slash is the documented one exactly while a tenth of the exposure is within the cap in whole multiples of 10 000 |
| SettlementArithmetic.FullDefault | intent_settlement/src/math.rs:63 | A full default is slashed by the documented tenth exactly when the bond's last four digits are below 10 |
| SettlementArithmetic.SlashTestCounterexample | intent_settlement/src/math.rs:308-313 | The value the repository's own unit test expects is not the one the code computes |
| SettlementArithmetic.FillWindowBounds | intent_settlement/src/math.rs:95-101 | The window is at least the base exactly while the base is at most u64::MAX / 10 000, at most half longer, and grows with the tier |
| SettlementArithmetic.FeeRoundsDown | intent_settlement/src/math.rs:111-125 | The fee is the share rounded down and never exceeds the amount; refused exactly for a rate out of range or an overflow |
| SettlementArithmetic.FeeOfParts | intent_settlement/src/math.rs:120-125 | Filling in parts never costs more fee than filling at once, and at most one unit less per split |
| SettlementArithmetic.DiscountBounds | intent_settlement/src/math.rs:135-144 | A discounted rate stays between 0 and the base rate, falls with the discount, and meets both ends |
| SettlementArithmetic.DecayOrdered | intent_settlement/src/math.rs:166-188 | A well-formed auction's price stays in [min, start], never rises with time, and meets both ends |
| SettlementArithmetic.DecayAgrees | intent_settlement/src/lib.rs:8225-8248 | The helper and the contract's unguarded pricing agree exactly when the auction is absent, well formed, over, or flat before its start |
| SettlementArithmetic.DecayFits | intent_settlement/src/math.rs:180-184 | The intermediate product fits 128 bits for a spread up to 10^30 and a duration up to 1.7 * 10^8 seconds |
| ProofPayload.UnsignedRoundTrip | intent_settlement/src/math.rs:226-248 | A big-endian field reads back at whatever offset it was written |
| ProofPayload.I128RoundTrip | intent_settlement/src/math.rs:217-224 | The same for every i128, negative ones included |
| ProofPayload.I128Faithful | intent_settlement/src/math.rs:209-224 | Decoding succeeds exactly when 16 bytes are there, and re-encoding gives those bytes back |
| ProofPayload.PayloadRoundTrip | intent_settlement/src/math.rs:250-273 | Every well-formed payload encodes to 102 bytes and decodes to its own fields |
| ProofPayload.PayloadFaithful | intent_settlement/src/math.rs:260-273 | Exactly the 102-byte strings parse, each into the payload it is the encoding of |
| SolverIndex.RefinesSet | intent_settlement/src/lib.rs:6990-7061 | After any adds and removes the list has no repeats, idx(id) = p exactly when list[p] = id, and membership is the abstract set |
| SolverIndex.Store.AddIntent | intent_settlement/src/lib.rs:6990-7019 | The stored form appends as specified |
| SolverIndex.Store.RemoveIntent | intent_settlement/src/lib.rs:7024-7061 | The stored form swap-removes as specified |
| UserHistory.ItemPlace | intent_settlement/src/lib.rs:7070-7101 | Item i lives in bucket i / 64, slot i % 64, and nowhere else |
| UserHistory.Store.Append | intent_settlement/src/lib.rs:7070-7101 | Appending to the buckets appends to the flat history |
| UserHistory.Store.Blank | intent_settlement/src/lib.rs:5496-5518 | close_intent's scan blanks exactly the first slot holding the id |
| UserHistory.Store.List | intent_settlement/src/lib.rs:5853-5890 | A page is the live ids of its slots, at most 100 slots, empty past the end |
| UserHistory.PagesCover | intent_settlement/src/lib.rs:5853-5890 | Successive pages of any positive size, capped at 100, list every live id once, in order |
| UserHistory.ListingIsSubmissionOrder | intent_settlement/src/lib.rs:5844-5890 | In every reachable state, paging yields the user's submissions in order less the closed ones |
| PanelDraw.PanelIs | arbiter_panel/src/lib.rs:222-232 | A drawn panel is a duplicate-free choice among the eligible arbiters |
| PanelDraw.AnyPanel | arbiter_panel/src/lib.rs:222-232 | Every ordered duplicate-free choice is some draw's panel |
| PanelDraw.MajorityThreshold | arbiter_panel/src/lib.rs:234 | From 2m > n the scaled threshold t satisfies 1 <= t <= k < 2t for every panel size k |
| PanelDraw.ScaledUp | arbiter_panel/src/lib.rs:234 | The scaled threshold is m*k/n rounded up |
| PanelDraw.VerdictExclusive | arbiter_panel/src/lib.rs:290-296 | Both outcomes never reach the threshold; the one that has is the verdict |
| PanelDraw.VerdictReachable | arbiter_panel/src/lib.rs:290-296 | A unanimous panel always decides |
| PanelDraw.VerdictHasWinner | arbiter_panel/src/lib.rs:304-330 | A verdict has at least one member who voted for it, so a slashed unit always has a receiver |
| PanelTheorems.BondsConserved | arbiter_panel/src/lib.rs:144-188 | From an empty panel, over any interleaving of registrations, exits and rounds: the balance is the sum of all bonds, none negative; the list has each arbiter once; `open_votes` is the number of unsettled rounds with the arbiter; members of unsettled rounds are registered |
| PanelTheorems.AlwaysSound | arbiter_panel/src/lib.rs:194-343 | The same from any state where it holds, together with: every panel is duplicate-free, votes come from it, and its threshold t satisfies t <= k < 2t |
| PanelTheorems.EmptySound | arbiter_panel/src/lib.rs:117-141 | That invariant holds before the panel is initialised |
| PanelTheorems.NothingMissing | arbiter_panel/src/lib.rs:307-312 | No tally or draw fails to load an arbiter record, and no exit is short of funds |
| PanelTheorems.ExitPaid | arbiter_panel/src/lib.rs:165-188 | An arbiter without open votes always leaves with its whole bond |
| PanelTheorems.TallyPays | arbiter_panel/src/lib.rs:304-330 | A loser gives up a tenth, winners share all of it equally, the first also gets the dust, nobody else changes; without a verdict nobody loses anything |
| PanelTheorems.PaidOutKeeps | arbiter_panel/src/lib.rs:314-327 | Nobody loses more than a tenth, and no bond goes negative |
| PanelTheorems.VerdictStable | arbiter_panel/src/lib.rs:283-296 | A verdict once reached is the verdict after any further calls |
| PanelTheorems.TallyEnds | arbiter_panel/src/lib.rs:277-343 | After the voting window a round can be settled exactly when it has no verdict or the settlement contract still takes it (and the cuts can be computed) |
| PanelTheorems.RefusedForever | arbiter_panel/src/lib.rs:332-337 | A verdict the settlement contract refuses leaves the round open for ever and its members unable to leave |
| PanelSettlement.RulingTaken | intent_settlement/src/lib.rs:4466-4560 | In every reachable state settlement takes the arbiter's ruling exactly while the intent is disputed and the ruling's numbers stay in range: min minus filled, filled plus escrow and the failure count if upheld; the fee, TotalVolume plus escrow and the completion count if dismissed |
| PanelSettlement.OverForever | intent_settlement/src/lib.rs:5451-5462 | A terminal or pruned intent stays so in every run, and no ruling on it is ever taken |
| DisputeSystem.RoundsAreFair | arbiter_panel/src/lib.rs:200-209 | In every joint run of panel and settlement no party to a live dispute sits on its panel, and a round settled with a verdict has its ruling on the intent's record until that is pruned |
| DisputeSystem.JointAlways | arbiter_panel/src/lib.rs:332-337 | The invariants of both contracts and the agreement of every round with its dispute survive any joint run, every answer one contract asks of the other being taken from the other's state |
| DisputeSystem.TallyExactly | arbiter_panel/src/lib.rs:277-343 | A tally of a round with a verdict settles it exactly when settlement's arbiter is the panel, the dispute is still on, the ruling's numbers stay in range and the losers' cuts can be computed; then the ruling is recorded, and otherwise nothing changes |
| DisputeSystem.LateRoundTraps | intent_settlement/src/lib.rs:4634-4643 | Once a dispute is over without its panel, a round with a verdict is never settled in any joint run and its members can never leave |
| DisputeTimeout.LateRoundReached | intent_settlement/src/lib.rs:4634-4643 | A joint run into that case: escrow, dispute, draw, enough votes, and release_fill on the arbiter timeout before anyone tallies |
| PanelRounds.OpenPassesExactly | arbiter_panel/src/lib.rs:194-216 | A round opens exactly when there is none yet, the settlement contract names the parties, some registered arbiter is neither of them and still has the bond asked for, and the threshold fits 32 bits |
| PanelRounds.OpenFollows | arbiter_panel/src/lib.rs:200-246 | It then seats min(n, candidates) different candidates, locks exactly those, and stores a threshold t with (t - 1) * n < m * seats <= t * n |
| PanelRounds.RoundsConvened | arbiter_panel/src/lib.rs:216-241 | In every run every round was opened by some call, with that many of the candidates of that moment and that threshold, and keeps panel, threshold and opening time |
| PanelRounds.VotesCast | arbiter_panel/src/lib.rs:250-270 | In every run every vote on record was cast by a call of that member within a day of the opening |
| PanelRounds.VoteFollows | arbiter_panel/src/lib.rs:250-270 | A vote is taken exactly from a member who has not voted, before the day is over and the round settled, and adds itself alone |
| PanelRounds.TallyPassesExactly | arbiter_panel/src/lib.rs:277-343 | A round is settled exactly once: with enough votes on one side, if settlement takes the ruling and every loser's tenth fits; without, after a day |
| PanelRounds.WinnersCounted | arbiter_panel/src/lib.rs:304-330 | The winners sharing what is slashed are exactly as many as the members who voted for the verdict |
| PanelRounds.FirstWinner | arbiter_panel/src/lib.rs:320-330 | The winner that gets the dust is the first of them on the panel |
| PanelStandings.EveryoneStands | arbiter_panel/src/lib.rs:144-188 | Every call, for every account: a registration costs the bond asked for, leaving pays the bond held, nothing else touches a wallet; bonds change only by joining, leaving and a verdict |
| PanelStandings.EntersExactly | arbiter_panel/src/lib.rs:117-188 | Exactly who may initialise, join and leave |
| PanelStandings.TokensConserved | arbiter_panel/src/lib.rs:144-188 | In every run the panel and all wallets hold together what they began with and what was funded |
| PanelStandings.OutvotedIsBenched | arbiter_panel/src/lib.rs:314-327 | A member outvoted in its only open round falls below the bond asked for exactly when its bond less a tenth does |
| PanelStandings.BenchedForever | arbiter_panel/src/lib.rs:200-209 | Such an arbiter is drawn for no later round of any run, unless it leaves and joins again |
| PanelContract.ArbiterPanel.Initialize | arbiter_panel/src/lib.rs:117-141 | Refines the specification: configured once, only with 0 < m <= n < 2m and a positive bond |
| PanelContract.ArbiterPanel.RegisterArbiter | arbiter_panel/src/lib.rs:144-161 | Refines the specification: bond taken in full, record without open votes, appended to the list |
| PanelContract.ArbiterPanel.DeregisterArbiter | arbiter_panel/src/lib.rs:165-188 | Refines the specification: only without open votes; the rebuild loop drops exactly the leaver and the whole bond is paid |
| PanelContract.ArbiterPanel.Draw | arbiter_panel/src/lib.rs:219-232 | The in-place partial shuffle yields the specified panel |
| PanelContract.ArbiterPanel.OpenVote | arbiter_panel/src/lib.rs:194-246 | Refines the specification (PanelRounds.OpenFollows): the parties are excluded, min(n, eligible) members are drawn and each gets one more open vote |
| PanelContract.ArbiterPanel.CastVote | arbiter_panel/src/lib.rs:250-270 | Refines the specification: members only, once each, strictly within the window |
| PanelContract.ArbiterPanel.CountVotes | arbiter_panel/src/lib.rs:283-289 | The counting loop counts the votes of each side |
| PanelContract.ArbiterPanel.Tally | arbiter_panel/src/lib.rs:277-343 | Refines the specification: an unreached quorum fails inside the window and closes without slashing after it; otherwise cuts, redistribution and the settlement call, all or nothing |
| VaultTheorems.BooksAlways | backstop_vault/src/lib.rs:199-542 | In every run, compensation and emergency mode included: TotalShares is the seed plus all LP shares, TotalQueued the sum of all queues, tokens held the assets less the seed plus what was sent unreported |
| VaultTheorems.NeverInsolvent | backstop_vault/src/lib.rs:385-387 | The VaultInsolvent branch is unreachable |
| VaultTheorems.EmptiedOnlyByDonation | backstop_vault/src/lib.rs:212-220 | TotalAssets is zero only if at least the seed was sent to the vault unreported |
| VaultTheorems.HealthyAlways | backstop_vault/src/lib.rs:215-241 | Without compensation and emergency mode, and with funded income, TotalAssets never falls below TotalShares |
| VaultTheorems.FreshHealthy | backstop_vault/src/lib.rs:158-188 | A new vault starts with exact books and assets at least shares |
| VaultTheorems.EveryoneCovered | backstop_vault/src/lib.rs:339-403 | In such runs the sum of what every LP would be paid is at most the tokens held |
| VaultTheorems.WithdrawSucceeds | backstop_vault/src/lib.rs:305-411 | In such runs, exactly which withdrawals succeed and what they pay; none fails for lack of funds, in any order |
| VaultTheorems.NeverShort | backstop_vault/src/lib.rs:399-403 | No call of such a run reverts for lack of tokens |
| VaultTheorems.DepositPrice | backstop_vault/src/lib.rs:215-241 | A deposit leaves assets per share no lower exactly when amount * TotalShares >= TotalAssets |
| VaultTheorems.RoundTripBound | backstop_vault/src/lib.rs:215-220 | Deposit-then-redeem returns no more than was put in exactly when TotalAssets <= (amount + 1) * TotalShares |
| VaultTheorems.DepositRoundTrip | backstop_vault/src/lib.rs:339-350 | That bound is about what withdraw computes for the shares just minted |
| VaultTheorems.WithdrawPrice | backstop_vault/src/lib.rs:389-398 | A withdrawal never lowers assets per share |
| VaultTheorems.IncomePrice | backstop_vault/src/lib.rs:516-542 | Income never lowers assets per share |
| VaultTheorems.WithdrawShortExactly | backstop_vault/src/lib.rs:339-403 | With exact books and outside emergency mode, compensation or not: a withdrawal past its guards is refused for lack of tokens exactly when its rounded-down part of the assets exceeds the assets less the seed plus what was sent unreported, and otherwise pays that part |
| VaultTheorems.ShortExactlyInRuns | backstop_vault/src/lib.rs:339-403 | The same in every run from a fresh vault |
| VaultTheorems.LastProviderRefused | backstop_vault/src/lib.rs:466-508 | With nothing sent unreported, the last provider is refused its whole position exactly when 10^9 * (TotalShares - TotalAssets) >= TotalShares |
| VaultTheorems.CoverBreaksSolvency | backstop_vault/src/lib.rs:466-508 | A concrete run in which compensation leaves the last provider refused |
| VaultAccounts.AccountsMove | backstop_vault/src/lib.rs:305-411 | Every call, for every account: a withdrawal pays the caller shares * assets / TotalShares (queued to the caller in an emergency) and burns its shares, a deposit costs the amount and buys max(amount * TotalShares / assets, 1), a queued exit pays its owner the lesser of promise and assets and clears it, a compensation pays the named recipient; the cooldown restarts exactly for a deposit of a tenth of the position; everybody else has what it had |
| VaultAccounts.PassesExactly | backstop_vault/src/lib.rs:199-297 | Each call goes through exactly when its guards hold, the vault or the wallet can pay, and its products fit 128 bits |
| VaultAccounts.StatementOfAccount | backstop_vault/src/lib.rs:401-403 | After any run each account has what it began with plus what each call owed it, in tokens and in shares |
| VaultAccounts.TokensConserved | backstop_vault/src/lib.rs:225-229 | In every run the vault and all wallets hold together what they began with and what the outside world brought |
| VaultAccounts.NoEarlyExit | backstop_vault/src/lib.rs:322-332 | Nobody withdraws before the cooldown of its last sizeable deposit is over, whatever is called in between |
| VaultEmergency.LaterExitsPromisedMore | backstop_vault/src/lib.rs:339-383 | In emergency mode an exit never lowers, and may raise, what the others' shares stand for |
| VaultEmergency.PromiseRefusedExactly | backstop_vault/src/lib.rs:415-458 | In every run a queued exit is refused for lack of tokens exactly when the lesser of promise and assets exceeds the assets less the seed plus what was sent unreported |
| VaultEmergency.PromisesExceedTokens | backstop_vault/src/lib.rs:415-458 | A run without compensation after which the second of two equal providers is promised half as much again as it deposited, and refused |
| VaultContract.BackstopVault.Deposit | backstop_vault/src/lib.rs:199-297 | Refines the specification: at least one share, the cooldown restarts exactly for a deposit of a tenth of the position or more, every overflow refused |
| VaultContract.BackstopVault.Withdraw | backstop_vault/src/lib.rs:305-411 | Refines the specification, which pays the caller its part (VaultAccounts.AccountsMove): shares burned and assets paid, or queued in emergency mode without leaving the totals |
| VaultContract.BackstopVault.ProcessQueuedWithdrawal | backstop_vault/src/lib.rs:415-458 | Refines the specification: pays at most the assets and clears the whole queue entry |
| VaultContract.BackstopVault.Cover | backstop_vault/src/lib.rs:466-508 | Refines the specification: pays at most the assets, socialised over all shares |
| VaultContract.BackstopVault.ReceiveIncome | backstop_vault/src/lib.rs:516-542 | Refines the specification: only the total of assets and of income move |
| VaultContract.BackstopVault.SetConfig | backstop_vault/src/lib.rs:608-633 | Refines the specification: accepted exactly within both bounds |
| GovernorTheorems.SearchIs | governor/src/lib.rs:642-663 | On a sorted list the binary search finds the last checkpoint at or before the ledger |
| GovernorTheorems.SearchRefinesHistory | governor/src/lib.rs:625-663 | The 64 newest checkpoints answer like everything ever synced while the oldest kept is in time, and 0 otherwise |
| GovernorTheorems.SyncEffect | governor/src/lib.rs:625-639 | A sync in the snapshot's own ledger replaces the power there; a later one leaves it or forgets it |
| GovernorTheorems.SnapshotNeverRises | governor/src/lib.rs:316-317 | Whatever is synced after a snapshot's ledger, in any run, the power at the snapshot stays or becomes 0 |
| GovernorTheorems.SameLedgerSync | governor/src/lib.rs:224-230 | A sync in the same ledger as the proposal sets the power it is voted with |
| GovernorTheorems.AlwaysSound | governor/src/lib.rs:331-377 | In every run each tally is the sum of the powers recorded for its side, one per voter; histories are the newest 64 of all syncs, sorted; queued proposals had won |
| GovernorTheorems.TurnoutIsRecorded | governor/src/lib.rs:331-377 | The three tallies together are the sum of all powers under the proposal's vote keys |
| GovernorTheorems.ExecutedWasWon | governor/src/lib.rs:390-443 | Whatever is executed was queued after its deadline with for > against and turnout at the quorum then in force, tallies unchanged since, not before its eta, and never targets the governor |
| GovernorTheorems.CanceledRuns | governor/src/lib.rs:288-314 | After a cancellation, in any run: the proposal never changes but by its execution, which without an eta never comes and with one never before it |
| GovernorTheorems.CancelDoesNotStop | governor/src/lib.rs:419-443 | A proposal cancelled once queued can be executed from its eta on, after any continuation that has not executed it yet |
| GovernorTheorems.CancelStopsExactly | governor/src/lib.rs:288-314 | Some continuation executes a cancelled proposal if and only if it was queued |
| GovernorTheorems.CanceledYetExecuted | governor/src/lib.rs:419-443 | A run from deployment that proposes, votes, queues, cancels and executes one proposal |
| GovernorHistory.BallotsAreSnapshotPower | governor/src/lib.rs:331-351 | In every run every ballot on record was cast by a call in the voting window, and counts what everything synced for that voter until then gave at the proposal's snapshot |
| GovernorHistory.LateStakeNeverVotes | governor/src/lib.rs:316-317 | An account with nothing synced by the snapshot never votes on the proposal, whatever is synced or configured in later ledgers |
| GovernorHistory.CallFollows | governor/src/lib.rs:288-443 | Cancelling, voting, queueing and executing go through only for who may and when; a vote adds its snapshot power to its side alone, queueing sets the eta one voting delay from now |
| GovernorHistory.NothingElseRefuses | governor/src/lib.rs:288-443 | Conversely whatever is allowed goes through unless a number leaves its type |
| GovernorHistory.ProposeFollows | governor/src/lib.rs:233-283 | A proposal is made exactly by an account whose power at that ledger reaches the threshold, not at the governor itself, within 32 bits; it takes the next number, this ledger as snapshot and its deadline from there |
| GovernorHistory.EveryMoveLawful | governor/src/lib.rs:233-443 | In every reachable state and for every call each proposal stays as it is, moves along an allowed arrow, or is new |
| GovernorHistory.EverySyncRecorded | governor/src/lib.rs:224-230 | An account's full history grows by exactly what it syncs |
| GovernorHistory.ConfigMoves | governor/src/lib.rs:521-535 | The configuration is set by the first valid initialisation and then by the admin alone, unchecked |
| GovernorContract.SearchCheckpoints | governor/src/lib.rs:642-663 | The low/high loop computes the specified search |
| GovernorContract.Governor.WriteCheckpoint | governor/src/lib.rs:625-639 | Appending and dropping the oldest leaves the specified list |
| GovernorContract.Governor.Propose | governor/src/lib.rs:233-283 | Refines the specification: power now at the threshold, never the governor as target, deadline within 32 bits, dense ids |
| GovernorContract.Governor.Cancel | governor/src/lib.rs:288-314 | Refines the specification: the proposer before voting, the timelock until execution |
| GovernorContract.Governor.CastVote | governor/src/lib.rs:318-383 | Refines the specification, which counts the snapshot power (GovernorHistory.CallFollows): power of the snapshot, once per voter, deadline inclusive, no tally out of 128 bits |
| GovernorContract.Governor.Queue | governor/src/lib.rs:390-412 | Refines the specification: only a succeeded proposal, eta one voting delay away |
| GovernorContract.Governor.Execute | governor/src/lib.rs:419-449 | Refines the specification: queued, from eta on, once |
| ReplayTheorems.MirrorsStep | indexer/reference-indexer.js:133-210 | One replayable call and its messages keep replay and contract in step |
| ReplayTheorems.ReplayMirrors | indexer/reference-indexer.js:294-483 | For any run of replayable calls from states in step, replaying the log mirrors the final state: same totals, and per intent the same amount filled, minimum, state (Open and PartiallyFilled identified), and solver and deadline while accepted |
| ReplayTheorems.ReplayRebuilds | indexer/reference-indexer.js:115-124 | From a fresh deployment both open counters equal each other and the number of open intents on their side |
| ReplayTheorems.SolversLost | indexer/reference-indexer.js:229-255 | Registrations are published as a pair, on which the handler throws: in every run the indexer knows no solver, and its solver set is the contract's exactly when that is empty |
| ReplayTheorems.SolversAsDocumented | indexer/reference-indexer.js:257-271 | Had the amount been published bare, as documented, every run's replay would know exactly the registered solvers, without an error |
| ReplayDrift.ReplayFollows | indexer/reference-indexer.js:133-211 | For every run from deployment, amendments and escrow included: every intent ever submitted has a view, whose minimum is the submitted one, whose amount is short of the contract's by the escrow paid out, and whose state is `Shown` of the record: accepted for ever once escrowed, full or partial by the submitted minimum |
| ReplayDrift.ReplayDiffers | indexer/reference-indexer.js:397-428 | For each intent the state differs exactly if it was escrowed or its fills lie between the submitted and the amended minimum, and only in the latter case is it open on one side alone |
| ReplayDrift.VolumeLags | intent_settlement/src/lib.rs:4656-4680 | The indexer's volume plus the sum of released and dismissed escrows is the contract's TotalVolume, in every run |
| ReplayDrift.OpenCounters | indexer/reference-indexer.js:365-428 | After any run both open counters are counts over all intents ever submitted, differing exactly at those whose fills lie between the two minimums |
| ReplayDrift.OpenAgreesUnamended | indexer/reference-indexer.js:115-124 | In every run without amendments, escrows and disputes included, the two open counters are equal |
| ReplaySolvers.SolversPictured | indexer/reference-indexer.js:229-322 | With bare amounts, after every run from deployment: of each registered solver the replay shows the bond, completed, failed, volume and open obligations of its record, short of exactly what escrow exits, rulings, other tokens, transfer fees and amended minimums hide, and always shows it active |
| ReplayAmended.OpenCounterDrifts | intent_settlement/src/lib.rs:3786-3804 | A run with one amendment after which the contract counts one open intent and the replay of its log none |
| IndexerContract.VortexIndexer.Replay | indexer/reference-indexer.js:115-124 | The replay loop with its error list computes the specified fold |
| IndexerContract.VortexIndexer.DispatchMessage | indexer/reference-indexer.js:133-211 | Every message reaches the specified handler |
| IndexerContract.VortexIndexer.OnSolverRegistered | indexer/reference-indexer.js:234-255 | Throws exactly on a pair, before any change; a bare amount tops a known solver up or adds one |
| IndexerContract.VortexIndexer.OnSolverSlashed | indexer/reference-indexer.js:294-322 | Re-opens the intent as PartiallyFilled if anything was filled, counting it open unless it was |
| IndexerContract.VortexIndexer.OnIntentAccepted | indexer/reference-indexer.js:365-386 | Assigns solver and deadline and leaves the open count only if the intent was open |
| IndexerContract.VortexIndexer.OnIntentFilled | indexer/reference-indexer.js:397-428 | Adds the fill to intent and volume, closes at the minimum and otherwise re-opens |
| CallGraph.ReachableFrom | scripts/generate-error-reference.py:265-284 | The walk ends, cycles included, with exactly the functions some chain of one or more calls reaches |
| CallGraph.SelfCallsImmaterial | scripts/generate-error-reference.py:247-262 | Leaving out a function's calls of itself loses no reachable function |
| CallGraph.RaisersByVariant | scripts/generate-error-reference.py:297-301 | Each variant is mapped to exactly the functions that raise it |
| CallGraph.Analyse | scripts/generate-error-reference.py:287-310 | An entry point is listed for a variant exactly when a function raising it is reached by zero or more calls |

## Left out

- Authorisation, time-to-live bumps, wasm upgrades, XDR, hashing and signatures: an intent id is an opaque number, fresh
  by the guard of the submission.
- The token payout of `slash_solver` at `intent_settlement/src/lib.rs:3996-4025`: two merged versions both pay out, from
  names that are not bound there. The model pays the slash once, as lines 4026-4030 do; the balance claims are about that.
  With both payouts each slash would leave the balance short of bonds and escrows by the slash less the vault's share.
- `TotalBonded`, `TotalSolvers`, the token-liability counters and the open-intent, solver and destination-token lists of
  the settlement contract: bookkeeping for views that the modelled entrypoints never read.
- SettlementExposure.OwedWithinCover: assumes weights that do not change, minimums not negative and products within 128
  bits, because a fill weighed heavier than its acceptance gives back more than was taken (SettlementExposure.FillMoves)
  and an escrow on a negative minimum never adds back what its acceptance took off.
- The solver index is not tied to the lifecycle: the escrow path leaves entries in it, so its length is not the
  obligation counter.
- Overflow in what is not modelled: `TotalBonded`, the token contracts' own balances, and the counts and clocks of panel,
  vault and governor other than those their models refuse.
- Outbound intents, batch entrypoints, signed, delegated and sealed-bid submissions, `rescue_tokens` and
  `claim_backstop_compensation`.
- SettlementModel keeps a user's history as one flat sequence; the 64-slot buckets are `UserHistory.Store`, proved to
  behave as that sequence.
- ReplayTheorems.ReplayMirrors: excludes amendments, the bid window and the escrow path, because their events carry
  nothing the indexer reads; ReplayDrift has the relation that holds with them.
- The ledger number an indexed message carries is stood in by the time of the call that published it.
- The `SolverRegistryIndexer` of the same file, the indexer's queries and its console output.
- PanelContract collects a tally's winners in a pass of their own; the source does it inside the releasing loop.
- Panel events and the seeding of the random generator: a draw is any choice of places.
- VaultTheorems.HealthyAlways: excludes compensation and emergency mode, because solvency for everyone does not survive
  compensation (WithdrawShortExactly says when) and queued assets stay in TotalAssets.
- VaultTheorems.LastProviderRefused: assumes that what was sent to the vault is what was reported as income;
  WithdrawShortExactly has the condition without that.
- ReplaySolvers.SolversPictured: supposes registrations published with the bare amount, as documented; as published the
  replay knows no solver at all (ReplayTheorems.SolversLost).
- The vault's `rescue_tokens` and views.
- GovernorTheorems.SnapshotNeverRises: says the power stays or becomes 0, because dropping the oldest of 64 checkpoints
  forgets it; for non-negative bonds that is never a rise.
- The governor's `update_config`, which no proposal can target, `list_proposals`, and what the timelock executes.
- How the script finds functions, calls and errors in Rust text, and the alphabetical order of its lists.
- `fee_router`, the timelock, directories, badges, monitors, bots and dashboards.
