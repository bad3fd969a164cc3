# ProofBridge escrow, brakes, keys and disputes: a verified model

A Dafny model of the Soroban contracts that hold ProofBridge's money and its brakes, with proofs of
what they keep over whole runs:

- the **ad manager** escrow: ads hold liquidity, orders lock part of it, and every lock leaves by one
  of four doors (or was never taken), with fees, a credit ledger, versioned clocks and an evidence grace;
- the **agent account**: refill buckets per agent, per account and per guarded ad, and an
  announce-then-execute timelock that tightens at once and loosens late;
- the **BLS key registry**: slots, shorten-only expiry, pruning, nonces, approvals, and the text and
  hash an owner signs;
- the **dispute manager**: bonds in several tokens, two credit ledgers, one deadline a ruling moves;
- the escrow run **together** with its registries (`Bridge`, `GraceTheorem`), with its dispute
  modules (`Arbitration`), and with both (`Protocol`).

## How it is built

Each contract is there twice. A value-level state machine (`Escrow`, `Timelock` over `Policies`,
`Registry`, `Disputes`) says when a call is accepted and what it leaves, as a `Step` on the contract's
rows: a refused call changes nothing, as the host rolls back every write of a failed call. A class
(`AdManager`, `AgentAccount`, `KeyRegistry`, `DisputeManager`) does what the contract does, check by
check and write by write, and each of its methods is proved to accept exactly when, and to leave
exactly what, the step says. The theorems are about the steps and the runs of them.
The `Outcomes`, `Rules`, `GuardedCalls` and `Verdicts` modules say what each step does in terms of the rows,
the signed terms and the answers alone, with definitions of their own, so that the step is held to something
other than itself.

| files | what they hold |
|---|---|
| `Numbers`, `Wrappers`, `Sums`, `Orders` | integer bounds, results, sums over ledgers, orders and addresses |
| `Fees`, `Scaling`, `RateLimit` | the shared arithmetic of `proofbridge_core` |
| `Escrow`, `AdManager` | the escrow's state machine and contract |
| `EscrowBook`, `EscrowMoney`, `EscrowClocks`, `EscrowTheorems` | locked sums, conservation, clocks, endings |
| `EscrowOutcomes`, `EscrowRules` | who is paid and credited at each door; who may make each call, when, and what it leaves |
| `Bridge`, `GraceTheorem`, `GraceExample` | the escrow with its registries: the evidence grace, and an order's life that reaches it |
| `Disputes`, `DisputeManager`, `DisputeInvariants`, `DisputeTheorems`, `DisputeOutcomes` | the bond pot |
| `Arbitration`, `Verdicts` | the escrow with its dispute modules; what the arbiter's ruling does |
| `Protocol` | the escrow with both: the evidence grace at the dispute's clock too |
| `EdgeCases` | where the code does less than its description says: an input and the exact condition of each |
| `Account`, `Policies`, `Tightening`, `Timelock`, `TimelockInvariants`, `GuardedCalls`, `TimelockTheorems`, `VolumeBounds`, `AccountOutcomes`, `AgentAccount` | the agent account |
| `Registry`, `RegistryInvariants`, `RegistryOutcomes`, `KeyRegistry` | the key registry |
| `Calendar`, `Printing`, `OwnerText`, `OwnerReader`, `OwnerMessages` | what an owner signs |

`dafny verify dfyconfig.toml` checks the project.

## What is assumed

- Order hashes and argument commitments are injective: an order is its signed parameters, an
  announcement its arguments. Keccak is a constructor, so injective.
- A call's own authorization holds (owner, maker, filer, responder, arbiter, admin), and no contract
  authorizes a call as itself. Signatures, proofs of possession, root and proof verification, anchors,
  token decimals and position guards other than the escrow answer arbitrarily: each answer is an input.
- A token refuses a transfer or moves exactly its amount out of the sender; a delivery into a contract
  is what the contract measures. A balance is an i128, and a contract cannot send what it does not hold.
- Stored rows persist; ledger time never goes back; plain overflow traps and so refuses.
- Any admin setter may run at any time with any valid value (the 24-hour delay is not relied on).
- For the evidence grace: where a registry's position guards are wired, the escrow is among them (no
  guards wired is fine), and an anchor's delay is at most the root anchor's own 7 days
  (`stellar/contracts/root-anchor/src/lib.rs:41`). `GraceTheorem.UnwiredGuardsForget` shows the first
  is needed.
- For the disputes: a dispute module believes the escrow only when the escrow calls.

## What the code does that its description does not say

Each with an input and its exact condition.

- Exact conservation fails in one family of calls. A maker may withdraw or close to the escrow's own
  address: the token moves nothing and the ad's balance drops, so the escrow then holds more than it
  owes (`EdgeCases.SelfWithdrawalStrays`). It holds over a run if and only if no such call, and no gift,
  is in it (`EscrowTheorems.HoldingsAccountedFor`); a shortfall is impossible (`EscrowTheorems.Solvent`).
- The dispute module has the same family: a bond paid to a fee pool that is the module itself
  (`EdgeCases.PoolIsItself`), or its credit claimed for itself (`DisputeTheorems.HoldingsAccountedFor`).
- A verifier missing at the lock and wired in the same second as the lock does not count as a gap
  (`EdgeCases.SameSecondGapIsForgotten`): the denial rule reads a change stamped strictly after the
  lock's second (`EdgeCases.VerifierDeniesExactly`), and the grace theorem is stated for the seconds
  after the lock's.
- Disarming an ad that was never guarded is accepted at once, and clears the account-wide announcements
  (`EdgeCases.DisarmingNothingClears`); which disarms are instant is `EdgeCases.DisarmIsInstantExactly`.

## Model

| member | source | states |
|---|---|---|
| GraceTheorem.EvidenceGrace | stellar/contracts/ad-manager/src/lib.rs:1681-1784 | Over every run of the escrow with its registries: from any moment of an order's life at which the maker's halt is in force, the order is re-pinned, its chain's verifier has changed or is missing in a later second than the lock, or its pinned slot has stopped no later than the presentation cutoff, a cancel succeeds no earlier than deadline + 2 buffers + the anchor delay stamped at the lock (saturating), however the run goes on |
| GraceTheorem.LeverLasts | stellar/contracts/ad-manager/src/lib.rs:1681-1730 | A pulled lever keeps showing through any further calls while the order lives: resuming, re-wiring, pruning, migrating registries or leaving one erases none of it before the order's longest clock is over |
| GraceTheorem.StepInv | stellar/contracts/ad-manager/src/lib.rs:810-855 | Every call of the escrow or a registry keeps each live order's pinned slot stored with no stop before its lock, unless re-pinned or its longest clock is over |
| GraceTheorem.EscrowReports | stellar/contracts/bls-key-registry/src/lib.rs:847-863 | While an order is live its signer can neither leave the registry nor prune at once: the in-flight count the registry's guard reads is positive |
| GraceTheorem.RegistryMovesPin | stellar/contracts/bls-key-registry/src/lib.rs:814-844 | What a registry call can do to a live order's pin: no stop dated before the call, no stop made later, none forgotten before every clock of the order is over |
| Bridge.RetentionOutlastsClocks | stellar/contracts/bls-key-registry/src/lib.rs:393-417 | Thirty days past a slot's stop, however late in the order's life it came, the order's window, two buffers and the anchor delay are all over |
| GraceTheorem.LeverWaits | stellar/contracts/ad-manager/src/lib.rs:1734-1784 | A cancel of a levered order that the door accepts comes at or after the grace |
| GraceExample.GraceIsExact | stellar/contracts/ad-manager/src/lib.rs:1734-1784 | The grace is exact: while the anchor delay has not grown past the one stamped at the lock, the cancel of a claimed order whose lever shows goes through if and only if the grace is over |
| GraceExample.GraceIsReached | stellar/contracts/ad-manager/src/lib.rs:1132-1167 | The theorem is not vacuous: a concrete order, locked, halted and claimed by a chain of calls from a new escrow and registry, satisfies every invariant with its lever pulled; its cancel is refused one second before the grace and goes through at it |
| GraceTheorem.UnwiredGuardsForget | stellar/contracts/bls-key-registry/src/lib.rs:431-464 | The wiring assumption is needed: with guards wired that leave the escrow out, leaving the registry makes a live order's kill read as no kill at once |
| Protocol.EvidenceGraceAtEveryClock | stellar/contracts/ad-manager/src/lib.rs:1734-1768 | Over every run of the escrow with its registries and its dispute modules: once a lever was pulled in an order's life, its lock goes back by a clock, a cancel or a dispute that does not forfeit the maker, no earlier than deadline + 2 buffers + the anchor delay stamped at the lock |
| Protocol.DisputeWaits | stellar/contracts/ad-manager/src/lib.rs:1063-1086 | An accepted end of a levered order's dispute, with any outcome but the maker's forfeit, comes at or after the grace |
| Protocol.LeverLasts | stellar/contracts/ad-manager/src/lib.rs:1681-1730 | A pulled lever keeps showing whatever is called on the escrow, a registry or a module while the order lives |
| Protocol.RunInv | stellar/contracts/ad-manager/src/lib.rs:767-1128 | Every fair run of the three together keeps the invariants of both joint systems |
| EdgeCases.SelfWithdrawalStrays | stellar/contracts/ad-manager/src/lib.rs:679-716 | An input where exact conservation fails: an ad's maker withdraws 400 to the escrow itself, which then holds 1000 and owes 600 |
| EdgeCases.PoolIsItself | stellar/contracts/dispute-manager/src/lib.rs:315-333 | An input where it fails for the dispute module: with the fee pool the module itself, one settled bond of 50 stays held and is owed to nobody |
| EdgeCases.VerifierDeniesExactly | stellar/contracts/ad-manager/src/lib.rs:1701-1708 | Over any run the verifier denies an order if and only if its chain has none now or was rewired in a later second than the lock |
| EdgeCases.SameSecondGapIsForgotten | stellar/contracts/ad-manager/src/lib.rs:1701-1708 | An input where a gap is forgotten: an order locked with no verifier, wired within that second, is denied before and not after |
| EdgeCases.DisarmIsInstantExactly | stellar/contracts/agent-account/src/lib.rs:279-297 | A disarm needs no announcement if and only if the ad has no rail, and is then accepted if and only if the roster does not name it; with a rail it needs exactly its matured announcement |
| EdgeCases.DisarmingNothingClears | stellar/contracts/agent-account/src/policy.rs:361-372 | Disarming an ad that was never guarded is accepted at once and drops every account-wide announcement, and nothing else |
| GraceTheorem.RunInv | stellar/contracts/ad-manager/src/lib.rs:767-882 | Every fair run keeps the joint invariant of the escrow and its registries |
| Arbitration.NoDisputeEndsEarly | stellar/contracts/ad-manager/src/lib.rs:1063-1086 | In every reachable state of the escrow with its dispute modules, a dispute finalizes only at or after the order's own deadline + buffer and its last ruling + buffer, and never in a second that still takes a co-signed payout |
| Arbitration.EvidenceBeatsArbitration | stellar/contracts/ad-manager/src/lib.rs:1254-1280 | An anchored and proved settlement of a live order goes through if and only if the anchor and the proof hold: no dispute, ruling, module, pool or token can stop it |
| Arbitration.DisputesAlwaysEnd | stellar/contracts/ad-manager/src/lib.rs:1063-1128 | A disputed order can be finalized exactly from its dispute clock on: nothing strands it |
| Arbitration.ModuleNeverRefuses | stellar/lib/proofbridge-core/src/escrow_ops.rs:571-583 | The module an order was filed with always accepts the escrow's closing call, with whatever outcome |
| Arbitration.FiledClock | stellar/contracts/dispute-manager/src/lib.rs:250-276 | What is on file for a disputed order is the escrow's own record, on the order's own deadline and buffer, and cannot be over before them |
| Arbitration.StepInv | stellar/lib/proofbridge-core/src/escrow_ops.rs:455-498 | Every call on the escrow or a module keeps it: an order is disputed exactly while its record is on file where it was filed |
| Arbitration.RunInv | stellar/lib/proofbridge-core/src/escrow_ops.rs:455-498 | Every fair run of the escrow with its modules keeps that invariant |
| EscrowTheorems.ReachableInv | stellar/contracts/ad-manager/src/lib.rs:461-1286 | Every state a new escrow can reach, by any timed run, has the book, money, fee, clock and log invariants |
| EscrowBook.StepInv | stellar/contracts/ad-manager/src/lib.rs:679-882 | Every call keeps: each ad's locked is the sum of its live orders' ad amounts, 0 <= locked <= balance, a closed ad has nothing locked, the in-flight counts are the live orders', a claim record exists exactly while an order is claimed |
| EscrowBook.NoDoorUnderflows | stellar/contracts/ad-manager/src/lib.rs:1132-1146 | No release of a live order underflows locked, balance or the in-flight count, and free liquidity is never negative |
| EscrowBook.ClosedAdIsEmpty | stellar/contracts/ad-manager/src/lib.rs:719-756 | A closed ad has no live order and takes no lock |
| EscrowBook.LiveIsReserved | stellar/contracts/ad-manager/src/lib.rs:845-850 | A live order's amount is within what its ad has locked, its token and maker are its ad's, and it counts for its signer |
| EscrowBook.InFlightCountsLiveOrders | stellar/lib/proofbridge-core/src/escrow_storage.rs:322-341 | A signer's in-flight count is the number of live orders naming it |
| EscrowMoney.StepInv | stellar/contracts/ad-manager/src/lib.rs:188-231 | Every call keeps exact conservation per underlying asset (native and wrapped native grouped), and that every live order's bps are at most 1% with a pool set for any protocol fee |
| EscrowMoney.MoneyMoves | stellar/contracts/ad-manager/src/lib.rs:1505-1541 | Each call moves an asset's holdings, credits and surplus by exactly what it moves of its ads' balances, through both fee paths |
| EscrowMoney.PaidBothMoves | stellar/lib/proofbridge-core/src/escrow_ops.rs:273-291 | A payout and a protocol fee, sent or credited in any combination, leave the money by exactly their sum |
| EscrowMoney.LiveToken | stellar/contracts/ad-manager/src/validation.rs:81-83 | A live order's ad_chain_token is its ad's token, so the two payout paths that name it differently agree |
| EscrowTheorems.HoldingsAccountedFor | stellar/contracts/ad-manager/src/lib.rs:679-756 | Over a new escrow's whole life its holdings of an asset are its ads' balances, its unclaimed credits and exactly what strayed; so they are balances and credits to the unit if and only if no accepted call of the run was a gift or a self-addressed withdrawal or close |
| EscrowTheorems.SurplusMoves | stellar/contracts/ad-manager/src/lib.rs:679-756 | What is held and owed to nobody moves by exactly what a call strays, never down, and by something exactly for a gift or an ad's money withdrawn or closed to the escrow itself |
| EscrowTheorems.Solvent | stellar/lib/proofbridge-core/src/escrow_ops.rs:273-318 | The escrow always holds what its ads and credits are owed |
| EscrowTheorems.PayoutNeverTraps | stellar/contracts/ad-manager/src/lib.rs:1477-1524 | No arithmetic of a live order's payout can trap, on either fee path, whatever the tokens refuse |
| EscrowTheorems.EvidenceAlwaysPays | stellar/contracts/ad-manager/src/lib.rs:1254-1280 | An anchored, proved settlement of a live order is refused only by a dispute module that will not close |
| EscrowTheorems.UnlocksExactlyWhen | stellar/contracts/ad-manager/src/lib.rs:889-948 | The co-signed payout of a live order succeeds if and only if: before the cutoff, fresh nullifier, no halt in force, verifier wired, root and proof accepted, dispute closes |
| EscrowTheorems.CancelsWhenItsClockSays | stellar/contracts/ad-manager/src/lib.rs:1132-1167 | A claimed order's cancel succeeds exactly from its window's end on, later by the evidence grace if and only if the co-signed payout was denied |
| EscrowTheorems.WithdrawalsAreFunded | stellar/contracts/ad-manager/src/lib.rs:679-756 | A withdrawal within free liquidity and a close with nothing locked always go through when the token lets them |
| EscrowTheorems.EndedForGood | stellar/contracts/ad-manager/src/lib.rs:24-29 | No call changes the row of an order that has ended, and at most one leaf among CANCEL, FORFEIT and SETTLED ever names it |
| EscrowTheorems.OneExit | stellar/contracts/ad-manager/src/lib.rs:1063-1167 | Over any run an order's lock leaves at most once, by one door |
| EscrowTheorems.ExitPaysItsDue | stellar/contracts/ad-manager/src/lib.rs:1477-1541 | Every exit of a lock moves out of the escrow, or credits, exactly the net and the protocol fee in the order's asset, nothing when the lock goes back, and nothing in any other asset |
| EscrowTheorems.PaidAtMostOnce | stellar/contracts/ad-manager/src/lib.rs:1477-1541 | Over any run the money that leaves the escrow or is credited as an order's lock goes out is at most what the lock reserved, and nothing once it has ended |
| EscrowTheorems.NullifiersAreSpentOnce | stellar/contracts/ad-manager/src/lib.rs:902-946 | Over any run there are as many spent nullifiers as successful unlocks |
| EscrowTheorems.StepLogInv | stellar/lib/proofbridge-core/src/escrow_ops.rs:697-721 | Each call keeps the log saying, per order, exactly the ending its row calls for |
| EscrowClocks.StepInv | stellar/lib/proofbridge-core/src/escrow_storage.rs:113-183 | Every call keeps each live order's timing version, registry epoch and lock time valid, and its claim ending at deadline + buffer |
| EscrowClocks.CutoffIsTheLocks | stellar/contracts/ad-manager/src/lib.rs:1641-1648 | While an order is live, claimed or not, its window's end and cutoff are those of its lock's timing version |
| EscrowClocks.ClocksNeverMove | stellar/lib/proofbridge-core/src/escrow_ops.rs:331-342 | No retiming, claim, dispute or re-pin moves a live order's clocks |
| EscrowClocks.PayoutAndReleaseExclude | stellar/contracts/ad-manager/src/lib.rs:909-916 | A co-signed payout comes strictly before the cutoff, a clock release at or after the window's end: never both in one second |
| EscrowClocks.RowAfter | stellar/lib/proofbridge-core/src/escrow_storage.rs:113-152 | Only a lock opens an order's row, its stamps never change, its pin only by a re-pin that marks it, and an ended row never changes |
| EscrowClocks.SetKeeps | stellar/contracts/ad-manager/src/storage.rs:93-108 | A setter adds timing versions and registry epochs and edits none that exists |
| AdManager.Contract.Configure | stellar/contracts/ad-manager/src/lib.rs:188-455 | A valid setting takes effect, any other changes nothing |
| AdManager.Contract.CreateAd | stellar/contracts/ad-manager/src/lib.rs:461-532 | A routed, funded, registered ad is opened with exactly the amount pulled, or nothing changes |
| AdManager.Contract.FundAd | stellar/contracts/ad-manager/src/lib.rs:638-676 | Liquidity is added to an open ad as pulled, or nothing changes |
| AdManager.Contract.WithdrawFromAd | stellar/contracts/ad-manager/src/lib.rs:679-716 | Free liquidity leaves the ad and the escrow, or nothing changes |
| AdManager.Contract.CloseAd | stellar/contracts/ad-manager/src/lib.rs:719-756 | An ad with nothing locked is emptied and closed, or nothing changes |
| AdManager.Contract.SetSettlementSigner | stellar/contracts/ad-manager/src/lib.rs:611-635 | A registered signer replaces the ad's, live orders untouched |
| AdManager.Contract.HaltSettlement | stellar/contracts/ad-manager/src/lib.rs:538-555 | The maker's halt is in force; its last resume survives |
| AdManager.Contract.ResumeSettlement | stellar/contracts/ad-manager/src/lib.rs:558-573 | A halt in force is lifted and stamped, or nothing changes |
| AdManager.Contract.LockForOrder | stellar/contracts/ad-manager/src/lib.rs:767-882 | A valid order reserves its ad amount, is opened with its stamps and counted, and its ORDER leaf appended; any failed check changes nothing |
| AdManager.Contract.CheckLock | stellar/contracts/ad-manager/src/validation.rs:29-124 | Every check of a lock, order validation, registration, window and split included |
| AdManager.Contract.Unlock | stellar/contracts/ad-manager/src/lib.rs:889-954 | A co-signed payout spends its nullifier, ends the order and pays it less the fees, or nothing changes |
| AdManager.Contract.PresentSettled | stellar/contracts/ad-manager/src/lib.rs:1254-1280 | Evidence ends a live order and pays it, or nothing changes |
| AdManager.Contract.Payout | stellar/contracts/ad-manager/src/lib.rs:1477-1541 | The lock released, the LP's share kept in the ad, net and protocol fee paid or credited |
| AdManager.Contract.PayOrCredit | stellar/lib/proofbridge-core/src/escrow_ops.rs:273-291 | A payment is sent, or credited when it cannot be |
| AdManager.Contract.CoSignDenied | stellar/contracts/ad-manager/src/lib.rs:1681-1730 | The maker-side levers read in the contract's order |
| AdManager.Contract.EvidenceGrace | stellar/contracts/ad-manager/src/lib.rs:1775-1792 | The larger of the anchor delay at the lock and now, plus the buffer |
| AdManager.Contract.ClaimCancel | stellar/contracts/ad-manager/src/lib.rs:974-985 | An open order past its deadline is claimed, its window anchored to the deadline |
| AdManager.Contract.FindCancelEnd | stellar/contracts/ad-manager/src/lib.rs:1734-1749 | The one cancel clock |
| AdManager.Contract.FinalizeCancel | stellar/contracts/ad-manager/src/lib.rs:1132-1167 | A claimed order past its clock is cancelled, its lock freed, its CANCEL leaf appended |
| AdManager.Contract.Dispute | stellar/contracts/ad-manager/src/lib.rs:997-1033 | A party files on a live order inside its window; the claim goes |
| AdManager.Contract.FindDisputeEnd | stellar/contracts/ad-manager/src/lib.rs:1752-1768 | The one dispute clock |
| AdManager.Contract.FinalizeDispute | stellar/contracts/ad-manager/src/lib.rs:1063-1128 | The module's outcome applied: a maker forfeit pays the recipient, any other frees the lock; the leaf says which |
| AdManager.Contract.CancelNeverLocked | stellar/contracts/ad-manager/src/lib.rs:1174-1209 | An order that was never locked is cancelled once, on evidence that it is real |
| AdManager.Contract.RepinOrder | stellar/contracts/ad-manager/src/lib.rs:1218-1249 | An open order's pin moves as the signer consented, and is marked |
| AdManager.Contract.RecordSettled | stellar/lib/proofbridge-core/src/escrow_ops.rs:697-721 | A filled order's SETTLED leaf is appended once |
| AdManager.Contract.Claim | stellar/lib/proofbridge-core/src/escrow_ops.rs:294-318 | A credit is paid to its own recipient in full, or nothing changes |
| Fees.BpsOfIsFloor | stellar/lib/proofbridge-core/src/fees.rs:15-18 | The overflow-free split is exactly floor(amount * bps / 10,000) |
| Fees.BpsOfFits | stellar/lib/proofbridge-core/src/fees.rs:12-18 | No intermediate product overflows while bps are at most the whole |
| Fees.SplitLeavesRecipient | stellar/lib/proofbridge-core/src/fees.rs:8-10 | Both fees together take at most 2%, so the recipient of a positive payout is always paid |
| Scaling.ScaleIsExact | stellar/lib/proofbridge-core/src/decimal_scaling.rs:40-66 | A successful scaling is the same quantity in the other token's units, exactly, and stays a u128 |
| Scaling.ScaleRoundTrips | stellar/lib/proofbridge-core/src/decimal_scaling.rs:40-66 | Scaling back returns the signed amount |
| Scaling.Pow10Fits | stellar/lib/proofbridge-core/src/decimal_scaling.rs:50-60 | The power computed with checked_pow never overflows in range |
| Tightening.TighteningRefines | stellar/contracts/agent-account/src/policy.rs:483-543 | An instant tightening, with the spent buckets carried, accepts no timed sequence of batches that the policy it replaced would have refused, whatever happens to targets and account rows in between |
| Tightening.LockRefines | stellar/contracts/agent-account/src/escrow.rs:49-182 | A lock the tightened policy accepts the old one accepts, with the same account debit, and the simulation continues |
| Tightening.RefinesLater | stellar/lib/proofbridge-core/src/rate_limit.rs:48-67 | Holding no more of any token survives the passage of time, spent and never-spent rows alike |
| Tightening.CarryStarts | stellar/contracts/agent-account/src/policy.rs:526-543 | Carrying settles at the old rate and clamps to the new, so the new policy holds no more of any token |
| Tightening.FreshBucketsTopUp | stellar/contracts/agent-account/src/policy.rs:526-543 | Without carrying it would not: fresh buckets give the agent back what it spent |
| VolumeBounds.InstantPolicyWriteRefines | stellar/contracts/agent-account/src/lib.rs:119-190 | On a guarded account every unannounced policy write is such a refinement |
| VolumeBounds.SharedVolumeBound | stellar/contracts/agent-account/src/escrow.rs:143-182 | For every token, over any run with any agents, re-installs, limit changes and batches: everything locked plus what the account may still lock is at most the starting level plus what accrued at the rates in force plus a first limit's capacity |
| VolumeBounds.BurstBound | stellar/contracts/agent-account/src/lib.rs:200-249 | Under a fixed limit a run locks at most capacity + refill * elapsed |
| VolumeBounds.BatchDebitsExactly | stellar/contracts/agent-account/src/lib.rs:796-809 | An accepted batch debits the account's row by exactly what it locks, and changes no limit |
| VolumeBounds.StepDrawsDown | stellar/contracts/agent-account/src/lib.rs:223-243 | No call but a token's first limit adds to what the account may lock |
| VolumeBounds.UnannouncedOutflowBound | stellar/contracts/agent-account/src/escrow.rs:259-292 | Between disarms, whatever is re-armed, what leaves a guarded ad unannounced plus what its bucket holds is at most the initial level plus accrued refill |
| VolumeBounds.RailStepDrawsDown | stellar/contracts/agent-account/src/lib.rs:310-329 | One unannounced call is within the threshold and out of the bucket; re-arming never tops it up |
| TimelockInvariants.StepInv | stellar/contracts/agent-account/src/policy.rs:362-402 | Every call keeps: each pending row opens at least the delay in force now after its announcement, closes within the window in force now, for its ad or for every guarded ad, and none exists unguarded |
| TimelockInvariants.RetimedInv | stellar/contracts/agent-account/src/lib.rs:337-365 | Arming and tightening re-stamp and clamp every row that needs it, in both scopes |
| TimelockInvariants.ClearedKeeps | stellar/contracts/agent-account/src/policy.rs:366-372 | Loosening and disarming leave only other ads' rows, whose rails stand |
| TimelockInvariants.AnnouncedInv | stellar/contracts/agent-account/src/lib.rs:442-484 | A new announcement honours the timelock it was made under |
| TimelockInvariants.TimelockBounds | stellar/contracts/agent-account/src/policy.rs:265-277 | The folded pair bounds every guarded ad's rail and is attained |
| TimelockInvariants.WithoutIsAfter | stellar/contracts/agent-account/src/lib.rs:406-413 | What a disarm of a closed ad is judged by is what it leaves |
| Account.OnlyListedActions | stellar/contracts/agent-account/src/args.rs:45-129 | The calls that can ever be announced are exactly the enumerated ones of each scope |
| TimelockTheorems.NoInstantWeakening | stellar/contracts/agent-account/src/lib.rs:282-297 | No call but a loosening that spends its announcement makes the account's delay shorter, its window longer or its roster empty |
| TimelockTheorems.LooseningIsDelayed | stellar/contracts/agent-account/src/lib.rs:279-297 | Loosening or dropping a live rail is always a delayed call |
| TimelockTheorems.SpentWasAnnounced | stellar/contracts/agent-account/src/escrow.rs:192-207 | Every delayed call that succeeds was announced with these arguments at least the delay in force now before, and spends its row |
| TimelockTheorems.UsedOnce | stellar/contracts/agent-account/src/escrow.rs:204-206 | Over any run each announcement is used at most once |
| TimelockTheorems.RowNeverHurried | stellar/contracts/agent-account/src/policy.rs:374-402 | Until announced anew a row keeps its arguments and its announcement and its opening never moves earlier |
| TimelockTheorems.NothingBeforeTheDelay | stellar/contracts/agent-account/src/policy.rs:248-277 | From the moment nothing is pending, no sequence of calls makes a sweep, upgrade, resume, new target, wider limit or policy, or, on an ad as strict, a relaxed rail, close, signer change or over-threshold move before the delay has passed; the delay stands throughout |
| TimelockTheorems.ReachableInv | stellar/contracts/agent-account/src/lib.rs:442-511 | Every state a new account can reach, by any timed run, has the pending-row invariant |
| RateLimit.AvailableIsMin | stellar/lib/proofbridge-core/src/rate_limit.rs:48-67 | The checked arithmetic is min(capacity, level + refill * elapsed) |
| RateLimit.AvailableComposes | stellar/lib/proofbridge-core/src/rate_limit.rs:43-67 | Reading a bucket in between changes nothing of its future |
| RateLimit.SpendIsExact | stellar/lib/proofbridge-core/src/rate_limit.rs:69-91 | A spend takes exactly its amount out of what is available |
| RateLimit.DominationPersists | stellar/lib/proofbridge-core/src/rate_limit.rs:48-67 | A bucket that holds less under a limit no wider holds less at every later time |
| AgentAccount.Contract.SetTargets | stellar/contracts/agent-account/src/lib.rs:84-104 | Valid targets are pinned; one not pinned already needs its announcement on a guarded account |
| AgentAccount.Contract.SetPolicy | stellar/contracts/agent-account/src/lib.rs:119-190 | A valid policy is installed, its buckets carried when it tightens a guarded account's, announced otherwise |
| AgentAccount.Contract.SetAccountLimit | stellar/contracts/agent-account/src/lib.rs:200-257 | A limit is set, its bucket settled at the old rate and clamped, announced when it loosens |
| AgentAccount.Contract.SetGuardRail | stellar/contracts/agent-account/src/lib.rs:265-382 | A rail is armed, tightened, loosened or dropped, with its announcement when it loosens, pending rows re-timed or cleared |
| AgentAccount.Contract.DisarmClosedAd | stellar/contracts/agent-account/src/lib.rs:392-425 | A closed ad's rail comes off at once unless the account's timelock would weaken |
| AgentAccount.Contract.Announce | stellar/contracts/agent-account/src/lib.rs:442-511 | A call of the scope's own shape is announced under the delay and window in force |
| AgentAccount.Contract.Cancel | stellar/contracts/agent-account/src/lib.rs:515-526 | A pending row is stood down, or nothing changes |
| AgentAccount.Contract.RevokeAgent | stellar/contracts/agent-account/src/lib.rs:556-568 | The agent is revoked for good |
| AgentAccount.Contract.Upgrade | stellar/contracts/agent-account/src/lib.rs:573-591 | On a guarded account only with a matured announcement of this hash |
| AgentAccount.Contract.Sweep | stellar/contracts/agent-account/src/lib.rs:698-712 | On a guarded account only with a matured announcement of this transfer |
| AgentAccount.Contract.CheckOwnerCall | stellar/contracts/agent-account/src/escrow.rs:224-292 | The owner's guard rail: refused, announced, or drawn from the ad's bucket |
| AgentAccount.Contract.Call | stellar/contracts/agent-account/src/lib.rs:679-693 | A pinned escrow is called behind the guard rail, which a failed call undoes |
| AgentAccount.Contract.CheckContractCall | stellar/contracts/agent-account/src/escrow.rs:49-182 | A lock is judged by reach, then size, then rate, a lock with two faults refused for the earlier, and both buckets charged or neither |
| AgentAccount.Contract.CheckAuth | stellar/contracts/agent-account/src/lib.rs:769-811 | A batch is charged in turn against one policy and stored once, or debits nothing |
| AgentAccount.Contract.Spend | stellar/contracts/agent-account/src/escrow.rs:192-207 | A matured, unexpired announcement of exactly these arguments is removed, or nothing changes |
| AgentAccount.FindTimelock | stellar/contracts/agent-account/src/policy.rs:265-277 | The longest delay and the shortest window over the roster but one ad |
| AgentAccount.RosterWithout | stellar/contracts/agent-account/src/policy.rs:300-312 | The roster without one ad, in order |
| AgentAccount.Restamp | stellar/contracts/agent-account/src/policy.rs:377-387 | Every pending row of the scope opens no earlier than the given time, for as long as before |
| AgentAccount.ClampWindows | stellar/contracts/agent-account/src/policy.rs:391-401 | Every pending row of the scope closes within the window |
| AgentAccount.ClearAllSchedules | stellar/contracts/agent-account/src/policy.rs:366-372 | The ad's rows and the account's are gone |
| Policies.PutBucket | stellar/contracts/agent-account/src/policy.rs:139-159 | The token's first row replaced, or one appended |
| Policies.CarryBuckets | stellar/contracts/agent-account/src/policy.rs:528-543 | Every spent token's bucket carried, settled and clamped |
| RegistryInvariants.StepInv | stellar/contracts/bls-key-registry/src/lib.rs:759-844 | Every call keeps: live ids distinct, at most 5, below the next id and exactly the stored slots; a used key's row names its one slot and no other key's; recorded stops match the dates |
| RegistryInvariants.ReachableInv | stellar/contracts/bls-key-registry/src/lib.rs:759-844 | Every state a new registry can reach, by any timed run, has it |
| RegistryInvariants.OneSlotPerKey | stellar/contracts/bls-key-registry/src/storage.rs:165-175 | Each commitment enters at most one slot ever |
| RegistryInvariants.KeyRowIsPermanent | stellar/contracts/bls-key-registry/src/storage.rs:25-35 | The key to slot row, which outlives its slot, is never rewritten |
| RegistryInvariants.RetirementNamesItsKey | stellar/contracts/bls-key-registry/src/lib.rs:383-425 | A retirement acts on exactly the slot of the key it names and touches no other |
| RegistryInvariants.StopTime | stellar/contracts/bls-key-registry/src/lib.rs:638-651 | A stored slot is usable now if and only if expired_at is 0 or ahead, and while usable the two dates coincide |
| RegistryInvariants.StopNeverRises | stellar/contracts/bls-key-registry/src/lib.rs:393-417 | A recorded stop never rises |
| RegistryInvariants.StopIsNotBackdated | stellar/contracts/bls-key-registry/src/lib.rs:405-417 | A stop is never dated before the call that writes it |
| RegistryInvariants.DroppedIsPast | stellar/contracts/bls-key-registry/src/lib.rs:804-844 | A slot leaves the store only by its account's revocation or strictly past its stop |
| RegistryInvariants.StopSurvives | stellar/contracts/bls-key-registry/src/lib.rs:804-844 | While an order is open a stop survives every call until the grace period after it |
| RegistryInvariants.RevokeClearsApprovals | stellar/contracts/bls-key-registry/src/lib.rs:431-464 | After revoke no maker is approved |
| RegistryInvariants.UnapprovedUntilApproved | stellar/contracts/bls-key-registry/src/lib.rs:494-552 | And none becomes approved until approved again |
| KeyRegistry.Contract.AddSlot | stellar/contracts/bls-key-registry/src/lib.rs:759-792 | A new key enters the next slot, after pruning a full account, or nothing changes |
| KeyRegistry.Contract.Register | stellar/contracts/bls-key-registry/src/lib.rs:246-305 | A checked key is registered and its nonce used, or nothing changes |
| KeyRegistry.Contract.RegisterByProof | stellar/contracts/bls-key-registry/src/lib.rs:311-376 | The same on an allowed source's proof |
| KeyRegistry.Contract.SetValidUntil | stellar/contracts/bls-key-registry/src/lib.rs:383-425 | A shorten-only retirement, its stop recorded as the later of the date and now |
| KeyRegistry.Contract.Revoke | stellar/contracts/bls-key-registry/src/lib.rs:431-464 | Every slot and approval goes, only with no open position reported |
| KeyRegistry.Contract.CancelPending | stellar/contracts/bls-key-registry/src/lib.rs:468-490 | The nonce is used up |
| KeyRegistry.Contract.ApproveMaker | stellar/contracts/bls-key-registry/src/lib.rs:494-552 | A maker is approved or withdrawn under the current generation |
| KeyRegistry.Contract.ApproveRepin | stellar/contracts/bls-key-registry/src/lib.rs:556-600 | A re-pin consent is recorded under its own nonce |
| KeyRegistry.Prune | stellar/contracts/bls-key-registry/src/lib.rs:814-844 | Exactly the prunable live slots go, with their rows, the rest in order |
| Calendar.PrinterIsCalendar | stellar/contracts/bls-key-registry/src/owner.rs:439-462 | For every day count the era arithmetic yields the date a day-by-day Gregorian calendar reaches from 1970-01-01, valid, counting back to the day |
| Calendar.PrintedDateIsUnique | stellar/contracts/bls-key-registry/src/owner.rs:439-462 | And it is the only valid date that does |
| Printing.PushUtc | stellar/contracts/bls-key-registry/src/owner.rs:440-463 | The printed time is that date and the time of day |
| Printing.PushDecimal | stellar/contracts/bls-key-registry/src/owner.rs:475-487 | The array filled backwards holds the decimal of any u128 |
| Printing.PushPadded | stellar/contracts/bls-key-registry/src/owner.rs:466-473 | Zero-padded to the width |
| Printing.HexLower | stellar/contracts/bls-key-registry/src/owner.rs:490-500 | 0x and 64 lower-case hex digits |
| Printing.DecimalReadsBack | stellar/contracts/bls-key-registry/src/owner.rs:475-487 | A decimal followed by anything but a digit reads back |
| Printing.HexReadsBack | stellar/contracts/bls-key-registry/src/owner.rs:490-500 | A hex word reads back |
| OwnerText.BuildText | stellar/contracts/bls-key-registry/src/owner.rs:366-435 | The appended buffer is the message's lines, joined |
| OwnerReader.TextReadsBack | stellar/contracts/bls-key-registry/src/owner.rs:366-500 | A reader undoes the text: environment, account, fields, deadline and legs, for leg lists of any length |
| OwnerReader.TextUnambiguous | stellar/contracts/bls-key-registry/src/owner.rs:366-500 | Equal bytes if and only if equal content, retirements carrying no legs |
| OwnerMessages.BothFormsBindTheSame | stellar/contracts/bls-key-registry/src/owner.rs:199-223 | For messages passing check_legs, equal texts if and only if equal struct preimages, the nonce recovered from this registry's one leg |
| OwnerMessages.PreimageDetermines | stellar/contracts/bls-key-registry/src/owner.rs:296-360 | Equal struct preimages come from the same account, legs and fields |
| OwnerMessages.StructHash | stellar/contracts/bls-key-registry/src/owner.rs:296-360 | The digest is the hash of that preimage |
| OwnerMessages.HashLegs | stellar/contracts/bls-key-registry/src/owner.rs:284-294 | The legs' hash is the hash of the legs' hashes in order |
| OwnerMessages.TypeHashesDiffer | stellar/contracts/bls-key-registry/src/owner.rs:15-52 | The type hashes tell the message types apart |
| DisputeTheorems.HoldingsAccountedFor | stellar/contracts/dispute-manager/src/lib.rs:230-333 | Over a new module's whole life its holdings of a token are its open bonds, its credits and exactly what strayed; so they are bonds and credits to the unit if and only if no accepted call of the run was a gift or paid the module itself |
| DisputeTheorems.SurplusMoves | stellar/contracts/dispute-manager/src/lib.rs:620-648 | What is held and owed to nobody moves by exactly what a call strays, never down, and by something exactly for a gift, a settlement the token lets through to a fee pool that is the module, or a claim for the module |
| DisputeInvariants.StepInv | stellar/contracts/dispute-manager/src/lib.rs:230-333 | Every call keeps: each token's holdings are exactly the open bonds and credits in it plus what strayed, the two credit ledgers never overlap, no record's deadline is early |
| DisputeInvariants.Solvent | stellar/contracts/dispute-manager/src/lib.rs:620-648 | The module always holds the bonds and credits it owes |
| DisputeInvariants.BondInRange | stellar/lib/proofbridge-core/src/dispute.rs:59-73 | Every bond a route can ask is positive and fits an i128, whatever the order's amount |
| DisputeTheorems.BondHasAnExit | stellar/contracts/dispute-manager/src/lib.rs:297-333 | The escrow that opened a dispute can always close it: no pool, token or ledger strands a bond |
| DisputeTheorems.SettleRoutesTheBond | stellar/contracts/dispute-manager/src/lib.rs:297-333 | A settlement gives the whole bond to the filer or the pool, by transfer or credit, and moves nothing owed to anyone else |
| DisputeTheorems.BondLeavesOnce | stellar/contracts/dispute-manager/src/lib.rs:230-333 | Over any run filings less settlements of an order is whether its record is open |
| DisputeTheorems.ResponseStands | stellar/contracts/dispute-manager/src/lib.rs:344-378 | A recorded response is never overwritten before the settlement |
| DisputeTheorems.NoEarlyDeadline | stellar/contracts/dispute-manager/src/lib.rs:388-408 | No dispute is over before the order's deadline + buffer, nor, once ruled, before the last ruling + buffer |
| DisputeTheorems.ClaimPaysTheCredit | stellar/contracts/dispute-manager/src/lib.rs:524-569 | A credit can always be drawn in full by its owner, once, and moves no one else's |
| DisputeManager.Contract.OpenDispute | stellar/contracts/dispute-manager/src/lib.rs:217-284 | A filing pulls exactly the route's bond and records the dispute, or nothing changes |
| DisputeManager.Contract.SettleBond | stellar/contracts/dispute-manager/src/lib.rs:297-333 | The opener's settlement closes the record and routes the bond |
| DisputeManager.Contract.PayOrCredit | stellar/contracts/dispute-manager/src/lib.rs:620-648 | Sent, or credited in the token's own ledger |
| DisputeManager.Contract.RecordResponse | stellar/contracts/dispute-manager/src/lib.rs:344-378 | One non-zero answer by another party, before the ruling and the deadline |
| DisputeManager.Contract.ResolveDispute | stellar/contracts/dispute-manager/src/lib.rs:388-408 | A ruling before the deadline moves it to the later of now and the order's deadline, plus the buffer |
| DisputeManager.Contract.Claim | stellar/contracts/dispute-manager/src/lib.rs:551-569 | The native credit is paid in full or nothing changes |
| DisputeManager.Contract.ClaimTokenCredit | stellar/contracts/dispute-manager/src/lib.rs:524-548 | A token credit is paid in full or nothing changes |
| DisputeManager.Contract.SetBondConfig | stellar/contracts/dispute-manager/src/lib.rs:125-147 | A valid route bond is set, a zero one cleared |
| DisputeManager.Contract.SetDisputeParams | stellar/contracts/dispute-manager/src/lib.rs:77-98 | Valid parameters are set |
| EscrowOutcomes.DoorsPay | stellar/contracts/ad-manager/src/lib.rs:1477-1541 | Who is paid at each of the four doors, for every account, token and asset: the order's recipient the net and the fee pool the protocol's cut, sent when the token lets it and credited to that very account when not; nobody else is credited, no other asset moves, and an unruled or refunding door moves no money |
| EscrowOutcomes.DoorsEnd | stellar/contracts/ad-manager/src/lib.rs:1080-1128 | What each door leaves: the order ended, a FORFEIT leaf exactly when the arbiter ruled against the bridger and a CANCEL leaf for any other released lock, the lock out of its ad, and out of the balance exactly what was paid; the LP's cut stays |
| EscrowOutcomes.RefusedPayoutIsClaimable | stellar/lib/proofbridge-core/src/escrow_ops.rs:273-318 | A recipient its token refused is credited the net; the credit outlasts any run in which it is not claimed, and a claim then draws at least that |
| EscrowOutcomes.CreditStands | stellar/lib/proofbridge-core/src/escrow_ops.rs:294-318 | Nothing but its own claim lowers a credit |
| EscrowOutcomes.ClaimDraws | stellar/lib/proofbridge-core/src/escrow_ops.rs:294-318 | A credit can be drawn in full whenever the token lets it, is then gone, and no one else's moves |
| EscrowOutcomes.TermsOf | stellar/contracts/ad-manager/src/lib.rs:1505-1541 | The LP's part is floor(amount * lpFeeBps / 10,000), none on a forfeit, the protocol's floor(amount * protocolFeeBps / 10,000), the recipient's the rest |
| EscrowOutcomes.ReachableCarry | stellar/contracts/ad-manager/src/validation.rs:29-124 | In every state a new escrow can reach, every live order carries the terms its lock validated: its ad's route, maker, recipient and token, a real recipient who is neither maker nor signer, fees within 1% |
| EscrowRules.LockIsVouched | stellar/contracts/ad-manager/src/lib.rs:767-840 | An accepted lock is of an absent order, on an open ad of an unpaused escrow, within free liquidity, for a signer usable in the wired registry and the maker's own or approved, with a usable slot, the route's window, at most 7 days, the fees in force and one registry on both sides |
| EscrowRules.LockStamps | stellar/contracts/ad-manager/src/lib.rs:841-882 | What a lock leaves: its amount reserved, nothing paid, the second, clock version, registry, anchor delay and slot stamped, its signer counted, its ORDER leaf appended |
| EscrowRules.PauseStopsNoExit | stellar/contracts/ad-manager/src/lib.rs:461-470 | The pause stops nothing but creating, funding and locking: every other call is open under it exactly as without it |
| EscrowRules.HaltStopsPayouts | stellar/contracts/ad-manager/src/lib.rs:538-573 | From a maker's halt, over any run in which it does not resume, no co-signed payout of an order on its ads is accepted |
| EscrowRules.CancelsExactlyWhen | stellar/contracts/ad-manager/src/lib.rs:1734-1749 | A claimed order's cancel, to the second: from deadline + buffer of its lock's clocks on, or, if and only if a lever was pulled by its cutoff, from the longer of the anchor's delays and a buffer after that |
| EscrowRules.DisputesEndExactlyWhen | stellar/contracts/ad-manager/src/lib.rs:1752-1768 | A dispute's end, to the second: from the module's deadline on, or, unless the arbiter ruled against the maker, if and only if a lever was pulled by it, from that wait after |
| EscrowRules.DeniedIsLevered | stellar/contracts/ad-manager/src/lib.rs:1681-1730 | The payout is denied exactly when a lever was pulled since the lock, each said of the rows and answers it is read from |
| EscrowRules.PartiesFile | stellar/contracts/ad-manager/src/lib.rs:997-1033 | Only the ad's maker and the order's recipient file, on an open or claimed leg before its window is over; the module wired then keeps it and the claim is gone |
| EscrowRules.EndedNeverLocks | stellar/contracts/ad-manager/src/lib.rs:24-29 | Over any run an ended order, one cancelled as never locked included, keeps its row and is never locked |
| EscrowRules.RepinsAsConsented | stellar/contracts/ad-manager/src/lib.rs:1218-1249 | A re-pin moves an open order's pin exactly as its signer consented, from the slot it had to one usable now, and marks it |
| EscrowRules.AdsAreFunded | stellar/contracts/ad-manager/src/lib.rs:461-532 | An ad's money comes in as its token delivered it, to the unit, and is what the ad then holds, under a signer that is the maker or approved by it |
| EscrowRules.SignersAreVouched | stellar/contracts/ad-manager/src/lib.rs:611-635 | A new settlement signer is usable and the maker's own or approved; only that field of the ad moves |
| EscrowRules.AdsAreDrained | stellar/contracts/ad-manager/src/lib.rs:679-756 | A withdrawal takes its amount and a close the whole balance out of the ad and the escrow alike; the lock is untouched |
| EscrowRules.SettingsTakeEffect | stellar/contracts/ad-manager/src/lib.rs:188-455 | A setting is accepted exactly within its bounds, and is then what the calls read |
| Verdicts.TheArbiterDecides | stellar/contracts/ad-manager/src/lib.rs:1063-1128 | Over every run of a new escrow with its modules, a dispute that ends was ruled as the arbiter last ruled since its filing, or not at all; it pays out exactly when that was against the maker, writes FORFEIT exactly when it was against the bridger, and otherwise gives the lock back and moves no money |
| Verdicts.BondFollowsTheVerdict | stellar/contracts/ad-manager/src/lib.rs:1550-1576 | Who gets the bond of a dispute the escrow ends: the filer when nobody or the other side was ruled against, or when proof settled a bridger whose payout had been denied; else the pool |
| DisputeOutcomes.RulingIsTheArbiters | stellar/contracts/dispute-manager/src/lib.rs:388-408 | Over any run an open dispute's ruling is the outcome the arbiter last gave since it was filed, or none |
| DisputeOutcomes.RulingIsRecorded | stellar/contracts/dispute-manager/src/lib.rs:388-408 | A ruling is one of the arbiter's three, on an open dispute before its deadline; it is recorded as given and moves only that deadline |
| DisputeOutcomes.FilingRecords | stellar/contracts/dispute-manager/src/lib.rs:217-284 | A filing takes in exactly the route's bond, delivered by the filer, and records it unruled and unanswered under the later of the two deadlines |
| DisputeOutcomes.BondIsSettled | stellar/contracts/dispute-manager/src/lib.rs:297-333 | A settlement is its own escrow's; the whole bond goes to the filer if it was vouched for, refunded or the other side lost, else to the pool, sent or credited to that party alone |
| DisputeOutcomes.ResponseIsRecorded | stellar/contracts/dispute-manager/src/lib.rs:344-378 | One answer by someone other than the filer, before any ruling and the deadline, recorded and nothing else |
| DisputeOutcomes.CreditStands | stellar/contracts/dispute-manager/src/lib.rs:524-569 | Nothing but its own claim lowers a credit |
| DisputeOutcomes.SettingsAreStored | stellar/contracts/dispute-manager/src/lib.rs:58-147 | Escrows, arbiter, pool, parameters and route bonds are as last set, within bounds |
| GuardedCalls.GuardedCallsAreAnnounced | stellar/contracts/agent-account/src/lib.rs:696-712 | Call by call: a sweep, upgrade, resume, new target, wider limit or policy, relaxed rail, close, signer change or over-threshold move on a guarded account was announced with exactly its own arguments, its delay over and its window not |
| GuardedCalls.OthersNeedNone | stellar/contracts/agent-account/src/escrow.rs:224-292 | And no other call, and none on an unguarded account, needs an announcement |
| GuardedCalls.CallsAreListed | stellar/contracts/agent-account/src/policy.rs:579-620 | Only a pinned escrow is called, never a token's functions, and on a guarded account only the listed ones |
| TimelockTheorems.GuardedCallsWaited | stellar/contracts/agent-account/src/escrow.rs:192-207 | Each such call waited at least the delay in force now since it was announced, and uses its announcement up |
| AccountOutcomes.RevokedForGood | stellar/contracts/agent-account/src/lib.rs:786-788 | Over any run a revoked agent stays revoked, is never authorized, and is given no new policy |
| AccountOutcomes.ExpiredUntilInstalled | stellar/contracts/agent-account/src/lib.rs:789-791 | From its end on an agent is never authorized, over any run in which no policy of it is installed |
| AccountOutcomes.RevocationRevokes | stellar/contracts/agent-account/src/lib.rs:556-568 | A revocation is of an agent there is, and revokes it |
| AccountOutcomes.AuthorizedIsWithinPolicy | stellar/contracts/agent-account/src/escrow.rs:49-142 | Every call of an accepted batch is a lock on a pinned escrow, of this account's ad in the policy's scope, for the policy's signer and tokens, of a positive amount up to its token's cap |
| AccountOutcomes.AgentVolumeBound | stellar/contracts/agent-account/src/escrow.rs:143-182 | Under one policy, over any run, what an agent locks of a token and what it may still lock are at most what it might at the start and the refill since |
| AccountOutcomes.StoredPoliciesAreSound | stellar/contracts/agent-account/src/policy.rs:735-800 | Every policy ever stored locks orders and nothing else, for a real signer, of distinct real tokens with a refilling bucket covering the cap and a volume limit |
| AccountOutcomes.BrakesHold | stellar/contracts/agent-account/src/lib.rs:265-425 | A guarded ad's threshold, delay, window and rate are loosened only by an announced change, and its rail goes only so or once the ad is closed and the account's timelock is none the weaker |
| AccountOutcomes.RailIsSet | stellar/contracts/agent-account/src/lib.rs:299-330 | A rail is stored as set, its bucket what it held under the old settings, clamped, or full on a first arming |
| AccountOutcomes.AnnouncementIsStored | stellar/contracts/agent-account/src/lib.rs:442-511 | An announcement commits to exactly the call's arguments, opens the scope's delay from now and closes its window after, and replaces only its own row |
| AccountOutcomes.SettingsAreStored | stellar/contracts/agent-account/src/lib.rs:84-257 | Targets and limits are stored as called, within bounds, and no other limit moves |
| RegistryOutcomes.RegistrationEnters | stellar/contracts/bls-key-registry/src/lib.rs:246-305 | A registration, checked, in time and under the next nonce, enters its key in a new slot usable from now on, uses the nonce up, and touches no other key but slots past their stop |
| RegistryOutcomes.ProofRegistrationEnters | stellar/contracts/bls-key-registry/src/lib.rs:311-376 | By proof the same, from an allowed source while enabled, and no nonce |
| RegistryOutcomes.RetirementStops | stellar/contracts/bls-key-registry/src/lib.rs:383-425 | A retirement is the owner's, only shortens, and the key is usable before its date and never after |
| RegistryOutcomes.RevocationEmpties | stellar/contracts/bls-key-registry/src/lib.rs:431-464 | Leaving needs nothing open, empties the slots, voids the approvals, and forgets no key |
| RegistryOutcomes.ApprovalTakesEffect | stellar/contracts/bls-key-registry/src/lib.rs:494-552 | An approval under the pair's nonce makes the maker approved, its withdrawal not, and moves no other maker's standing |
| RegistryOutcomes.ApprovalStands | stellar/contracts/bls-key-registry/src/lib.rs:621-632 | An approval stands until it is withdrawn or the account is left |
| RegistryOutcomes.NoSignatureTwice | stellar/contracts/bls-key-registry/src/lib.rs:246-490 | Over any run no owner signature is used twice: once a registration, revocation or cancellation under a nonce is accepted, none under it ever is again |
| RegistryOutcomes.NoApprovalTwice | stellar/contracts/bls-key-registry/src/lib.rs:494-552 | Nor is an approval's, not even after the account is left |
| RegistryOutcomes.RepinIsRecorded | stellar/contracts/bls-key-registry/src/lib.rs:556-600 | A re-pin consent under the order's nonce is recorded as given |
| RegistryOutcomes.SettingsAreStored | stellar/contracts/bls-key-registry/src/lib.rs:177-240 | The pause, guards and proof sources are as last set, and no account moves |
| OwnerReader.TextNamesItsAct | stellar/contracts/bls-key-registry/src/owner.rs:54-70 | Every text opens with what it is for: an approval says allow, its withdrawal withdraw |

## Left out

- Cryptography (keccak, BLS pairing, ed25519 and secp256k1 recovery, the proof verifier): inputs or injective constructors, as said above.
- The merkle manager's tree: the log is the sequence of (order, domain) leaves.
- The order portal, the counterparty verifier, the root anchor's own storage and the EVM contracts are not part of this model.
- The shared 24-hour admin timelock, admin handover, `initialize`, `migrate` and code upgrades: the account's `upgrade` is modelled up to the point where the code is swapped.
- TTL, archival and restoration; events; error numbers. A refused call's error is one of the contract's own kinds, but only the lock check's order of faults is part of a contract.
- The agent account's `create_ad` and `fund_ad`, and the balance check around `call`: they touch none of the account's rows, so a call's success or failure is an input.
- The registry's pause, guard and proof-registration setters are steps of the state machine; only the guards' setter has a method.
- `respond_to_dispute` changes nothing in the escrow; its effect is the module's `Respond`, which the joint model allows at any time by any escrow.
- `EscrowTheorems.EvidenceAlwaysPays` leaves the dispute module free to refuse; `Arbitration.EvidenceBeatsArbitration` closes that.
- AgentAccount.Contract.Upgrade: the swap of the code itself is not modelled; what it waits for is.
- GraceTheorem.EvidenceGrace: a registry split at the moment of the cancel also denies, but leaves no mark, so it is not among the levers that must show later.
- Escrow calls that read a registry in a view only (`has_usable_slot`, `is_approved_maker`) get an arbitrary answer; the one the grace needs, that a lock pins a usable slot, is tied to the registry.
