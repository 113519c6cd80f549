# ReserveFlow Credit: a Dafny model

ReserveFlow lends a test token (rfUSD) against XRP reserves. Reserves are known to the contracts
only through XRPL payments that the Flare Data Connector (FDC) has verified, and their value only
through a fresh FTSO price. This project models three parts of the system and proves properties
of them over every input, every run or every interleaving.

**The on-chain protocol** (`packages/contracts/src`). Each contract is a class with the storage
fields of the Solidity contract; its methods make the same checks and the same writes in the same
order. Beside each class stands its specification: a state datatype whose functions make all
checks on the state before the transaction and then produce the whole state after it. Every method
is proved to give the specified result: same success, same first error, same state.
`DeploymentPlan.Deployment` wires the seven objects as `deployWithXrpRepayment` does, and
`Transact` executes one external call with the EVM's revert semantics. `Protocol` turns the
specifications into one state machine (`World`, `Step`, `Run`), on which the invariants are proved by
induction over runs of any transactions by any senders that are not the contracts themselves.

**The attestation coordinator** (`apps/attestation-worker/src`). Every method is cut at its
`await`s. An in-flight call is a frame that holds its locals, including records that may have gone
stale; a segment runs one frame to its next `await`. The coordinator and store classes execute
segments, `EventLoop` interleaves any number of calls, and `CoordinatorSafety` proves an inductive
invariant over stored records, program counters and stale locals.

**Credit arithmetic and its mirror in the web application** (`apps/web/src/credit-experience.ts`):
nested floors, price drops, the XRP quote, the previews, and the rfUSD printer and parser.

| files | content |
|---|---|
| `Evm`, `AccessControl` | words, addresses, hashes, reverts, `mulDiv`, roles, sums over mappings |
| `MockUsd`, `ProofRegistry`, `InvoiceRegistry`, `ReserveFlowCore`, `RiskEngine`, `CreditVault`, `XrpRepaymentRouter` | one contract each: specification and class |
| `Protocol`, `DeploymentPlan` | the wired system as a state machine and as objects |
| `Wiring`, `Reservations`, `Conservation`, `Payments`, `Ledger`, `CreditLines`, `Lifecycle` | the invariants, one topic each |
| `Safety`, `Authority` | the results for every run; who may change what |
| `Acceptance`, `Effects`, `Refusals` | every call: when it is accepted, what it leaves behind, what its errors mean |
| `Witnesses` | runs from deployment that end where the code does less than one may expect |
| `CreditMath`, `CreditPreview`, `RfUsdText`, `VotingRound` | arithmetic, previews, text, voting rounds |
| `AttestationStore`, `Coordinator` | the worker: specification and classes |
| `CoordinatorSafety`, `CoordinatorCalls` | every interleaving of its calls; each call from start to end |
| `Execution` | the objects of both systems over whole runs |

How outside things are modelled:

- `keccak256(abi.encode(...))` is a constructor of `Bytes32`, one for each use: injective, and the images
  of different uses are disjoint; no result depends on the latter.
- `verifyXRPPayment`, the FTSO price and its time, and the block time are inputs of each transaction
  (`Env`), unrelated between transactions; not even monotone time is needed.
- `uint256`, `int256`, `uint64`, `uint16` are subset types, so every overflow is either an explicit
  `Panic` or proved impossible. ERC-20 balances are unbounded in the model and proved to fit.
- Dependencies of the coordinator answer anything, in any order, or fail.
- `quotedPrice` (router) and `seen` (coordinator) are history variables; event logs are state.

Three places where the code does less than one may expect, each with a run from deployment that gets there:

- The repayment preview does not know about amounts reserved for XRP repayments. It shows REPAY for
  repayments the vault refuses (`Witnesses.RepayPreviewMissesReservations`); `CreditPreview.RepayPreviewExact`
  gives the exact condition.
- Settling an invoice does not compare the account or borrower the invoice names with the submitting
  account, so a SETTLED invoice may name others (`Witnesses.InvoiceSettledElsewhere`);
  `Authority.InvoiceNamesAccountExactly` says when they agree.
- A borrow may leave a debt the engine cannot evaluate, because the health factor no longer fits 256 bits
  (`Witnesses.BorrowLeavesNoAnswer`); `CreditLines.BorrowLeavesNoMarginCall` gives the exact condition.

## Model

| member | source | states |
|---|---|---|
| `DeploymentPlan.Deployment.Transact` | packages/contracts/src/ReserveFlowCore.sol:192-318 | One transaction on the seven wired objects, for every external call: it is accepted exactly when the checks-first specification accepts, reaches its post-state, and after a revert with the same error all contracts are as before, whatever had been written |
| `DeploymentPlan.DeployWithXrpRepayment` | packages/contracts/src/DeploymentPlan.sol:53-72 | Creation and wiring succeed exactly when every constructor and setter check passes, else with the first failing one; the objects, all newly created, then form the initial state of the protocol, correctly connected |
| `Execution.DeployAndTransact` | packages/contracts/src/DeploymentPlan.sol:53-72 | The deployed objects after any sequence of transactions are in the state the protocol reaches by that run, so every result about reachable states is about their fields |
| `Execution.DeployedBooks` | packages/contracts/src/CreditVault.sol:119-216 | After any run on the objects the stored reservations are the OPEN intents in the router and at most the principal, balances sum to the supply, and vault balance, principals and SETTLED intents sum to the supply plus direct donations |
| `DeploymentPlan.Deploy` | packages/contracts/src/DeploymentPlan.sol:28-51 | The six contracts before the router exist, at their addresses, wired, with the stated initial storage and the configured risk parameters |
| `DeploymentPlan.DeployLedger` | packages/contracts/src/DeploymentPlan.sol:36-41 | Core, proof registry and invoice registry, wired; succeeds exactly when the deployer is the risk administrator |
| `Safety.GoodStep` | packages/contracts/src/CreditVault.sol:119-216 | All invariants together are kept by every external transaction |
| `Safety.ReachableGood` | packages/contracts/src/DeploymentPlan.sol:53-72 | All invariants hold after every run from deployment |
| `Safety.ReservationsMatchIntents` | packages/contracts/src/XrpRepaymentRouter.sol:89-166 | In every reachable state `pendingXrpRepayments[b]` is the sum of `b`'s OPEN intents and at most the principal |
| `Safety.MoneyConserved` | packages/contracts/src/CreditVault.sol:119-200 | In every reachable state: supply and sum of balances are `INITIAL_VAULT_LIQUIDITY`; vault balance + all principals + all SETTLED intents = initial liquidity + direct donations of the run; borrowed = principal + repaid + own SETTLED intents; principal is at most the limit of the last borrow |
| `Safety.ExactlyOnce` | packages/contracts/src/XrpProofRegistry.sol:35-39 | In every reachable state accepted reserve updates and XRP repayments carry pairwise distinct XRPL transactions, also across the two; `usedProofs` is the set of reserve ids and inside `consumedProofs`; `consumedProofs` is exactly the accepted ids if and only if no other account has consumed a proof |
| `Safety.ConsumedAreAccepted` | packages/contracts/src/XrpProofRegistry.sol:25-39 | If no transaction of the run succeeds in granting the consumer role to another account, `consumedProofs` is exactly the accepted ids; reverted attempts by anyone are allowed |
| `Safety.LedgerIsReplay` | packages/contracts/src/ReserveFlowCore.sol:192-297 | In every reachable state each account is the consistent replay of its events, every prefix of the log is consistent (no negative balance), and block numbers per account strictly increase |
| `Safety.EventsVerified` | packages/contracts/src/ReserveFlowCore.sol:192-297 | Every event of the reserve log goes back to a transaction of the run whose FDC proof was verified, with the same id, amount, block and owner |
| `Safety.BorrowNeedsVerifiedPayment` | packages/contracts/src/CreditVault.sol:119-145 | A borrow succeeds only on an ACTIVE account of the borrower with an event that a verified proof backs and that is no older than `reserveTtlSeconds` |
| `Safety.SettledInvoiceHasOneEvent` | packages/contracts/src/InvoiceRegistry.sol:81-102 | Every SETTLED invoice was paid by exactly one incoming reserve event with its proof id, amount and time, and no other SETTLED invoice by that event |
| `Safety.TermsNeverChange` | packages/contracts/src/XrpRepaymentRouter.sol:102-166 | Over any continuation of a run no intent or invoice disappears, changes its terms or leaves a closed status |
| `Safety.SettlementsCoverPrincipal` | packages/contracts/src/XrpRepaymentRouter.sol:119-148 | Over any run the drops received for SETTLED intents, valued at the quoted prices, are worth at least the principal they cleared |
| `Safety.ClosingNeverReverts` | packages/contracts/src/CreditVault.sol:188-216 | For an OPEN intent the vault's settle and release cannot revert and `principal - pending` cannot underflow |
| `Safety.CancelAll` | packages/contracts/src/XrpRepaymentRouter.sol:150-157 | As many cancellations as the borrower has OPEN intents release the whole reservation and leave principal and token alone |
| `Safety.DebtCanBeCleared` | packages/contracts/src/CreditVault.sol:147-178 | From every reachable state a run of cancellations leads to a state in which repaying the whole principal is accepted in every environment, given balance and allowance, whatever the pause flag and risk status |
| `Safety.WholeRepaymentAccepted` | packages/contracts/src/CreditVault.sol:147-178 | Without reservations, repaying the whole principal is accepted given balance and allowance and leaves principal 0 |
| `Safety.CancelEffect` | packages/contracts/src/XrpRepaymentRouter.sol:150-157 | A cancellation removes one intent from the OPEN ones and nothing from the debt |
| `Safety.RunBacking` | packages/contracts/src/CreditVault.sol:119-200 | The backing of the vault grows over a run by exactly the direct donations |
| `Safety.RunGood` | packages/contracts/src/DeploymentPlan.sol:53-72 | The invariants are kept by every run of external transactions |
| `Safety.DistinctTransactions` | packages/contracts/src/XrpProofRegistry.sol:35-39 | Distinct accepted proof ids are distinct XRPL transactions |
| `Safety.ConsumersStep` | packages/contracts/src/XrpProofRegistry.sol:25-39 | A transaction that does not succeed in granting the role to an outsider keeps the consumers inside {core, router} |
| `Authority.IntentClosing` | packages/contracts/src/XrpRepaymentRouter.sol:119-166 | An intent leaves OPEN as SETTLED only with a verified payment of exactly the quoted drops, in time, to the collection address and with the memo; as CANCELLED only by its borrower; as EXPIRED only after its deadline |
| `Authority.InvoiceClosing` | packages/contracts/src/InvoiceRegistry.sol:81-118 | An invoice leaves OPEN as SETTLED only through the core with a payment that meets payer, minimum, memo and due date; as CANCELLED only by its borrower; as EXPIRED only after it was due |
| `Authority.SettlementAcceptedExactly` | packages/contracts/src/XrpRepaymentRouter.sol:119-148 | In a reachable state a settlement is accepted if and only if the intent exists, intent and proof match and the proof is unspent; reservation, principal and pause never decide |
| `Authority.PaymentAcceptedExactly` | packages/contracts/src/ReserveFlowCore.sol:192-236 | In a reachable state a reserve payment is accepted if and only if it fits the account and the global registry has not seen it; the core's own `usedProofs` check never decides |
| `Acceptance.DeploymentExactly` | packages/contracts/src/DeploymentPlan.sol:28-72 | Deployment succeeds if and only if every named check holds (chain 114, non-zero addresses, deployer is the risk administrator, a valid configuration); roles, approved borrower, configuration and one million rfUSD in the vault are then as stated, everything else empty |
| `Acceptance.AcceptedExactly` | packages/contracts/src/XrpRepaymentRouter.sol:89-166 | In every reachable state, every external call of all seven contracts is accepted if and only if its row of `Accepts` holds: who may send it, which statuses, times, amounts and balances it needs, written in what a caller can see (reservations as OPEN intents, freshness as inequalities) |
| `Acceptance.CreationAcceptedExactly` | packages/contracts/src/XrpRepaymentRouter.sol:89-117 | An intent is created if and only if amount and memo are non-zero, the deadline lies ahead, the line is on that account, amount plus OPEN intents is within principal, the price is at most `priceTtlSeconds` old and not ahead, and quote and nonce fit a word |
| `Acceptance.BorrowAcceptedExactly` | packages/contracts/src/CreditVault.sol:119-145 | A borrow is accepted if and only if not paused, amount positive, account ACTIVE, `0 < timestamp <= now <= timestamp + ttl` for price and reserve, debt * warning <= limit * 10000, debt + amount <= limit, the vault holds the amount, and the engine can answer |
| `Acceptance.RepayAcceptedExactly` | packages/contracts/src/CreditVault.sol:147-178 | A repayment is accepted if and only if it is positive and amount plus OPEN intents is within principal, allowance and balance cover it |
| `Effects.EveryEffect` | packages/contracts/src/ReserveFlowCore.sol:103-318 | Every accepted external call leaves exactly the entries its row of `Leaves` names, with the values the call carried, and everything else as before; a refused one leaves the state as it was |
| `Effects.CreationEffect` | packages/contracts/src/XrpRepaymentRouter.sol:101-116 | An accepted creation stores the call's own account, memo, amount and `expiresAt`, no proof, status OPEN, and the least drops worth the amount at the price; it uses one nonce and reserves the amount |
| `Effects.CreatedIntentSettles` | packages/contracts/src/XrpRepaymentRouter.sol:102-148 | After any continuation, an intent that is still OPEN is settled by any unspent payment up to the `expiresAt` of the call that created it that fits the other arguments of that call; its amount leaves the principal |
| `Effects.CreatedIntentStays` | packages/contracts/src/XrpRepaymentRouter.sol:102-115 | After any continuation a created intent is there, on the terms of the call that created it |
| `Effects.PaymentEffect` | packages/contracts/src/ReserveFlowCore.sol:213-249 | An accepted payment moves balance, ledger mark and time of one account, logs one event and spends one proof, all with the values of the payment |
| `Effects.InvoicePaymentEffect` | packages/contracts/src/ReserveFlowCore.sol:269-296 | The same, always incoming, and the invoice is settled with that proof, amount and block time |
| `Effects.BorrowLeavesExactly` | packages/contracts/src/CreditVault.sol:138-144 | A borrow pays the amount out of the vault, adds it to the debt, records the time and logs the limit it read |
| `Effects.RepayLeavesExactly` | packages/contracts/src/CreditVault.sol:173-177 | A repayment moves the amount to the vault, spends that much allowance unless it is unlimited, and reduces the debt |
| `Effects.TransferFromSpends` | packages/contracts/src/MockUSD.sol:9-9 | A delegated transfer (EIP-20, "Methods") moves the amount and lowers the one allowance by it, unless that is unlimited |
| `Effects.RoleEffect` | packages/contracts/src/ReserveFlowCore.sol:153-163 | Granting, revoking or renouncing changes exactly the named role of the named account |
| `Refusals.ErrorsAreTrue` | packages/contracts/src/CreditVault.sol:119-178 | In every reachable state the error of a refused call, for all calls and all errors, names a check that fails; checks that can never fail there are not among them |
| `Refusals.BorrowExplains` | packages/contracts/src/CreditVault.sol:119-143 | Each error of `borrow` means what it says: StalePrice a price that is not fresh, StaleReserve a reserve that is not, CreditNotHealthy debt * warning > limit * 10000, and so on |
| `Refusals.SettlementExplains` | packages/contracts/src/XrpRepaymentRouter.sol:119-146 | Each error of a settlement names a mismatch of intent, payment or registry; the vault's checks never show |
| `Refusals.CreationExplains` | packages/contracts/src/XrpRepaymentRouter.sol:89-116 | Each error of a creation names an argument, the line, the free principal, the price or a word that does not fit |
| `Authority.InvoicePaymentAcceptedExactly` | packages/contracts/src/ReserveFlowCore.sol:253-297 | In a reachable state an invoice payment is accepted if and only if it fits the account and the OPEN invoice, the global registry has not seen it, the core is still a consumer, and the new balance fits a word |
| `Authority.InvoiceNamesAccountExactly` | packages/contracts/src/InvoiceRegistry.sol:89-95 | The account and borrower a settled invoice names are those of the credited account if and only if they were before the call: no check enforces it |
| `Authority.AccountStatusChange` | packages/contracts/src/ReserveFlowCore.sol:153-178 | An account changes status only by a core administrator: PENDING_APPROVAL to ACTIVE by approving this account, ACTIVE to FROZEN by setting frozen to true, FROZEN to ACTIVE by setting it to false |
| `Wiring.WiredStep` | packages/contracts/src/DeploymentPlan.sol:53-72 | Router, token and registries stay connected as deployed under every transaction |
| `Wiring.SealedStep` | packages/contracts/src/MockUSD.sol:17-36 | No transaction can mint, regain a role on the token, or obtain an allowance from the vault |
| `Wiring.TransferFromKeepsSealed` | packages/contracts/src/MockUSD.sol:9-9 | A delegated transfer leaves the vault without allowances |
| `Reservations.ReservedStep` | packages/contracts/src/CreditVault.sol:202-216 | Every transaction keeps reservations equal to the OPEN intents and within principal |
| `Reservations.IntentsFreshStep` | packages/contracts/src/XrpRepaymentRouter.sol:102-115 | Every stored intent id is the hash of its terms and of a nonce below `nextNonce`, and its amount is positive |
| `Reservations.RouterEffect` | packages/contracts/src/XrpRepaymentRouter.sol:102-166 | Creation takes an id not in use; every other router call closes one OPEN intent and keeps its terms |
| `Reservations.RouterVaultEffect` | packages/contracts/src/CreditVault.sol:188-216 | What each router call does to reservation, principal and vault log |
| `Reservations.StatusMove` | packages/contracts/src/XrpRepaymentRouter.sol:102-166 | An intent entering or leaving a status moves that status' total by its own amount |
| `Sums.MapSumRemove` | packages/contracts/src/XrpRepaymentRouter.sol:62-64 | A sum over a mapping does not depend on the order of its keys |
| `Conservation.BackingStep` | packages/contracts/src/CreditVault.sol:119-200 | One transaction changes vault balance + principals + SETTLED intents by exactly what it donates to the vault |
| `Conservation.SupplyStep` | packages/contracts/src/MockUSD.sol:17-36 | Every transaction keeps the sum of balances equal to the supply |
| `Conservation.MoveEffect` | packages/contracts/src/MockUSD.sol:9-9 | An ERC-20 transfer (EIP-20, "Methods") keeps the sum of balances and moves exactly the amount, also to oneself |
| `Conservation.TransferFromEffect` | packages/contracts/src/MockUSD.sol:9-9 | A delegated transfer is within the allowance and otherwise a transfer |
| `Conservation.BalancesFit` | packages/contracts/src/MockUSD.sol:15-24 | No balance ever exceeds the initial supply, so unchecked additions cannot wrap |
| `Conservation.DebtStep` | packages/contracts/src/CreditVault.sol:138-200 | Every transaction keeps borrowed = principal + repaid + own SETTLED intents |
| `Conservation.TokenBacking` | packages/contracts/src/MockUSD.sol:9-9 | A token call changes the backing only by direct transfers to the vault |
| `Conservation.VaultBacking` | packages/contracts/src/CreditVault.sol:119-178 | Borrowing and repaying exchange rfUSD for principal one to one |
| `Conservation.RouterBacking` | packages/contracts/src/XrpRepaymentRouter.sol:119-148 | A settlement exchanges principal for a SETTLED intent one to one |
| `Payments.SubmissionEffect` | packages/contracts/src/ReserveFlowCore.sol:192-297 | An accepted payment appends one event that reports it faithfully, for the borrower's ACTIVE account, and moves the account to exactly what the event says |
| `Payments.SubmissionSpends` | packages/contracts/src/ReserveFlowCore.sol:313-318 | An accepted payment spends a proof nobody had spent |
| `Payments.InvoiceSubmissionSettles` | packages/contracts/src/ReserveFlowCore.sol:253-297 | An accepted invoice payment settles that OPEN invoice with the same proof and amount and meets its terms |
| `Payments.SettlementSpends` | packages/contracts/src/XrpRepaymentRouter.sol:142-146 | An accepted settlement spends an unspent proof and receives exactly the quoted drops |
| `Payments.SpentOnceStep` | packages/contracts/src/XrpProofRegistry.sol:35-39 | Every transaction keeps accepted ids distinct and accounted for in `consumedProofs` |
| `Ledger.LedgerStep` | packages/contracts/src/ReserveFlowCore.sol:192-297 | Every transaction keeps every account equal to the replay of its events |
| `Ledger.CoreKeepsReplay` | packages/contracts/src/ReserveFlowCore.sol:214-239 | A payment extends the replay of its account by its own event and of no other account |
| `Ledger.OtherCallsKeepMarks` | packages/contracts/src/ReserveFlowCore.sol:126-178 | Registering, approving, freezing and unfreezing never move a balance or a ledger mark |
| `Ledger.PrefixConsistent` | packages/contracts/test/ReserveFlowInvariant.t.sol:147-151 | A prefix of a consistent log is consistent |
| `Ledger.BlockNumbersIncrease` | packages/contracts/src/ReserveFlowCore.sol:216-218 | In a consistent log the block numbers of an account strictly increase |
| `Ledger.LastEvent` | packages/contracts/src/ReserveFlowCore.sol:238-239 | The marks of an account are those of its last event |
| `Ledger.InvoicesPaidStep` | packages/contracts/src/InvoiceRegistry.sol:81-102 | Every transaction keeps each SETTLED invoice matched to a reserve event of its own |
| `Ledger.SettlementIgnoresInvoiceAccount` | packages/contracts/src/InvoiceRegistry.sol:89-95 | Settlement never looks at the account or the borrower an invoice names: with other names it gives the same answer and the same whole state but for those names |
| `Witnesses.InvoiceSettledElsewhere` | packages/contracts/src/InvoiceRegistry.sol:81-102 | A run from deployment after which a SETTLED invoice names another account and another borrower than those of the account that received its payment |
| `CreditLines.LinesOwnedStep` | packages/contracts/src/CreditVault.sol:101-117 | Every credit line draws on a registered account of its own borrower |
| `CreditLines.LinesInjective` | packages/contracts/src/CreditVault.sol:101-117 | Two borrowers never draw on the same reserve account |
| `CreditLines.WithinLimitStep` | packages/contracts/src/CreditVault.sol:119-200 | Every transaction keeps principal at most the limit of the last successful borrow |
| `CreditLines.BorrowGates` | packages/contracts/src/CreditVault.sol:119-145 | A successful borrow read a HEALTHY snapshot, was not paused, stayed within the limit and recorded that limit |
| `CreditLines.BorrowBacked` | packages/contracts/src/CreditVault.sol:130-135 | Behind a borrow stands the last event of an ACTIVE account of the borrower, no older than the TTL |
| `CreditLines.BorrowLeavesNoMarginCall` | packages/contracts/src/RiskEngine.sol:131-179 | With `marginCallHealthBps <= 10000` the debt a borrow leaves is HEALTHY or WARNING at the same price and time; the engine answers at all exactly when the health factor fits 256 bits |
| `Witnesses.HealthOverflow` | packages/contracts/src/RiskEngine.sol:146-150 | 2^252 drops at a price of 10^6: HEALTHY without debt, a revert with a debt of 1 |
| `Witnesses.BorrowLeavesNoAnswer` | packages/contracts/src/RiskEngine.sol:146-150 | A run from deployment whose last borrow is accepted and leaves a debt the engine cannot evaluate at the same price and time |
| `CreditMath.LimitRounding` | packages/contracts/src/RiskEngine.sol:138-141 | The three nested floors never exceed the exact limit and fall at most 2 units below its floor |
| `CreditMath.LimitRoundingTight` | packages/contracts/src/RiskEngine.sol:138-141 | A loss of 2 units is attained |
| `CreditMath.SnapshotLimitRounding` | packages/contracts/src/RiskEngine.sol:131-154 | The same on a snapshot; limit <= adjusted <= gross; with 3000/5000 bps the limit is floor(35 * gross / 100) |
| `CreditMath.DefaultLimit` | packages/contracts/test/RiskEngine.t.sol:158-169 | With the default configuration the limit is floor(35 * gross / 100) |
| `CreditMath.LimitMonotone` | packages/contracts/src/RiskEngine.sol:138-141 | The limit is monotone in balance, price and advance rate and antitone in haircut |
| `CreditMath.NestedFloorBounds` | packages/contracts/src/RiskEngine.sol:138-141 | Exact bounds on three nested floors in terms of the unrounded product |
| `CreditMath.HealthThreshold` | packages/contracts/src/RiskEngine.sol:149-178 | Floored health reaches a threshold w if and only if debt * w <= limit * 10000 |
| `CreditMath.StatusByThresholds` | packages/contracts/src/RiskEngine.sol:146-183 | The status of a snapshot without rounding: FROZEN, PRICE_STALE, RESERVE_STALE in this order, with fresh meaning `0 < timestamp <= now <= timestamp + ttl`, else debt * threshold against limit * 10000 |
| `CreditMath.SnapshotFields` | packages/contracts/src/RiskEngine.sol:131-154 | Each value of a snapshot is the exact quotient rounded down, of the one before: gross, adjusted, limit, health; available credit and limit differ by the debt; both timestamps are the ones read |
| `CreditMath.SnapshotAnswers` | packages/contracts/src/RiskEngine.sol:131-154 | The engine answers if and only if gross value and health factor fit a word |
| `CreditMath.NoMarginCallWithinLimit` | packages/contracts/src/RiskEngine.sol:156-179 | A debt within the limit of a fresh ACTIVE account is never a margin call when the threshold is at most 100% |
| `CreditMath.SnapshotMonotone` | packages/contracts/src/RiskEngine.sol:131-179 | At a lower price the snapshot exists, nothing improves, and stale or frozen statuses stay |
| `CreditMath.PriceDropExact` | packages/contracts/src/RiskEngine.sol:112-129 | A simulation is the snapshot at the price q with `q * 10000 <= price * (10000 - drop) < (q + 1) * 10000` |
| `CreditMath.PriceDropGross` | packages/contracts/src/RiskEngine.sol:112-129 | The simulated gross value is at most balance * price * (10000 - drop) / 10^10 and less than balance / 10^6 + 1 below it; a drop of everything leaves gross and limit 0; a larger drop is refused |
| `CreditMath.PriceDropMonotone` | packages/contracts/src/RiskEngine.sol:117-129 | If the current snapshot exists so does every simulated drop; larger drops are no better; a drop of 0 is the current snapshot |
| `CreditMath.QuoteAdjoint` | packages/contracts/src/XrpRepaymentRouter.sol:101-101 | The quote is the least number of drops whose gross value at the price covers the repayment |
| `CreditMath.SplittingQuotes` | packages/contracts/src/XrpRepaymentRouter.sol:101-101 | n quotes at one price cost at least the single quote and at most n-1 drops more |
| `Lifecycle.IntentsKeptStep` | packages/contracts/src/XrpRepaymentRouter.sol:102-166 | One transaction keeps every intent, its terms, and every closed status |
| `Lifecycle.InvoicesKeptStep` | packages/contracts/src/InvoiceRegistry.sol:63-118 | One transaction keeps every invoice, its terms, and every closed status; ids stay fresh |
| `Lifecycle.QuotesStep` | packages/contracts/src/XrpRepaymentRouter.sol:98-113 | Every intent asks for exactly the quote at the price it was created at |
| `Lifecycle.SettlementCovers` | packages/contracts/src/XrpRepaymentRouter.sol:138-144 | A settlement receives drops worth what it clears |
| `Lifecycle.SettlementsStep` | packages/contracts/src/XrpRepaymentRouter.sol:119-148 | Every transaction keeps received value at least cleared principal |
| `ReserveFlowCore.ReserveFlowCore.SetBorrowerApproval` | packages/contracts/src/ReserveFlowCore.sol:103-110 | Sets or clears one borrower's approval, administrators only |
| `ReserveFlowCore.ReserveFlowCore.SetProofRegistry` | packages/contracts/src/ReserveFlowCore.sol:112-117 | Sets the proof registry once |
| `ReserveFlowCore.ReserveFlowCore.SetInvoiceRegistry` | packages/contracts/src/ReserveFlowCore.sol:119-124 | Sets the invoice registry once |
| `ReserveFlowCore.ReserveFlowCore.RegisterReserveAccount` | packages/contracts/src/ReserveFlowCore.sol:126-151 | Registers an unused account id for an approved borrower with zero balance, pending approval |
| `ReserveFlowCore.ReserveFlowCore.ApproveReserveAccount` | packages/contracts/src/ReserveFlowCore.sol:153-161 | Activates a pending account |
| `ReserveFlowCore.ReserveFlowCore.SetReserveAccountFrozen` | packages/contracts/src/ReserveFlowCore.sol:163-178 | Accepted exactly for an operator and an existing account that is ACTIVE for true, FROZEN for false; it is then FROZEN or ACTIVE |
| `ReserveFlowCore.ReserveFlowCore.ConsumeProof` | packages/contracts/src/ReserveFlowCore.sol:313-318 | Spends a proof in the core and in the registry, or fails with the first failing check |
| `ReserveFlowCore.ReserveFlowCore.SubmitXrpPaymentProof` | packages/contracts/src/ReserveFlowCore.sol:192-250 | Writes in the source's order, between checks, yet accepts and ends as the checks-first specification does |
| `ReserveFlowCore.ReserveFlowCore.SubmitInvoicePaymentProof` | packages/contracts/src/ReserveFlowCore.sol:253-297 | The same across core, proof registry and invoice registry |
| `ReserveFlowCore.ReserveFlowCore.WriteUpdate` | packages/contracts/src/ReserveFlowCore.sol:238-249 | Balance, ledger mark and time of one account, and the event that reports them |
| `ProofRegistry.XrpProofRegistry.SetProofConsumer` | packages/contracts/src/XrpProofRegistry.sol:25-33 | Grants or revokes the consumer role, administrator only |
| `ProofRegistry.XrpProofRegistry.Consume` | packages/contracts/src/XrpProofRegistry.sol:35-39 | Spends an unspent proof for a consumer, once |
| `ProofRegistry.XrpProofRegistry.constructor` | packages/contracts/src/XrpProofRegistry.sol:20-23 | The administrator, no consumer, nothing spent |
| `InvoiceRegistry.InvoiceRegistryContract.CreateInvoice` | packages/contracts/src/InvoiceRegistry.sol:52-79 | Stores an OPEN invoice under the hash of its terms and the creator's next nonce |
| `InvoiceRegistry.InvoiceRegistryContract.SettleFromCore` | packages/contracts/src/InvoiceRegistry.sol:81-102 | Settles an OPEN invoice for the core when payer, amount, time and memo fit |
| `InvoiceRegistry.InvoiceRegistryContract.CancelInvoice` | packages/contracts/src/InvoiceRegistry.sol:104-110 | Cancels an OPEN invoice for its borrower |
| `InvoiceRegistry.InvoiceRegistryContract.ExpireInvoice` | packages/contracts/src/InvoiceRegistry.sol:112-118 | Expires an OPEN invoice after it was due |
| `InvoiceRegistry.InvoiceRegistryContract.constructor` | packages/contracts/src/InvoiceRegistry.sol:47-50 | The core's address, no invoices |
| `CreditVault.CreditVault.SetToken` | packages/contracts/src/CreditVault.sol:77-87 | Sets the token once |
| `CreditVault.CreditVault.SetBorrowingPaused` | packages/contracts/src/CreditVault.sol:89-92 | Sets the pause flag |
| `CreditVault.CreditVault.SetRepaymentRouter` | packages/contracts/src/CreditVault.sol:94-99 | Sets the router once |
| `CreditVault.CreditVault.OpenCreditLine` | packages/contracts/src/CreditVault.sol:101-117 | Opens one line per borrower on an account of that borrower |
| `CreditVault.CreditVault.Borrow` | packages/contracts/src/CreditVault.sol:119-145 | Transfers and adds to principal when every gate passes, in the source's order of checks |
| `CreditVault.CreditVault.Repay` | packages/contracts/src/CreditVault.sol:147-178 | Takes back rfUSD and reduces principal by unreserved amounts |
| `CreditVault.CreditVault.SyncRisk` | packages/contracts/src/CreditVault.sol:180-185 | Records the time of a risk read |
| `CreditVault.CreditVault.SettleXrpRepayment` | packages/contracts/src/CreditVault.sol:188-200 | Reduces reservation and principal for the router |
| `CreditVault.CreditVault.ReserveXrpRepayment` | packages/contracts/src/CreditVault.sol:202-208 | Reserves an available amount for the router |
| `CreditVault.CreditVault.ReleaseXrpRepayment` | packages/contracts/src/CreditVault.sol:210-216 | Releases a reserved amount for the router |
| `CreditVault.CreditVault.constructor` | packages/contracts/src/CreditVault.sol:63-75 | The administrator, the ledger and the engine; no token, router or position |
| `XrpRepaymentRouter.XrpRepaymentRouter.CreateRepaymentIntent` | packages/contracts/src/XrpRepaymentRouter.sol:89-117 | Quotes and stores an OPEN intent with the account, memo, amount and deadline of the call, then has the vault reserve the amount |
| `XrpRepaymentRouter.XrpRepaymentRouter.SettleRepaymentWithProof` | packages/contracts/src/XrpRepaymentRouter.sol:119-148 | Spends the proof, reduces the principal, then marks the intent SETTLED |
| `XrpRepaymentRouter.XrpRepaymentRouter.CancelRepaymentIntent` | packages/contracts/src/XrpRepaymentRouter.sol:150-157 | Marks the borrower's OPEN intent, then releases the reservation |
| `XrpRepaymentRouter.XrpRepaymentRouter.ExpireRepaymentIntent` | packages/contracts/src/XrpRepaymentRouter.sol:159-166 | Marks an overdue OPEN intent, then releases the reservation |
| `XrpRepaymentRouter.XrpRepaymentRouter.constructor` | packages/contracts/src/XrpRepaymentRouter.sol:66-87 | The immutable references, no intents |
| `RiskEngine.RiskEngine.SetRiskConfig` | packages/contracts/src/RiskEngine.sol:94-110 | Stores a valid configuration and the next version, risk administrator only |
| `RiskEngine.RiskEngine.SimulatePriceDrop` | packages/contracts/src/RiskEngine.sol:112-129 | Refuses a drop above 10000; else the snapshot at the one price q that is the lowered price rounded down |
| `RiskEngine.RiskEngine.constructor` | packages/contracts/src/RiskEngine.sol:63-88 | Default configuration, version 1 |
| `MockUsd.MockUSD.constructor` | packages/contracts/src/MockUSD.sol:17-31 | Everything minted to the vault, no role left |
| `MockUsd.MockUSD.Transfer` | packages/contracts/src/MockUSD.sol:9-9 | ERC-20 transfer |
| `MockUsd.MockUSD.TransferFrom` | packages/contracts/src/MockUSD.sol:9-9 | Spends the allowance first, then transfers |
| `MockUsd.MockUSD.Approve` | packages/contracts/src/MockUSD.sol:9-9 | Sets an allowance |
| `MockUsd.MockUSD.Mint` | packages/contracts/src/MockUSD.sol:34-36 | Mints for a minter only |
| `CreditPreview.BorrowPreviewExact` | apps/web/src/credit-experience.ts:107-137 | On a snapshot of the current principal the preview allows a borrow if and only if the vault accepts it, up to the vault's own rfUSD; a refusal names the vault's reason except exactly when a pause hides a zero amount or the new debt overflows |
| `CreditPreview.BorrowProjectionExact` | apps/web/src/credit-experience.ts:113-123 | Projected available credit and health are the engine's answer at the new debt whenever it answers |
| `CreditPreview.RepayPreviewExact` | apps/web/src/credit-experience.ts:139-168 | `repay` is accepted if and only if REPAY is shown and the amount is not reserved; without reservations if and only if REPAY is shown |
| `Witnesses.RepayPreviewMissesReservations` | apps/web/src/credit-experience.ts:139-168 | A run from deployment (register, approve, pay, open, borrow 10, reserve 4, allow 10) after which REPAY is shown for a repayment of 8, on any risk snapshot, and the vault answers RepaymentReserved in every environment |
| `CreditPreview.RepayPreviewReasons` | apps/web/src/credit-experience.ts:139-168 | With nothing reserved, APPROVE is shown if and only if the vault would answer InsufficientRfUsdAllowance, and each refusal if and only if the vault gives that reason |
| `CreditPreview.RepayProjectionExact` | apps/web/src/credit-experience.ts:296-309 | The credit shown with REPAY or APPROVE is the engine's answer at the reduced principal |
| `RfUsdText.PrintThenParse` | apps/web/src/credit-experience.ts:170-206 | Parsing what `formatRfUsd` prints for w, without its unit, gives w - w mod 10^15; `formatUsd` prints the same number |
| `RfUsdText.ParseThenPrint` | apps/web/src/credit-experience.ts:170-206 | Printing the amount of an accepted text with `formatRfUsd` and parsing that without its unit gives the same amount, for any number of whole digits |
| `RfUsdText.ParseMeansPattern` | apps/web/src/credit-experience.ts:194-206 | The parser accepts exactly what the regular expression matches and returns what its two groups denote |
| `RfUsdText.ParseAcceptsPattern` | apps/web/src/credit-experience.ts:194-206 | A text is accepted if and only if its trimmed form is in the language of the regular expression, given as an expression tree with its own semantics |
| `RfUsdText.TrimExactly` | apps/web/src/credit-experience.ts:195-195 | Trimming removes white space at both ends, all of it, and nothing else |
| `RfUsdText.ParsedIsWholeUnits` | apps/web/src/credit-experience.ts:194-206 | Every accepted text denotes a multiple of 10^15 |
| `RfUsdText.ShownDecimals` | apps/web/src/credit-experience.ts:170-178 | The printed decimals are the thousandths without trailing zeros |
| `RfUsdText.DecimalRoundTrip` | apps/web/src/credit-experience.ts:171-171 | Decimal digits without a leading zero read back as the number |
| `VotingRound.RoundContainsBlock` | apps/attestation-worker/src/fdc/voting-round.ts:1-20 | The result is r if and only if the block lies in [first + r*dur, first + (r+1)*dur), and there is none if and only if the schedule is invalid or has not started |
| `AttestationStore.StoreFailsAnyNonTerminal` | apps/attestation-worker/src/persistence/attestation-store.ts:218-225 | Left to itself the store fails a record from every non-terminal status |
| `AttestationStore.SqliteAttestationStore.Transition` | apps/attestation-worker/src/persistence/attestation-store.ts:242-287 | The synchronous part: answers if the record has the status already, throws if its status is not allowed, else writes status and failure and keeps what the details do not set |
| `AttestationStore.SqliteAttestationStore.CreateOrGetPrepared` | apps/attestation-worker/src/persistence/attestation-store.ts:129-159 | Answers the stored record of this hash, inserts a READY_TO_SUBMIT record if neither hash nor id is stored, else throws |
| `AttestationStore.SqliteAttestationStore.MarkSubmitted` | apps/attestation-worker/src/persistence/attestation-store.ts:168-179 | Writes exactly when the open store holds the record at READY_TO_SUBMIT: status, transaction and round of that record change, its failure is cleared, nothing else changes |
| `AttestationStore.SqliteAttestationStore.MarkWaitingForFinalization` | apps/attestation-worker/src/persistence/attestation-store.ts:181-187 | Writes exactly when the open store holds the record at SUBMITTED; only its status and failure change, else the table is as before |
| `AttestationStore.SqliteAttestationStore.MarkFetchingProof` | apps/attestation-worker/src/persistence/attestation-store.ts:189-195 | Writes exactly when the open store holds the record at WAITING_FINALIZATION; only its status and failure change, else the table is as before |
| `AttestationStore.SqliteAttestationStore.MarkProofReady` | apps/attestation-worker/src/persistence/attestation-store.ts:197-201 | Writes exactly when the open store holds the record at FETCHING_PROOF; only its status and failure change, else the table is as before |
| `AttestationStore.SqliteAttestationStore.MarkVerifiedFromCoreEvent` | apps/attestation-worker/src/persistence/attestation-store.ts:209-216 | Writes exactly when the open store holds the record at PROOF_READY; status and Core transaction change, else the table is as before |
| `AttestationStore.SqliteAttestationStore.MarkFailed` | apps/attestation-worker/src/persistence/attestation-store.ts:218-225 | Writes exactly when the open store holds the record at a non-terminal status; status and failure change, else the table is as before |
| `AttestationStore.SqliteAttestationStore.MarkExpired` | apps/attestation-worker/src/persistence/attestation-store.ts:227-231 | Writes exactly when the open store holds the record at a non-terminal status; only status and failure change, else the table is as before |
| `AttestationStore.SqliteAttestationStore.FinishClose` | apps/attestation-worker/src/persistence/attestation-store.ts:233-240 | Every later store call throws |
| `Coordinator.XrpPaymentAttestationCoordinator.ContinueRecordSubmitted` | apps/attestation-worker/src/fdc/xrp-payment-attestation-coordinator.ts:194-251 | One uninterrupted segment of `recordSubmitted`, with its effect on the store and the frame it leaves |
| `Coordinator.XrpPaymentAttestationCoordinator.ContinueRefresh` | apps/attestation-worker/src/fdc/xrp-payment-attestation-coordinator.ts:253-309 | One uninterrupted segment of `refresh`, with the reassigned local record |
| `Coordinator.XrpPaymentAttestationCoordinator.ContinueConfirm` | apps/attestation-worker/src/fdc/xrp-payment-attestation-coordinator.ts:311-340 | One uninterrupted segment of `confirmCoreSubmission` |
| `Coordinator.XrpPaymentAttestationCoordinator.ContinueStoreCall` | apps/attestation-worker/src/persistence/attestation-store.ts:285-286 | After persisting, the record is read again and the caller resumed with what was read |
| `Coordinator.EventLoop.Perform` | apps/attestation-worker/src/fdc/xrp-payment-attestation-coordinator.ts:136-340 | Calls arriving and frames continuing in any order over one store are steps of the transition system |
| `Execution.Interleave` | apps/attestation-worker/src/fdc/xrp-payment-attestation-coordinator.ts:136-340 | Any sequence of actions on a new coordinator over an empty store leaves the loop in the state of that run of the transition system, with the invariant, and every stored record justified |
| `CoordinatorCalls.RecordSubmittedAlone` | apps/attestation-worker/src/fdc/xrp-payment-attestation-coordinator.ts:194-251 | An undisturbed `recordSubmitted` on a stored record, every case: EXPIRED and a throw after the deadline; SUBMITTED with this transaction and the round of the block exactly for a READY_TO_SUBMIT record and a successful receipt on chain 114 to the hub with the same bytes and exact fee; the same answer again when SUBMITTED; else a throw |
| `CoordinatorCalls.RefreshAlone` | apps/attestation-worker/src/fdc/xrp-payment-attestation-coordinator.ts:253-309 | An undisturbed `refresh`, every case: returns the fetched proof and leaves PROOF_READY exactly from SUBMITTED to PROOF_READY, before the deadline, with finality where it must ask; stays at WAITING_FINALIZATION without finality; else throws |
| `CoordinatorCalls.ConfirmAlone` | apps/attestation-worker/src/fdc/xrp-payment-attestation-coordinator.ts:311-340 | An undisturbed `confirmCoreSubmission` moves exactly a PROOF_READY record: unchanged when pending, FAILED with the failure, or VERIFIED with the Core transaction |
| `CoordinatorCalls.PrepareAlone` | apps/attestation-worker/src/fdc/xrp-payment-attestation-coordinator.ts:136-184 | An undisturbed `prepare` stores a new record with everything gathered and nothing else, or answers the record already there |
| `CoordinatorCalls.FailureEnds` | apps/attestation-worker/src/fdc/xrp-payment-attestation-coordinator.ts:206-340 | A dependency or file that fails ends the waiting call with a throw and writes nothing |
| `CoordinatorCalls.ClosedForGood` | apps/attestation-worker/src/persistence/attestation-store.ts:233-240 | Closing keeps every record, and whatever calls come or continue afterwards, nothing is written any more |
| `CoordinatorCalls.LifeCompletes` | apps/attestation-worker/src/fdc/xrp-payment-attestation-coordinator.ts:136-340 | Four calls take a new request from nothing to VERIFIED when the dependencies answer as they should |
| `CoordinatorSafety.OneActionOneEdge` | apps/attestation-worker/src/persistence/attestation-store.ts:242-287 | Under every interleaving one action moves a record along at most one edge of the allowed graph, and FAILED is reached from PROOF_READY only |
| `CoordinatorSafety.RecordsOnlyAdvance` | apps/attestation-worker/src/persistence/attestation-store.ts:264-287 | Over any continuation prepared metadata never changes, voting round, request and Core transaction are write-once, status only advances and terminal records never change |
| `CoordinatorSafety.StatusesAreJustified` | apps/attestation-worker/src/fdc/xrp-payment-attestation-coordinator.ts:206-340 | Every stored status has its evidence: a validated receipt (chain 114, FdcHub, same bytes, exact fee) and the parameters read after it by the same call, by which its block lies in the stored round; finality of that round; the Core reader's VERIFIED or REJECTED for the stored transaction; a clock past expiry |
| `CoordinatorSafety.ProofsNeedFinality` | apps/attestation-worker/src/fdc/xrp-payment-attestation-coordinator.ts:271-308 | `refresh` has returned a proof only after the record's own voting round was reported finalized, and it is what the DA layer answered for the record's own request bytes and that round |
| `CoordinatorSafety.ActKeepsSafe` | apps/attestation-worker/src/fdc/xrp-payment-attestation-coordinator.ts:136-340 | The invariant over records, program counters and stale locals is kept by every action |
| `CoordinatorSafety.SegmentKeeps` | apps/attestation-worker/src/fdc/xrp-payment-attestation-coordinator.ts:194-340 | One segment of any call with any reply keeps records justified, takes at most one edge, and leaves a correct frame |
| `CoordinatorSafety.FrameStays` | apps/attestation-worker/src/fdc/xrp-payment-attestation-coordinator.ts:194-340 | What other calls do never invalidates a suspended call's stale locals |
| `CoordinatorSafety.FailSegment` | apps/attestation-worker/src/fdc/xrp-payment-attestation-coordinator.ts:330-335 | A rejection read with a stale PROOF_READY record can only fail a record that is still PROOF_READY |
| `CoordinatorSafety.VerifySegment` | apps/attestation-worker/src/fdc/xrp-payment-attestation-coordinator.ts:336-339 | VERIFIED is stored only with the Core reader's answer for the account and both transactions |
| `CoordinatorSafety.MarkSegment` | apps/attestation-worker/src/persistence/attestation-store.ts:242-287 | A justified store transition leaves the table justified and the caller's frame correct |

## Left out

- FDC Merkle verification, the FTSO and the Flare contract registry: arbitrary answers.
- Error arguments and event fields beyond those in the logs; gas; calldata decoding.
- The block time is a 64-bit input; the truncation `uint64(block.timestamp)` therefore never loses anything.
- Roles other than `DEFAULT_ADMIN_ROLE` and the one operator role of each contract: nothing reads them.
- Setters that are given another contract's object after wiring: the deployed system has already set the references, so these calls revert, and `Deployment` passes its own objects instead.
- Storage layout and Solidity memory: a mapping is a map, a missing key the default value.
- SQLite, sql.js, migration, decoding of rows, temporary files and loss of unpersisted writes in a crash; `createdAt` and `updatedAt`.
- The awaits of `prepare` before it reaches the store: their answers arrive together as one input.
- Letter case of hexadecimal strings: addresses and bytes are compared as values.
- The HTTP boundary, authorization, runtime readers, scripts and the retired request flow of the worker.
- User interface, translations, dashboards, explanations of risk and the other printers of the web application.
- User-facing error texts: only the codes are modelled.
