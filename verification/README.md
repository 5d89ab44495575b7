# Vatix contracts in Dafny

A model of the on-chain parts of the Vatix prediction markets and proofs of what they promise. It has five parts.

**The resolution dispute game** (`Resolution*`, `BondMoney`). Candidates are proposed with a bond, challenged within a
window, appealed up to three times, and closed by finalization, admin arbitration or voiding. `Resolution` gives every
entrypoint as a total function on states, a `Failure` meaning that the host rolls the call back; `ResolutionContract` is
the contract as an object whose methods load, change and store entries and make token calls, each proved equal to its
function. `ResolutionInvariant` proves what every call keeps, `ResolutionRuns` what holds over whole runs, and
`ResolutionProgress` exactly when a dispute can still be closed. `ResolutionCalls` states in full which calls go
through, and where the outcome, the signature and the bonds behind a callback come from.

**Settlement and custody of markets** (`Settlement*`, `Positions`, `Reconciliation`, `Vault*`, `MarketContract`).
The same construction for deposits, trades, withdrawals, the three settlement routes, transfers, merges and repairs,
interleaved with whatever other holders of the two tokens do. `VaultRuns`, `VaultWithdrawals` and `VaultPaging` prove
what holds over whole runs; `SettlementPayments` what each outcome pays and what a whole market costs, and `VaultCalls`
which calls go through and what they do to a position.

`ResolutionExamples` and `VaultExamples` exhibit runs from a fresh deployment in which a property one might expect
fails; the exact conditions under which it holds are stated beside them.

**Oracle reports** (`OraclePreimage`, `ThresholdOracle`). The signed byte layouts and the quorum verifier.

**Ids as text** (`Decimal`) and **proportional distribution** (`Distribution`).

`Base`, `Sums`, `TokenLedger`, `OutcomeTokens` and `PositionMath` are what these share: sums over maps, the collateral
token, the outcome-token ledger, and 128-bit arithmetic.

The main results, in one line each:

- `ResolutionRuns.PoolIsExact`, `ResolutionInvariant.UpholdEffect`, `VoidEffect`: the contract's single balance is
  exactly what it owes plus surplus, so no terminal payout falls short.
- `ResolutionProgress.ProgressExactly`: a dispute can still be closed if and only if a stated condition holds.
- `ResolutionRuns.FinalizeIsSafe`, `DisputeIsBounded`, `OneCandidateOneCallback`, `ResolutionCalls.CallbackOrigin`:
  window safety, termination, finality, and that a market is told what its latest opening said.
- `Settlement.RoutesAgree`, `VaultRuns.NeverPaidAgain`, `SettlementPayments.WholeMarketCosts`: the settlement routes
  agree, pay once, and cost exactly the winning shares.
- `VaultRuns.PoolIsExact`, `RunAccounts`, `VaultWithdrawals.WithdrawExactly`, `AcceptedAmountsAreAnInterval`: custody
  of deposits.
- `VaultPaging.PagingIsComplete`, `PagingReachesExactlyTheListed`: whom paging settles.
- `ThresholdOracle.VerifyThresholdSignatures`, `QuorumsIntersect`: exact acceptance and quorum intersection.

`dafny verify dfyconfig.toml` checks the project.

## Assumptions

- All markets share one collateral token. It is modelled as a ledger of unbounded balances, so a receiver overflowing
  128 bits and a cap on issuance are outside the model; its supply may grow between any two calls.
- Time is a natural number that never goes back where that matters (`Timed`); 64-bit overflow of a deadline is outside
  the model.
- A contract cannot authorize a call as one of its own users: such a call fails with `HostTrap`. Failed authorization,
  arithmetic overflow and a token call the payer cannot cover are that error too; an error or trap restores the state.
- The market contract's answers to a proposal (`MarketView`) are arbitrary inputs; its terminal callbacks succeed.
- Ed25519 verification and keccak256 are arbitrary functions (`Crypto`).
- Storage accessors whose code is not in the repository's `contracts/market/src/storage.rs` are plain maps that behave
  as their call sites document; the debit of a collateral balance is taken to trap below zero.

## Where the code and its documentation differ

The model follows the code.

- Arbitration always sends the first-version callback, although the record of a candidate says that its version decides
  (`contracts/resolution/src/types.rs:88-92`). `ResolutionRuns.ArbitrationVersion` states exactly when the two agree,
  `ResolutionExamples.ArbitrationIgnoresVersion` a run in which they do not.
- A candidate is documented as voided after the last appeal (`contracts/resolution/src/types.rs:38-42`), but the code
  lets the admin void any challenged candidate past its timelock (`ResolutionExamples.VoidIgnoresRound`,
  `VoidedWithoutAppeal`).
- Pausing is documented as blocking all state-mutating operations (`contracts/resolution/src/lib.rs:996-997`), but
  second-version proposals and the collateral calls do not look at the flag. `ResolutionExamples.PausedAccepts` says
  exactly what a paused contract still does, `ProposalWhilePaused` shows it.
- A distribution that overflows the running total leaves its request id recorded, although the comment at
  `contracts/treasury/src/distribute_proptest.rs:134-135` says the state is untouched. `ApplyDistribute` states exactly
  when a failure changes the state, `Distribution.OverflowKeepsRequest` does it.
- Merging is documented for two positions of the same owner (`contracts/market/src/positions.rs:299-306`), but nothing
  ties the accounts to the owner. `VaultRuns.LoweredOnlyBy` says whose calls lower a position,
  `VaultExamples.MergeNeedsNoConsent` is a run in which the user's consent is missing.
- Merging positions moves a deposit between accounts without touching either account's collateral balance;
  `VaultRuns.MergeAccountsExactly` gives the exact condition under which the accounts stay right, and `RunAccounts` is
  about runs in which it holds. `VaultExamples.MergeLeavesAccountWrong` is a run in which it does not, and
  `DebitFallsShort` shows that the deposit can then not be withdrawn.
- The contract is documented to cover every deposit still owed
  (`contracts/market/src/withdraw_fuzz.rs:818-819`), but a payout of one market can be taken from the deposits of
  another, since nothing ties a market's shares to its deposits. `VaultWithdrawals.DepositsAreCoveredExactly` says when
  it does, `WithdrawExactly` what a withdrawal needs beside its guards, and `VaultExamples.WithdrawalFallsShort` is a
  run in which that is missing.
- Winning payouts are documented to equal the collateral behind the winning side
  (`contracts/market/src/settlement.rs:10-16`), but no code ties a market's shares to its deposits.
  `SettlementPayments.WholeMarketCosts` says exactly what a market costs and when the contract can pay it.
- Repeated pages are documented to settle a market fully (`contracts/market/src/settlement.rs:347-355`), but a transfer
  does not list its recipient. `VaultPaging.PagingReachesExactlyTheListed` says whom pages reach,
  `VaultExamples.PagingMissesRecipients` is a run in which they miss a winner.
- A transfer or merge is meant for two accounts; with the same account twice the last write wins. `TransferTotals` and
  `MergeTotals` say by how much the totals are then off, and `VaultExamples.SelfTransferAddsShares` shows it. A deposit
  forgotten this way counts as surplus.
- Splitting a bond multiplies before it divides, so bonds above a 5000th of the 128-bit range cannot be split. Progress
  is therefore stated exactly, with that condition, and again for every supply below it;
  `ResolutionExamples.HugeBondsGetStuck` is a dispute over two such bonds.

## Model

| member | source | states |
|---|---|---|
| `ResolutionContract.Contract.Initialize` | contracts/resolution/src/lib.rs:115-145 | Refuses a contract as admin, a second call and a window out of range, in this order; otherwise the new contract is an initial state of the machine and satisfies the invariant |
| `ResolutionContract.Contract.Propose` | contracts/resolution/src/lib.rs:346-443 | The whole new state, or the first guard that fails in the order of the code: pause flag, emergency mode, URI, window, bond, one candidate per market, market status, signature, expiry; the result is the new id |
| `ResolutionContract.Contract.ProposeV2` | contracts/resolution/src/lib.rs:457-549 | The same without the pause check, storing epoch and network hash |
| `ResolutionContract.Contract.Challenge` | contracts/resolution/src/lib.rs:566-635 | Marks the candidate, appends the challenger and locks the bond, exactly before the deadline of a proposed candidate |
| `ResolutionContract.Contract.Appeal` | contracts/resolution/src/lib.rs:646-715 | Reopens a challenged first-version candidate with a new window, at most three times |
| `ResolutionContract.Contract.Finalize` | contracts/resolution/src/lib.rs:722-838 | Closes an unchallenged candidate once its deadline has passed and while its signature is valid: refund, slash every recorded challenger, clear the list, send the callback of the version |
| `ResolutionContract.Contract.ArbitrateUpholdProposer` | contracts/resolution/src/lib.rs:1043-1093 | The admin upholds a challenged candidate after the timelock: same token flows, first-version callback |
| `ResolutionContract.Contract.Void` | contracts/resolution/src/lib.rs:1106-1180 | The admin voids after the timelock: the proposer is slashed in favour of the last challenger, every challenger refunded |
| `ResolutionContract.Contract.DepositCollateral` | contracts/resolution/src/lib.rs:850-878 | Collateral grows by the amount and the tokens are locked, overflow trapping |
| `ResolutionContract.Contract.SlashCollateral` | contracts/resolution/src/lib.rs:881-904 | All of the collateral goes to the recipient and the entry to zero |
| `ResolutionContract.Contract.Split` | contracts/resolution/src/lib.rs:1357-1401 | The three legs of a forfeited bond, each skipped when zero; fails exactly when the model of the token calls does |
| `ResolutionContract.Contract.SettleChallengersAsLosers` | contracts/resolution/src/lib.rs:1407-1429 | The loop over the challengers is the fold of single splits, and the list is cleared |
| `ResolutionContract.Contract.IncrementCandidateId` | contracts/resolution/src/storage.rs:137-148 | The counter goes up by one, trapping past 32 bits |
| `ResolutionContract.Contract.StoreCandidate` | contracts/resolution/src/storage.rs:156-164 | A stored candidate is also what its market points to |
| `ResolutionContract.Contract.AppendChallenger` | contracts/resolution/src/storage.rs:192-201 | The record is appended to the stored list, or starts one |
| `ResolutionContract.Contract.Execute` | contracts/resolution/src/lib.rs:346-1180 | Any entrypoint, run by a host that restores the state on failure, is one step of the state machine and keeps the invariant |
| `BondMoney.SplitLegs` | contracts/resolution/src/lib.rs:1357-1379 | The legs add up to the bond: half, a quarter, and a quarter plus at most one stroop and a quarter of rounding |
| `BondMoney.SplitBondEffect` | contracts/resolution/src/lib.rs:1357-1401 | A held bond splits if and only if its product with the reward rate fits 128 bits; then exactly the bond leaves what the contract owes and the burned leg leaves circulation |
| `BondMoney.SplitBondGain` | contracts/resolution/src/lib.rs:1357-1401 | Apart from the contract only the winner and the treasury gain, by exactly their legs |
| `BondMoney.SplitAllEffect` | contracts/resolution/src/lib.rs:1407-1429 | Slashing a list succeeds if and only if each bond splits, and spends exactly their sum |
| `BondMoney.SplitAllGain` | contracts/resolution/src/lib.rs:1407-1429 | What every account gains from slashing a list |
| `BondMoney.RefundAllEffect` | contracts/resolution/src/lib.rs:1148-1162 | Refunding a list the contract holds never fails and spends exactly the sum |
| `BondMoney.RefundAllGain` | contracts/resolution/src/lib.rs:1148-1162 | Everybody gets back exactly the bonds recorded for them |
| `ResolutionInvariant.StepKeeps` | contracts/resolution/src/lib.rs:346-1180 | Every call keeps: ids 1 to the counter, market index and candidates agreeing both ways, challenger lists of exactly the length the round and status demand, pool equal to the obligations plus surplus, and exactly one matching callback per closed market |
| `ResolutionInvariant.RunKeeps` | contracts/resolution/src/lib.rs:346-1180 | So does every run |
| `ResolutionInvariant.PoolCoversCandidate` | contracts/resolution/src/lib.rs:785-797 | The pool covers a candidate together with every bond recorded against it |
| `ResolutionInvariant.UpholdEffect` | contracts/resolution/src/lib.rs:785-797 | Upholding a live candidate fails if and only if a listed bond is too large to split; otherwise the pool falls by exactly the bonds released |
| `ResolutionInvariant.UpholdGain` | contracts/resolution/src/lib.rs:1062-1068 | Who gains what when a proposer is upheld |
| `ResolutionInvariant.VoidEffect` | contracts/resolution/src/lib.rs:1125-1164 | Voiding fails if and only if the proposer's bond is too large to split |
| `ResolutionInvariant.VoidGain` | contracts/resolution/src/lib.rs:1125-1164 | Every challenger gets the recorded bonds back, the last one half of the proposer's bond, the treasury its cut |
| `ResolutionInvariant.VoidRewardsChallenger` | contracts/resolution/src/lib.rs:1133-1147 | The list of a challenged candidate is never empty and ends with the standing challenger, so the fallback recipient is never used |
| `ResolutionRuns.PoolIsExact` | contracts/resolution/src/lib.rs:1357-1429 | In every reachable state the token balance is the sum of live bonds, recorded challenger bonds, proposer collateral, what the contract held at the start and what it has kept since |
| `ResolutionRuns.RunTotals` | contracts/resolution/src/lib.rs:1384-1388 | What it has kept since, and what the token's issuer has added, is, event by event: treasury cuts without another treasury, slashes to its own address, and tokens others sent it |
| `ResolutionRuns.RunConserves` | contracts/resolution/src/lib.rs:1357-1401 | Balances plus burned tokens change over a run by outside issuance alone |
| `ResolutionRuns.SlashNeverFallsShort` | contracts/resolution/src/lib.rs:881-904 | Slashing succeeds if and only if the admin asks and there is collateral |
| `ResolutionRuns.SlashGain` | contracts/resolution/src/lib.rs:881-904 | The recipient gains all of the collateral, nobody else anything, and only this entry becomes zero |
| `ResolutionRuns.StakeMoves` | contracts/resolution/src/lib.rs:431-440 | A proposal, challenge or collateral deposit moves exactly its stake from its caller into the contract, none of it surplus |
| `ResolutionRuns.NextAdvances` | contracts/resolution/src/lib.rs:597-771 | An event changes the candidates only as its kind says: a proposal adds one with exactly the fields proposed, a dispute call rewrites one candidate that admits it at that time, anything else changes none |
| `ResolutionRuns.OneCandidateOneCallback` | contracts/resolution/src/lib.rs:747-838 | Over every run a market has at most one candidate and at most one callback, sent exactly when it is closed and carrying, field by field, what the candidate holds |
| `ResolutionRuns.ClosedStays` | contracts/resolution/src/lib.rs:747-752 | A closed candidate never changes again |
| `ResolutionRuns.CandidateStays` | contracts/resolution/src/storage.rs:156-170 | Market, proposer, bond, expiry, epoch and version of a candidate never change |
| `ResolutionRuns.ArbitrationVersion` | contracts/resolution/src/lib.rs:1074-1090 | Arbitration sends one callback, of the first kind; it is of the candidate's own version if and only if the candidate has no network hash |
| `ResolutionRuns.FinalizeVersion` | contracts/resolution/src/lib.rs:800-830 | Finalization always sends a callback of the candidate's own version |
| `ResolutionCalls.CallbackOrigin` | contracts/resolution/src/lib.rs:747-838 | Over every run a market is resolved to the outcome, and on the signature, of its latest proposal or appeal, with the expiry, epoch and network hash of its proposal |
| `ResolutionCalls.ProposalOrigin` | contracts/resolution/src/lib.rs:406-430 | Over every run market, proposer, bond, expiry, epoch and network hash of a candidate are those of one successful proposal |
| `ResolutionCalls.RecordsAreChallenges` | contracts/resolution/src/storage.rs:192-201 | Over every run the bonds on record for a candidate are those of its successful challenges, in order and under their challengers' names, and none once it is closed |
| `ResolutionCalls.ProposeAccepts` | contracts/resolution/src/lib.rs:346-549 | A proposal of either version goes through exactly for a market without candidate that is active, on a verified and unexpired signature, with URI and window in range and a bond of at least 10,000,000 that the proposer has |
| `ResolutionCalls.ChallengeAccepts` | contracts/resolution/src/lib.rs:566-635 | A challenge goes through exactly against a proposed candidate before its deadline, with a bond of at least 10,000,000 that the challenger has |
| `ResolutionCalls.AppealAccepts` | contracts/resolution/src/lib.rs:646-715 | An appeal goes through exactly for a challenged first-version candidate in its first three rounds, on a verified signature |
| `ResolutionCalls.FinalizeAccepts` | contracts/resolution/src/lib.rs:722-838 | Anybody can finalize exactly a proposed candidate between its deadline and its expiry whose recorded bonds can be split |
| `ResolutionCalls.ArbitrateAccepts` | contracts/resolution/src/lib.rs:1043-1093 | Only the admin can uphold, exactly a challenged candidate 172,800 seconds after its deadline whose recorded bonds can be split |
| `ResolutionCalls.VoidAccepts` | contracts/resolution/src/lib.rs:1106-1180 | Only the admin can void, at the same time, exactly when the proposer's bond can be split |
| `ResolutionCalls.CollateralGrows` | contracts/resolution/src/lib.rs:850-878 | Collateral is accepted exactly in normal mode, positive and held; the depositor's own entry grows by the amount and no other |
| `ResolutionCalls.SettingsChange` | contracts/resolution/src/lib.rs:977-1031 | Pause flag and emergency mode change exactly at the admin's word, and nothing else with them |
| `ResolutionRuns.MovesLowerPotential` | contracts/resolution/src/lib.rs:597-715 | Every move a candidate admits strictly lowers a nonnegative potential |
| `ResolutionRuns.DisputeIsBounded` | contracts/resolution/src/lib.rs:664-712 | Over every run a candidate makes at most 8 moves, a second-version one at most 2 |
| `ResolutionExamples.EightMoves` | contracts/resolution/src/lib.rs:566-715 | From a fresh deployment a candidate makes all 8 of them |
| `ResolutionRuns.DeadlineOrigin` | contracts/resolution/src/lib.rs:701-710 | A deadline is the latest opening plus its window, and while the candidate is proposed nobody challenged since |
| `ResolutionRuns.FinalizeIsSafe` | contracts/resolution/src/lib.rs:752-762 | Whenever finalization succeeds, a full window of 60 to 1,209,600 seconds has passed since the latest opening, without a challenge, and the signature has not expired |
| `ResolutionRuns.ArbitrationIsLate` | contracts/resolution/src/lib.rs:1340-1349 | Arbitration and voiding come at least 172,800 seconds after the latest window closed |
| `ResolutionRuns.ChallengeAndFinalizeApart` | contracts/resolution/src/lib.rs:597-599 | A challenge and a finalization of one candidate are ordered and at least a window apart |
| `ResolutionProgress.ProgressExactly` | contracts/resolution/src/lib.rs:752-762 | A candidate can still be closed by some later run if and only if a condition on its own record and list holds |
| `ResolutionProgress.StuckExactlyWhenExpired` | contracts/resolution/src/lib.rs:752-762 | While the token supply is small enough for every bond to split, a live candidate is stuck for good if and only if it is proposed, its window has passed and its signature has expired |
| `ResolutionExamples.HugeBondsGetStuck` | contracts/resolution/src/lib.rs:1372-1373 | From a fresh deployment a dispute over two bonds too large to split can never be closed |
| `ResolutionExamples.ProposalGetsStuck` | contracts/resolution/src/lib.rs:752-762 | From a fresh deployment a proposal nobody finalizes in time is stuck |
| `ResolutionProgress.TerminalStepEnabled` | contracts/resolution/src/lib.rs:1340-1349 | Past its timelock a challenged candidate can be voided, and can be upheld, exactly when the respective bonds split |
| `ResolutionExamples.PausedAccepts` | contracts/resolution/src/lib.rs:996-1012 | While paused a call succeeds if and only if it is a second-version proposal, a collateral call or an admin setting (or none of the contract's own) and would succeed unpaused |
| `ResolutionExamples.ProposalWhilePaused` | contracts/resolution/src/lib.rs:457-549 | From a fresh deployment a second-version proposal goes through while paused |
| `ResolutionExamples.VoidIgnoresRound` | contracts/resolution/src/lib.rs:1106-1180 | Whether a market can be voided does not depend on the appeal round |
| `ResolutionExamples.VoidedWithoutAppeal` | contracts/resolution/src/types.rs:38-42 | From a fresh deployment a candidate that was never appealed is voided |
| `ResolutionExamples.ArbitrationIgnoresVersion` | contracts/resolution/src/types.rs:88-92 | From a fresh deployment arbitration resolves a second-version candidate through the first-version callback |
| `Decimal.MarketIdToString` | contracts/resolution/src/lib.rs:1276-1292 | The backward-filling loop produces the canonical decimal text; its index never passes the front of the ten-byte buffer |
| `Decimal.ParseMarketId` | contracts/market/src/validation.rs:262-281 | The digit loop accepts exactly 1 to 10 digits with a value of at most 32 bits, and returns the value |
| `Decimal.PrintThenParse` | contracts/resolution/src/lib.rs:1276-1292 | What one contract prints the other parses back, for every id |
| `Decimal.ParseThenPrint` | contracts/market/src/validation.rs:262-281 | Printing a parsed text gives it back if and only if it has no leading zero |
| `Decimal.PrintInjective` | contracts/resolution/src/lib.rs:1276-1292 | Different ids print differently |
| `OraclePreimage.BuildOraclePreimage` | contracts/market/src/oracle.rs:124-130 | The first-version message, always 20 bytes; `DecodeEncodedV1` and `DomainText` say which |
| `OraclePreimage.BuildOraclePreimageV2` | contracts/market/src/oracle.rs:102-121 | The second-version layout, always 64 bytes |
| `OraclePreimage.DecodeEncoded` | contracts/market/src/oracle.rs:102-121 | A decoder recovers network, market, outcome, expiry and epoch |
| `OraclePreimage.EncodeDecoded` | contracts/market/src/oracle.rs:102-121 | Whatever decodes is what the builder would build |
| `OraclePreimage.PreimageInjective` | contracts/market/src/oracle.rs:102-121 | Different reports have different preimages |
| `OraclePreimage.PreimageV1Injective` | contracts/market/src/oracle.rs:124-130 | So have different first-version messages |
| `OraclePreimage.DecodeEncodedV1` | contracts/market/src/oracle.rs:63-65 | Market id and outcome are read back from bytes 15 to 19 of a first-version message, where byte 19 is 1 for YES and 0 for NO |
| `OraclePreimage.EncodeDecodedV1` | contracts/market/src/oracle.rs:124-130 | Whatever decodes this way is what the builder would build |
| `OraclePreimage.DomainText` | contracts/market/src/oracle.rs:51-58 | The first 15 bytes spell the domain of the version |
| `OraclePreimage.BigEndianBytes` | contracts/market/src/oracle.rs:124-130 | The four bytes of a market id, most significant first |
| `OraclePreimage.VersionsDisjoint` | contracts/market/src/oracle.rs:52-66 | No first-version preimage is a second-version one |
| `ThresholdOracle.HasDuplicates` | contracts/market/src/oracle.rs:548-555 | The nested loop finds a duplicate if and only if there is one |
| `ThresholdOracle.CountQuorum` | contracts/market/src/oracle.rs:557-579 | The counting loop with its early exits succeeds if and only if some prefix holds a quorum of valid signatures and no signature valid for the opposite outcome |
| `ThresholdOracle.VerifyThresholdSignatures` | contracts/market/src/oracle.rs:534-580 | Accepts exactly: adapters off, quorum in range, distinct signers, and such a prefix; and which error otherwise |
| `ThresholdOracle.VerifyThresholdSignaturesV2` | contracts/market/src/oracle.rs:586-648 | The same with network and expiry checks |
| `ThresholdOracle.AcceptanceMeaning` | contracts/market/src/oracle.rs:534-580 | First-version acceptance means a quorum of distinct keys whose signatures verify over the digest of bytes that decode to this market and this outcome, counted before any that verifies for the opposite one |
| `ThresholdOracle.AcceptanceMeaningV2` | contracts/market/src/oracle.rs:586-648 | The same for the second version, for bytes that decode to this whole report |
| `ThresholdOracle.QuorumsIntersect` | contracts/market/src/oracle.rs:557-579 | Two quorums for opposite messages share at least 2q - n distinct keys with valid signatures on both |
| `ThresholdOracle.NoConflictingOutcomes` | contracts/market/src/oracle.rs:534-580 | If both outcomes of a market are accepted, at least 2q - n distinct signers signed both |
| `ThresholdOracle.NoConflictingOutcomesV2` | contracts/market/src/oracle.rs:586-648 | The same for the second version |
| `ThresholdOracle.ReportBinding` | contracts/market/src/oracle.rs:88-121 | Unless the preimages concerned collide, a signed digest belongs to one report only, and to no first-version message |
| `Distribution.ComputeDistribution` | contracts/treasury/src/distribute_proptest.rs:72-118 | Refuses exactly the listed inputs; otherwise the amounts add up to the total, all but the last are floors, and the last exceeds its floor by at most n - 1 |
| `Distribution.FairIsUnique` | contracts/treasury/src/distribute_proptest.rs:191-195 | Such a distribution is determined by its inputs |
| `Distribution.LastShare` | contracts/treasury/src/distribute_proptest.rs:93-99 | The remainder is the last recipient's floor plus at most n - 1 |
| `Distribution.TreasuryState.ApplyDistribute` | contracts/treasury/src/distribute_proptest.rs:136-160 | Who is refused and why, and the exact state afterwards; a failure changes it if and only if the request was admitted and the running total or the 32-bit counter overflows |
| `Distribution.OverflowKeepsRequest` | contracts/treasury/src/distribute_proptest.rs:136-160 | A second payment refused for overflow leaves its request id recorded |
| `OutcomeTokens.OutcomeToken.MintTo` | contracts/outcome-token/src/test.rs:243-254 | A mint raises one balance and one supply by the amount and keeps the supply equal to the sum of balances |
| `OutcomeTokens.OutcomeToken.BurnFrom` | contracts/outcome-token/src/test.rs:257-277 | A burn lowers both, and is refused beyond the balance |
| `OutcomeTokens.AdjustKeepsBacked` | contracts/outcome-token/src/storage.rs:91-116 | Every supply stays the sum of its balances |
| `OutcomeTokens.AdjustFrame` | contracts/outcome-token/src/storage.rs:91-116 | No other balance or supply moves |
| `OutcomeTokens.MintAndBurn` | contracts/outcome-token/src/test.rs:243-277 | A mint takes exactly a positive amount that the supply has room for, a burn exactly a positive amount the user has; balance and supply move by it |
| `OutcomeTokens.BalanceWithinSupply` | contracts/outcome-token/src/storage.rs:91-116 | No balance exceeds its supply |
| `PositionMath.LockBounds` | contracts/market/src/positions.rs:37-74 | The lock is the value of the net side at the price rounded down, up to the saturation point |
| `PositionMath.ProperLockUnique` | contracts/market/src/positions.rs:37-74 | There is only one such lock |
| `PositionMath.SidesLockTogether` | contracts/market/src/positions.rs:64-74 | k YES and k NO shares held apart lock k - 1 or k in total, k exactly when nothing is rounded |
| `PositionMath.PairsLockNothing` | contracts/market/src/positions.rs:64-74 | Complete pairs never change a lock |
| `PositionMath.LockMirror` | contracts/market/src/positions.rs:64-74 | Swapping sides mirrors the price |
| `PositionMath.MergedLock` | contracts/market/src/positions.rs:338-345 | A merged lock is at most the sum of the two plus one stroop |
| `PositionMath.MergedLockAttained` | contracts/market/src/positions.rs:338-345 | That stroop does occur |
| `PositionMath.CollateralCheckExactly` | contracts/market/src/positions.rs:112-121 | The saturating check agrees with exact arithmetic if and only if the balance is not the largest 128-bit number or the sum does not exceed it |
| `PositionMath.FeeBounds` | contracts/market/src/validation.rs:320-328 | When there is a fee; it lies between 0 and the amount, with less than one unit of dust |
| `PositionMath.SplittingSavesLittle` | contracts/market/src/validation.rs:320-328 | k withdrawals cost between fee - (k - 1) and fee of the whole |
| `Positions.TransferTotals` | contracts/market/src/positions.rs:281-292 | A transfer between two accounts keeps total YES, total NO and total deposits of every market; one from an account to itself adds exactly what it was to move |
| `Positions.TransferEffect` | contracts/market/src/positions.rs:237-297 | The id is spent; shares are added to the recipient and taken from any other source, both locks are the value of the net side at the price, shares nonnegative, everything else untouched |
| `Positions.TransferBack` | contracts/market/src/positions.rs:237-297 | Transferring back undoes a transfer, up to the price of the locks, if and only if it was between two accounts or of nothing |
| `Positions.MergeEffect` | contracts/market/src/positions.rs:312-358 | The id is spent; the second position ends empty; the first of two accounts holds the sums, locked at the value of its net side and at most one stroop above the two; everything else untouched |
| `Positions.TransferAccepts` | contracts/market/src/positions.rs:237-289 | A transfer goes through exactly for a price in range, the owner or an approved operator, an unused id, unsettled positions, enough shares and sums within 128 bits |
| `Positions.MergeAccepts` | contracts/market/src/positions.rs:312-345 | A merge goes through exactly for a price in range, the owner or an approved operator, an unused id, two stored unsettled positions and sums within 128 bits |
| `Positions.MergeTotals` | contracts/market/src/positions.rs:338-353 | A merge keeps the totals; merging a position into itself loses it |
| `Settlement.BatchIsSet` | contracts/market/src/settlement.rs:304-331 | A batch with any repetitions, strangers and settled users settles each eligible user once, and traps if and only if the contract cannot pay the others together and, in its turn, a position of its own |
| `Settlement.BatchEffect` | contracts/market/src/settlement.rs:304-331 | What a batch does to any single user: settled and paid exactly if listed and eligible, untouched otherwise; `SettlementPayments.SettlePays` says how much |
| `Settlement.SinglesAgree` | contracts/market/src/settlement.rs:202-240 | One call per user ends in the same state as the batch |
| `Settlement.PagesAreOneBatch` | contracts/market/src/settlement.rs:391-443 | However pages are cut, they add up to one pass over the participants |
| `Settlement.RoutesAgree` | contracts/market/src/settlement.rs:202-443 | Single, batched and paged settlement each settle the eligible users they name once; paging and batches that name the same leave the same state, and trap together unless the contract settles a position of its own |
| `Settlement.RouteOrderIsIrrelevant` | contracts/market/src/settlement.rs:202-443 | Settling some users and then others leaves what settling the others first leaves |
| `Settlement.TotalNeverSaturates` | contracts/market/src/settlement.rs:328-328 | The saturating total is exact if and only if what is owed fits 128 bits, which is at most twice the balance; without a position of the contract itself it is what left the contract |
| `Settlement.BatchTotalIsOwed` | contracts/market/src/settlement.rs:300-331 | The total is what the settled users were owed, cut off at the largest 128-bit number |
| `Settlement.AppliesCommute` | contracts/market/src/settlement.rs:304-331 | Settling two users in either order gives the same state |
| `Settlement.SettleRetiresShares` | contracts/market/src/settlement.rs:122-132 | Settlement leaves the user no outcome tokens and lowers both supplies by exactly the shares |
| `Settlement.SettleDisturbsNobody` | contracts/market/src/settlement.rs:122-132 | No other user's tokens, position or parity changes |
| `Settlement.SettledStaysSettled` | contracts/market/src/settlement.rs:45-47 | A settled position is refused by the single route and skipped by the others |
| `SettlementPayments.SettlePays` | contracts/market/src/settlement.rs:24-30 | A settlement moves exactly the YES shares if YES won, the NO shares if NO won and the deposit if nobody did, from the contract to the user; losing shares pay nothing; no other balance, position or payment changes |
| `SettlementPayments.SettleAccepts` | contracts/market/src/settlement.rs:75-103 | A position can be settled exactly if it is stored, its market resolved, it is not settled yet, the token balances are its shares, and the contract holds the payout |
| `SettlementPayments.BatchPaysOwed` | contracts/market/src/settlement.rs:300-331 | Whichever users a batch lists, it pays out exactly what the market owes less afterwards |
| `SettlementPayments.MarketSettlesExactly` | contracts/market/src/settlement.rs:300-331 | Settling the rest of a market succeeds if and only if the contract holds what is still owed, costs exactly that and leaves nothing owed |
| `SettlementPayments.WholeMarketCosts` | contracts/market/src/settlement.rs:10-16 | Settling everybody costs exactly the market's YES shares if YES won, its NO shares if NO won, its deposits if nobody did, and is possible if and only if the contract holds that much |
| `Reconciliation.ReconcileAccepts` | contracts/market/src/reconciliation.rs:149-191 | A repair goes through if and only if the ledgers agree already, or the id is fresh and both supplies have room |
| `Reconciliation.ReconcileEffect` | contracts/market/src/reconciliation.rs:149-191 | It ends in parity; nothing happens and no id is spent if the ledgers agreed, else one user's balances and the supplies move by exactly the differences |
| `Reconciliation.ReconcileOnce` | contracts/market/src/reconciliation.rs:161-165 | A spent id repairs nothing else, and a second repair changes nothing |
| `Reconciliation.SettledNeverReminted` | contracts/market/src/reconciliation.rs:94-95 | Tokens burned by settlement are never minted back |
| `VaultInvariant.StepKeeps` | contracts/market/src/deposit.rs:138-196 | Every call keeps: pool equal to deposits plus surplus less payouts, nonnegative positions, one payment per settled position and none otherwise, outcome supplies backed, participant lists distinct, naming every depositor and never the contract |
| `VaultInvariant.RunKeeps` | contracts/market/src/withdraw.rs:145-205 | So does every run |
| `VaultInvariant.ApplyKeeps` | contracts/market/src/settlement.rs:223-237 | A settlement keeps custody, single payment and the backing of outcome tokens |
| `VaultInvariant.BatchKeeps` | contracts/market/src/settlement.rs:304-331 | So does a batch |
| `VaultInvariant.PutBothKeeps` | contracts/market/src/positions.rs:347-353 | Writing two positions keeps custody, what their deposits lose becoming surplus |
| `VaultRuns.PoolIsExact` | contracts/market/src/withdraw_fuzz.rs:768-821 | In every reachable state the balance plus all settlement payouts is the sum of deposits, what the contract held at the start and what it has kept since |
| `VaultRuns.RunTotals` | contracts/market/src/withdraw.rs:181-200 | What it has kept since, and what the token's issuer has added, is, event by event: fees without another treasury, tokens others sent it, and deposits forgotten by self-merges |
| `VaultRuns.RunConserves` | contracts/market/src/withdraw_fuzz.rs:811-816 | Tokens are conserved over every run |
| `VaultRuns.RunFees` | contracts/market/src/withdraw_fuzz.rs:806-812 | Over every run exactly the fees charged while a treasury was registered have been reported to one; `VaultWithdrawals.FeeCharged` says which fees are charged |
| `VaultWithdrawals.FeeCharged` | contracts/market/src/withdraw.rs:134-140 | A user on the waiver list, or anybody at rate 0, is charged nothing; everybody else the rate's share of the amount, rounded down; there is no withdrawal at a rate out of range or beyond 128 bits |
| `VaultRuns.RunAccounts` | contracts/market/src/withdraw.rs:173-175 | Over every run that merges no deposit away, each user's collateral balance is the sum of that user's deposits over all markets |
| `VaultRuns.MergeAccountsExactly` | contracts/market/src/positions.rs:338-353 | A merge keeps those accounts right if and only if the emptied position held no deposit |
| `VaultExamples.MergeLeavesAccountWrong` | contracts/market/src/positions.rs:338-353 | From a fresh deployment a merge leaves an account with collateral that no deposit of its owner backs |
| `VaultWithdrawals.WithdrawExactly` | contracts/market/src/withdraw.rs:87-217 | In every state of the invariant a withdrawal succeeds if and only if user, mode, amount, market, cooldown and position allow it, and position, account and contract bear the amount and the fee the rate and the waiver list ask for |
| `VaultWithdrawals.AccountCoversWhenRight` | contracts/market/src/withdraw.rs:173-175 | The debit of an account that is the sum of its user's deposits never falls short |
| `VaultExamples.DebitFallsShort` | contracts/market/src/withdraw.rs:173-175 | From a fresh deployment, after a merge the new holder of a deposit meets every guard, the contract can pay, and the debit of the account falls short |
| `VaultWithdrawals.DepositsAreCoveredExactly` | contracts/market/src/withdraw_fuzz.rs:818-819 | The contract covers every deposit still owed if and only if settlement has paid out no more than the surplus |
| `VaultWithdrawals.PoolCoversUntilPaidOut` | contracts/market/src/withdraw.rs:177-205 | The contract can always pay as long as settlement has paid out no more than the surplus |
| `VaultExamples.WithdrawalFallsShort` | contracts/market/src/withdraw.rs:87-217 | From a fresh deployment, a withdrawal of an unlocked deposit meets every guard and still cannot be paid, because settlement in another market was paid first |
| `VaultWithdrawals.WithdrawUndoesDeposit` | contracts/market/src/withdraw.rs:87-217 | In every state of the invariant, a free withdrawal an hour after a deposit into a position whose lock is covered goes through and restores position, account and every balance |
| `VaultWithdrawals.WithdrawEffect` | contracts/market/src/withdraw.rs:162-205 | The user receives exactly the amount, the treasury the fee of `FeeIs` on top and the report of it, position and account fall by both, the lock stays covered |
| `VaultWithdrawals.DepositEffect` | contracts/market/src/deposit.rs:138-196 | A deposit moves exactly the amount and touches no lock; the user is listed and the cooldown starts |
| `VaultCalls.DepositAccepts` | contracts/market/src/deposit.rs:75-145 | A deposit goes through exactly in normal mode, for a positive amount up to half the 128-bit range that the user has, into an active market that is open to deposits and not expired, without overflow |
| `VaultCalls.TradeEffect` | contracts/market/src/positions.rs:407-414 | A trade adds its deltas to both sides and locks the value of the net side at its price; deposit, settled flag, every other position and every token stay |
| `VaultCalls.TradeAccepts` | contracts/market/src/positions.rs:383-405 | A trade goes through exactly for a price in range and shares that stay nonnegative and within 128 bits |
| `VaultCalls.OthersUntouched` | contracts/market/src/deposit.rs:138-196 | Deposits, withdrawals and trades leave every other position and account, ids and outcome tokens alone |
| `VaultCalls.CooldownHolds` | contracts/market/src/withdraw.rs:115-121 | Over every run in which time does not go back, a withdrawal comes at least 3,600 seconds after every earlier deposit of that user in that market |
| `VaultCalls.SettlePositionAccepts` | contracts/market/src/settlement.rs:202-240 | When a user can settle, in full |
| `VaultCalls.SettlePositionPays` | contracts/market/src/settlement.rs:24-30 | A user who settles gains exactly the winning shares, or the deposit when nobody won, out of the contract |
| `VaultCalls.BatchAccepts` | contracts/market/src/settlement.rs:267-300 | A batch takes exactly 1 to 100 users of a resolved market outside a global freeze, and traps if and only if the contract cannot pay |
| `VaultCalls.PageSize` | contracts/market/src/settlement.rs:391-398 | A page holds as many users as asked for, or those left from its start on, in the order of the list |
| `VaultCalls.SettledNotMoved` | contracts/market/src/positions.rs:253-278 | No transfer and no merge touches a settled position |
| `VaultCalls.SettledIsFrozen` | contracts/market/src/positions.rs:253-278 | Over every run a settled position stays exactly as it was until its owner deposits, withdraws or trades there |
| `VaultCalls.ParityMeans` | contracts/market/src/reconciliation.rs:83-104 | Parity means settled, no registered tokens, or token balances equal to the shares on both sides |
| `VaultWithdrawals.AcceptedAmountsAreAnInterval` | contracts/market/src/withdraw.rs:132-160 | In any state the amounts a user can withdraw are exactly 1 to some largest one |
| `VaultRuns.PaidAtMostOnce` | contracts/market/src/settlement.rs:202-240 | In every reachable state a position has been paid once if settled and never otherwise |
| `VaultRuns.NeverPaidAgain` | contracts/market/src/settlement.rs:267-444 | Over any mix of routes the payment to a settled position is the last |
| `VaultPaging.ListedExactly` | contracts/market/src/deposit.rs:178-186 | Over every run exactly those are on a market's list who deposited or traded there |
| `VaultPaging.StoredExactly` | contracts/market/src/positions.rs:266-292 | Over every run exactly those have a position who did so or received a transfer |
| `VaultPaging.UnlistedWasReceived` | contracts/market/src/positions.rs:281-292 | An unlisted position was received by transfer and never deposited to or traded |
| `VaultPaging.PagingReachesExactlyTheListed` | contracts/market/src/settlement.rs:347-355 | Paging to the end settles an eligible user if and only if the user is listed, and pays exactly the payout |
| `VaultPaging.LoopIsIteration` | contracts/market/src/settlement.rs:370-444 | Calling for page after page, each from the index returned, makes up that iteration and changes nothing else |
| `VaultPaging.PagingIsComplete` | contracts/market/src/settlement.rs:347-355 | With any other calls in between, paging that has reached the end has had every listed user in some page, and has settled and paid once whoever was eligible then |
| `VaultExamples.PagingMissesRecipients` | contracts/market/src/positions.rs:237-297 | From a fresh deployment paging is complete while a winner who only received shares is unsettled |
| `VaultRuns.IdsAreUsedOnce` | contracts/market/src/positions.rs:210-220 | Over every run no owner's request id succeeds twice, and no correlation id repairs twice |
| `VaultRuns.LoweredOnlyBy` | contracts/market/src/positions.rs:177-198 | Shares and deposit of a position fall only through its owner's calls, an approved operator's, or a merge that empties it in another owner's name |
| `VaultRuns.FallsOnlyByConsent` | contracts/market/src/positions.rs:177-198 | Over every run without such a call a position never falls |
| `VaultExamples.MergeNeedsNoConsent` | contracts/market/src/positions.rs:299-306 | From a fresh deployment a merge empties the position of a user who neither made it nor approved anybody |
| `VaultExamples.SelfTransferAddsShares` | contracts/market/src/positions.rs:281-292 | From a fresh deployment a transfer of 100 shares from an account to itself leaves it 200 |
| `MarketContract.Contract.DepositCollateral` | contracts/market/src/deposit.rs:75-203 | The whole new state or the first failing guard; the token is called once all other state is final, while the reentrancy lock is held |
| `MarketContract.Contract.CreditAndCollect` | contracts/market/src/deposit.rs:138-196 | The state the token call meets is final but for the token's own ledger |
| `MarketContract.LockRefusesDeposits` | contracts/market/src/deposit.rs:28-36 | A deposit that meets the lock is refused |
| `MarketContract.Contract.WithdrawUnusedCollateral` | contracts/market/src/withdraw.rs:87-217 | The whole new state or the first failing guard; both token calls meet a state final but for the ledger |
| `MarketContract.Contract.SendWithdrawal` | contracts/market/src/withdraw.rs:177-205 | The fee to the treasury if one is registered, then the report of it, then the amount to the user |
| `MarketContract.Contract.CallCollectFee` | contracts/market/src/withdraw.rs:185-196 | The treasury is told market and fee |
| `MarketContract.Contract.AddMarketParticipant` | contracts/market/src/deposit.rs:178-186 | The linear search appends a user only once |
| `MarketContract.Contract.UpdatePosition` | contracts/market/src/positions.rs:375-417 | Price and share checks, new shares and recomputed lock |
| `MarketContract.Contract.ConsumeRequestId` | contracts/market/src/positions.rs:210-220 | True exactly once per owner and id |
| `MarketContract.Contract.Admit` | contracts/market/src/positions.rs:248-251 | Price, then authority, then request id |
| `MarketContract.Contract.ComputeTransfer` | contracts/market/src/positions.rs:253-289 | The two positions a transfer stores, or the first failing check, in the order of the code |
| `MarketContract.Contract.ComputeMerge` | contracts/market/src/positions.rs:327-350 | The two positions a merge stores, or the first failing check, in the order of the code |
| `MarketContract.Contract.TransferPosition` | contracts/market/src/positions.rs:237-297 | The whole new state or the first failing check |
| `MarketContract.Contract.MergePositions` | contracts/market/src/positions.rs:312-358 | The whole new state or the first failing check |
| `MarketContract.Contract.IsMatched` | contracts/market/src/reconciliation.rs:83-104 | Parity as the code computes it: settled positions and unregistered tokens always match |
| `MarketContract.Contract.ReconcilePositionTokens` | contracts/market/src/reconciliation.rs:149-191 | The repair, and that it reports the parity it leaves |
| `MarketContract.Contract.ComputeSettlement` | contracts/market/src/settlement.rs:75-103 | The payout of a position or the first reason against it |
| `MarketContract.Contract.BurnSettledOutcomeTokens` | contracts/market/src/settlement.rs:122-132 | Both sides are burned, the losing one too |
| `MarketContract.Contract.SettlePosition` | contracts/market/src/settlement.rs:202-240 | The whole new state, the payout returned, or the error; the transfer comes after all else is stored |
| `MarketContract.Contract.SettleAll` | contracts/market/src/settlement.rs:300-331 | The loop is the fold of single settlements; it returns their saturating sum |
| `MarketContract.Contract.BatchSettlePositions` | contracts/market/src/settlement.rs:267-345 | 1 to 100 users of a resolved market, settled by that loop |
| `MarketContract.Contract.SettlePositionsPage` | contracts/market/src/settlement.rs:370-444 | One page of the participants; a page of at least one moves on until complete |
| `MarketContract.Contract.Execute` | contracts/market/src/settlement.rs:202-444 | Any call, run by a host that restores the state on failure, is one step of the machine and keeps the invariant |

## Left out

- Contract administration: address rotation with timelocks, upgrade and storage versions, events, metadata, the factory,
  treasury accounting and market creation; they are single checks or bookkeeping.
- `apps/web`, `scripts` and `deployments`.
- Price-feed adapters and their cross-contract calls; only the switch that closes the signature path is modelled.
- ResolutionContract.Contract.Execute: a treasury may be registered at any time by anybody, because the timelocked
  procedure only makes fewer such steps possible.
- Slashing in a token other than the one deposited, because there is one token in the model.
- Vault.Trade: the checks of the trade entrypoint around the position update (market status, collateral, parity, token
  minting) are not part of the shown code, so trades succeed more often here than there; `locked <= deposited` after a
  trade is therefore not stated, only that withdrawals establish it and deposits keep it.
- VaultInvariant.StepKeeps: registering another outcome-token contract later on is not modelled; one is registered from
  the start or never.
- What a treasury does when it is told of a fee.
- The fee-waiver list is a set, the operator approvals are a set of pairs; the code that maintains them is left out.
- What the foreign token does when called, beyond moving balances; `seen` records the states in which the token and
  the treasury are called.
