# Mars periphery, verified

A Dafny model of the four contracts that launched the MARS token: the airdrop, the lockdrop, the
bootstrap auction and LP staking, and of the protocol they form together. For each contract a pure
layer says what every transaction does to the contract's storage and to the tokens it holds, a
class (`Contract`) carries the handlers, loops and callbacks in the form the contract has them and
is proved against that layer, and lemmas state what holds after every run of transactions.

| file | content |
|---|---|
| `Decimals`, `Sums`, `Portions`, `Percentages`, `Wrappers` | 18-digit decimals that round down; sums over maps and lists; pro-rata parts bounded from both sides; limits as inequalities; results |
| `Emission`, `EmissionRates` | the emission loop and its schedule; what every second earns |
| `LpStaking`, `StakingAudit`, `StakingBudget`, `StakingLedger`, `StakingExample` | staking; conservation over runs; the emission budget over runs; the tokens moved; a run that rounds up |
| `Auction`, `AuctionBook`, `AuctionSolvency`, `AuctionResults`, `AuctionContract` | transactions; invariant; solvency over runs; what users get; handlers and callbacks |
| `AuctionLimits`, `AuctionShares`, `AuctionBalances` | what is accepted and what it changes; what is allotted; where every token is |
| `Lockdrop`, `LockdropBook`, `LockdropSolvency`, `LockdropClaims`, `LockdropUnwind` | transactions; invariant; every transaction keeps it |
| `LockdropRun`, `LockdropLimits`, `LockdropResults`, `LockdropContract` | runs; exactly which transactions keep the books; what users get; handlers, loops and callbacks |
| `LockdropTerms`, `LockdropShares`, `LockdropBalances` | what is accepted and what it changes; what is allotted; where every token is |
| `LockdropXMars`, `LockdropNuke`, `LockdropForfeit`, `LockdropExamples` | xMARS over runs; batches against single unwinding; what a batch forfeits; instances where the code falls short |
| `Merkle`, `MerkleText` | the proof check, complete and sound; texts and orders in plain terms |
| `Airdrop`, `AirdropTerms`, `AirdropContract` | transactions and books; what is accepted and what it changes, what the owner can take; handlers |
| `Protocol` | the three launch contracts together, with atomic cross-contract transactions |
| `Tax` | the tax deducted from native transfers |

## Results

* **LP staking.** The catch-up loop pays exactly the declarative schedule, each second once, at its
  own cycle's rate; `EverySecondEarns` says so without the schedule, for rewards that grow by the ratio
  from cycle to cycle. Stopping on the way changes no cycle state and costs at most one unit. Over any
  run without `update_config`, all calls together pay at most the reward of a cycle for it, and stakers
  receive no more than the sum of these rewards plus one unit per bond or unbond call. Every staker
  has received its exact earnings to within one unit per own such call. That slack is needed: the run
  `RunPaysMoreThanIndexed` puts two units into the index and pays three. `TotalExactly` accounts for
  every fraction, and `OverpaidExactly` says from it when a run pays more than was indexed. If every
  bond and unbond call finds no fraction of a unit, no slack is needed (`NoFractionsNoSlack`).
* **Auction.** In every reachable state the MARS balance covers all unpaid incentives and staking
  rewards, and before the pool exists the deposits, and the ASTRO balance all unpaid rewards in ASTRO;
  every subtraction succeeds and every transfer is funded; the shares and incentives on record,
  whenever they were materialised, stay within what was minted and set aside; LP tokens are at the
  venue the flags name. Vested incentives and staking rewards paid depend on a user's last claims
  alone. `ClaimNeverStuck` says exactly when a claim succeeds: while the MARS venue holds the shares, a
  second withdrawal is refused (`SecondWithdrawalRefused`). Shares, incentives and vesting are pro rata
  to within a stated rounding, from both sides (`ClaimAllocates`, `ClaimVestsLinearly`,
  `SharesReachMinted`).
* **Lockdrop.** Positions, users and totals agree; shares of maUST never exceed what is left, MARS
  allotted never exceeds the incentives; no withdrawal, delegation, claim or unlock can underflow or
  lack UST, maUST or MARS. MARS goes by UST times boost, maUST by UST, xMARS by maUST, to within a
  stated rounding, from both sides. Two things the code lets happen are characterised:
  * *Claims.* `ClaimSound` says exactly when a claim succeeds. A position whose share rounds to zero
    cannot be unlocked, as the transfer of nothing is rejected (`TinyPositionStuck`). The xMARS due to
    the user has to be held, or to come in with the claim. Until a first position is unwound it always
    is, and what was sent and is due stays within what came in, over any run (`XMarsConserved`). After
    that it need not be: a user that has unlocked everything keeps its UST on record, is given its
    share again at the next claim and is sent xMARS due to others, whose claims then fail
    (`UnlockTakesOthersXMars`).
  * *Batches.* Unwinding the positions of a page one by one succeeds if and only if the batch does and
    each of the positions has a share that is not zero, and then has the same effect; a batch also
    unwinds positions without a share (`ZeroShareUnwoundInBatch`). It fails as a whole if and only if
    a user of the page has shares left without a maUST share on record (`NukeSucceeds`,
    `UnclaimedUserBlocksNuke`). It drops the record of exactly those users none of whose positions had
    been unlocked before (`NukeDrops`), and these are never sent MARS again, whatever they were
    still entitled to (`NukeForfeits`), while unwinding one by one keeps the record. The source lets
    anyone start a batch before the Red Bank deposit; then it keeps the books if and only if no user it
    reaches has a position (`EarlyNukeSound`), and otherwise leaves UST with the contract that no
    position accounts for (`EarlyNukeStrandsUst`). That and enabling claims before the start are the only transactions
    that break the books (`StepSoundExactly`).
* **Airdrop.** Comparing hexadecimal strings is comparing bytes, so the pair hash is symmetric; every
  leaf of a tree of any shape is accepted, and whatever is accepted is a leaf unless inputs actually
  hashed collide. The MARS held is exactly what is unclaimed plus what users may still withdraw,
  and until the claim period ends the owner can take none of it (`UnclaimedUntilEnd`).
* **Every transaction.** From every reachable state the auction, the lockdrop and the airdrop accept
  a transaction if and only if conditions hold that its caller can check (`AcceptedExactly` in
  `AuctionLimits`, `LockdropTerms` and `AirdropTerms`), and accepted ones move the records and settings
  they name and no others. `AlwaysBalanced` accounts for every token of the auction and the lockdrop
  to the unit.
* **Protocol.** The auction's deposits are exactly what was delegated to it, in total and user by
  user, and the pool exists exactly when claims are open in the airdrop and in the lockdrop.

## Assumptions

* The block clock does not go backwards.
* MARS, ASTRO, UST, LP, maUST and xMARS are distinct tokens; addresses are wired to one auction.
* cw20 tokens reject transfers of zero and of more than is held; native transfers of zero UST go
  through. A failing handler or message undoes the whole transaction.
* LP staking has no ledger of the tokens it holds: its claims are taken to be funded.
* Lockup durations are not zero, the value that marks a new position; the key of a position is the
  pair of its owner and its duration. Vesting and emission configurations pass `instantiate`.
* Staking venues, the pool, the Red Bank and the incentives contract may hand over any amount, with
  these exceptions: the pool rejects an empty side or a provision that mints nothing, the Red Bank a
  deposit of nothing, and the incentives contract sends nothing when it reports nothing.
* Runs leave out the two transactions of the lockdrop proved to break its books: a batch that unwinds
  positions before the Red Bank deposit, and enabling claims before `init_timestamp`.
* Keccak-256 is a parameter. Soundness of the proof check assumes that no two different inputs among
  those hashed for the tree and for the proof have the same digest, and that no leaf text has the
  64 bytes of two hashes.
* Amounts are unbounded: an overflow aborts the transaction in the contracts.

## Model

| member | source | states |
|---|---|---|
| Emission.ComputeReward | contracts/lp_staking/src/contract.rs:420-469 | the loop over cycles leaves the state whose index grew by the declarative schedule over the total bond, and the cycle, cycle reward and time of the last second paid |
| EmissionRates.EverySecondEarns | contracts/lp_staking/src/contract.rs:420-514 | with rewards that grow by the ratio from cycle to cycle, rounded down, a call emits what the seconds since the last one earn, each the reward of its cycle over the duration: never more, and less by at most two roundings per cycle |
| EmissionRates.WholeCyclesPaid | contracts/lp_staking/src/contract.rs:436-514 | catching up over whole consecutive cycles pays the sum of their growing rewards, up to these roundings |
| EmissionRates.CaughtUp | contracts/lp_staking/src/contract.rs:420-457 | catching up leaves the time, the cycle the time lies in and that cycle's reward, or none at the end |
| EmissionRates.IndexRises | contracts/lp_staking/src/contract.rs:459-468 | the index rises by what was emitted per token bonded, rounded down, and not at all without bonds, before the start or after the end |
| EmissionRates.RewardsExist | contracts/lp_staking/src/contract.rs:505-514 | growing rewards of any number of cycles exist from any first one, so the statements above speak about every state |
| Emission.EverySecondOnce | contracts/lp_staking/src/contract.rs:436-457 | the seconds all cycles are paid for add up to exactly the seconds of the interval inside the distribution period |
| Emission.ScheduleSplit | contracts/lp_staking/src/contract.rs:494-502 | splitting an interval pays the same or exactly one unit less in all, as only one cycle contains the split |
| Emission.CycleWithinReward | contracts/lp_staking/src/contract.rs:486-502 | no cycle ever pays more than its own reward |
| Emission.EmittedByCycle | contracts/lp_staking/src/contract.rs:436-457 | what a call emits is the sum of what it pays for each cycle |
| Emission.CycleWithinRewardOverCalls | contracts/lp_staking/src/contract.rs:436-514 | however many calls catch up, together they pay at most a cycle's reward for it |
| Emission.PathIndependentState | contracts/lp_staking/src/contract.rs:420-469 | catching up to t1 and then to t2 leaves the same cycle, cycle reward and distribution time as catching up to t2 |
| Emission.PathIndependentEmission | contracts/lp_staking/src/contract.rs:420-514 | and emits the same reward or exactly one unit less |
| Emission.RunWithinBudget | contracts/lp_staking/src/contract.rs:422-514 | any number of calls together emit at most one call's reward, lose less than one unit per call, and stay within the sum of the cycles' nominal rewards |
| LpStaking.SettleTelescopes | contracts/lp_staking/src/contract.rs:517-523 | settlements at an unchanged bond telescope exactly |
| LpStaking.UnbondInOneWrite | contracts/lp_staking/src/contract.rs:197-253 | settling, lowering the bond and paying amount to one update of the record and the state |
| LpStaking.Contract.constructor | contracts/lp_staking/src/contract.rs:25-66 | the initial store satisfies the contract's invariant |
| LpStaking.Contract.ComputeStakerReward | contracts/lp_staking/src/contract.rs:517-523 | credits the growth of the staker's share of the index |
| LpStaking.Contract.Bond | contracts/lp_staking/src/contract.rs:127-148 | the whole new store: index caught up, staker settled, then bond and total raised; the invariant is kept |
| LpStaking.Contract.ReceiveCw20 | contracts/lp_staking/src/contract.rs:103-124 | only the staked token announces bonds |
| LpStaking.Contract.Unbond | contracts/lp_staking/src/contract.rs:197-253 | the whole new store and payout, or the error and no change |
| LpStaking.Contract.TryClaim | contracts/lp_staking/src/contract.rs:256-291 | the caller is sent everything pending, once; with nothing pending the call fails without a trace |
| LpStaking.Contract.UpdateConfig | contracts/lp_staking/src/contract.rs:154-193 | rewards are caught up under the old terms before new ones apply; owner and staked token change with them, or nothing does |
| StakingLedger.OwedByIndex | contracts/lp_staking/src/contract.rs:517-523 | what a staker is owed is what was pending plus the growth of bond times index, each product rounded down |
| StakingLedger.UnbondExactly | contracts/lp_staking/src/contract.rs:197-253 | an unbond is accepted if and only if it is positive and within the bond; it returns the LP, and what is owed if asked for |
| StakingLedger.ClaimExactly | contracts/lp_staking/src/contract.rs:256-291 | a claim is accepted if and only if something is owed, sends all of it, and leaves nothing owed |
| StakingLedger.UpdateIsProspective | contracts/lp_staking/src/contract.rs:154-193 | only the owner changes terms, to the values named; at that time every staker is owed what it was owed under the old ones |
| StakingLedger.BondIsDeposited | contracts/lp_staking/src/contract.rs:127-291 | over any run a staker's bond is the LP handed in less the LP handed back, and what the audit records as claimed is the MARS sent |
| StakingAudit.StepFollowsHandlers | contracts/lp_staking/src/contract.rs:69-79 | the audited run performs what the handlers do, call by call |
| StakingAudit.StakerWithinMoves | contracts/lp_staking/src/contract.rs:402-417 | after any run each staker has received its exact sum of bond times index growth to within one unit per own bond or unbond call, in both directions |
| StakingAudit.NeverOverpaid | contracts/lp_staking/src/contract.rs:420-523 | after any run everything pending or claimed is at most the rewards put into the index plus one unit per bond or unbond call |
| StakingAudit.SettleRoundsUp | contracts/lp_staking/src/contract.rs:517-523 | a settlement pays more than was earned if and only if the fraction dropped at the old index was larger than the one dropped now |
| StakingAudit.TotalExactly | contracts/lp_staking/src/contract.rs:402-417 | over all stakers, what was received plus the fractions open and lost is exactly what was earned plus the fractions gained at moves |
| StakingAudit.OverpaidExactly | contracts/lp_staking/src/contract.rs:420-523 | a run pays more than was indexed if and only if exact earnings and fractions gained exceed, by a unit or more, what was indexed, lost and is open |
| StakingAudit.NoFractionsNoSlack | contracts/lp_staking/src/contract.rs:402-417 | if no bond or unbond call finds a fraction of a unit, what is pending or claimed stays within what was indexed |
| StakingExample.RunPaysMoreThanIndexed | contracts/lp_staking/src/contract.rs:127-291 | a run from the initial state of five calls that puts two units into the index and pays three: strict conservation fails |
| StakingBudget.ReceivedWithinBudget | contracts/lp_staking/src/contract.rs:420-523 | over any run without `update_config`, what is indexed is within the nominal rewards of all cycles, and what stakers receive within that plus one unit per move |
| StakingBudget.CycleWithinRewardInRun | contracts/lp_staking/src/contract.rs:436-457 | over any such run all calls together put at most a cycle's reward into the index for it |
| StakingBudget.IndexedByCycle | contracts/lp_staking/src/contract.rs:436-457 | and the amounts for all cycles add up to what is put into the index |
| AuctionContract.Contract.HandleDepositMars | contracts/auction/src/contract.rs:305-340 | deposits of MARS come only through the airdrop and the lockdrop and inside their window; whole new state |
| AuctionContract.Contract.HandleIncreaseMarsIncentives | contracts/auction/src/contract.rs:235-254 | incentives grow only while there is no pool |
| AuctionContract.Contract.HandleDepositUst | contracts/auction/src/contract.rs:343-395 | user, total and balance grow together, inside the window |
| AuctionContract.Contract.HandleWithdrawUst | contracts/auction/src/contract.rs:399-460 | the checks, the new record, totals and balance; never underflows and is always funded; the amounts accepted are those of `AuctionLimits.AcceptedExactly` |
| AuctionContract.Contract.HandleInitPool | contracts/auction/src/contract.rs:464-533 | succeeds exactly under the stated checks and hands the LP balance to the callback |
| AuctionContract.Contract.UpdateStateOnLiquidityAddition | contracts/auction/src/contract.rs:840-880 | the minted shares are the difference of balances |
| AuctionContract.Contract.AddLiquidityToPool | contracts/auction/src/contract.rs:464-533 | handler, pool and callback together have the specified net effect and keep the invariant |
| AuctionContract.Contract.UpdateRewardIndexes | contracts/auction/src/contract.rs:1294-1312 | both indexes grow by the rewards per outstanding share, and not at all without shares |
| AuctionContract.Contract.HandleStakeLpTokens | contracts/auction/src/contract.rs:538-683 | the messages emitted and the flags set, or the error of the specification |
| AuctionContract.Contract.StakeLpTokens | contracts/auction/src/contract.rs:538-683 | leaving one venue, staking at the other and the callback have the specified net effect; if any fails nothing happens |
| AuctionContract.Contract.HandleClaimRewardsAndUnlock | contracts/auction/src/contract.rs:687-832 | shares and incentives are materialised once, and the messages name the balances before and the shares to leave |
| AuctionContract.Contract.UpdateStateOnRewardClaim | contracts/auction/src/contract.rs:883-1003 | the rewards counted are the difference of balances; without a user nothing else changes, with one it is paid |
| AuctionContract.Contract.PayUser | contracts/auction/src/contract.rs:921-997 | the user is sent vested incentives and accrued rewards, and its shares leave record and total together |
| AuctionContract.Contract.TransferLiquidityWithdrawn | contracts/auction/src/contract.rs:1006-1058 | exactly what the pool returned is forwarded |
| AuctionContract.Contract.ClaimRewards | contracts/auction/src/contract.rs:687-832 | the chain of messages and callbacks of a claim has the specified net effect and payout and keeps the invariant |
| AuctionBook.LpSharesWithinMinted | contracts/auction/src/contract.rs:1194-1206 | over all users the LP shares never exceed the shares minted |
| AuctionBook.IncentivesWithinRewards | contracts/auction/src/contract.rs:1214-1232 | over all users the incentives never exceed the rewards set aside |
| AuctionShares.ClaimAllocates | contracts/auction/src/contract.rs:1194-1232 | after a claim the LP shares on record, and incentives just calculated, are the user's mean fraction of both deposits, of the LP tokens minted and the rewards set aside, to within a stated rounding from both sides |
| AuctionShares.SharesReachMinted | contracts/auction/src/contract.rs:1194-1232 | the shares and incentives of all depositors reach what was minted and set aside, up to a rounding per user |
| AuctionShares.RewardsShared | contracts/auction/src/contract.rs:1294-1312 | whatever the venue pays, and nothing else, is counted and raises both indexes by the reward per outstanding LP token, rounded down |
| AuctionShares.ClaimWithdraws | contracts/auction/src/contract.rs:738-832 | a claim takes out all of the user's LP shares or none, and forwards what the pool returns for them |
| AuctionBook.HarvestBook | contracts/auction/src/contract.rs:1294-1312 | rewards put into the indexes are never claimed twice: the claims of all users stay within what was received |
| AuctionSolvency.ClaimFunded | contracts/auction/src/contract.rs:923-994 | every subtraction of a claim succeeds and every transfer it emits is funded |
| AuctionSolvency.ClaimNeverStuck | contracts/auction/src/contract.rs:687-832 | a claim succeeds exactly when the windows are closed, the user has deposited and it does not ask the MARS venue to unbond nothing |
| AuctionResults.SecondWithdrawalRefused | contracts/auction/src/contract.rs:739-768 | the claim that fails, in general: while the MARS venue holds the shares, whoever has withdrawn them and asks again is rejected |
| AuctionSolvency.NeverStuck | contracts/auction/src/contract.rs:96-133 | no transaction underflows or lacks tokens, and each keeps the invariant |
| AuctionSolvency.RunSound | contracts/auction/src/contract.rs:96-133 | so does every run |
| AuctionLimits.LimitMeaning | contracts/auction/src/contract.rs:1350-1378 | the allowed part as inequalities: all until deposits close, half in the first half of the window, then a part falling linearly to nothing, with its rounding |
| AuctionLimits.AcceptedExactly | contracts/auction/src/contract.rs:96-133 | from every reachable state a transaction is accepted if and only if checks on sender, time, amounts and flags pass |
| AuctionLimits.DepositsMove | contracts/auction/src/contract.rs:305-460 | a user's deposits move by its own transactions alone and by the amount named, and only a claim touches the rest of its record |
| AuctionLimits.SettingsMove | contracts/auction/src/contract.rs:235-302 | settings, flags, the LP tokens minted and the start of vesting change only by the transactions meant for them, to the values named |
| AuctionBalances.AlwaysBalanced | contracts/auction/src/contract.rs:96-133 | after any run MARS, ASTRO, UST and LP tokens held and paid equal what was set aside, received, deposited and given, to the unit |
| AuctionResults.AlwaysCovered | contracts/auction/src/contract.rs:883-1058 | after any run the MARS balance covers unpaid incentives, unpaid rewards and deposits without a pool, and the ASTRO balance unpaid rewards; shares and incentives on record, and payments, stay within what was minted, set aside and received; at most one flag is set and its venue holds exactly the outstanding LP tokens |
| AuctionResults.SolventInAstro | contracts/auction/src/contract.rs:958-967 | the ASTRO balance covers the unpaid rewards in ASTRO of all users together |
| AuctionResults.StoredWithin | contracts/auction/src/contract.rs:724-737 | in every reachable state the shares and incentives on record, materialised at different times, sum to at most what was minted and set aside |
| AuctionResults.RewardsPathIndependent | contracts/auction/src/contract.rs:1316-1333 | over any run the MARS and ASTRO rewards paid to a user are its shares times the indexes at its last claim made while holding shares, rounded down |
| AuctionResults.ClaimPaysToIndex | contracts/auction/src/contract.rs:1316-1333 | a claiming user who still held shares has been paid exactly the integer part of shares times index in both assets; afterwards nothing |
| AuctionResults.ClaimVests | contracts/auction/src/contract.rs:1271-1290 | after a claim the withdrawn incentives are the amount vested at that time |
| AuctionShares.ClaimVestsLinearly | contracts/auction/src/contract.rs:1271-1290 | these are the incentives times the time since the pool over the vesting duration, to within a stated rounding from both sides, and all of them at its end |
| AuctionResults.VestingPathIndependent | contracts/auction/src/contract.rs:923-930 | over any run the withdrawn incentives depend on the time of the last claim alone |
| AuctionResults.AllowedPercentFalls | contracts/auction/src/contract.rs:1350-1378 | the allowed percentage never rises, and is at most half once deposits have closed |
| AuctionResults.LateRunCommits | contracts/auction/src/contract.rs:413-438 | from then on, over any run, a user withdraws at most once and keeps at least half, rounded up |
| AuctionResults.TotalCommitted | contracts/auction/src/contract.rs:399-460 | so the final total is at least half of the total then |
| LockdropContract.RemoveLockupPos | contracts/lockdrop/src/contract.rs:1287-1302 | removes the first occurrence, or fails if there is none |
| LockdropContract.CalculateWeight | contracts/lockdrop/src/contract.rs:1397-1409 | the amount times the boost of the first option of the list with the duration, and an error if and only if no option has it |
| LockdropShares.WeightMoves | contracts/lockdrop/src/contract.rs:330-431 | deposits raise and withdrawals lower the total weight by the amount times the boost of the first option with the duration |
| LockdropContract.Contract.TryDepositUst | contracts/lockdrop/src/contract.rs:290-359 | position, user, totals and balance grow together, the total weight by the amount times the boost; a new position is listed once |
| LockdropContract.Contract.TryWithdrawUst | contracts/lockdrop/src/contract.rs:364-449 | at most the allowed part, once after deposits close; an emptied position disappears; never underflows and is always funded |
| LockdropContract.Contract.TakeUst | contracts/lockdrop/src/contract.rs:411-431 | the new position, record, totals and balance |
| LockdropContract.Contract.HandleIncreaseMarsIncentives | contracts/lockdrop/src/contract.rs:216-249 | incentives grow only before the windows close |
| LockdropContract.Contract.UpdateConfig | contracts/lockdrop/src/contract.rs:253-286 | only the owner wires addresses |
| LockdropContract.Contract.HandleEnableClaims | contracts/lockdrop/src/contract.rs:452-481 | only the auction, once, outside the windows |
| LockdropContract.Contract.TryDepositInRedBank | contracts/lockdrop/src/contract.rs:484-553 | the checks, and the maUST balance handed to the callback |
| LockdropContract.Contract.UpdateStateOnRedBankDeposit | contracts/lockdrop/src/contract.rs:922-950 | the minted maUST is the difference of balances, and final totals are fixed |
| LockdropContract.Contract.DepositUstInRedBank | contracts/lockdrop/src/contract.rs:484-553 | handler, Red Bank and callback together have the specified effect and keep the invariant |
| LockdropContract.Contract.UpdateMarsRewards | contracts/lockdrop/src/contract.rs:1347-1373 | every listed position stores its reward by weight and the sum is returned |
| LockdropContract.Contract.HandleDepositMarsToAuction | contracts/lockdrop/src/contract.rs:557-665 | delegations stay within the user's incentives; never underflow and are always funded |
| LockdropContract.Contract.HandleClaimRewards | contracts/lockdrop/src/contract.rs:775-914 | the checks, the materialised record, the xMARS balance handed to the callback and the messages, among them the one that claims xMARS if any is reported |
| LockdropContract.Contract.UpdateXMarsRewardsIndex | contracts/lockdrop/src/contract.rs:1414-1420 | the index grows by the xMARS per maUST still locked, and not at all without any |
| LockdropContract.Contract.ComputeUserAccruedReward | contracts/lockdrop/src/contract.rs:1425-1433 | the growth of the user's share of the index is credited and its index caught up; a shrinking one aborts |
| LockdropContract.Contract.UpdateStateOnClaim | contracts/lockdrop/src/contract.rs:955-1030 | the xMARS that came in raises the index, the user is sent what it is due in xMARS and its undelegated MARS, once; it fails if a transfer does |
| LockdropContract.Contract.SendMars | contracts/lockdrop/src/contract.rs:1006-1019 | undelegated MARS is sent once |
| LockdropContract.Contract.TryDissolvePosition | contracts/lockdrop/src/contract.rs:1032-1083 | the position disappears everywhere and pays its maUST share; fails without a trace otherwise |
| LockdropContract.Contract.ClaimRewardsAndUnlock | contracts/lockdrop/src/contract.rs:775-914 | the claim, the xMARS that comes in and both callbacks have the specified effect and keep the invariant; if any fails, the transfer of xMARS included, nothing happens |
| LockdropContract.Contract.ReleasePositions | contracts/lockdrop/src/contract.rs:704-748 | the inner loop pays out and removes all positions of a user, and succeeds exactly when the totals suffice for their sum |
| LockdropContract.Contract.NukeOne | contracts/lockdrop/src/contract.rs:689-768 | one round of the outer loop, with the record dropped or lowered |
| LockdropContract.Contract.HandleNukeLockdrop | contracts/lockdrop/src/contract.rs:669-771 | at any time the nested loops have the specified effect on a page of users, and if one user fails nothing happens; after the Red Bank deposit, or with nothing listed, the invariant is kept |
| LockdropBook.AllShares | contracts/lockdrop/src/contract.rs:1439-1448 | the maUST shares of all positions together are at most the share of all their UST |
| LockdropBook.AllRewards | contracts/lockdrop/src/contract.rs:1380-1394 | the rewards of all positions together are at most the incentives |
| LockdropShares.RewardByBoost | contracts/lockdrop/src/contract.rs:1380-1404 | the MARS of a position is the part of the incentives that its UST times its boost is of the total weight, to within a stated rounding from both sides |
| LockdropShares.RewardsReachIncentives | contracts/lockdrop/src/contract.rs:1380-1394 | the MARS of all positions reaches the incentives, up to a rounding per position |
| LockdropShares.SharesReachMinted | contracts/lockdrop/src/contract.rs:1439-1448 | the maUST shares of all positions reach what the Red Bank minted, up to a rounding per position |
| LockdropShares.RewardsOnRecord | contracts/lockdrop/src/contract.rs:1347-1373 | calculating a user's incentives stores the reward of each of its positions and no other, and they add up to the incentives on record |
| LockdropShares.ShareOnRecord | contracts/lockdrop/src/contract.rs:840-851 | a maUST share is calculated once, from all of the user's UST, to within a stated rounding from both sides |
| LockdropShares.UnlockPaysProRata | contracts/lockdrop/src/contract.rs:1032-1083 | an unlocked position pays the part of the maUST that its UST was of the final total, to within a stated rounding from both sides |
| LockdropShares.ClaimSendsXMars | contracts/lockdrop/src/contract.rs:1414-1433 | a claim raises the xMARS index by what came in per maUST locked and sends the user the growth of its share times the index |
| LockdropSolvency.WithdrawFunded | contracts/lockdrop/src/contract.rs:391-431 | no withdrawal underflows or lacks UST; at the end of the window only zero can be withdrawn |
| LockdropClaims.RedBankSound | contracts/lockdrop/src/contract.rs:922-950 | whatever is minted covers the shares of all positions |
| LockdropClaims.MaterialisedShare | contracts/lockdrop/src/contract.rs:840-851 | a materialised share covers the shares of the user's live positions |
| LockdropClaims.DelegateSound | contracts/lockdrop/src/contract.rs:618-638 | delegation never underflows, is always funded and keeps the invariant |
| LockdropClaims.PayXMarsSound | contracts/lockdrop/src/contract.rs:980-1003 | the xMARS part of a claim never underflows, goes through if and only if the xMARS due is held or comes in, and keeps the books |
| LockdropUnwind.DissolveSound | contracts/lockdrop/src/contract.rs:1032-1083 | with a share that covers its positions a user can dissolve any of them with a share of its own; the transfer of a share of zero is rejected |
| LockdropUnwind.ClaimSound | contracts/lockdrop/src/contract.rs:775-1083 | claiming and unlocking never underflow, never lack MARS or maUST and keep the invariant; a claim succeeds if and only if claims are allowed, the user has UST on record, the position to unlock, if any, is live with a share that is not zero, and the xMARS due to the user is held or comes in with the claim |
| LockdropXMars.DueIsHeld | contracts/lockdrop/src/contract.rs:980-1003 | while no position has been unwound, the xMARS due in any claim is held or comes in with it |
| LockdropXMars.XMarsConserved | contracts/lockdrop/src/contract.rs:1414-1434 | over any run that unwinds no position the xMARS sent and due to all users stays within what came in, and no claim after it, the first unlock included, lacks xMARS |
| LockdropExamples.UnlockTakesOthersXMars | contracts/lockdrop/src/contract.rs:840-851 | an instance after an unlock: the share that became zero is computed again, the user is sent xMARS due to another, and the other's claim and unlock fail |
| LockdropUnwind.NukeUserSound | contracts/lockdrop/src/contract.rs:753-756 | unwinding a user in a batch fails exactly when it has UST and shares left but no maUST share on record |
| LockdropRun.StepSound | contracts/lockdrop/src/contract.rs:113-138 | every transaction in season keeps the invariant, and apart from batches none underflows or lacks UST, maUST or MARS |
| LockdropLimits.StepSoundExactly | contracts/lockdrop/src/contract.rs:452-481 | a transaction keeps the invariant if and only if it is in season: it neither enables claims before the start nor unwinds positions in a batch before the Red Bank deposit |
| LockdropRun.AlwaysCovered | contracts/lockdrop/src/contract.rs:113-138 | after any run of transactions in season: live shares within the maUST left, maUST paid plus left is what was minted, xMARS paid plus held is what came in, users' incentives and MARS sent within the incentives, each user's MARS within its own, and total UST and total weight equal to the sums over positions until the deposit |
| LockdropTerms.LimitMeaning | contracts/lockdrop/src/contract.rs:1307-1336 | the allowed part as inequalities: all during deposits, half in the first half of the withdrawal window, then a part falling linearly to nothing, with its rounding |
| LockdropTerms.AcceptedExactly | contracts/lockdrop/src/contract.rs:113-138 | from every reachable state a transaction is accepted if and only if checks on sender, time, amounts and flags pass |
| LockdropTerms.PositionsMove | contracts/lockdrop/src/contract.rs:290-449 | until positions are unwound each moves by its owner's deposits and withdrawals alone and by the amount named, and is marked by a late withdrawal only |
| LockdropTerms.SettingsMove | contracts/lockdrop/src/contract.rs:216-286 | settings, incentives and flags change only by the transactions meant for them, to the values named |
| LockdropBalances.AlwaysBalanced | contracts/lockdrop/src/contract.rs:113-138 | after any run UST, maUST and MARS held, and MARS sent, equal what came in, to the unit |
| LockdropResults.ClaimPaysInFull | contracts/lockdrop/src/contract.rs:1006-1019 | after a claim the user has been sent or delegated exactly its entitlement, and an unlocked position has paid exactly its share |
| LockdropResults.LateRunFrozen | contracts/lockdrop/src/contract.rs:1380-1394 | from the close of the windows on, incentives, total weight and the reward of every surviving position never change |
| LockdropResults.AllowedPercentFalls | contracts/lockdrop/src/contract.rs:1307-1336 | the allowed percentage never rises |
| LockdropResults.LateRunKeepsHalf | contracts/lockdrop/src/contract.rs:391-412 | from the start of partial withdrawals every position keeps at least half, and at least half of the total reaches the Red Bank, over any run |
| LockdropResults.RunKeepsHalf | contracts/lockdrop/src/contract.rs:391-412 | in particular from any state of that time on: what reaches the Red Bank is at least half of the total then |
| LockdropNuke.DissolveAllReleases | contracts/lockdrop/src/contract.rs:1032-1083 | dissolving a user's positions in turn, each with its transfer, releases them all, and succeeds exactly when each has a share that is not zero and the totals suffice for their sum |
| LockdropNuke.NukeRefinesDissolving | contracts/lockdrop/src/contract.rs:669-771 | dissolving every listed position of a page in turn succeeds if and only if the batch does and each has a share that is not zero; then positions, totals, tokens and payments are the same, and records differ only in that emptied ones are dropped and UST lowered |
| LockdropExamples.ZeroShareUnwoundInBatch | contracts/lockdrop/src/contract.rs:720-733 | an instance of the difference: a batch skips the transfer of a share of zero, which stops the unwinding one by one |
| LockdropForfeit.NukeDrops | contracts/lockdrop/src/contract.rs:764-768 | a batch drops the record of exactly those users whose UST on record is what their positions hold, as none of these was unlocked before |
| LockdropForfeit.NukeForfeits | contracts/lockdrop/src/contract.rs:764-768 | over any later run such a user is sent no more MARS, whatever it is entitled to |
| LockdropNuke.NukeSucceeds | contracts/lockdrop/src/contract.rs:753-756 | a batch succeeds if and only if no user of the page has shares left without a maUST share on record |
| LockdropResults.EarlyNukeSound | contracts/lockdrop/src/contract.rs:669-771 | before the Red Bank deposit a batch that goes through keeps the books if and only if no user of the page has a position |
| LockdropExamples.EarlyNukeStrandsUst | contracts/lockdrop/src/contract.rs:669-771 | an instance: the position is gone and its UST stays in the totals |
| LockdropExamples.TinyPositionStuck | contracts/lockdrop/src/contract.rs:1061-1071 | an instance of the claim that fails: a position of one UST in 100 whose share rounds to zero |
| LockdropExamples.UnclaimedUserBlocksNuke | contracts/lockdrop/src/contract.rs:669-771 | a depositor who never claimed or delegated makes the batch fail |
| Merkle.VerifyClaim | contracts/airdrop/src/crypto.rs:11-45 | the loop over hexadecimal strings answers what folding the decoded hashes in byte order does, and aborts on malformed ones |
| Merkle.HexOrder | contracts/airdrop/src/crypto.rs:30 | comparing the hexadecimal strings is comparing the bytes |
| Merkle.PairSymmetric | contracts/airdrop/src/crypto.rs:30-40 | the pair hash does not depend on the order of its arguments |
| MerkleText.PairIsSorted | contracts/airdrop/src/crypto.rs:30-40 | hashes are joined with the one that is the smaller number first |
| Merkle.HexRoundTrip | contracts/airdrop/src/crypto.rs:26-28 | decoding an encoding gives the bytes back |
| MerkleText.HexIsLower | contracts/airdrop/src/crypto.rs:43 | hashes are written in lower-case digits |
| MerkleText.HashDecodes | contracts/airdrop/src/crypto.rs:26-28 | an element of a proof is well-formed if and only if it is 64 hexadecimal digits of either case |
| MerkleText.DigitsDenote | contracts/airdrop/src/crypto.rs:18 | an amount is written in decimal, without leading zeros |
| MerkleText.LeafIsAccountThenAmount | contracts/airdrop/src/crypto.rs:18 | the leaf is the account's text followed by the amount's |
| Merkle.EveryLeafAccepted | contracts/airdrop/src/crypto.rs:11-45 | every leaf of a sorted-pair tree of any shape is accepted with its sibling path |
| Merkle.AcceptedIsLeaf | contracts/airdrop/src/crypto.rs:11-45 | whatever is accepted against the root of a tree is a leaf of the tree, barring collisions |
| Merkle.AcceptedIsEntitled | scripts/helpers/airdrop_helpers/merkle_tree.ts:8-10 | for a tree built from a list of accounts and amounts it is an entry of the list, if addresses have one length |
| Merkle.LeafTextAmbiguous | contracts/airdrop/src/crypto.rs:18 | without that, moving a digit between account and amount gives the same leaf |
| AirdropContract.Contract.HandleIncreaseMarsIncentives | contracts/airdrop/src/contract.rs:231-243 | size, unclaimed tokens and balance grow together |
| AirdropContract.Contract.HandleEnableClaims | contracts/airdrop/src/contract.rs:246-266 | only the auction, once |
| AirdropContract.Contract.HandleClaim | contracts/airdrop/src/contract.rs:272-341 | one proven claim per user; paid at once when claims are enabled; keeps the books |
| AirdropContract.Contract.HandleDelegateMars | contracts/airdrop/src/contract.rs:345-399 | delegations stay within the claim and are always funded |
| AirdropContract.Contract.HandleWithdrawAirdropRewards | contracts/airdrop/src/contract.rs:402-446 | the undelegated claim is sent once; the subtraction never underflows |
| AirdropContract.Contract.HandleTransferUnclaimedTokens | contracts/airdrop/src/contract.rs:451-497 | the checks and the amount sent to the owner; `AirdropTerms.OwnerTakesAfterEnd` says when |
| AirdropContract.Contract.HandleUpdateConfig | contracts/airdrop/src/contract.rs:156-228 | the changes allowed at each time, in the order the source applies them |
| Airdrop.StepSound | contracts/airdrop/src/contract.rs:71-108 | every transaction keeps the books exactly and none lacks MARS |
| AirdropTerms.AcceptedExactly | contracts/airdrop/src/contract.rs:71-108 | from every reachable state a transaction is accepted if and only if checks on sender, time, amounts and flags pass |
| AirdropTerms.RecordsMove | contracts/airdrop/src/contract.rs:272-446 | a user's record, and the MARS it is sent, move by its own transactions alone and by the amount named |
| AirdropTerms.SettingsMove | contracts/airdrop/src/contract.rs:156-228 | settings change only by the owner, to the values named, and claims are enabled only by the auction's transaction |
| AirdropTerms.PeriodFixed | contracts/airdrop/src/contract.rs:180-215 | over any run, once the claim period has begun its start is fixed and its end never comes earlier |
| AirdropTerms.OwnerTakesAfterEnd | contracts/airdrop/src/contract.rs:451-497 | over any run what has left for the owner is what the owner of the moment took at or after the end of the claim period of the moment |
| AirdropTerms.UnclaimedUntilEnd | contracts/airdrop/src/contract.rs:451-497 | until then the owner takes nothing, and unclaimed tokens fall by exactly what is recorded as claimed |
| Airdrop.AlwaysConserved | contracts/airdrop/src/contract.rs:231-489 | after any run MARS held is unclaimed plus still withdrawable, and all MARS put in is accounted for by user and by destination |
| Airdrop.ClaimIsFinal | contracts/airdrop/src/contract.rs:308-311 | once made, a claim never changes |
| Airdrop.ClaimsAreLeaves | contracts/airdrop/src/contract.rs:295-302 | after any run every claim is a leaf of the tree behind a root the owner has set |
| Airdrop.LeafCanClaim | contracts/airdrop/src/contract.rs:272-341 | whoever is in a current tree and has not claimed can claim while MARS lasts |
| Protocol.DelegationAtomic | contracts/auction/src/contract.rs:156-166 | a delegation arrives in full, for its user alone and in every total, or nothing happens |
| Protocol.DelegationSound | contracts/airdrop/src/contract.rs:357-387 | a delegation keeps the invariants of both contracts and the links between them |
| Protocol.PoolCreation | contracts/auction/src/contract.rs:862-866 | in every reachable state without a pool, creating it opens claims in both other contracts at once, and succeeds if and only if the auction's owner asks, the pool is set, the auction's and the lockdrop's windows are closed, both assets were deposited, LP tokens are minted and both contracts know the auction; otherwise nothing happens |
| Protocol.StepSound | contracts/airdrop/src/contract.rs:357-387 | every transaction of any of the three contracts keeps all their invariants and the links between them |
| Protocol.AlwaysConsistent | contracts/lockdrop/src/contract.rs:577-658 | after any run deposits are delegations, in total and user by user, and the pool exists exactly when claims are open |
| Tax.TaxIsCovered | packages/mars-periphery/src/tax.rs:5-26 | what is sent and the tax charged on it never exceed the gross amount |
| Tax.TaxIsNeeded | packages/mars-periphery/src/tax.rs:14-26 | no more is deducted than needed: never more than the cap, and below it what is sent is the amount over one plus the rate, rounded down |

## Left out

- LockdropXMars.XMarsConserved: runs that unwind no position; afterwards `LockdropExamples.UnlockTakesOthersXMars` shows that it fails, and `LockdropUnwind.ClaimSound` says which claims go through.
- Lock expiry in the lockdrop and vesting of LP shares in the auction: both checks are commented out in the code (contracts/lockdrop/src/contract.rs:816-822, contracts/auction/src/contract.rs:1248-1259), although the contracts' documentation promises expiry; the model follows the code. The unlock timestamp is therefore not modelled.
- LockdropRun.StepSound: excludes a batch that unwinds positions before the Red Bank deposit and enabling claims before the start, which the source does not prevent and `LockdropLimits.StepSoundExactly` proves to break the books in every state; what happens afterwards is not described.
- Protocol.StepSound: excludes the same two transactions, and with the second a pool created before the start of the lockdrop.
- LockdropContract.Contract.HandleNukeLockdrop: takes the page of users as an argument; that it lists the first ten keys in order is not modelled.
- Protocol.AlwaysConsistent: for a user whose lockdrop record a batch has dropped the equality is an upper bound, since the record held its delegation.
- Merkle.AcceptedIsLeaf: the digest is arbitrary; collision freedom is required of the inputs hashed for this tree and this proof only.
- AuctionContract.Contract.CallVenue: the venues are steps that hand over arbitrary rewards; the MARS venue is not tied to module `LpStaking`.
- AuctionContract.Contract.HandleClaimRewardsAndUnlock: the pending rewards it queries only decide whether a message is sent.
- Serialization, events, address validation, address providers, migration, schema generation and deployment scripts.
- Queries, among them the auction's user query, which reports the rewards of the current venue only.
- Taxes on native transfers inside the contracts' ledgers; module `Tax` covers their computation alone.
- Overflow of 64 and 128 bit integers, which aborts a transaction.
- The internals of the pool, the generator, the Red Bank, the incentives contract and the tokens.
