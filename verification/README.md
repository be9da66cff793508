# EOSForce system contracts in Dafny

This project models the EOSForce contracts that hold and move the core token and proves what they keep over whole runs.
The main subject is `eosio.system`: the voting ledger with its lazily updated stake ages, the block rounds that count
blocks, fine producers and issue tokens, the election, the punishment protocol and the ring of last producers. Beside
it stand the pledge, budget and freeze contracts.

## How it is built

Each contract appears twice.

- As a state machine on values: a datatype for the tables, a predicate for the checks of an action (`Can…`) and a
  function for its effect (`After…`). A failed check leaves the state as it was. The properties below are proved about
  runs of these machines, with any actions by anyone in any order, failed ones included.
- As a class whose fields are the tables and whose methods update them in place, with the source's branches, loops and
  early exits (`SystemContract.System`, `Pledge.Contract`, `Budget.Contract`, `Freeze.Contract`, `LastProducers.Ring`).
  Each method's postcondition says that it succeeds exactly when the checks hold and that the tables are then exactly
  what the effect prescribes, so what is proved about the machine holds of the class.

| file | what it holds |
|---|---|
| `Base`, `Totals` | amounts and division, sums over the rows of a table |
| `StakeAge`, `VoteLedger` | ages as lines over the height; the ledger's actions |
| `VoteAges`, `VoteRuns`, `StakeRow` | the aggregate of all ages and stakes, action by action and over runs; the row of the global stake before it is there |
| `VoteEffects` | what each action of the ledger moves from whom to whom; locks, and what comes back |
| `VoteClaims`, `CoolDown`, `RamSums` | claims, the cool-down of unstaked tokens, the sums kept for RAM votes |
| `Issuance`, `Conservation`, `Supply` | what a block mints, where tokens are, and the supply over full runs |
| `BlockRounds`, `BlockCredits`, `BlockClaims`, `SlotTimeline` | closing a round, crediting blocks, paying for them, who missed a slot |
| `RoundExamples` | short runs in which drains and missed slots come apart |
| `Election`, `LastProducers` | the top-23 election and the ring |
| `Punishment`, `WatchRuns` | the punishment protocol, and runs of blocks, bpclaims and the protocol |
| `Earnings`, `Penalties` | over these runs: who earns block age, who decides a punishment and who gets its penalty |
| `Pledge`, `Budget`, `Freeze` | the three other contracts |
| `PledgeHistory`, `BudgetHistory` | their rows by the history of accepted actions |
| `SystemContract` | the system contract's tables and methods |

## What the proofs found

Seven properties one would expect do not hold of the code. Each has its exact condition, proved in both directions over
runs, and a run that violates it.

- **Fines on a schedule change.** `cal_drain_num` caps its result by comparing a signed value with an unsigned constant
  (onblock.cpp:428), so a negative value becomes 1, not 0; and the arc of a round that is cut short is not the arc of
  its slots. A producer is drained without having missed a slot exactly if the schedule changes and it either lies
  inside the arc, or anywhere if the arc is empty, and was handed no slot, or lies outside the arc and made the block of
  its only slot (`SlotTimeline.ChangeRound`, `WatchRuns.ChangesOverRuns`). `RoundExamples.FinedForItsBlock` and
  `RoundExamples.FinedWithoutASlot` are three-block runs of the two kinds; in both the fine is sent.
  `SlotTimeline.CutIsIntended` says when the cut itself is the documented one.
- **Missed slots let off on a schedule change.** A producer that missed a slot is not drained exactly if it lies inside
  the arc and made a block of two or more slots, or lies outside it and made none (the same lemmas;
  `RoundExamples.LetOffOnChange`).
- **Missed slots inside a schedule.** A producer drained in such a round did miss a slot, always. That every producer
  that missed one is drained holds if and only if the round spans fewer than two full rotations
  (`WatchRuns.MissedBlockDetection`); `RoundExamples.MissedButNotDrained` is a run of two blocks, 46 slots apart.
- **Which motion a coin is paid from.** `takecoin` demands a passed motion of the proposer that is past its publicity
  period; `agreecoin` tests again that it is passed, but neither whose it is nor the period, and a coin refers to its
  motion by id only, which is free once the motion is closed. From `takecoin` to its payment a coin is paid from the
  motion it was drawn on if and only if that was not closed since, and that is the case if and only if the motion now
  under the id is past its publicity period, a test `agreecoin` could make (`Budget.PaidFromItsMotion`). In
  `Budget.StaleCoinPaysAnother` the coin is paid out of somebody else's motion, in `Budget.StaleCoinPaysEarly` out of
  a later motion of the same proposer that is still open to votes.
- **The last block share.** `bpclaim` demands that the share is less than the whole pool, so it refuses a monitored
  producer, with its own rewards, if and only if no other producer has block age left or the pool is empty
  (`BlockClaims.ClaimCheckInRuns`); of several producers claiming in one block the last holder of age is refused.
  `RoundExamples.SoleHolderIsRefused` is a run in which the only producer with enough pledge cannot claim.
- **The row of the global stake.** `vote`, `votefix` and `outfixvote` change the producer's stake before they ask for
  the row. Over every run from the beginning the row agrees with the producers' stakes if and only if a block created
  it; if a stake change did, it is too large by that change, which is positive, for ever (`StakeRow.RowOverRuns`). In
  `StakeRow.FirstVoteCountsTwice` a vote comes first. Ages, claims and the amount minted do not suffer
  (`StakeRow.AgesFromTheBeginning`, `StakeRow.ClaimsFromTheBeginning`, `StakeRow.MintingFromTheBeginning`).
- **Votes for a banned producer.** `vote`, `votefix` and `revotefix` refuse to add stake to a banned producer; `revote`
  does not ask. An accepted action raises the stake on a banned producer if and only if it is a revote to it
  (`VoteEffects.BannedGainsByRevoteOnly`); in `VoteEffects.BannedGains` a producer gets its first stake after the ban.

And some things hold that are not obvious:

- **Overdue fix-time votes.** A producer's age exceeds the ages of the votes on it by exactly the age its fix-time votes
  went on earning for it between their withdrawal height and the moment they are taken out.
- **Ties in the election** go to the larger name, because a later row of the table pushes an equal one down; with that
  the result is unique (`Election.OneSchedule`).
- **The penalty split** keeps an odd unit and the remainder of the approvers' half, at most n - 1 units for n rewarders.

Where comments, messages and code disagree the model follows the code: a withdrawal must leave part of the pledge
(`quantity < pledge`), a fix-time vote from unstaking tokens must leave part of them (`stake < unstaking`), the threshold
for a block reward is 1/25000 of the stake and not 0.5%, a RAM vote's age counts for the producer although `claim` does
not pay for it, and `unapprove` works on motions in any section.

## What is assumed

The host delivers heights that never go back and runs `onblock` for every block; each schedule has 23 distinct
producers, the block's producer is one of them, and versions grow by one. A schedule is in force when runs start, and
initially there are balances but no votes. Runs of the ledger other than those of `StakeRow` start with the row of the
global stake in place. The empty name signs nothing, and the pledge contract's own account signs only the transfers
the contract sends. Signatures are a Boolean guard: an action names its signer. In runs of the ledger any set of
producers may be able to earn in a block; the class computes it from heartbeats, pledges and monitors. Which accounts
are frozen, the time, pledges that one contract reads from another, configuration values and the keys of new rows are
inputs of the action.

## Model

| member | source | states |
|---|---|---|
| VoteRuns.VoteAgeAccounting | contracts/eosio.system/src/vote.cpp:10-415 | In every reachable state and at every later height a producer's age is exactly the sum of the ages of all votes, RAM votes and capped fix-time votes on it, plus a non-negative overdue part |
| VoteRuns.AgeAtHeight | contracts/eosio.system/include/eosio.system.hpp:401-417 | The same for any state with the invariant; each of the three sums is non-negative as well |
| VoteRuns.StakeAggregates | contracts/eosio.system/include/eosio.system.hpp:401-455 | In every reachable state a producer's stake is the whole-token sum of the votes, RAM votes and not yet withdrawn fix-time votes on it, the global stake is the sum over producers, every division by the precision is exact and no row was settled in the future |
| StakeRow.RowOverRuns | contracts/eosio.system/include/eosio.system.hpp:419-455 | Over every run from the beginning, once the row is there: it agrees with the producers' stakes if and only if a block created it; otherwise it exceeds them by the stake change that did, which is positive |
| StakeRow.FirstChangeAdds | contracts/eosio.system/src/vote.cpp:57-69 | The first stake change of all is a vote or a fix-time vote and adds at least one whole token |
| StakeRow.RunKeepsRow | contracts/eosio.system/src/vote.cpp:10-415 | The ledger invariant holds in every run from the beginning, whoever creates the row, and until then nobody has staked anything |
| StakeRow.AgesFromTheBeginning | contracts/eosio.system/src/vote.cpp:10-415 | The vote-age accounting in every such run |
| StakeRow.MintingFromTheBeginning | contracts/eosio.system/src/onblock.cpp:164-253 | A block after any such run hands out at most 30000 units and mints exactly 45000, even where the row is too large |
| StakeRow.ClaimsFromTheBeginning | contracts/eosio.system/src/vote.cpp:184-242 | A claim after any such run goes through exactly when signed, accounts known and the producer has any age |
| StakeRow.RowAgreesIfThere | contracts/eosio.system/include/eosio.system.hpp:423-455 | After one stake change the row agrees if and only if it was there before or the change is nothing |
| VoteRuns.EffectKeepsExcess | contracts/eosio.system/include/eosio.system.hpp:446-455 | With the row there, every action of the ledger moves it by what the producers' stakes move together, so a wrong row stays as wrong |
| StakeRow.FirstVoteCountsTwice | contracts/eosio.system/src/vote.cpp:65-69 | A run of two actions after which the row is one token too large |
| VoteRuns.RunKeeps | contracts/eosio.system/src/vote.cpp:10-415 | Any ordered run of actions, failed ones included, keeps the whole ledger invariant |
| VoteRuns.EffectKeeps | contracts/eosio.system/src/vote.cpp:10-415 | Every action of the ledger whose checks hold keeps it |
| VoteRuns.FixAgeAt | contracts/eosio.system/include/vote.hpp:86-93 | A fix-time vote's capped age and what it has run over since add up to its uncapped line; a withdrawn vote's age stands still |
| VoteRuns.TransferKeeps | contracts/eosio.system/src/transfer.cpp:7-34 | A transfer keeps the ledger invariant |
| VoteRuns.PayBpKeeps | contracts/eosio.system/src/producer.cpp:112-128 | Paying a producer keeps the ledger invariant |
| VoteRuns.RemoveBpKeeps | contracts/eosio.system/src/producer.cpp:72-86 | Banning a producer keeps the ledger invariant |
| VoteAges.VoteKeeps | contracts/eosio.system/src/vote.cpp:10-72 | vote and vote4ram keep producer ages, stakes and the global stake in step with the rows, also for a vote that changes nothing |
| VoteAges.RevoteKeeps | contracts/eosio.system/src/vote.cpp:75-123 | revote moves stake between two producers and keeps both aggregates |
| VoteAges.UnfreezeKeeps | contracts/eosio.system/src/vote.cpp:126-146 | unfreeze keeps the aggregates |
| VoteAges.ClaimKeeps | contracts/eosio.system/src/vote.cpp:184-242 | claim takes out of the producer's age exactly what it resets and erases in the voter's rows |
| VoteAges.VoteFixKeeps | contracts/eosio.system/src/vote.cpp:246-323 | votefix, from either source of tokens, keeps the aggregates at the powered stake |
| VoteAges.RevoteFixKeeps | contracts/eosio.system/src/vote.cpp:325-368 | revotefix, possible only at age zero, keeps both producers' aggregates |
| VoteAges.OutFixVoteKeeps | contracts/eosio.system/src/vote.cpp:371-415 | outfixvote keeps the aggregates when the age run over since the withdrawal height is booked as overdue |
| VoteAges.UpdateBpKeeps | contracts/eosio.system/src/producer.cpp:9-32 | Registering or updating a producer keeps the invariant |
| VoteAges.ClaimMovesFix | contracts/eosio.system/src/vote.cpp:209-223 | Over all fix-time rows of the voter at once, the stake stays and the base of the age line falls by the age claimed |
| VoteAges.AddStakeMoves | contracts/eosio.system/include/eosio.system.hpp:401-413 | add_total_staked changes one producer's stake by the amount in whole tokens and turns its age line at that height; no other producer's |
| VoteAges.AddStakeMovesTotal | contracts/eosio.system/include/eosio.system.hpp:446-455 | What on_change_total_staked adds to the row is what the sum over the producers gains |
| VoteEffects.TransferMoves | contracts/eosio.system/src/transfer.cpp:7-34 | A transfer moves exactly the quantity between the two balances, nothing from an account to itself, and touches nothing else |
| VoteEffects.VoteSets | contracts/eosio.system/src/vote.cpp:10-72 | vote and vote4ram make the stake what the voter says: what is added leaves its balance, what is taken off goes to unstaking with the height renewed, and the age so far is kept |
| VoteEffects.VoteRestakes | contracts/eosio.system/src/vote.cpp:57-69 | The producer's stake moves by the difference in whole tokens at unchanged age, and no other row or producer changes |
| VoteEffects.RevoteMoves | contracts/eosio.system/src/vote.cpp:91-120 | The stake on the one producer falls by exactly the amount asked for and that on the other rises by it, both producers' stakes with them in whole tokens; the settled ages, unstaking amounts and all other rows and producers stay |
| VoteEffects.UnfreezeMoves | contracts/eosio.system/src/vote.cpp:139-145 | The whole unstaking amount of one row moves to the voter's balance |
| VoteEffects.TypesArePromised | contracts/eosio.system/include/vote.hpp:53-58 | The four types count 5, 10, 20 and 40 times for 90, 180, 360 and 720 days |
| VoteEffects.VoteFixLocks | contracts/eosio.system/src/vote.cpp:253-322 | A fix-time vote locks its principal for the days of its type from this block and counts the promised number of times for that producer, with age zero |
| VoteEffects.VoteFixTakes | contracts/eosio.system/src/vote.cpp:271-295 | The principal leaves the balance or the unstaking amount, whichever the voter named, and nothing else; of an unstaking amount a part must stay |
| VoteEffects.RevoteFixMoves | contracts/eosio.system/src/vote.cpp:344-365 | The vote goes to the other producer as it is, at age zero, and its power from the one producer's stake to the other's |
| VoteEffects.OutFixVoteMoves | contracts/eosio.system/src/vote.cpp:388-414 | The principal goes to the unstaking amount on that producer, locked anew, its power off the producer; its age can still be claimed |
| VoteEffects.LockedUntil | contracts/eosio.system/src/vote.cpp:384-386 | Over every run of anyone's actions, its owner's included, a fix-time vote keeps principal and power until the height its type promised, and outfixvote is refused till then |
| VoteEffects.PayBpMoves | contracts/eosio.system/src/producer.cpp:112-128 | What a producer is owed, and its block share, go to its balance and nobody else's |
| VoteEffects.UpdateBpSets | contracts/eosio.system/src/producer.cpp:9-32 | Registering sets the commission and nothing else; a new producer starts with no stake, age or pool |
| VoteEffects.OnlyOwnerActs | contracts/eosio.system/src/vote.cpp:10-415 | Only an account's own signature lowers its balance or touches its votes, RAM votes and fix-time votes |
| VoteEffects.OthersLeaveAlone | contracts/eosio.system/src/vote.cpp:10-415 | Nor does any run of others' actions and of blocks |
| VoteEffects.ProducersAreEntitled | contracts/eosio.system/src/producer.cpp:9-86 | Only a producer registers and sets its commission, between 1 and 10000; only the system account bans, and nobody lifts a ban |
| VoteEffects.StakeComesBack | contracts/eosio.system/src/vote.cpp:43-49 | Tokens taken off a vote can be unfrozen after FROZEN_DELAY blocks whatever others did meanwhile, and all of them come back |
| VoteEffects.FixVoteComesBack | contracts/eosio.system/src/vote.cpp:371-415 | So does the principal of a fix-time vote, after the height promised and FROZEN_DELAY blocks more |
| VoteEffects.FrozenKeepsStakes | contracts/eosio.system/src/vote.cpp:10-415 | No action of anyone moves the stakes of a frozen account |
| VoteEffects.BannedGainsByRevoteOnly | contracts/eosio.system/src/vote.cpp:57-123 | The stake on a banned producer rises by an accepted action if and only if that is a revote to it |
| VoteEffects.BannedGains | contracts/eosio.system/src/vote.cpp:75-123 | A run after which a banned producer without stake gets one token by an accepted revote |
| StakeAge.RestakeTurnsLine | contracts/include/eosforce/assetage.hpp:63-79 | Changing a stake at a height keeps the age there and turns its line about that point |
| StakeAge.BpRestakeTurnsLine | contracts/eosio.system/include/eosio.system.hpp:401-413 | The same for the producer's side of the integral |
| StakeAge.AgeGrows | contracts/include/eosforce/assetage.hpp:59-61 | A settled age never falls and is never negative |
| StakeAge.CleanLowersLine | contracts/include/eosforce/assetage.hpp:81-84 | Cleaning lowers the line by exactly the age that was there |
| StakeAge.TableOfPowers | contracts/include/eosforce/assetage.hpp:11-43 | Each of the 18 literals is its power of ten, and the one for four decimals is the divisor used throughout |
| StakeAge.PrecisionBase | contracts/include/eosforce/assetage.hpp:29-38 | The table up to 17 decimals and the loop beyond both give the power of ten |
| VoteLedger.FindType | contracts/eosio.system/include/vote.hpp:60-68 | The search finds a row of that type, or there is none |
| VoteClaims.ClaimNeverOverpays | contracts/eosio.system/src/vote.cpp:184-242 | claim goes through exactly when signed, accounts known and the producer has any age: its final range check cannot fail; pool and age stay non-negative, and the voter gets what leaves the pool |
| VoteClaims.ClaimsInRuns | contracts/eosio.system/src/vote.cpp:184-242 | The same in every reachable state |
| VoteClaims.SameBlockClaims | contracts/eosio.system/src/vote.cpp:225-241 | Any sequence of claims in one block stays within the pool, and a voter who has not claimed still gets at least the floor share it would have got first |
| VoteClaims.FairClaimsInRuns | contracts/eosio.system/src/vote.cpp:225-241 | The same in every reachable state, with the claim going through for any voter with age there |
| VoteClaims.ClaimedAgeIsPart | contracts/eosio.system/src/vote.cpp:195-223 | The age a voter claims lies between 0 and the producer's age |
| VoteClaims.RateDoesNotFall | contracts/eosio.system/src/vote.cpp:225-241 | A floored payout never lowers the pool's rate per unit of age for those who come later |
| VoteClaims.ClaimPays | contracts/eosio.system/src/vote.cpp:195-241 | A claim pays the floored part of the pool that the voter's age on the producer is of the producer's age: that of its vote and the capped ages of all its fix-time votes there, withdrawn or not; both leave where they were, and no other account or producer changes |
| VoteClaims.ClaimCleans | contracts/eosio.system/src/vote.cpp:198-223 | Afterwards those ages are zero, the withdrawn rows are gone, the rows are otherwise as they were, and no other row is touched |
| VoteClaims.ClaimPaysInRuns | contracts/eosio.system/src/vote.cpp:184-242 | Both in every reachable state |
| VoteClaims.ClaimThenMove | contracts/eosio.system/src/vote.cpp:348-352 | A live fix-time vote whose age keeps revotefix from moving it can be moved right after a claim |
| CoolDown.CoolDownSafety | contracts/eosio.system/src/vote.cpp:126-146 | In every run whatever an unfreeze pays consists of amounts each unstaked more than FROZEN_DELAY blocks before, fix-time principal also more than that after its withdrawal height |
| CoolDown.RunRecords | contracts/eosio.system/src/vote.cpp:43-49 | Over every run each row's unstaking amount is the sum of its recorded lots, none younger than its unstake height |
| CoolDown.VoteFixRecords | contracts/eosio.system/src/vote.cpp:282-291 | Tokens taken from unstaking into a fix-time vote leave the record exact |
| CoolDown.OutFixVoteRecords | contracts/eosio.system/src/vote.cpp:388-401 | Principal taken out becomes a new lot and restarts the delay of the row |
| CoolDown.FrozenKeepsBalance | contracts/eosio.system/src/freeze.cpp:10-23 | No action of anyone lowers the available balance of a frozen account |
| CoolDown.FrozenForeverKeepsBalance | contracts/eosio.system/src/freeze.cpp:10-23 | Nor does any run during which it stays frozen |
| RamSums.RamSumsAgree | contracts/eosio.system/src/vote.cpp:159-178 | In every reachable state an account's RAM sum is all it has staked for RAM, on all producers together |
| Issuance.SharesAreBounded | contracts/eosio.system/src/onblock.cpp:216-236 | At any commission a producer and its voters together get no more than its proportion of 30000 |
| Issuance.DistributedIsBounded | contracts/eosio.system/src/onblock.cpp:189-246 | Producers and voters get at most 30000 units of a block, so the unsigned subtraction does not wrap and the budget gets at least 15000 |
| Issuance.IssuePays | contracts/eosio.system/src/onblock.cpp:189-243 | Of floor(25000 x stake / all) the commission goes to the producer's reward, on top of floor(5000 x stake / all), and the rest to the voters' pool, each rounded down; a producer that is banned, has too little stake, a bad rate or cannot earn gets nothing in either |
| Issuance.IssueLeaves | contracts/eosio.system/src/onblock.cpp:164-253 | A block changes the pools, the producers' rewards and the budget account, and nothing else |
| Issuance.IssueKeeps | contracts/eosio.system/src/onblock.cpp:164-253 | Issuance keeps the ledger invariant |
| Conservation.FixedIssuance | contracts/eosio.system/src/onblock.cpp:164-253 | With any stake a block mints exactly 45000 units whatever stakes, commissions and ineligible producers are |
| Conservation.IssuanceInRuns | contracts/eosio.system/src/onblock.cpp:164-253 | The same in every reachable state, with the budget account's exact part |
| Conservation.RewardsInRuns | contracts/eosio.system/src/onblock.cpp:189-243 | Who gets what of a block, in every reachable state and for every producer |
| Conservation.CoreTokenConservation | contracts/eosio.system/src/vote.cpp:10-415 | Over every run the tokens in balances, stakes, unstaking amounts, principals, pools and producer rewards are the initial ones plus what was minted and paid in, and no component is ever negative |
| Conservation.EffectConserves | contracts/eosio.system/src/vote.cpp:10-415 | Action by action: transfer, votes, revotes, unfreeze, claim, fix-time votes move tokens without making or losing any |
| Supply.SupplyIsFixed | contracts/eosio.system/src/onblock.cpp:53-66 | Over runs mixing ledger actions, blocks and bpclaims the supply is the initial balances plus 45000 for each block with stake plus 5000 for each block from the creation of the reward row to the last closed round |
| Supply.BpClaimMovesTokens | contracts/eosio.system/src/producer.cpp:88-130 | In every reachable state a bpclaim pays its block share and own rewards without changing the supply; the share is not negative |
| Supply.BpClaimPays | contracts/eosio.system/src/producer.cpp:88-130 | Over full runs: the producer gets what it is owed and floor(pool x its block age / all block age), which leave its row and the pool; its block age is zero then, and no other account, reward or monitor changes |
| Supply.VoteAgesInFullRuns | contracts/eosio.system/src/vote.cpp:10-415 | The vote-age accounting also holds where blocks and bpclaims run in between |
| WatchRuns.CreditedExactlyOnce | contracts/eosio.system/src/onblock.cpp:324-349 | In every run, at each closed round, across schedule changes, each of the 23 producers is credited with 0 or 1 block and together with every block since the last closed round, at most 23 |
| WatchRuns.BlockRewardBookkeeping | contracts/eosio.system/src/onblock.cpp:386-393 | In every run the total block age is the sum of the monitors' ages, and the pool plus all bpclaim ever paid is 5000 for each block since the row was created |
| Earnings.EarningsAreKept | contracts/eosio.system/src/onblock.cpp:334-360 | In every run a producer's block age is, over the closed rounds since its last bpclaim, the sum of the stabilities it had in those in which it made its block with more than BASE_BLOCK_OUT_PLEDGE pledged; its count of blocks is that since its last drained round |
| Earnings.BlockOnEarnings | contracts/eosio.system/src/onblock.cpp:334-377 | What one block does to the block age, the count and the stability of any producer |
| Earnings.StabilityInRuns | contracts/eosio.system/src/onblock.cpp:365-376 | In every run the stability changes at closed rounds only: back to the base after too many drained rounds in a row, one more when the blocks in a row without a drain are one short of a multiple of nine, never over the limit |
| Earnings.UnpledgedEarnNothing | contracts/eosio.system/src/onblock.cpp:334-341 | A producer never pledged enough at a block has no block age and no share in the pool, whatever it made |
| WatchRuns.MissedBlockDetection | contracts/eosio.system/src/onblock.cpp:415-431 | In every run on a slot timeline, for a round inside one schedule: drained implies missed a slot; the converse for all producers if and only if the round spans fewer than two rotations |
| WatchRuns.ChangesOverRuns | contracts/eosio.system/src/onblock.cpp:415-431 | In every run, for each producer of a round closed by a schedule change: drained without a missed slot if and only if charged unduly, and missed without a drain if and only if let off, both in terms of the arc, the slots handed out and the block made |
| WatchRuns.FinesOverRuns | contracts/eosio.system/src/onblock.cpp:378-384 | Every deduction sent in any run is one fine, from a drained producer with a pledge row, which missed a slot if and only if it was not charged unduly |
| WatchRuns.FinesAreAccepted | contracts/eosio.system/src/onblock.cpp:378-384 | In every run the pledge contract accepts every deduction onblock sends, on schedule changes too |
| WatchRuns.LackPledgeIsEarned | contracts/eosio.system/src/onblock.cpp:351-364 | In every run a producer comes to lack pledge only from the normal state, at a closed round it is drained in, after at least ten drained rounds in a row |
| WatchRuns.StreakIsKept | contracts/eosio.system/src/onblock.cpp:351-360 | The consecutive count is the number of drained rounds in a row up to now |
| Penalties.DrainsAddUp | contracts/eosio.system/src/onblock.cpp:351-354 | In every run the total of a monitor is the number of rounds its producer was drained for |
| WatchRuns.LogIsStreak | contracts/eosio.system/src/onblock.cpp:327-333 | In every run a block logs exactly the producers whose drained rounds in a row it ends, if these are more than configured, with their number |
| WatchRuns.PunishedOnlyWhenDue | contracts/eosio.system/src/bppunish.cpp:10-122 | In every run a producer becomes punished only by an approval while lacking pledge, on an unexpired proposal opened while lacking pledge, which the configured number of distinct producers of the latest schedule approved in time |
| Penalties.ProposalHistory | contracts/eosio.system/src/bppunish.cpp:10-49 | In every run a proposal in the table has the proposer and term of the last punishbp on that producer, and as approvers those who approved since, in order |
| Penalties.ApprovalDecides | contracts/eosio.system/src/bppunish.cpp:57-101 | In every run an accepted approval punishes if and only if, with it, the configured number of producers of the latest schedule approved since then; otherwise the status stays |
| Penalties.PenaltyInRuns | contracts/eosio.system/src/bppunish.cpp:103-121 | And the penalty of such a punishment gives half, rounded down, to whoever opened the proposal, equal parts of the other half, rounded down, to the producers of the latest schedule that approved, and nothing to anybody else |
| Penalties.StatusInRuns | contracts/eosio.system/src/bppunish.cpp:63-101 | What changes a status in any run: the tenth and every later drained round in a row makes a normal producer lack pledge, a deciding approval punishes, bailpunish and removepunish make normal, nothing else does anything |
| WatchRuns.StaysPunished | contracts/eosio.system/src/bppunish.cpp:63-74 | It is not free again within PUNISH_BP_LIMIT blocks |
| WatchRuns.BlocksLeavePunished | contracts/eosio.system/src/onblock.cpp:343-377 | Blocks punish nobody and free nobody |
| BlockCredits.EveryBlockIsCredited | contracts/eosio.system/src/onblock.cpp:324-349 | The credit property of one closing round, from the invariant |
| BlockCredits.BlockKeepsCounting | contracts/eosio.system/src/onblock.cpp:26-105 | A block keeps the counting invariant: last counts never exceed amounts, are 0 off the schedule, and the credits add up to the open round |
| BlockCredits.ChangeKeepsCounting | contracts/eosio.system/src/onblock.cpp:26-43 | Also where the block starts a new schedule |
| BlockCredits.BlockKeepsPool | contracts/eosio.system/src/onblock.cpp:305-393 | A block keeps the pool accounting |
| BlockCredits.ClaimShareKeepsPool | contracts/eosio.system/src/producer.cpp:92-110 | bpclaim keeps it; its share is never negative and the total age stays non-negative |
| BlockClaims.ShareCheck | contracts/eosio.system/src/producer.cpp:96-100 | The check passes if and only if the pool is not empty and the producer does not hold all the block age, that is, some other one has any |
| BlockClaims.ClaimCheckInRuns | contracts/eosio.system/src/producer.cpp:88-130 | In every run: with that, a monitored producer is paid exactly when it signs, has an account and is owed enough; without it, never |
| BlockClaims.SameBlockShares | contracts/eosio.system/src/producer.cpp:96-110 | Any sequence of bpclaims in one block stays within the pool, and a producer that has not claimed and is not the last holder of age still gets at least the share it would have got first |
| BlockClaims.FairSharesInRuns | contracts/eosio.system/src/producer.cpp:96-110 | The same in every state a run reaches |
| BlockClaims.ShareMoves | contracts/eosio.system/src/producer.cpp:96-109 | The same for the tables of the block reward alone, from the invariant |
| BlockRounds.ComparesUnsigned | contracts/eosio.system/src/onblock.cpp:428 | A 32-bit value compares as more than 1 when negative or more than 1 |
| SlotTimeline.DrainRefinesTimeline | contracts/eosio.system/src/onblock.cpp:415-431 | Drained implies missed; all who missed are drained if and only if the round spans fewer than 46 slots |
| SlotTimeline.DrainInsideSchedule | contracts/eosio.system/src/onblock.cpp:415-431 | Inside one schedule the raw value is non-negative, and the exact drain and number of missed slots of each producer |
| SlotTimeline.SlotsInArc | contracts/eosio.system/src/onblock.cpp:418-424 | How often an index gets a slot between two slots: the full rotations, once more inside the arc |
| SlotTimeline.ArcSize | contracts/eosio.system/src/onblock.cpp:418-424 | The arc has (ilast - ifirst) mod 23 indices |
| SlotTimeline.BlockKeepsTrack | contracts/eosio.system/src/onblock.cpp:95-105 | The contract's counters agree with the blocks of the timeline after every block |
| SlotTimeline.ChangeRound | contracts/eosio.system/src/onblock.cpp:415-431 | The exact conditions of a round closed by a schedule change, from the invariant |
| SlotTimeline.MadeInSlots | contracts/eosio.system/src/onblock.cpp:95-105 | Nobody makes more blocks in a round than it was handed slots |
| SlotTimeline.DrainIsDue | contracts/eosio.system/src/onblock.cpp:415-431 | In a round closed in either way a drained producer missed a slot if and only if it was not charged unduly |
| SlotTimeline.FinesAreDeserved | contracts/eosio.system/src/onblock.cpp:378-384 | Every deduction sent when a round closes, in either way, is one fine from such a producer with a pledge row |
| SlotTimeline.DrainGivesFine | contracts/eosio.system/src/onblock.cpp:378-384 | And every drained producer with a pledge row is sent one |
| SlotTimeline.DrainOnChange | contracts/eosio.system/src/onblock.cpp:425-430 | On a schedule change, inside the arc a producer is drained if it made no block, outside the arc if it did |
| SlotTimeline.CutIsIntended | contracts/eosio.system/src/onblock.cpp:425-430 | The cut is the documented one if and only if it is not the case that the schedule changed, the arc is not empty and a producer outside it made its block |
| RoundExamples.FinedForItsBlock | contracts/eosio.system/src/onblock.cpp:415-431 | A run from the start in which a schedule change fines a producer outside the arc for the block it made in its only slot |
| RoundExamples.FinedWithoutASlot | contracts/eosio.system/src/onblock.cpp:415-431 | One in which it fines a producer inside the arc that was handed no slot |
| RoundExamples.LetOffOnChange | contracts/eosio.system/src/onblock.cpp:415-431 | The same round lets off a producer outside the arc that missed its slot |
| RoundExamples.MissedButNotDrained | contracts/eosio.system/src/onblock.cpp:415-431 | A run with a round of 46 slots in which a producer missed a slot and is not drained |
| RoundExamples.SoleHolderIsRefused | contracts/eosio.system/src/producer.cpp:96-100 | After that run the only producer with enough pledge holds all the age and is refused |
| Election.UpdateElectedBps | contracts/eosio.system/src/onblock.cpp:108-162 | Proposes min(23, candidates) distinct producers sorted by name, none banned or punished, each with more stake than every candidate left out, or equal stake and a larger name |
| Election.OneSchedule | contracts/eosio.system/src/onblock.cpp:108-162 | Any two schedules that meet this are equal, so the election leaves nothing open |
| Election.InsertKeepsTop | contracts/eosio.system/src/onblock.cpp:131-141 | Inserting at the first slot with no more stake keeps the best of the rows read so far |
| Election.SkipKeepsTop | contracts/eosio.system/src/onblock.cpp:117-128 | So does skipping an ineligible row, or one with less stake than the last of a full list |
| Election.SortNamesSorts | contracts/eosio.system/src/onblock.cpp:148-152 | The sort gives an ascending permutation |
| Election.FindSlot | contracts/eosio.system/src/onblock.cpp:131-132 | The slot found is the first that is empty or has no more stake |
| LastProducers.RingIsWindow | contracts/eosio.system/src/onblock.cpp:77-93 | The entries of the ring are exactly the producers of the last min(n, 120) blocks |
| LastProducers.Ring.Record | contracts/eosio.system/src/onblock.cpp:87-93 | Recording a block in place keeps the ring the image of all blocks so far |
| LastProducers.Ring.Holds | contracts/eosio.system/src/bppunish.cpp:190-193 | The search succeeds exactly for a producer of one of the last 120 blocks |
| LastProducers.Ring.constructor | contracts/eosio.system/src/onblock.cpp:77-86 | The first block creates the ring with its producer |
| Punishment.SupersAreSupers | contracts/eosio.system/src/bppunish.cpp:82-87 | Those counted are approvers and producers of the latest schedule, distinct if the approvals are |
| Punishment.DealRewardIsAccepted | contracts/eosio.system/src/bppunish.cpp:103-119 | Whenever an execution sends dealreward the pledge contract accepts it: the amount is positive and the divisor is not zero |
| Punishment.NothingToHandOut | contracts/eosio.system/src/bppunish.cpp:105-108 | It is sent exactly when there is something positive to hand out |
| Punishment.PenaltyIsHandedOut | contracts/eosio.system/src/bppunish.cpp:103-121 | Across both contracts, from the tables: the proposer gets floor(penalty / 2), each counted approver floor(floor(penalty / 2) / n) for n of them, nobody else anything |
| Punishment.SupersAreAll | contracts/eosio.system/src/bppunish.cpp:112-116 | Counted are exactly the approvers that are producers of the latest schedule |
| Punishment.EffectKeepsCounters | contracts/eosio.system/src/bppunish.cpp:10-122 | The protocol touches statuses, punishment ends and proposals only |
| Punishment.ProposalsAreEntitled | contracts/eosio.system/src/bppunish.cpp:10-49 | A proposal comes from a proposer with more than 100 tokens pledged, on a producer that lacks pledge and has no proposal within its term; approvals are their signers', producers of the latest schedule, once each and within the term |
| Punishment.StatusesAreEntitled | contracts/eosio.system/src/bppunish.cpp:63-101 | The protocol punishes by a super producer's signature within a proposal's term, for PUNISH_BP_LIMIT blocks, and frees by the producer's own signature, after that or with a recent block |
| Pledge.PledgeSolvency | contracts/eosio.pledge/src/eosio.pledge.cpp:29-160 | Over every run each row keeps deduction + min(pledge, 0) at least 0, and the tokens held cover all positive pledges, unallotted deductions and outstanding rewards |
| Pledge.PaymentsAreFunded | contracts/eosio.pledge/src/eosio.pledge.cpp:83-126 | So a withdrawal or reward that passes the contract's own checks never fails for lack of funds |
| Pledge.EffectSurplus | contracts/eosio.pledge/src/eosio.pledge.cpp:12-266 | Each action changes what is held beyond what is owed by exactly the unnamed transfers and the units a split loses |
| Pledge.SplitIsExact | contracts/eosio.pledge/src/eosio.pledge.cpp:231-249 | A split hands out the pre-allotment less an odd unit and the remainder of half of it by n - 1; at most n - 1 units stay behind |
| Pledge.SplitAmongDistinct | contracts/eosio.pledge/src/eosio.pledge.cpp:240-249 | Among distinct rewarders the first gets half, rounded down, the others equal parts of the other half |
| Pledge.SplitGives | contracts/eosio.pledge/src/eosio.pledge.cpp:240-249 | What any name gets, however often it is among the rewarders |
| Pledge.SplitHands | contracts/eosio.pledge/src/eosio.pledge.cpp:231-251 | A dealreward raises the reward of each name by its part of the split, in the symbol of the row |
| PledgeHistory.RowsAreHistory | contracts/eosio.pledge/src/eosio.pledge.cpp:29-266 | From the beginning of every run a pledge is what its owner paid in for that type less what was deducted from it and taken back, a deduction what was deducted less what was handed out, and a reward what that rewarder was handed less what it took |
| PledgeHistory.StepMoves | contracts/eosio.pledge/src/eosio.pledge.cpp:29-160 | Whose pledge, deduction and balance each accepted action moves, and by how much |
| PledgeHistory.StepRewards | contracts/eosio.pledge/src/eosio.pledge.cpp:107-266 | Whose reward it moves, in which symbol, and by how much |
| PledgeHistory.RowsAreEntitled | contracts/eosio.pledge/src/eosio.pledge.cpp:12-197 | A type is added once, by the system contract; rows are opened by their owner or the type's deductor, and closed by their owner, empty |
| PledgeHistory.AmountsAreEntitled | contracts/eosio.pledge/src/eosio.pledge.cpp:29-160 | A pledge rises by what its owner pays in and falls by what the deductor moves to the deduction or the owner takes back, which leaves part of it; a deduction falls by the deductor's hand, by no more than is covered; the contract's tokens follow |
| PledgeHistory.RewardsAreEntitled | contracts/eosio.pledge/src/eosio.pledge.cpp:107-126 | A reward falls only by being taken whole by its rewarder |
| Pledge.Contract.RegisterType | contracts/eosio.pledge/src/eosio.pledge.cpp:12-27 | addtype succeeds exactly when its checks hold and adds the type |
| Pledge.Contract.Deposit | contracts/eosio.pledge/src/eosio.pledge.cpp:29-56 | addpledge, called by an incoming transfer: new and existing rows, and transfers without a memo |
| Pledge.Contract.Deduct | contracts/eosio.pledge/src/eosio.pledge.cpp:58-81 | deduction moves the amount from pledge to deduction, below zero if need be |
| Pledge.Contract.TakeBack | contracts/eosio.pledge/src/eosio.pledge.cpp:83-105 | withdraw with the transfer it sends |
| Pledge.Contract.TakeReward | contracts/eosio.pledge/src/eosio.pledge.cpp:107-126 | getreward pays the whole reward and clears it |
| Pledge.Contract.Allot | contracts/eosio.pledge/src/eosio.pledge.cpp:128-160 | allotreward moves at most the pre-allotment to a rewarder |
| Pledge.Contract.OpenRow | contracts/eosio.pledge/src/eosio.pledge.cpp:162-182 | open creates an empty row, or leaves the one there alone |
| Pledge.Contract.CloseRow | contracts/eosio.pledge/src/eosio.pledge.cpp:183-197 | close erases an empty row only |
| Pledge.Contract.HandOut | contracts/eosio.pledge/src/eosio.pledge.cpp:218-251 | dealreward, with its loop over all rewarders, is the modelled split |
| Pledge.Contract.RewardAssign | contracts/eosio.pledge/src/eosio.pledge.cpp:253-266 | Adds the amount to the rewarder's row, created if missing |
| Budget.BudgetAccounting | contracts/eosio.budget/src/eosio.budget.cpp:70-126 | Over every run, for each motion: asked, approving and disapproving members together are the committee it was proposed to, paid plus remaining is what was proposed and never more than that is paid, and the section agrees with the votes |
| Budget.CoinAccounting | contracts/eosio.budget/src/eosio.budget.cpp:163-229 | For each coin: its ballot is the committee it was put to, and it is passed or rejected exactly when its votes say so |
| BudgetHistory.MotionsTellTheirStory | contracts/eosio.budget/src/eosio.budget.cpp:33-126 | In every run a motion in the table has the terms of the last proposal under its id, its approvers and disapprovers are the members whose votes on it were accepted since, in order, and with those still asked they are the committee of that moment |
| BudgetHistory.CoinsTellTheirStory | contracts/eosio.budget/src/eosio.budget.cpp:128-229 | The same for a coin since the takecoin that put it up |
| BudgetHistory.VotesDecide | contracts/eosio.budget/src/eosio.budget.cpp:91-125 | So a motion is passed only with ayes of more than two thirds of its committee, rejected only with noes of more than a third, and pending only as long as neither is reached |
| BudgetHistory.CoinVotesDecide | contracts/eosio.budget/src/eosio.budget.cpp:181-229 | A coin is passed if and only if more than two thirds of its committee approved, rejected if and only if more than a third did not |
| BudgetHistory.MotionsAreEntitled | contracts/eosio.budget/src/eosio.budget.cpp:14-126 | The committee changes by the contract's own account; a motion comes from a proposer with the pledge and goes by its proposer, its terms stay, and its section moves by a vote of a member still asked within the period or is turned down by the contract |
| BudgetHistory.BallotsAreEntitled | contracts/eosio.budget/src/eosio.budget.cpp:70-126 | A ballot changes by a vote of its signer, who is still asked, within the period |
| BudgetHistory.CoinsAreEntitled | contracts/eosio.budget/src/eosio.budget.cpp:128-263 | A coin comes from a proposer with the pledge, on a passed motion of its own past its period that still holds as much; it goes by its proposer, and changes by a vote of its signer while pending and within its period |
| Budget.QuorumsExclude | contracts/eosio.budget/src/eosio.budget.cpp:91-125 | More than two thirds approving and more than a third disapproving exclude each other for every committee size |
| Budget.PassedUntilTurnedDown | contracts/eosio.budget/src/eosio.budget.cpp:99-126 | A passed motion stays passed over every run without turndown, although unapprove does not test the section |
| Budget.NeverPassesAgain | contracts/eosio.budget/src/eosio.budget.cpp:70-126 | A rejected or turned-down motion never passes |
| Budget.PaymentIsDue | contracts/eosio.budget/src/eosio.budget.cpp:163-201 | A payment needs the vote of the committee the coin was put to, a passed motion that covers it and a transfer the system contract accepts; it goes to the coin's proposer, draws that motion down by just the amount and settles the coin |
| Budget.PaymentsInRuns | contracts/eosio.budget/src/eosio.budget.cpp:163-201 | All of that in every reachable state |
| Budget.OwnMotionStays | contracts/eosio.budget/src/eosio.budget.cpp:128-201 | While neither coin nor motion is closed a coin stays drawn on a motion of its receiver, on unchanged terms |
| Budget.PaidFromItsMotion | contracts/eosio.budget/src/eosio.budget.cpp:128-201 | From takecoin to payment: the motion was not closed since if and only if the motion paid from is past its publicity period; and then it is the proposer's |
| Budget.ClosedIsRenewed | contracts/eosio.budget/src/eosio.budget.cpp:43-56 | Whatever motion takes the id of a closed one is open to votes for the whole period |
| Budget.StaleCoinPaysAnother | contracts/eosio.budget/src/eosio.budget.cpp:163-201 | A run in which the motion is closed and its id used again, and the old coin is paid out of another proposer's motion |
| Budget.StaleCoinPaysEarly | contracts/eosio.budget/src/eosio.budget.cpp:163-201 | A run in which the same proposer uses the id again, and the old coin is paid out of the new motion within its publicity period |
| Budget.PaidOnce | contracts/eosio.budget/src/eosio.budget.cpp:163-203 | Over every run a coin is paid exactly once if the run takes it from pending to passed, and else not at all |
| Budget.VotesKeepVoters | contracts/eosio.budget/src/eosio.budget.cpp:83-91 | A vote moves one occurrence of a member between the lists |
| Budget.EffectKeeps | contracts/eosio.budget/src/eosio.budget.cpp:14-263 | Every action keeps the accounting |
| Budget.Contract.HandOver | contracts/eosio.budget/src/eosio.budget.cpp:14-31 | handover replaces the committee |
| Budget.Contract.ProposeMotion | contracts/eosio.budget/src/eosio.budget.cpp:33-68 | propose with its pledge check, both rows and the missing committee |
| Budget.Contract.ApproveMotion | contracts/eosio.budget/src/eosio.budget.cpp:70-97 | approve moves the vote and passes the motion at the quorum |
| Budget.Contract.UnapproveMotion | contracts/eosio.budget/src/eosio.budget.cpp:99-126 | unapprove moves the vote and rejects at the quorum, in any section |
| Budget.Contract.ProposeCoin | contracts/eosio.budget/src/eosio.budget.cpp:128-161 | takecoin with all its checks on the motion |
| Budget.Contract.ApproveCoin | contracts/eosio.budget/src/eosio.budget.cpp:163-203 | agreecoin, and the payment at the quorum; if the motion or the transfer fails, nothing is changed |
| Budget.Contract.UnapproveCoin | contracts/eosio.budget/src/eosio.budget.cpp:205-229 | unagreecoin |
| Budget.Contract.TurnMotionDown | contracts/eosio.budget/src/eosio.budget.cpp:231-240 | turndown |
| Budget.Contract.Close | contracts/eosio.budget/src/eosio.budget.cpp:242-254 | closemotion erases both rows or nothing |
| Budget.Contract.CloseCoinVote | contracts/eosio.budget/src/eosio.budget.cpp:256-263 | closecoin |
| Freeze.FreezeLifecycle | contracts/eosio.freeze/src/eosio.freeze.cpp:93-196 | From any reachable state in which a list is locked up to its activation: afterwards, for ever, the frozen accounts are exactly those on the list when it was locked less those that left, and all who left had confirmed before the activation |
| Freeze.SizesAndActivation | contracts/eosio.freeze/src/eosio.freeze.cpp:8-148 | In every run each recorded size is the length of its list and at most one list is activated |
| Freeze.FrozenForGood | contracts/eosio.freeze/src/eosio.freeze.cpp:150-196 | An account on the activated list that had not confirmed stays frozen, and over any interleaving of both contracts its available balance never falls |
| Freeze.ActivatedFor | contracts/eosio.freeze/src/eosio.freeze.cpp:168-196 | An activated list only loses accounts that were confirmed at the activation |
| Freeze.LockedListIsKept | contracts/eosio.freeze/src/eosio.freeze.cpp:93-123 | A locked list does not change while it stays locked |
| Freeze.StepKeeps | contracts/eosio.freeze/src/eosio.freeze.cpp:8-196 | Every action keeps the invariant of the lists |
| Freeze.ListsMove | contracts/eosio.freeze/src/eosio.freeze.cpp:8-196 | Which accounts each accepted action puts on or takes off whose list; every other list stays as it is |
| Freeze.ConfirmedMove | contracts/eosio.freeze/src/eosio.freeze.cpp:150-196 | An account becomes confirmed by its own confirmact and ceases to be by its own actconfirmed, and in no other way |
| Freeze.ListsAreEntitled | contracts/eosio.freeze/src/eosio.freeze.cpp:8-196 | A list changes by its committer while it is committing, by at most 256 accounts more at a time, or, once activated, by a confirmed account that takes itself off |
| Freeze.StagesAreEntitled | contracts/eosio.freeze/src/eosio.freeze.cpp:93-148 | The committer locks, the system contract unlocks and activates, only a locked list and only if none is active, and an active list stays active |
| Freeze.Contract.AddFreezed | contracts/eosio.freeze/src/eosio.freeze.cpp:8-56 | addfreezed adds the accounts not yet on the list and counts exactly those |
| Freeze.Contract.AddRows | contracts/eosio.freeze/src/eosio.freeze.cpp:30-39 | The loop adds the missing accounts; added is the growth of the list |
| Freeze.Contract.DelFreezed | contracts/eosio.freeze/src/eosio.freeze.cpp:59-90 | delfreezed takes one account off |
| Freeze.Contract.LockFreezed | contracts/eosio.freeze/src/eosio.freeze.cpp:93-123 | lockfreezed in both directions |
| Freeze.Contract.ActFreezed | contracts/eosio.freeze/src/eosio.freeze.cpp:126-148 | actfreezed activates a locked list once and for all |
| Freeze.Contract.ConfirmAct | contracts/eosio.freeze/src/eosio.freeze.cpp:151-165 | confirmact, only before an activation |
| Freeze.Contract.ActConfirmed | contracts/eosio.freeze/src/eosio.freeze.cpp:168-196 | actconfirmed takes a confirmed account off the activated list |
| SystemContract.System.TransferTo | contracts/eosio.system/src/transfer.cpp:7-34 | transfer succeeds exactly when the modelled checks hold and leaves exactly the modelled tables, also from an account to itself |
| SystemContract.System.VoteByTyp | contracts/eosio.system/src/vote.cpp:10-72 | The body shared by vote and vote4ram: new and existing rows, raised, lowered and unchanged stakes |
| SystemContract.System.VotedRow | contracts/eosio.system/src/vote.cpp:24-50 | The voter's row and the change |
| SystemContract.System.VoteOn | contracts/eosio.system/src/vote.cpp:149-153 | vote |
| SystemContract.System.Vote4Ram | contracts/eosio.system/src/vote.cpp:159-178 | vote4ram with the account's sum |
| SystemContract.System.MoveVote | contracts/eosio.system/src/vote.cpp:75-123 | revote; what it moves is `VoteEffects.RevoteMoves` |
| SystemContract.System.UnfreezeByTyp | contracts/eosio.system/src/vote.cpp:126-146 | unfreeze and unfreezeram |
| SystemContract.System.ClaimReward | contracts/eosio.system/src/vote.cpp:184-242 | claim; a failed check puts the cleaned rows back; what it pays is `VoteClaims.ClaimPays` |
| SystemContract.System.ClaimFixVotes | contracts/eosio.system/src/vote.cpp:209-223 | The loop over the voter's fix-time votes on the producer adds their ages, cleans the rows and erases the withdrawn ones |
| SystemContract.System.LockVote | contracts/eosio.system/src/vote.cpp:246-323 | votefix from the account or from unstaking tokens |
| SystemContract.System.TakeStake | contracts/eosio.system/src/vote.cpp:271-295 | Where the stake of a fix-time vote is taken from |
| SystemContract.System.MoveFixVote | contracts/eosio.system/src/vote.cpp:325-368 | revotefix |
| SystemContract.System.TakeOutFixVote | contracts/eosio.system/src/vote.cpp:371-415 | outfixvote |
| SystemContract.System.MakeVotestat | contracts/eosio.system/include/eosio.system.hpp:419-444 | The row of the global stake is found, or created with the sum over the producers |
| SystemContract.System.Register | contracts/eosio.system/src/producer.cpp:9-32 | updatebp |
| SystemContract.System.Ban | contracts/eosio.system/src/producer.cpp:72-86 | removebp |
| SystemContract.System.ClaimBp | contracts/eosio.system/src/producer.cpp:88-130 | bpclaim on pool, monitor, own rewards and account at once, or on none of them |
| SystemContract.System.RewardOne | contracts/eosio.system/src/onblock.cpp:216-242 | One producer's reward and its voters'; how much each is, is `Issuance.IssuePays` |
| SystemContract.System.RewardEach | contracts/eosio.system/src/onblock.cpp:184-243 | The loop over the producers with all its tests: banned, stake, commission, heartbeat, pledge, punished; the sum it keeps is what was handed out |
| SystemContract.System.RewardBps | contracts/eosio.system/src/onblock.cpp:164-253 | reward_bps, aborting only without a budget account |
| SystemContract.System.IssuePart | contracts/eosio.system/src/onblock.cpp:59-66 | The row of the global stake, the heartbeat of the block's producer and the rewards, or none of them |
| SystemContract.WhoMayEarn | contracts/eosio.system/src/onblock.cpp:189-214 | Of any heartbeats in order: a producer may earn in a block if and only if it is registered, makes the block or made a recent enough heartbeat, has enough pledged and is not punished, each once it counts |
| SystemContract.ProducerIsAlive | contracts/eosio.system/src/onblock.cpp:62-63 | The producer of a block fails no heartbeat test in it: only pledge or punishment can keep it from earning |
| SystemContract.AliveIfRecent | contracts/eosio.system/src/onblock.cpp:200-204 | Over any sequence of heartbeats a producer passes the test if and only if one of them is its own and recent enough |
| SystemContract.System.FindEnds | contracts/eosio.system/src/onblock.cpp:282-291 | The indices of the first and the last standard producer |
| SystemContract.System.CalDrainNum | contracts/eosio.system/src/onblock.cpp:415-431 | cal_drain_num as it computes, with the cut where the unsigned comparison puts it |
| SystemContract.System.IsReward | contracts/eosio.system/src/onblock.cpp:396-413 | is_reward_block |
| SystemContract.System.SettleOne | contracts/eosio.system/src/onblock.cpp:334-377 | One pass of the loop of reward_block over a monitor; what that earns over a run is `Earnings.EarningsAreKept` |
| SystemContract.System.NoteDrain | contracts/eosio.system/src/onblock.cpp:327-333 | The row it may add to the drain log |
| SystemContract.System.RewardBlock | contracts/eosio.system/src/onblock.cpp:275-394 | reward_block with an existing row: all monitors, the drain log, the row and the fines |
| SystemContract.System.RewardPart | contracts/eosio.system/src/onblock.cpp:53-55 | The reward part of a block, with the creation of the row |
| SystemContract.System.NoteSchedule | contracts/eosio.system/src/onblock.cpp:26-51 | The schedule's row, new or found, and the producer's amount before the block |
| SystemContract.System.CountBlock | contracts/eosio.system/src/onblock.cpp:77-105 | The ring and the producer's amount |
| SystemContract.System.ElectIfDue | contracts/eosio.system/src/onblock.cpp:68-75 | The election every 115 blocks, once updates are open |
| SystemContract.System.OnBlock | contracts/eosio.system/src/onblock.cpp:11-106 | onblock on all tables: monitoring, drain log, row of the global stake, heartbeat, issuance, election, ring; nothing if issuance aborts or there are fewer than 23 producers |
| SystemContract.System.ProposePunish | contracts/eosio.system/src/bppunish.cpp:10-33 | punishbp |
| SystemContract.System.ApprovePunish | contracts/eosio.system/src/bppunish.cpp:35-122 | approvebp and the execution it may trigger, with the rewarders sent to dealreward; who gets what of it is `Penalties.PenaltyInRuns` |
| SystemContract.System.Bail | contracts/eosio.system/src/bppunish.cpp:63-74 | bailpunish |
| SystemContract.System.Remove | contracts/eosio.system/src/bppunish.cpp:182-198 | removepunish, its recency test answered by the ring |
| SystemContract.System.LastVersion | contracts/eosio.system/src/bppunish.cpp:125-126 | The last row of the schedules table |
| Punishment.LatestIsInForce | contracts/eosio.system/src/bppunish.cpp:125-126 | In every state with the counting invariant it is the schedule in force |
| SystemContract.System.IsSuperBp | contracts/eosio.system/src/bppunish.cpp:124-134 | The search in the latest schedule |
| SystemContract.System.CountSupers | contracts/eosio.system/src/bppunish.cpp:82-87 | The approvals that count, each looked up in the latest schedule |

## Left out

- Integer widths: amounts, ages and heights are unbounded; the 32-bit wrap-around of the budget's part and the unsigned comparison of the drain cut are modelled, and the first is proved not to occur.
- Double rounding: the two `double` quotients in `reward_bps` are exact floors of rationals.
- Rows are values that a method replaces whole in a map field; iterators that stay valid across writes are not modelled. `assetage` and `bp_info` are therefore datatypes with update functions, not classes.
- Election slots: the source reads past the end of its vector for an empty slot; the model lets an empty slot accept any candidate.
- Table order: `claim` and `reward_bps` visit rows in no particular order; the proofs hold for every order. The keys of new fix-time votes, motions and coins are inputs, and an occupied key aborts.
- Runs without the row of the global stake: `StakeRow` proves what depends on it, ages, claims, minting and the row itself; the other run theorems start with the row in place.
- `setemergency` and the chain status; the time a heartbeat claims, which the source does not use either.
- `monitorevise`, `drainblock_revise`, `amendpledge`, `updateconfig` and configuration changes during a run: administrative repairs that overwrite state.
- RAM limits, permissions beyond the signer, memos other than the pledge type, URLs, keys and recipients' notifications.
- Symbols: core amounts only in the ledger; pledges and motions carry a symbol, and their transfers abort unless it is the core one.
- Fees taken by the host (`onfee`, `voteagefee`) are not part of this model.
- Inline actions run at once and with the sender; the pledge contract's state at `exec_punish_bp` is an input.
- `eosio.token`, `eosio.msig`, `eosio.lock`, `native` and the tools and scripts of the repository: standard or without state of their own.
